/** The run of a whole graph as functions from engine state to engine state: the atom, the batch paths,
    the barrier and the driver. The classes of module Conducting are proved equal to these. */
module Engine {
  import opened AgyTypes
  import opened Budget
  import opened Scheduling
  import opened Dag
  import opened Checkpointing
  import opened Dispatching

  /** `journal` is absent when the run has no checkpoint. The order of blockers is abstracted away. */
  datatype RunState = RunState(
    states: States,
    entries: Entries,
    results: map<NodeId, Envelope>,
    keys: map<NodeId, Key>,
    blockers: multiset<Blocker>,
    reviewer: string,
    closer: string,
    stopped: bool,
    journal: Option<Rows>,
    attempts: seq<Attempt>,
    refused: bool,
    fault: bool)

  function Initial(w: Setup, reviewer: string, closer: string, journal: Option<Rows>): RunState {
    RunState(map id | id in IdSet(w.nodes) :: FRESH, map[], map[], map[], multiset{}, reviewer, closer, false, journal, [], false, false)
  }

  /** Every node has a state. */
  ghost predicate Shaped(w: Setup, s: RunState) {
    s.states.Keys == IdSet(w.nodes)
  }

  // ---- the atom ----

  function LedgerKeyOf(w: Setup, id: NodeId): LedgerKey {
    (w.epoch.seqNo, id)
  }

  // Ids always come from the graph; the lookups below are total so that the functions need no preconditions.

  function NodeOf(w: Setup, id: NodeId): NodeSpec {
    var byId := NodesById(w.nodes);
    if id in byId then byId[id] else NodeSpec(id, "", [], [], Caps(0, 0), 0, [], "")
  }

  function StateOf(s: RunState, id: NodeId): Runtime {
    if id in s.states then s.states[id] else FRESH
  }

  function KeyOf(s: RunState, id: NodeId): Key {
    if id in s.keys then s.keys[id] else ""
  }

  /** The first dependency, in order, whose artifact has the name. */
  function FirstWith(name: string, deps: seq<NodeId>, results: map<NodeId, Envelope>): Option<string> {
    if deps == [] then None
    else if deps[0] in results && name in results[deps[0]].artifact then Some(results[deps[0]].artifact[name])
    else FirstWith(name, deps[1..], results)
  }

  /** The declared inputs that some committed dependency provides. */
  function InputsUpTo(node: NodeSpec, results: map<NodeId, Envelope>, i: nat): map<string, string>
    requires i <= |node.inputs|
  {
    if i == 0 then map[]
    else
      var rest := InputsUpTo(node, results, i - 1);
      var found := FirstWith(node.inputs[i - 1], node.dependencies, results);
      if found.Some? then rest[node.inputs[i - 1] := found.value] else rest
  }

  function ResolveInputs(node: NodeSpec, results: map<NodeId, Envelope>): map<string, string> {
    InputsUpTo(node, results, |node.inputs|)
  }

  function DepResults(node: NodeSpec, results: map<NodeId, Envelope>): map<NodeId, Envelope> {
    map d | d in results && d in node.dependencies :: results[d]
  }

  /** A journaled row of the same key carries the node's budget and retries forward; otherwise it starts clean. */
  function Restored(node: NodeSpec, key: Key, rt: Runtime, journal: Option<Rows>): Runtime {
    if journal.Some? && node.id in journal.value && journal.value[node.id].key == key then
      var row := journal.value[node.id];
      rt.(consumed := row.consumed, remainingRetries := row.remainingRetries, attempt := row.attempt)
    else
      rt.(consumed := ZERO, remainingRetries := node.maxSchemaRetries, attempt := 0)
  }

  /** A usable cache hit: a committed terminal row of the current epoch. */
  function CacheHit(w: Setup, key: Key, journal: Option<Rows>): Option<Row> {
    if journal.None? then None
    else
      var hit := LookupIn(w.select, journal.value, key, w.epoch.id);
      if hit.Some? && hit.value.envelope.Some? && hit.value.status in {Succeeded, Failed} then hit else None
  }

  function Adopted(rt: Runtime, row: Row): Runtime {
    rt.(status := row.status, attempt := row.attempt, remainingRetries := row.remainingRetries,
        consumed := row.consumed, errorClass := if row.envelope.Some? then row.envelope.value.errorClass else NoError)
  }

  function LocalOf(w: Setup, s: RunState, id: NodeId): Local
  {
    Local(StateOf(s, id), Own(s.entries, LedgerKeyOf(w, id)), s.reviewer, s.closer, [], [], false, false)
  }

  /** The engine state after the node-local state `l` is written back. */
  function Merge(w: Setup, s: RunState, id: NodeId, l: Local): RunState {
    s.(states := s.states[id := l.rt],
       entries := if l.own.Some? then s.entries[LedgerKeyOf(w, id) := l.own.value] else s.entries,
       reviewer := l.reviewer,
       closer := l.closer,
       blockers := s.blockers + multiset(l.blockers),
       attempts := s.attempts + l.attempts,
       refused := s.refused || l.refused,
       fault := s.fault || l.fault)
  }

  ghost function JobOf(w: Setup, s: RunState, id: NodeId): Job
  {
    Job(w, NodeOf(w, id), KeyOf(s, id), DepResults(NodeOf(w, id), s.results), Some(Others(s.entries, LedgerKeyOf(w, id))))
  }

  function Recorded(w: Setup, s: RunState, id: NodeId, l: Local, env: Envelope): RunState {
    Merge(w, s, id, l).(results := s.results[id := env])
  }

  ghost function Dispatched(w: Setup, s: RunState, id: NodeId): RunState
  {
    var (l, env) := Dispatch(JobOf(w, s, id), LocalOf(w, s, id));
    if env.None? then Merge(w, s, id, l).(stopped := true) else Recorded(w, s, id, l, env.value)
  }

  /** Ready-time key and restored runtime. */
  function Keyed(w: Setup, s: RunState, id: NodeId): RunState
  {
    var node := NodeOf(w, id);
    var key := w.keyOf(node, ResolveInputs(node, s.results));
    s.(keys := s.keys[id := key], states := s.states[id := Restored(node, key, StateOf(s, id), s.journal)])
  }

  /** Serves a node from the journal: no attempt, any open reservation released. */
  function Served(w: Setup, s: RunState, id: NodeId, row: Row): RunState
    requires row.envelope.Some?
  {
    s.(entries := ReleaseAt(s.entries, LedgerKeyOf(w, id)),
       states := s.states[id := Adopted(StateOf(s, id), row)],
       results := s.results[id := row.envelope.value],
       blockers := if row.status == Failed
                   then s.blockers + multiset{Blocker(id, "node failed (cached)", ErrorName(row.envelope.value.errorClass))}
                   else s.blockers)
  }

  ghost function Agent(w: Setup, s: RunState, id: NodeId): RunState
  {
    var keyed := Keyed(w, s, id);
    var hit := CacheHit(w, KeyOf(keyed, id), keyed.journal);
    if hit.Some? then Served(w, keyed, id, hit.value) else Dispatched(w, keyed, id)
  }

  /** The batch one node at a time, up to a budget stop. */
  ghost function Agents(w: Setup, s: RunState, batch: seq<NodeId>): RunState
    decreases |batch|
  {
    if batch == [] then s
    else
      var next := Agent(w, s, batch[0]);
      if next.stopped then next else Agents(w, next, batch[1..])
  }

  // ---- one invocation for a batch of review roles ----

  predicate RoutesToCodex(adapter: string) {
    adapter in {"codex", ""}
  }

  predicate CanBatch(w: Setup, s: RunState, batch: seq<NodeId>)
  {
    && s.journal.None? && |batch| >= 2
    && forall id :: id in batch ==>
         IsReview(NodeOf(w, id)) && RoutesToCodex(AdapterFor(NodeOf(w, id), s.reviewer, s.closer))
  }

  /** Reserves and starts a node of the batch, or blocks it. */
  function Started(job: Job, l: Local): (Admission, Local) {
    var (admission, r) := ReserveAttempt(job, Marked(l, Ready));
    if admission != Admitted then
      (admission, Dispatching.Blocked(r, job.node.id, "budget exhausted before dispatch", ReasonName(admission)))
    else
      (admission, Counted(Marked(Marked(r, NodeStatus.Reserved), Running)))
  }

  /** Charges a node of the batch and ends it. */
  function EndedBy(job: Job, l: Local, env: Envelope): Local {
    var charged := Charged(job, l, ByBatch, env, Exact);
    var erred := charged.(rt := charged.rt.(errorClass := env.errorClass));
    if Classify(env).None? then Marked(erred, Succeeded)
    else Dispatching.Blocked(Marked(erred, Failed), job.node.id, "node failed", ErrorName(env.errorClass))
  }

  /** Key, reserve and start one node of the batch. */
  ghost function PrepareOne(w: Setup, s: RunState, id: NodeId): (Admission, RunState) {
    var keyed := Keyed(w, s, id);
    var (admission, l) := Started(JobOf(w, keyed, id), LocalOf(w, keyed, id));
    (admission, Merge(w, keyed, id, l))
  }

  function ReleaseMany(w: Setup, entries: Entries, ids: seq<NodeId>): Entries {
    if ids == [] then entries
    else ReleaseAt(ReleaseMany(w, entries, ids[..|ids| - 1]), LedgerKeyOf(w, ids[|ids| - 1]))
  }

  /** Starts the batch from position `i`; a refusal rolls back every reservation taken before it. */
  ghost function Prepare(w: Setup, s: RunState, batch: seq<NodeId>, i: nat): (bool, RunState)
    requires i <= |batch|
    decreases |batch| - i
  {
    if i == |batch| then (true, s)
    else
      var (admission, next) := PrepareOne(w, s, batch[i]);
      if admission == Admitted then Prepare(w, next, batch, i + 1)
      else (false, next.(entries := ReleaseMany(w, next.entries, batch[..i]), stopped := true))
  }

  function MissingEnvelope(id: NodeId, key: Key): Envelope {
    Envelope(id, key, EnvFailed, 0, "scripted", SchemaInvalid, None, map["missing_batch_result" := id], 0, 0, 0.0)
  }

  function BatchEnvelope(envelopes: map<NodeId, Envelope>, id: NodeId, key: Key): Envelope {
    if id in envelopes then envelopes[id] else MissingEnvelope(id, key)
  }

  /** Charges one node of the batch and ends it. */
  ghost function CommitOne(w: Setup, s: RunState, envelopes: map<NodeId, Envelope>, id: NodeId): RunState
  {
    var job, l := JobOf(w, s, id), LocalOf(w, s, id);
    var env := Stamped(job, l, BatchEnvelope(envelopes, id, KeyOf(s, id)));
    Recorded(w, s, id, EndedBy(job, l, env), env)
  }

  ghost function CommitMany(w: Setup, s: RunState, envelopes: map<NodeId, Envelope>, batch: seq<NodeId>): RunState
    decreases |batch|
  {
    if batch == [] then s else CommitMany(w, CommitOne(w, s, envelopes, batch[0]), envelopes, batch[1..])
  }

  function NodesOf(w: Setup, batch: seq<NodeId>): seq<NodeSpec>
  {
    seq(|batch|, i requires 0 <= i < |batch| => NodeOf(w, batch[i]))
  }

  ghost function ReviewBatch(w: Setup, s: RunState, batch: seq<NodeId>): RunState
  {
    var (ok, prepared) := Prepare(w, s, batch, 0);
    if !ok then prepared else CommitMany(w, prepared, w.runBatch(NodesOf(w, batch)), batch)
  }

  // ---- the barrier ----

  function SkipBlockers(skipped: set<NodeId>, failed: NodeId): multiset<Blocker> {
    multiset(set x | x in skipped :: Blocker(x, "skipped: upstream dependency failed", failed))
  }

  /** Skips the transitive dependents of one failed node. */
  ghost function SkipFrom(w: Setup, s: RunState, failed: NodeId): RunState {
    var skipped := SkipSet(DepsOf(w.nodes), s.states, failed);
    s.(states := SkipAll(s.states, skipped), blockers := s.blockers + SkipBlockers(skipped, failed))
  }

  ghost function SkipFailed(w: Setup, s: RunState, batch: seq<NodeId>): RunState
    decreases |batch|
  {
    if batch == [] then s
    else SkipFailed(w, if HasStatus(s.states, batch[0], Failed) then SkipFrom(w, s, batch[0]) else s, batch[1..])
  }

  predicate Journalable(s: RunState, id: NodeId) {
    id in s.states && id in s.keys && id in s.results && s.states[id].status in {Succeeded, Failed}
  }

  function RowOf(w: Setup, s: RunState, id: NodeId): Row
    requires Journalable(s, id)
  {
    var rt := s.states[id];
    Row(id, s.keys[id], w.epoch, rt.status, rt.attempt, rt.remainingRetries, rt.consumed, Some(s.results[id]))
  }

  /** The rows of the batch's committed terminal nodes, in batch order. */
  function RowsOf(w: Setup, s: RunState, batch: seq<NodeId>): seq<Row> {
    if batch == [] then []
    else
      var last := batch[|batch| - 1];
      RowsOf(w, s, batch[..|batch| - 1]) + if Journalable(s, last) then [RowOf(w, s, last)] else []
  }

  function Journaled(w: Setup, s: RunState, batch: seq<NodeId>): RunState {
    if s.journal.None? || RowsOf(w, s, batch) == [] then s
    else if Malformed(RowsOf(w, s, batch)) then s.(fault := true)
    else s.(journal := Some(Written(s.journal.value, RowsOf(w, s, batch))))
  }

  /** Dispatch, join, skip, journal. */
  ghost function Barrier(w: Setup, s: RunState, batch: seq<NodeId>): RunState
  {
    var ran := if CanBatch(w, s, batch) then ReviewBatch(w, s, batch) else Agents(w, s, batch);
    Journaled(w, SkipFailed(w, ran, batch), batch)
  }

  /** The ready nodes of the next barrier, cut to the cap. */
  function Batch(w: Setup, cap: int, s: RunState): seq<NodeId> {
    var ready := ReadySet(w.nodes, s.states);
    var most := if cap > 1 then cap else 1;
    if |ready| <= most then ready else ready[..most]
  }
}
