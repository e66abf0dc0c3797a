/** Runs with the exceptions that leave them: a key that cannot be computed, and a row the journal refuses. */
module RaisingRuns {
  import opened AgyTypes
  import opened Budget
  import opened Scheduling
  import opened Dag
  import opened Checkpointing
  import opened Dispatching
  import opened DispatchTheorems
  import opened Engine
  import opened EngineInvariants
  import opened EngineRun
  import opened EngineOutcome
  import opened EngineRaises
  import opened EngineTheorems
  import opened RefusalTheorems
  import opened SuccessRuns
  import Sorting

  /** Whether the key of a node can be computed from the inputs it resolved. */
  type KeyCheck = (NodeSpec, map<string, string>) -> bool

  predicate Keyable(w: Setup, check: KeyCheck, s: RunState, id: NodeId) {
    check(NodeOf(w, id), ResolveInputs(NodeOf(w, id), s.results))
  }

  // ---- runs that may raise: `None` is an exception that leaves the run ----

  ghost function AgentsOr(w: Setup, check: KeyCheck, s: RunState, batch: seq<NodeId>): Option<RunState>
    decreases |batch|
  {
    if batch == [] then Some(s)
    else if !Keyable(w, check, s, batch[0]) then None
    else
      var next := Agent(w, s, batch[0]);
      if next.stopped then Some(next) else AgentsOr(w, check, next, batch[1..])
  }

  ghost function PrepareOr(w: Setup, check: KeyCheck, s: RunState, batch: seq<NodeId>, i: nat): Option<(bool, RunState)>
    requires i <= |batch|
    decreases |batch| - i
  {
    if i == |batch| then Some((true, s))
    else if !Keyable(w, check, s, batch[i]) then None
    else
      var (admission, next) := PrepareOne(w, s, batch[i]);
      if admission == Admitted then PrepareOr(w, check, next, batch, i + 1)
      else Some((false, next.(entries := ReleaseMany(w, next.entries, batch[..i]), stopped := true)))
  }

  ghost function ReviewBatchOr(w: Setup, check: KeyCheck, s: RunState, batch: seq<NodeId>): Option<RunState> {
    var prepared := PrepareOr(w, check, s, batch, 0);
    if prepared.None? then None
    else
      var (ok, p) := prepared.value;
      Some(if ok then CommitMany(w, p, w.runBatch(NodesOf(w, batch)), batch) else p)
  }

  ghost function JoinedOr(w: Setup, check: KeyCheck, s: RunState, batch: seq<NodeId>): Option<RunState> {
    if CanBatch(w, s, batch) then ReviewBatchOr(w, check, s, batch) else AgentsOr(w, check, s, batch)
  }

  ghost function BarrierOr(w: Setup, check: KeyCheck, s: RunState, batch: seq<NodeId>): Option<RunState> {
    var joined := JoinedOr(w, check, s, batch);
    if joined.None? then None
    else
      var r := Journaled(w, SkipFailed(w, joined.value, batch), batch);
      if r.fault then None else Some(r)
  }

  ghost function RunOr(w: Setup, check: KeyCheck, cap: int, s: RunState): Option<RunState>
    requires WellFormed(w.nodes) && Sane(w, s) && !s.stopped
    decreases PendingCount(s)
  {
    if AllTerminal(s.states) || Batch(w, cap, s) == [] then Some(s)
    else
      RunUnfolds(w, cap, s);
      BarrierOrIs(w, check, s, Batch(w, cap, s));
      var next := BarrierOr(w, check, s, Batch(w, cap, s));
      if next.None? || next.value.stopped then next else RunOr(w, check, cap, next.value)
  }

  // ---- a run that returns is the run the other theorems speak about ----

  lemma {:induction false} AgentsOrIs(w: Setup, check: KeyCheck, s: RunState, batch: seq<NodeId>)
    ensures AgentsOr(w, check, s, batch).Some? ==> AgentsOr(w, check, s, batch).value == Agents(w, s, batch)
    decreases |batch|
  {
    hide Agent, Keyable;
    if batch != [] {
      AgentsOrIs(w, check, Agent(w, s, batch[0]), batch[1..]);
    }
  }

  lemma {:induction false} PrepareOrIs(w: Setup, check: KeyCheck, s: RunState, batch: seq<NodeId>, i: nat)
    requires i <= |batch|
    ensures PrepareOr(w, check, s, batch, i).Some? ==> PrepareOr(w, check, s, batch, i).value == Prepare(w, s, batch, i)
    decreases |batch| - i
  {
    hide PrepareOne, Keyable;
    if i < |batch| {
      PrepareOrIs(w, check, PrepareOne(w, s, batch[i]).1, batch, i + 1);
    }
  }

  lemma JoinedOrIs(w: Setup, check: KeyCheck, s: RunState, batch: seq<NodeId>)
    ensures JoinedOr(w, check, s, batch).Some? ==> JoinedOr(w, check, s, batch).value == Joined(w, s, batch)
  {
    hide AgentsOr, PrepareOr, Agents, Prepare, CanBatch, CommitMany;
    AgentsOrIs(w, check, s, batch);
    PrepareOrIs(w, check, s, batch, 0);
  }

  lemma BarrierOrIs(w: Setup, check: KeyCheck, s: RunState, batch: seq<NodeId>)
    ensures var r := BarrierOr(w, check, s, batch); r.Some? ==> r.value == Barrier(w, s, batch) && !r.value.fault
    ensures JoinedOr(w, check, s, batch).Some? && !Barrier(w, s, batch).fault ==> BarrierOr(w, check, s, batch).Some?
  {
    hide JoinedOr, Joined, Barrier, SkipFailed, Journaled;
    JoinedOrIs(w, check, s, batch);
    BarrierParts(w, s, batch);
  }

  /** One turn of a run that may raise. */
  lemma RunOrUnfolds(w: Setup, check: KeyCheck, cap: int, s: RunState)
    requires WellFormed(w.nodes) && Sane(w, s) && !s.stopped
    ensures var batch := Batch(w, cap, s);
            var next := BarrierOr(w, check, s, batch);
            if AllTerminal(s.states) || batch == [] then RunOr(w, check, cap, s) == Some(s)
            else if next.None? || next.value.stopped then RunOr(w, check, cap, s) == next
            else Sane(w, next.value) && RunOr(w, check, cap, s) == RunOr(w, check, cap, next.value)
  {
    hide Batch, BarrierOr, Barrier, Sane, AllTerminal, WellFormed, PendingCount;
    if !(AllTerminal(s.states) || Batch(w, cap, s) == []) {
      RunUnfolds(w, cap, s);
      BarrierOrIs(w, check, s, Batch(w, cap, s));
    }
  }

  /** A run that returns ends where the run without the key check ends; every theorem about that one applies. */
  lemma {:induction false} RunOrIsRun(w: Setup, check: KeyCheck, cap: int, s: RunState)
    requires WellFormed(w.nodes) && Sane(w, s) && !s.stopped
    ensures var r := RunOr(w, check, cap, s); r.Some? ==> r.value == Run(w, cap, s) && !r.value.fault
    decreases PendingCount(s)
  {
    hide Sane, Barrier, BarrierOr, Batch, AllTerminal, PendingCount, Run, RunOr, WellFormed;
    RunUnfolds(w, cap, s);
    RunOrUnfolds(w, check, cap, s);
    SaneHasNoFault(w, s);
    if !(AllTerminal(s.states) || Batch(w, cap, s) == []) {
      BarrierOrIs(w, check, s, Batch(w, cap, s));
      var next := BarrierOr(w, check, s, Batch(w, cap, s));
      if next.Some? && !next.value.stopped {
        RunOrIsRun(w, check, cap, next.value);
      }
    }
  }

  // ---- graphs on which no run raises ----

  ghost predicate AllKeyable(w: Setup, check: KeyCheck) {
    forall n, m :: n in w.nodes ==> check(n, m)
  }

  lemma SafeIsKeyable(w: Setup, check: KeyCheck, s: RunState, id: NodeId)
    requires AllKeyable(w, check) && id in IdSet(w.nodes)
    ensures Keyable(w, check, s, id)
  {
  }

  lemma {:induction false} SafeAgents(w: Setup, check: KeyCheck, s: RunState, batch: seq<NodeId>)
    requires AllKeyable(w, check) && forall id :: id in batch ==> id in IdSet(w.nodes)
    ensures AgentsOr(w, check, s, batch).Some?
    decreases |batch|
  {
    hide Agent, Keyable, AllKeyable, IdSet;
    if batch != [] {
      SafeIsKeyable(w, check, s, batch[0]);
      SafeAgents(w, check, Agent(w, s, batch[0]), batch[1..]);
    }
  }

  lemma {:induction false} SafePrepare(w: Setup, check: KeyCheck, s: RunState, batch: seq<NodeId>, i: nat)
    requires AllKeyable(w, check) && i <= |batch| && forall id :: id in batch ==> id in IdSet(w.nodes)
    ensures PrepareOr(w, check, s, batch, i).Some?
    decreases |batch| - i
  {
    hide PrepareOne, Keyable, AllKeyable, IdSet;
    if i < |batch| {
      SafeIsKeyable(w, check, s, batch[i]);
      SafePrepare(w, check, PrepareOne(w, s, batch[i]).1, batch, i + 1);
    }
  }

  lemma {:induction false} SafeRun(w: Setup, check: KeyCheck, cap: int, s: RunState)
    requires WellFormed(w.nodes) && Sane(w, s) && !s.stopped && AllKeyable(w, check)
    requires "" !in IdSet(w.nodes) || s.journal.None?
    ensures RunOr(w, check, cap, s).Some?
    decreases PendingCount(s)
  {
    hide Sane, Barrier, BarrierOr, Batch, AllTerminal, PendingCount, RunOr, WellFormed, AllKeyable, IdSet, AgentsOr, PrepareOr, CanBatch, Run;
    RunOrUnfolds(w, check, cap, s);
    RunUnfolds(w, cap, s);
    if !(AllTerminal(s.states) || Batch(w, cap, s) == []) {
      var batch := Batch(w, cap, s);
      BatchIsReady(w, cap, s);
      SafeAgents(w, check, s, batch);
      SafePrepare(w, check, s, batch, 0);
      BarrierOrIs(w, check, s, batch);
      BarrierSane(w, s, batch);
      var next := BarrierOr(w, check, s, batch);
      if next.Some? && !next.value.stopped {
        SafeRun(w, check, cap, next.value);
      }
    }
  }

  // ---- a run that comes to every node ----

  function MostEst(nodes: seq<NodeSpec>): nat {
    if nodes == [] then 0
    else
      var rest, own := MostEst(nodes[1..]), Est(nodes[0]);
      if rest > own then rest else own
  }

  lemma {:induction false} MostEstCovers(nodes: seq<NodeSpec>, n: NodeSpec)
    requires n in nodes
    ensures Est(n) <= MostEst(nodes)
  {
    if n != nodes[0] {
      MostEstCovers(nodes[1..], n);
    }
  }

  /** Adapters that succeed for nothing, and a limit that holds any one reservation. */
  function FreeSetup(nodes: seq<NodeSpec>, select: Selector): Setup {
    Setup(nodes, Epoch(0, ""), Dims(MostEst(nodes), 0.0), 1, (n: NodeSpec, i) => n.id,
      (n: NodeSpec, i) => Envelope("", "", EnvSucceeded, 0, "scripted", NoError, None, map[], 0, 0, 0.0),
      (batch: seq<NodeSpec>) => map[], (n, a, d) => Exact, e => Exact, None, select)
  }

  ghost predicate Free(w: Setup) {
    Succeeding(w, n => 0) && w.limit.usd >= 0.0 && forall n :: n in w.nodes ==> Est(n) <= w.limit.tokens
  }

  lemma FreeSetupIsFree(nodes: seq<NodeSpec>, select: Selector)
    ensures Free(FreeSetup(nodes, select))
  {
    forall n | n in nodes ensures Est(n) <= MostEst(nodes) {
      MostEstCovers(nodes, n);
    }
  }

  predicate FreeRow(row: Row) {
    row.status == Succeeded && row.consumed.tokens == 0 && row.envelope.Some? && row.envelope.value.artifact == map[]
  }

  predicate FreeNode(s: RunState, id: NodeId) {
    id in s.states && s.states[id].status in {Pending, Succeeded} && s.states[id].consumed.tokens == 0
  }

  ghost predicate FreeRows(journal: Option<Rows>) {
    journal.Some? ==> forall id :: id in journal.value ==> FreeRow(journal.value[id])
  }

  /** Nothing spent, nothing failed, every artifact empty, and every ended node one whose key can be computed. */
  ghost predicate FreeState(w: Setup, check: KeyCheck, s: RunState) {
    && Sane(w, s) && !s.stopped && Spent(s.entries) == ZERO
    && (forall id :: id in s.states ==> FreeNode(s, id))
    && (forall id :: id in s.results ==> s.results[id].artifact == map[])
    && FreeRows(s.journal)
    && (forall id :: Ended(s, id) ==> Vetted(w, check, id))
  }

  /** The node's key can be computed from no input at all. */
  predicate Vetted(w: Setup, check: KeyCheck, id: NodeId) {
    check(NodeOf(w, id), map[])
  }

  /** With empty artifacts nothing resolves. */
  lemma {:induction false} NothingFound(name: string, deps: seq<NodeId>, results: map<NodeId, Envelope>)
    requires forall id :: id in results ==> results[id].artifact == map[]
    ensures FirstWith(name, deps, results).None?
  {
    if deps != [] {
      NothingFound(name, deps[1..], results);
    }
  }

  lemma {:induction false} NothingResolves(node: NodeSpec, results: map<NodeId, Envelope>, i: nat)
    requires i <= |node.inputs| && forall id :: id in results ==> results[id].artifact == map[]
    ensures InputsUpTo(node, results, i) == map[]
  {
    if i > 0 {
      NothingResolves(node, results, i - 1);
      NothingFound(node.inputs[i - 1], node.dependencies, results);
    }
  }

  lemma KeyableIsVetted(w: Setup, check: KeyCheck, s: RunState, id: NodeId)
    requires Keyable(w, check, s, id) && forall x :: x in s.results ==> s.results[x].artifact == map[]
    ensures Vetted(w, check, id)
  {
    hide NodeOf;
    NothingResolves(NodeOf(w, id), s.results, |NodeOf(w, id).inputs|);
  }

  lemma FreeServes(w: Setup, s: RunState, id: NodeId)
    requires FreeRows(s.journal)
    ensures !BilledBefore(w, s, id) && ServesSuccess(w, s, id)
  {
    hide KeyNow;
  }

  lemma FreePays(w: Setup, s: RunState, id: NodeId)
    requires Free(w) && Sane(w, s) && !s.stopped && Spent(s.entries) == ZERO && FreeRows(s.journal)
    requires HasStatus(s.states, id, Pending) && NodeOf(w, id) in w.nodes
    ensures Paid(w, s, Agent(w, s, id), id, 0)
  {
    hide Agent, Sane, Succeeding, NodeOf, CacheHit, Spent, FreeRows, KeyNow, Est, BilledBefore, ServesSuccess, Paid;
    FreeServes(w, s, id);
    SucceedingAgent(w, s, id, n => 0);
  }

  /** One node of a free run succeeds. */
  lemma FreeAgent(w: Setup, check: KeyCheck, s: RunState, id: NodeId)
    requires Free(w) && FreeState(w, check, s) && HasStatus(s.states, id, Pending) && NodeOf(w, id) in w.nodes
    requires Keyable(w, check, s, id)
    ensures FreeState(w, check, Agent(w, s, id)) && Agent(w, s, id).journal == s.journal && HasStatus(Agent(w, s, id).states, id, Succeeded)
  {
    KeyableIsVetted(w, check, s, id);
    hide Agent, Sane, Free, NodeOf, Spent, Keyable, FreeRows, Vetted;
    FreePays(w, s, id);
    AgentSteps(w, s, id);
    var r := Agent(w, s, id);
    Unmoved(Spent(s.entries));
    FreeStepped(w, check, s, r, id);
  }

  lemma FreeStepped(w: Setup, check: KeyCheck, s: RunState, r: RunState, id: NodeId)
    requires FreeState(w, check, s) && OnlyTouched(w, s, r, id) && Sane(w, r) && !r.stopped && Spent(r.entries) == ZERO
    requires HasStatus(r.states, id, Succeeded) && StateOf(r, id).consumed.tokens == 0 && Vetted(w, check, id)
    requires id in r.results && r.results[id].artifact == map[]
    ensures FreeState(w, check, r)
  {
    hide Sane, Spent, FreeRow, Vetted;
    forall x | x in r.states ensures FreeNode(r, x) {
      assert x != id ==> FreeNode(s, x);
    }
    forall x | Ended(r, x) ensures Vetted(w, check, x) {
      assert x != id ==> Ended(s, x);
    }
  }

  /** A barrier of one free node that does not raise leaves a free state. */
  lemma FreeBarrier(w: Setup, check: KeyCheck, s: RunState, id: NodeId)
    requires Free(w) && FreeState(w, check, s) && HasStatus(s.states, id, Pending) && NodeOf(w, id) in w.nodes
    requires BarrierOr(w, check, s, [id]).Some?
    ensures FreeState(w, check, BarrierOr(w, check, s, [id]).value)
  {
    hide Agent, Sane, Free, NodeOf, Keyable, Spent, FreeState, SkipFailed, HasStatus, CanBatch, ReviewBatchOr, Journaled;
    OneAlone(w, s, id);
    assert [id][1..] == [] && [id][0] == id;
    assert AgentsOr(w, check, s, [id]).Some? ==> Keyable(w, check, s, id);
    FreeAgent(w, check, s, id);
    var joined := Agent(w, s, id);
    JoinedOrIs(w, check, s, [id]);
    IsNot(joined.states, id, Succeeded, Failed);
    NothingFailed(w, joined, [id]);
    FreeJournaled(w, check, joined, id);
  }

  lemma FreeJournaled(w: Setup, check: KeyCheck, s: RunState, id: NodeId)
    requires FreeState(w, check, s) && !Journaled(w, s, [id]).fault
    ensures FreeState(w, check, Journaled(w, s, [id]))
  {
    hide Journaled, Spent, Vetted, NodeOf;
    JournaledFacts(w, s, [id]);
    JournaledSane(w, s, [id]);
    var r := Journaled(w, s, [id]);
    hide Sane;
    if r.journal.Some? {
      forall x | x in r.journal.value ensures FreeRow(r.journal.value[x]) {
        if x in [id] && Journalable(s, x) {
          assert FreeNode(s, x);
        }
      }
    }
    forall x | Ended(r, x) ensures Vetted(w, check, x) {
      assert Ended(s, x);
    }
  }

  lemma ReadyNodeIsListed(w: Setup, s: RunState, id: NodeId)
    requires UniqueIds(w.nodes) && id in IdSet(w.nodes)
    ensures NodeOf(w, id) in w.nodes
  {
  }

  lemma BatchOfOne(w: Setup, s: RunState)
    requires WellFormed(w.nodes) && Batch(w, 1, s) != []
    ensures var batch := Batch(w, 1, s);
            batch == [batch[0]] && HasStatus(s.states, batch[0], Pending) && batch[0] in IdSet(w.nodes)
  {
    hide ReadySet, HasStatus, IdSet;
    BatchIsReady(w, 1, s);
  }

  lemma {:induction false} FreeRun(w: Setup, check: KeyCheck, s: RunState)
    requires WellFormed(w.nodes) && Free(w) && FreeState(w, check, s)
    ensures Sane(w, s) && !s.stopped
    ensures var r := RunOr(w, check, 1, s); r.Some? ==> FreeState(w, check, r.value)
    decreases PendingCount(s)
  {
    FreeIsSane(w, check, s);
    hide Sane, Barrier, BarrierOr, Batch, AllTerminal, PendingCount, RunOr, WellFormed, Free, FreeState, NodeOf, IdSet, HasStatus, Run;
    RunOrUnfolds(w, check, 1, s);
    RunUnfolds(w, 1, s);
    if !(AllTerminal(s.states) || Batch(w, 1, s) == []) {
      BatchOfOne(w, s);
      var id := Batch(w, 1, s)[0];
      ListedNode(w, s, id);
      BarrierOrIs(w, check, s, [id]);
      var next := BarrierOr(w, check, s, [id]);
      if next.Some? && !next.value.stopped {
        FreeBarrier(w, check, s, id);
        FreeRun(w, check, next.value);
      } else if next.Some? {
        FreeBarrier(w, check, s, id);
      }
    }
  }

  lemma ListedNode(w: Setup, s: RunState, id: NodeId)
    requires WellFormed(w.nodes) && id in IdSet(w.nodes)
    ensures NodeOf(w, id) in w.nodes
  {
    ReadyNodeIsListed(w, s, id);
  }

  lemma FreeIsSane(w: Setup, check: KeyCheck, s: RunState)
    requires FreeState(w, check, s)
    ensures Sane(w, s) && !s.stopped
  {
  }

  /** A free run that returns has ended every node, so every key could be computed. */
  lemma FreeRunEndsAll(w: Setup, check: KeyCheck, reviewer: string, closer: string, journal: Option<Rows>)
    requires WellFormed(w.nodes) && !HasCycle(DepsOf(w.nodes)) && Free(w) && (journal.Some? ==> journal.value == map[])
    ensures Sane(w, Initial(w, reviewer, closer, journal))
    ensures RunOr(w, check, 1, Initial(w, reviewer, closer, journal)).Some? ==>
      && (forall id :: id in IdSet(w.nodes) ==> Vetted(w, check, id))
      && (journal.Some? ==> "" !in IdSet(w.nodes))
  {
    hide Run, RunOr, Sane, Free, FreeState, Tidy, ExactOutcome, IdSet, DepsOf, HasCycle, WellFormed, Vetted, Spent, Ended;
    var s := Initial(w, reviewer, closer, journal);
    InitialIsSane(w, reviewer, closer, journal);
    FreeStarts(w, check, s);
    FreeRun(w, check, s);
    RunOrIsRun(w, check, 1, s);
    RunOutcome(w, 1, reviewer, closer, journal);
    RunRaisesExactly(w, 1, reviewer, closer, journal);
    var r := RunOr(w, check, 1, s);
    if r.Some? {
      FreeIsSane(w, check, r.value);
      AllEndedFree(w, check, r.value);
    }
  }

  lemma FreeStarts(w: Setup, check: KeyCheck, s: RunState)
    requires Sane(w, s) && !s.stopped && s.entries == map[] && s.results == map[] && (s.journal.Some? ==> s.journal.value == map[])
    requires forall id :: id in s.states ==> s.states[id] == FRESH
    ensures FreeState(w, check, s)
  {
    hide Sane, Sum, Vetted;
    SumZero(CommittedOf(s.entries));
  }

  lemma AllEndedFree(w: Setup, check: KeyCheck, r: RunState)
    requires FreeState(w, check, r) && ExactOutcome(DepsOf(w.nodes), r.states)
    ensures forall id :: id in IdSet(w.nodes) ==> Vetted(w, check, id) && Ended(r, id)
  {
    hide Spent, Vetted, DepsOf, DependsOnFailure, DepsSucceeded, IdSet;
    forall id | id in IdSet(w.nodes) ensures Vetted(w, check, id) && Ended(r, id) {
      assert FreeNode(r, id);
      assert Ended(r, id);
    }
  }

  // ---- exactly which graphs can raise ----

  /** Some run of the setup, with or without a journal, raises. */
  ghost predicate Raises(w: Setup, check: KeyCheck, cap: int, reviewer: string, closer: string, journal: Option<Rows>) {
    && WellFormed(w.nodes) && GoodRows(journal) && Sane(w, Initial(w, reviewer, closer, journal))
    && RunOr(w, check, cap, Initial(w, reviewer, closer, journal)).None?
  }

  /** A node whose key may not be computable, or whose row the journal would refuse. */
  predicate Risky(n: NodeSpec, check: KeyCheck, journaling: bool) {
    !check(n, map[]) || (journaling && n.id == "")
  }

  /** More resolved inputs never spoil a key. */
  ghost predicate Monotone(check: KeyCheck) {
    forall n, m :: check(n, map[]) ==> check(n, m)
  }

  lemma SafeGraphsReturn(w: Setup, check: KeyCheck, cap: int, reviewer: string, closer: string, journal: Option<Rows>)
    requires Monotone(check) && forall n :: n in w.nodes ==> !Risky(n, check, journal.Some?)
    ensures !Raises(w, check, cap, reviewer, closer, journal)
  {
    hide RunOr, Sane, GoodRows, WellFormed;
    if WellFormed(w.nodes) && Sane(w, Initial(w, reviewer, closer, journal)) {
      forall i | 0 <= i < |w.nodes| ensures journal.Some? ==> w.nodes[i].id != "" {
        assert w.nodes[i] in w.nodes;
      }
      SafeRun(w, check, cap, Initial(w, reviewer, closer, journal));
    }
  }

  lemma RiskyGraphsRaise(nodes: seq<NodeSpec>, n: NodeSpec, check: KeyCheck, reviewer: string, closer: string, journal: Option<Rows>)
    returns (w: Setup)
    requires WellFormed(nodes) && !HasCycle(DepsOf(nodes)) && n in nodes && Risky(n, check, journal.Some?)
    requires journal.Some? ==> journal.value == map[]
    ensures w.nodes == nodes && Raises(w, check, 1, reviewer, closer, journal)
  {
    hide RunOr, Sane, Free, HasCycle, WellFormed, DepsOf, Initial;
    var select: Selector := (s: set<NodeId>) => AnyOf(s);
    w := FreeSetup(nodes, select);
    FreeSetupIsFree(nodes, select);
    FreeRunEndsAll(w, check, reviewer, closer, journal);
    Listed(w, n);
  }

  lemma Listed(w: Setup, n: NodeSpec)
    requires WellFormed(w.nodes) && n in w.nodes
    ensures n.id in IdSet(w.nodes) && NodeOf(w, n.id) == n
  {
    var i :| 0 <= i < |w.nodes| && w.nodes[i] == n;
  }

  /** Some run over the nodes raises, for some adapters, limit, cap and journal. */
  ghost predicate CanRaise(nodes: seq<NodeSpec>, check: KeyCheck, journaling: bool) {
    exists w: Setup, cap: int, reviewer: string, closer: string, journal: Option<Rows> ::
      Raises(w, check, cap, reviewer, closer, journal) && w.nodes == nodes && journal.Some? == journaling
  }

  lemma CanRaiseRisky(nodes: seq<NodeSpec>, check: KeyCheck, journaling: bool)
    requires WellFormed(nodes) && !HasCycle(DepsOf(nodes)) && Monotone(check)
    ensures CanRaise(nodes, check, journaling) <==> exists n :: n in nodes && Risky(n, check, journaling)
  {
    hide Raises, Risky, HasCycle, Monotone;
    if n :| n in nodes && Risky(n, check, journaling) {
      var journal := if journaling then Some(map[]) else None;
      var w := RiskyGraphsRaise(nodes, n, check, "", "", journal);
      assert Raises(w, check, 1, "", "", journal);
    } else {
      forall w: Setup, cap: int, reviewer: string, closer: string, journal: Option<Rows> | w.nodes == nodes && journal.Some? == journaling
        ensures !Raises(w, check, cap, reviewer, closer, journal)
      {
        SafeGraphsReturn(w, check, cap, reviewer, closer, journal);
      }
    }
  }

  /** A key needs the node's tools registered and all its declared inputs resolved. */
  function Needs(registered: NodeSpec -> bool): KeyCheck {
    (n: NodeSpec, resolved: map<string, string>) => registered(n) && forall i :: i in n.inputs ==> i in resolved
  }

  lemma NeedsFromNothing(registered: NodeSpec -> bool, n: NodeSpec)
    ensures Needs(registered)(n, map[]) <==> registered(n) && n.inputs == []
  {
    assert n.inputs != [] ==> n.inputs[0] in n.inputs;
  }

  /** EXACTLY WHICH GRAPHS CAN RAISE. For an acyclic graph with resolvable dependencies, some adapters and limits make
      some run raise exactly when a node has an unregistered tool, or declares an input, or, with a journal, has the
      empty id. An illegal transition or a commit without reservation never happens. */
  lemma CanRaiseExactly(nodes: seq<NodeSpec>, registered: NodeSpec -> bool, journaling: bool)
    requires WellFormed(nodes) && !HasCycle(DepsOf(nodes))
    ensures CanRaise(nodes, Needs(registered), journaling) <==>
      exists n :: n in nodes && (!registered(n) || n.inputs != [] || (journaling && n.id == ""))
  {
    hide CanRaise, HasCycle, WellFormed, DepsOf;
    CanRaiseRisky(nodes, Needs(registered), journaling);
    forall n ensures Risky(n, Needs(registered), journaling) <==> !registered(n) || n.inputs != [] || (journaling && n.id == "") {
      NeedsFromNothing(registered, n);
    }
  }

  // ---- where every key can be computed ----

  function Always(): KeyCheck {
    (n: NodeSpec, resolved: map<string, string>) => true
  }

  lemma {:induction false} AlwaysIsRun(w: Setup, cap: int, s: RunState)
    requires WellFormed(w.nodes) && Sane(w, s) && !s.stopped
    ensures RunOr(w, Always(), cap, s).None? <==> Run(w, cap, s).fault
    decreases PendingCount(s)
  {
    hide Sane, Barrier, BarrierOr, Batch, AllTerminal, PendingCount, RunOr, WellFormed, IdSet, AgentsOr, PrepareOr, CanBatch, Run;
    RunOrUnfolds(w, Always(), cap, s);
    RunUnfolds(w, cap, s);
    SaneHasNoFault(w, s);
    if !(AllTerminal(s.states) || Batch(w, cap, s) == []) {
      var batch := Batch(w, cap, s);
      BatchIsReady(w, cap, s);
      SafeAgents(w, Always(), s, batch);
      SafePrepare(w, Always(), s, batch, 0);
      BarrierOrIs(w, Always(), s, batch);
      var next := BarrierOr(w, Always(), s, batch);
      if next.Some? && !next.value.stopped {
        AlwaysIsRun(w, cap, next.value);
      }
    }
  }

  /** Some run over the nodes with a journal raises on a row. */
  ghost predicate JournalCanRaise(nodes: seq<NodeSpec>) {
    exists w: Setup, cap: int, reviewer: string, closer: string, rows: Rows ::
      RowRaises(w, cap, reviewer, closer, rows) && w.nodes == nodes
  }

  ghost predicate RowRaises(w: Setup, cap: int, reviewer: string, closer: string, rows: Rows) {
    && WellFormed(w.nodes) && GoodRows(Some(rows)) && Sane(w, Initial(w, reviewer, closer, Some(rows)))
    && Run(w, cap, Initial(w, reviewer, closer, Some(rows))).fault
  }

  /** Where keys are no concern, a journal can raise exactly on the graphs with an empty id. */
  lemma JournalCanRaiseExactly(nodes: seq<NodeSpec>)
    requires WellFormed(nodes) && !HasCycle(DepsOf(nodes))
    ensures JournalCanRaise(nodes) <==> "" in IdSet(nodes)
  {
    hide HasCycle, DepsOf, RowRaises, WellFormed;
    if "" in IdSet(nodes) {
      var i :| 0 <= i < |nodes| && nodes[i].id == "";
      var w := RiskyGraphsRaise(nodes, nodes[i], Always(), "", "", Some(map[]));
      RaisesOnRow(w, 1, "", "", map[]);
      assert RowRaises(w, 1, "", "", map[]);
    } else {
      forall w: Setup, cap: int, reviewer: string, closer: string, rows: Rows | w.nodes == nodes
        ensures !RowRaises(w, cap, reviewer, closer, rows)
      {
        NoEmptyIdNoRaise(w, cap, reviewer, closer, rows);
      }
    }
  }

  lemma RaisesOnRow(w: Setup, cap: int, reviewer: string, closer: string, rows: Rows)
    requires Raises(w, Always(), cap, reviewer, closer, Some(rows))
    ensures RowRaises(w, cap, reviewer, closer, rows)
  {
    hide RunOr, Run, Sane, GoodRows, WellFormed;
    AlwaysIsRun(w, cap, Initial(w, reviewer, closer, Some(rows)));
  }

  lemma NoEmptyIdNoRaise(w: Setup, cap: int, reviewer: string, closer: string, rows: Rows)
    requires "" !in IdSet(w.nodes)
    ensures !RowRaises(w, cap, reviewer, closer, rows)
  {
    hide Run, Sane, GoodRows, WellFormed, IdSet;
    if WellFormed(w.nodes) && GoodRows(Some(rows)) {
      RunLeavesNothingReserved(w, cap, reviewer, closer, Some(rows));
    }
  }
}
