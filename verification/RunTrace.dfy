/** What a run does with each node, read off the attempts it made: from a single node's turn to whole runs. */
module RunTraces {
  import opened AgyTypes
  import opened Budget
  import opened Scheduling
  import opened Dag
  import opened Checkpointing
  import opened Dispatching
  import opened DispatchTheorems
  import opened DispatchTraces
  import opened Engine
  import opened EngineInvariants
  import opened EngineRun
  import opened EngineOutcome
  import opened EngineMeaning
  import opened EngineTheorems
  import opened RefusalTheorems
  import opened BatchTraces
  import opened ConservationTheorems
  import Sorting

  // ---- where a node starts from ----

  function RowAt(journal: Option<Rows>, id: NodeId): Option<Row> {
    if journal.Some? && id in journal.value then Some(journal.value[id]) else None
  }

  /** The node's journal row carries its budget, retries and attempt number forward, if it has the key the node gets
      now; nothing is ever reset to zero then. Otherwise the node starts clean, with all its policy's retries. */
  function StartsFrom(node: NodeSpec, row: Option<Row>, key: Key): Runtime {
    if row.Some? && row.value.key == key
    then Runtime(Pending, row.value.attempt, row.value.remainingRetries, row.value.consumed, NoError)
    else Runtime(Pending, 0, node.maxSchemaRetries, ZERO, NoError)
  }

  ghost function JobNow(w: Setup, s: RunState, id: NodeId): Job {
    Job(w, NodeOf(w, id), KeyNow(w, s, id), DepsNow(w, s, id), Some(Others(s.entries, LedgerKeyOf(w, id))))
  }

  /** The results of the node's dependencies. */
  function DepsNow(w: Setup, s: RunState, id: NodeId): map<NodeId, Envelope> {
    map d | d in s.results && d in NodeOf(w, id).dependencies :: s.results[d]
  }

  function StartNow(w: Setup, s: RunState, id: NodeId): Local {
    Local(StartsFrom(NodeOf(w, id), RowAt(s.journal, id), KeyNow(w, s, id)), None, s.reviewer, s.closer, [], [], false, false)
  }

  lemma KeyedIsNow(w: Setup, s: RunState, id: NodeId)
    requires Sane(w, s) && HasStatus(s.states, id, Pending)
    ensures var k := Keyed(w, s, id);
            && JobOf(w, k, id) == JobNow(w, s, id) && LocalOf(w, k, id) == StartNow(w, s, id)
            && k == s.(keys := s.keys[id := KeyNow(w, s, id)], states := s.states[id := StartNow(w, s, id).rt])
            && KeyOf(k, id) == KeyNow(w, s, id) && k.journal == s.journal
  {
    hide ResolveInputs, Others, NodesById;
    NodeNamed(w, id);
    assert SaneNode(w, s, id);
  }

  // ---- one node's turn ----

  /** What a node's turn leaves when it made attempts: the local state its trace describes, written back. */
  ghost predicate TurnMade(w: Setup, s: RunState, r: RunState, id: NodeId, d: Local, env: Envelope) {
    && DulyMade(JobNow(w, s, id), StartNow(w, s, id), d.attempts)
    && EndedAs(JobNow(w, s, id), StartNow(w, s, id), d, env)
    && id in r.states && r.states[id] == d.rt && Own(r.entries, LedgerKeyOf(w, id)) == d.own
    && r.reviewer == d.reviewer && r.closer == d.closer
    && id in r.results && r.results[id] == env && id in r.keys && r.keys[id] == KeyNow(w, s, id)
    && StartNow(w, s, id).rt.consumed.tokens == 0
    && r.attempts == s.attempts + d.attempts && r.blockers == s.blockers + multiset(d.blockers)
    && !r.stopped
  }

  /** What a node's turn leaves when the budget was gone. */
  ghost predicate TurnRefused(w: Setup, s: RunState, r: RunState, id: NodeId) {
    var rt := StartNow(w, s, id).rt;
    && r.stopped && r.attempts == s.attempts && r.results == s.results
    && id in r.states && r.states[id] == rt.(status := Ready)
    && r.blockers == s.blockers +
         multiset{Blocker(id, "budget exhausted before dispatch", if rt.consumed.tokens > 0 then "node-ceiling" else "global")}
  }

  /** What a node's turn leaves when its key is found in the journal: the row's result and counters, and no attempt. */
  ghost predicate TurnServed(s: RunState, r: RunState, id: NodeId, row: Row) {
    && row.envelope.Some?
    && r.attempts == s.attempts && !r.stopped
    && id in r.states && id in r.results && r.results[id] == row.envelope.value
    && r.states[id] == Runtime(row.status, row.attempt, row.remainingRetries, row.consumed, row.envelope.value.errorClass)
    && r.blockers == s.blockers +
         if row.status == Failed
         then multiset{Blocker(id, "node failed (cached)", ErrorName(row.envelope.value.errorClass))}
         else multiset{}
  }

  lemma MissIs(w: Setup, s: RunState, id: NodeId)
    requires Sane(w, s) && HasStatus(s.states, id, Pending) && !s.stopped && CacheHit(w, KeyNow(w, s, id), s.journal).None?
    ensures var (d, env) := Dispatch(JobNow(w, s, id), StartNow(w, s, id));
            var k := s.(keys := s.keys[id := KeyNow(w, s, id)], states := s.states[id := StartNow(w, s, id).rt]);
            Agent(w, s, id) == if env.None? then Merge(w, k, id, d).(stopped := true) else Recorded(w, k, id, d, env.value)
  {
    hide Sane, Keyed, Dispatch, CacheHit, KeyNow, JobNow, JobOf, StartNow, LocalOf, Merge, Recorded, KeyOf;
    KeyedIsNow(w, s, id);
  }

  lemma StartsDispatchable(w: Setup, s: RunState, id: NodeId)
    requires Sane(w, s) && HasStatus(s.states, id, Pending)
    ensures Dispatchable(StartNow(w, s, id))
  {
    hide Sane, Keyed, JobOf, JobNow, StartNow, KeyNow, LocalOf, OnlyTouched;
    KeyedIsNow(w, s, id);
    KeyedFacts(w, s, id);
  }

  lemma RecordedReads(w: Setup, s: RunState, id: NodeId, d: Local, env: Envelope)
    requires DulyMade(JobNow(w, s, id), StartNow(w, s, id), d.attempts) && EndedAs(JobNow(w, s, id), StartNow(w, s, id), d, env)
    requires !s.stopped && StartNow(w, s, id).rt.consumed.tokens == 0
    ensures var k := s.(keys := s.keys[id := KeyNow(w, s, id)], states := s.states[id := StartNow(w, s, id).rt]);
            TurnMade(w, s, Recorded(w, k, id, d, env), id, d, env)
  {
    hide DulyMade, KeyNow, JobNow, StartNow, SettledEntry, ReviewerAfter, CloserAfter, Complaints, TotalActual, NodesById;
  }

  lemma RefusedReads(w: Setup, s: RunState, id: NodeId, d: Local, reason: string)
    requires d == StartNow(w, s, id).(rt := StartNow(w, s, id).rt.(status := Ready), refused := d.refused,
      blockers := [Blocker(id, "budget exhausted before dispatch", reason)])
    requires reason == if StartNow(w, s, id).rt.consumed.tokens > 0 then "node-ceiling" else "global"
    ensures var k := s.(keys := s.keys[id := KeyNow(w, s, id)], states := s.states[id := StartNow(w, s, id).rt]);
            TurnRefused(w, s, Merge(w, k, id, d).(stopped := true), id)
  {
    hide KeyNow, StartsFrom, NodesById;
    assert s.attempts + [] == s.attempts;
  }

  lemma MissReads(w: Setup, s: RunState, id: NodeId)
    requires Sane(w, s) && HasStatus(s.states, id, Pending) && !s.stopped && CacheHit(w, KeyNow(w, s, id), s.journal).None?
    ensures var job, l, r := JobNow(w, s, id), StartNow(w, s, id), Agent(w, s, id);
            var (d, env) := Dispatch(job, l);
            && Dispatchable(l)
            && (env.Some? ==> TurnMade(w, s, r, id, d, env.value))
            && (env.None? ==> TurnRefused(w, s, r, id))
  {
    hide Sane, Agent, Dispatch, CacheHit, DulyMade, EndedAs, KeyNow, JobNow, StartsFrom, HasRoom, PlannedCeiling, Dispatchable, Merge, Recorded,
      TurnMade, TurnRefused;
    MissIs(w, s, id);
    StartsDispatchable(w, s, id);
    var job, l := JobNow(w, s, id), StartNow(w, s, id);
    DispatchReads(job, l);
    JobIsNamed(w, s, id);
    var (d, env) := Dispatch(job, l);
    if env.Some? {
      RecordedReads(w, s, id, d, env.value);
    } else {
      var reason := if l.rt.consumed.tokens > 0 then "node-ceiling" else "global";
      assert l.blockers + [Blocker(id, "budget exhausted before dispatch", reason)] == [Blocker(id, "budget exhausted before dispatch", reason)];
      RefusedReads(w, s, id, d, reason);
    }
  }

  lemma JobIsNamed(w: Setup, s: RunState, id: NodeId)
    ensures JobNow(w, s, id).node.id == id && JobNow(w, s, id).node == NodeOf(w, id) && JobNow(w, s, id).w == w
  {
    hide Others, DepsNow, NodesById;
    NodeNamed(w, id);
  }

  lemma HitReads(w: Setup, s: RunState, id: NodeId)
    requires Sane(w, s) && HasStatus(s.states, id, Pending) && !s.stopped && CacheHit(w, KeyNow(w, s, id), s.journal).Some?
    ensures TurnServed(s, Agent(w, s, id), id, CacheHit(w, KeyNow(w, s, id), s.journal).value)
  {
    hide Sane, Keyed, LookupIn, Others, DepsNow, NodesById, KeyNow, StartsFrom, ReleaseAt, JobOf, JobNow;
    KeyedIsNow(w, s, id);
  }

  /** A NODE'S TURN, WHATEVER ITS JOURNAL. A hit serves the row with no attempt. A miss starts from the counters the
      journal carries forward: with billed tokens, or no room, the run stops; otherwise the attempts are exactly those
      that were due, and the node ends by the last of them. */
  lemma AgentReads(w: Setup, s: RunState, id: NodeId)
    requires Sane(w, s) && HasStatus(s.states, id, Pending) && !s.stopped
    ensures var r, hit := Agent(w, s, id), CacheHit(w, KeyNow(w, s, id), s.journal);
            var job, l := JobNow(w, s, id), StartNow(w, s, id);
            if hit.Some? then TurnServed(s, r, id, hit.value)
            else if l.rt.consumed.tokens == 0 && HasRoom(job, ZERO, PlannedCeiling(job, l, [], 0))
            then exists d, env :: TurnMade(w, s, r, id, d, env)
            else TurnRefused(w, s, r, id)
  {
    hide Sane, CacheHit, HasRoom, PlannedCeiling, TurnServed, TurnMade, TurnRefused, Agent, Dispatch, DulyMade, EndedAs,
      JobNow, KeyNow, Dispatchable;
    if CacheHit(w, KeyNow(w, s, id), s.journal).Some? {
      HitReads(w, s, id);
    } else {
      MissReads(w, s, id);
      var job, l := JobNow(w, s, id), StartNow(w, s, id);
      DispatchReads(job, l);
      var (d, env) := Dispatch(job, l);
      assert CommittedBy(l.own) == ZERO;
      if env.Some? {
        assert TurnMade(w, s, Agent(w, s, id), id, d, env.value);
      }
    }
  }

  lemma FirstIsAdapters(job: Job, l: Local, attempts: seq<Attempt>)
    requires DulyMade(job, l, attempts)
    ensures attempts != [] && (FellBack(attempts) ==> |attempts| >= 2)
  {
  }

  /** THE JOURNAL'S COUNTERS ARE CARRIED FORWARD. A node that misses the cache goes on from its journaled row, if the
      row has its present key, and from a clean start if not: attempts are numbered on, retries only go down and bound
      the attempts made, and billed usage adds up. */
  lemma AgentCarriesOver(w: Setup, s: RunState, id: NodeId)
    requires Sane(w, s) && HasStatus(s.states, id, Pending) && !s.stopped && CacheHit(w, KeyNow(w, s, id), s.journal).None?
    ensures var r, row := Agent(w, s, id), RowAt(s.journal, id);
            var carried := row.Some? && row.value.key == KeyNow(w, s, id);
            var attempt := if carried then row.value.attempt else 0;
            var retries := if carried then row.value.remainingRetries else NodeOf(w, id).maxSchemaRetries;
            var consumed := if carried then row.value.consumed else ZERO;
            && s.attempts <= r.attempts && id in r.states
            && var made := r.attempts[|s.attempts|..];
            && |made| <= AtLeastZero(retries) + 2
            && r.states[id].attempt == attempt + |made|
            && r.states[id].remainingRetries <= retries
            && r.states[id].consumed == consumed.Add(TotalActual(made))
            && (consumed.tokens > 0 ==> made == [])
  {
    hide Sane, CacheHit, HasRoom, PlannedCeiling, TurnServed, Agent, Dispatch, DulyMade, JobNow, KeyNow, Conserved, OverrunBounded, SettledEntry,
      ReviewerAfter, CloserAfter, Complaints, TotalActual, Dispatchable, NodeOf;
    MissReads(w, s, id);
    var job, l, r := JobNow(w, s, id), StartNow(w, s, id), Agent(w, s, id);
    DispatchReads(job, l);
    DispatchCompletes(job, l);
    NothingTotals();
    var (d, env) := Dispatch(job, l);
    if env.Some? {
      assert r.attempts == s.attempts + d.attempts;
      assert r.attempts[|s.attempts|..] == d.attempts;
      FirstIsAdapters(job, l, d.attempts);
    } else {
      assert r.attempts[|s.attempts|..] == [];
    }
  }

  // ---- every node of a run ----

  /** The node's attempts, state, charge and result are those of a dispatch from `l` that did `d`. */
  ghost predicate ToldBy(w: Setup, s: RunState, id: NodeId, row: Option<Row>, job: Job, l: Local, d: Local) {
    && job.w == w && job.node == NodeOf(w, id) && job.key == KeyNow(w, s, id) && job.others.Some?
    && job.deps == DepsNow(w, s, id)
    && l == Local(StartsFrom(NodeOf(w, id), row, job.key), None, l.reviewer, l.closer, [], [], false, false)
    && l.rt.consumed.tokens == 0
    && d.attempts == AttemptsOf(s.attempts, id)
    && id in s.states && s.states[id] == d.rt && Own(s.entries, LedgerKeyOf(w, id)) == d.own
    && DulyMade(job, l, d.attempts) && id in s.results && EndedAs(job, l, d, s.results[id])
  }

  /** The node's one attempt, state, charge and result are those of a batch of the given nodes. */
  ghost predicate ToldByBatch(w: Setup, s: RunState, id: NodeId, nodes: seq<NodeSpec>, accounting: Accounting) {
    var tokens := CapTokens(NodeOf(w, id), w.multiplier, accounting);
    && NodeOf(w, id) in nodes && id in s.results
    && s.results[id] == Answer(w.runBatch(nodes), id, KeyNow(w, s, id))
    && AttemptsOf(s.attempts, id) == [BatchAttempt(id, s.results[id], tokens)]
    && EndedWith(w, s, id, s.results[id], tokens)
  }

  /** A node that made attempts ended as they say, on its present key and its dependencies' final results; a pending
      one made none, and its journal row is still the one from the start. */
  ghost predicate Told(w: Setup, journal: Option<Rows>, s: RunState, id: NodeId) {
    && (HasStatus(s.states, id, Pending) ==> AttemptsOf(s.attempts, id) == [] && RowAt(s.journal, id) == RowAt(journal, id))
    && (AttemptsOf(s.attempts, id) != [] ==>
         && Ended(s, id) && id in s.keys && s.keys[id] == KeyNow(w, s, id) && DepsReady(w, s, id)
         && ((exists job, l, d :: ToldBy(w, s, id, RowAt(journal, id), job, l, d)) ||
             (journal.None? && exists nodes, accounting :: ToldByBatch(w, s, id, nodes, accounting))))
  }

  lemma SameDepsNow(w: Setup, s: RunState, r: RunState, id: NodeId)
    requires r.results == s.results
    ensures DepsNow(w, r, id) == DepsNow(w, s, id)
  {
  }

  ghost predicate AllTold(w: Setup, journal: Option<Rows>, s: RunState) {
    && (forall id :: id in s.states ==> Told(w, journal, s, id))
    && (forall i :: 0 <= i < |s.attempts| ==> s.attempts[i].node in s.states)
    && (s.journal.None? <==> journal.None?)
  }

  // ---- what leaves the other nodes' story alone ----

  ghost predicate MadeFor(attempts: seq<Attempt>, ids: seq<NodeId>) {
    forall i :: 0 <= i < |attempts| ==> attempts[i].node in ids
  }

  lemma {:induction false} NoneFor(attempts: seq<Attempt>, ids: seq<NodeId>, x: NodeId)
    requires MadeFor(attempts, ids) && x !in ids
    ensures AttemptsOf(attempts, x) == []
  {
    if attempts != [] {
      NoneFor(attempts[..|attempts| - 1], ids, x);
    }
  }

  /** A node whose dependencies all succeeded sees the same results whatever pending nodes do. */
  lemma SameDeps(w: Setup, s: RunState, r: RunState, ids: seq<NodeId>, x: NodeId)
    requires OthersSame(w, s, r, ids) && AllPending(s, ids) && DepsReady(w, s, x)
    ensures KeyNow(w, r, x) == KeyNow(w, s, x) && DepsNow(w, r, x) == DepsNow(w, s, x)
    ensures DepsReady(w, r, x)
  {
    hide NodeOf;
    var deps := NodeOf(w, x).dependencies;
    forall d | d in deps ensures d !in ids && HasStatus(r.states, d, Succeeded)
      && (d in s.results <==> d in r.results) && (d in s.results ==> r.results[d] == s.results[d]) {
      assert HasStatus(s.states, d, Succeeded);
      assert d !in ids;
      assert SameNode(w, s, r, d);
    }
    InputsSame(NodeOf(w, x), s.results, r.results, |NodeOf(w, x).inputs|);
    assert DepsNow(w, r, x) == DepsNow(w, s, x);
  }

  /** Everything the node's story rests on is the same in both states. */
  ghost predicate SameStory(w: Setup, s: RunState, r: RunState, id: NodeId) {
    && AttemptsOf(r.attempts, id) == AttemptsOf(s.attempts, id) && SameNode(w, s, r, id)
    && KeyNow(w, r, id) == KeyNow(w, s, id) && DepsNow(w, r, id) == DepsNow(w, s, id) && DepsReady(w, r, id)
  }

  lemma StoryKept(w: Setup, journal: Option<Rows>, s: RunState, r: RunState, id: NodeId)
    requires Told(w, journal, s, id) && (AttemptsOf(s.attempts, id) != [] ==> SameStory(w, s, r, id))
    requires AttemptsOf(r.attempts, id) == AttemptsOf(s.attempts, id)
    requires HasStatus(r.states, id, Pending) ==> HasStatus(s.states, id, Pending) && RowAt(r.journal, id) == RowAt(s.journal, id)
    ensures Told(w, journal, r, id)
  {
    hide AttemptsOf, KeyNow, DepsReady, DulyMade, EndedAs, StartsFrom, EndedWith, NodeOf, CapTokens, Answer, BatchAttempt, DepsNow, RowAt;
    if AttemptsOf(s.attempts, id) != [] {
      if exists job, l, d :: ToldBy(w, s, id, RowAt(journal, id), job, l, d) {
        var job, l, d :| ToldBy(w, s, id, RowAt(journal, id), job, l, d);
        assert ToldBy(w, r, id, RowAt(journal, id), job, l, d);
      } else {
        var nodes, accounting :| ToldByBatch(w, s, id, nodes, accounting);
        StillEnded(w, s, r, id, s.results[id], CapTokens(NodeOf(w, id), w.multiplier, accounting));
        assert ToldByBatch(w, r, id, nodes, accounting);
      }
    }
  }

  lemma OtherTold(w: Setup, journal: Option<Rows>, s: RunState, r: RunState, ids: seq<NodeId>, added: seq<Attempt>, x: NodeId)
    requires Told(w, journal, s, x) && x !in ids && OthersSame(w, s, r, ids) && AllPending(s, ids)
    requires r.journal == s.journal && r.attempts == s.attempts + added && MadeFor(added, ids)
    ensures Told(w, journal, r, x)
  {
    hide AttemptsOf, KeyNow, DepsReady, OthersSame, ToldBy, ToldByBatch, DepsNow, NodeOf;
    AttemptsOfConcat(s.attempts, added, x);
    NoneFor(added, ids, x);
    assert AttemptsOf(r.attempts, x) == AttemptsOf(s.attempts, x);
    IsSame(w, s, r, ids, x);
    if AttemptsOf(s.attempts, x) != [] {
      SameDeps(w, s, r, ids, x);
    }
    StoryKept(w, journal, s, r, x);
  }

  lemma IsSame(w: Setup, s: RunState, r: RunState, ids: seq<NodeId>, x: NodeId)
    requires OthersSame(w, s, r, ids) && x !in ids
    ensures SameNode(w, s, r, x)
  {
  }

  lemma StepTold(w: Setup, journal: Option<Rows>, s: RunState, r: RunState, ids: seq<NodeId>, added: seq<Attempt>)
    requires AllTold(w, journal, s) && OthersSame(w, s, r, ids) && AllPending(s, ids) && r.states.Keys == s.states.Keys
    requires r.journal == s.journal && r.attempts == s.attempts + added && MadeFor(added, ids)
    requires forall id :: id in ids ==> Told(w, journal, r, id)
    ensures AllTold(w, journal, r)
  {
    hide Told, OthersSame;
    forall x | x in r.states ensures Told(w, journal, r, x) {
      if x !in ids {
        OtherTold(w, journal, s, r, ids, added, x);
      }
    }
    forall i | 0 <= i < |r.attempts| ensures r.attempts[i].node in r.states {
      if i >= |s.attempts| {
        assert r.attempts[i] == added[i - |s.attempts|];
        assert HasStatus(s.states, r.attempts[i].node, Pending);
      }
    }
  }

  // ---- one node at a time ----

  lemma DulyMadeFor(job: Job, l: Local, attempts: seq<Attempt>)
    requires DulyMade(job, l, attempts)
    ensures attempts != [] && forall i :: 0 <= i < |attempts| ==> attempts[i].node == job.node.id
  {
    hide RetryDue, FallbackDue, CapTokens, PlannedCeiling, LeftBefore, InCharge, Named;
    forall i | 0 <= i < |attempts| ensures attempts[i].node == job.node.id {
      assert MadeByAdapter(job, l, attempts, i) || MadeByFallback(job, l, attempts, i);
    }
  }

  lemma MadeTold(w: Setup, journal: Option<Rows>, s: RunState, r: RunState, id: NodeId, d: Local, env: Envelope)
    requires TurnMade(w, s, r, id, d, env) && DepsReady(w, s, id) && HasStatus(s.states, id, Pending) && OthersSame(w, s, r, [id])
    requires Told(w, journal, s, id) && Ended(r, id)
    ensures Told(w, journal, r, id) && MadeFor(d.attempts, [id])
  {
    hide AttemptsOf, KeyNow, DepsReady, DulyMade, EndedAs, OthersSame, StartsFrom, ToldByBatch, NodeOf, Others, DepsNow;
    JobIsNamed(w, s, id);
    DulyMadeFor(JobNow(w, s, id), StartNow(w, s, id), d.attempts);
    AttemptsOfConcat(s.attempts, d.attempts, id);
    AttemptsOfOwn(d.attempts, id, id);
    assert [] + d.attempts == d.attempts;
    OnlyPending(s, id);
    SameDeps(w, s, r, [id], id);
    assert ToldBy(w, r, id, RowAt(journal, id), JobNow(w, s, id), StartNow(w, s, id), d);
  }

  lemma OnlyPending(s: RunState, id: NodeId)
    requires HasStatus(s.states, id, Pending)
    ensures AllPending(s, [id])
  {
  }

  lemma OnlyOne(w: Setup, s: RunState, r: RunState, id: NodeId)
    requires OnlyTouched(w, s, r, id) && id in s.states
    ensures OthersSame(w, s, r, [id]) && r.states.Keys == s.states.Keys && r.journal == s.journal
  {
    hide SameNode;
    forall x | x !in [id] ensures SameNode(w, s, r, x) {
      assert x != id;
      TouchedLeavesOthers(w, s, r, id, x);
    }
  }

  lemma IdleTold(w: Setup, journal: Option<Rows>, s: RunState, r: RunState, id: NodeId)
    requires Told(w, journal, s, id) && HasStatus(s.states, id, Pending) && r.attempts == s.attempts && !HasStatus(r.states, id, Pending)
    ensures Told(w, journal, r, id)
  {
    hide AttemptsOf;
  }

  lemma AgentTold(w: Setup, journal: Option<Rows>, s: RunState, id: NodeId)
    requires Sane(w, s) && HasStatus(s.states, id, Pending) && !s.stopped && AllTold(w, journal, s) && DepsReady(w, s, id)
    ensures AllTold(w, journal, Agent(w, s, id))
  {
    hide Sane, CacheHit, HasRoom, PlannedCeiling, Agent, TurnMade, OnlyTouched, OthersSame, Told, DepsReady, KeyNow, JobNow,
      StartNow, AllPending, MadeFor;
    var r := Agent(w, s, id);
    AgentSteps(w, s, id);
    OnlyOne(w, s, r, id);
    OnlyPending(s, id);
    AgentReads(w, s, id);
    if exists d, env :: TurnMade(w, s, r, id, d, env) {
      var d, env :| TurnMade(w, s, r, id, d, env);
      AddsAttempts(w, s, r, id, d, env);
      MadeTold(w, journal, s, r, id, d, env);
      StepTold(w, journal, s, r, [id], d.attempts);
    } else {
      assert s.attempts + [] == s.attempts;
      NoAttempts([id]);
      IdleTold(w, journal, s, r, id);
      StepTold(w, journal, s, r, [id], []);
    }
  }

  lemma NoAttempts(ids: seq<NodeId>)
    ensures MadeFor([], ids)
  {
  }

  lemma AddsAttempts(w: Setup, s: RunState, r: RunState, id: NodeId, d: Local, env: Envelope)
    requires TurnMade(w, s, r, id, d, env)
    ensures r.attempts == s.attempts + d.attempts && !r.stopped
  {
    hide DulyMade, EndedAs;
  }

  ghost predicate AllReady(w: Setup, s: RunState, batch: seq<NodeId>) {
    Sorting.Distinct(batch) && AllPending(s, batch) && forall id :: id in batch ==> DepsReady(w, s, id)
  }

  lemma RestStillReady(w: Setup, s: RunState, r: RunState, batch: seq<NodeId>)
    requires batch != [] && AllReady(w, s, batch) && OnlyTouched(w, s, r, batch[0])
    ensures AllReady(w, r, batch[1..])
  {
    assert batch == [batch[0]] + batch[1..];
    forall id | id in batch[1..] ensures id != batch[0] && DepsReady(w, r, id) && HasStatus(r.states, id, Pending) {
      assert id in batch && DepsReady(w, s, id);
      forall d | d in NodeOf(w, id).dependencies ensures HasStatus(r.states, d, Succeeded) {
        assert HasStatus(s.states, d, Succeeded) && HasStatus(s.states, batch[0], Pending);
      }
    }
  }

  lemma {:induction false} AgentsTold(w: Setup, journal: Option<Rows>, s: RunState, batch: seq<NodeId>)
    requires Sane(w, s) && !s.stopped && AllTold(w, journal, s) && AllReady(w, s, batch)
    ensures AllTold(w, journal, Agents(w, s, batch))
    decreases |batch|
  {
    hide Agent, Sane, AllTold, DepsReady, OnlyTouched;
    if batch != [] {
      var next := Agent(w, s, batch[0]);
      assert batch[0] in batch;
      AgentSteps(w, s, batch[0]);
      AgentTold(w, journal, s, batch[0]);
      if !next.stopped {
        RestStillReady(w, s, next, batch);
        AgentsTold(w, journal, next, batch[1..]);
      }
    }
  }

  // ---- a batch in one invocation ----

  lemma {:induction false} ReservationsAreCaps(w: Setup, nodes: seq<NodeSpec>, left: Dims, j: nat)
    requires Reservations(w, nodes, left).Some? && j < |nodes|
    ensures exists accounting :: Reservations(w, nodes, left).value[j] == CapTokens(nodes[j], w.multiplier, accounting)
    decreases j
  {
    hide CapTokens;
    var tokens := CapTokens(nodes[0], w.multiplier, w.reserveAccounting(nodes[0], 1, left));
    if j > 0 {
      ReservationsAreCaps(w, nodes[1..], Dims(left.tokens - tokens, left.usd), j - 1);
    }
  }

  lemma PlannedAreCaps(w: Setup, s: RunState, batch: seq<NodeId>, j: nat)
    requires Planned(w, s, batch, 0).Some? && j < |batch|
    ensures |Planned(w, s, batch, 0).value| == |batch| && NodeOf(w, batch[j]) in NodesOf(w, batch)
    ensures exists accounting :: Planned(w, s, batch, 0).value[j] == CapTokens(NodeOf(w, batch[j]), w.multiplier, accounting)
  {
    hide CapTokens, NodeOf, Left;
    assert batch[0..] == batch && NodesOf(w, batch)[j] == NodeOf(w, batch[j]);
    ReservationsAreCaps(w, NodesOf(w, batch), Left(w, s), j);
  }

  /** The attempts a batch added for one of its nodes. */
  lemma BatchAttempts(w: Setup, s: RunState, r: RunState, batch: seq<NodeId>, envs: seq<Envelope>, tokens: seq<int>, j: nat)
    requires BatchDone(w, s, r, batch, envs, tokens) && Sorting.Distinct(batch) && j < |batch|
    ensures r.attempts == s.attempts + r.attempts[|s.attempts|..] && MadeFor(r.attempts[|s.attempts|..], batch)
    ensures AttemptsOf(r.attempts, batch[j]) == AttemptsOf(s.attempts, batch[j]) + [BatchAttempt(batch[j], envs[j], tokens[j])]
  {
    hide EndedWith, OthersSame, KeyNow, ClosersAfter, FailuresOf, AttemptsOf, Sorting.Distinct;
    var added := r.attempts[|s.attempts|..];
    forall i | 0 <= i < |added| ensures added[i] == BatchAttempt(batch[i], envs[i], tokens[i]) {
      assert added[i] == r.attempts[|s.attempts| + i];
    }
    AttemptsOfConcat(s.attempts, added, batch[j]);
    OneOf(added, batch, j);
  }

  lemma OneOf(attempts: seq<Attempt>, batch: seq<NodeId>, j: nat)
    requires |attempts| == |batch| && Sorting.Distinct(batch) && j < |batch|
    requires forall i :: 0 <= i < |attempts| ==> attempts[i].node == batch[i]
    ensures AttemptsOf(attempts, batch[j]) == [attempts[j]]
  {
    hide AttemptsOf;
    var a, b, c := attempts[..j], [attempts[j]], attempts[j + 1..];
    assert attempts == a + (b + c);
    AttemptsOfConcat(a, b + c, batch[j]);
    AttemptsOfConcat(b, c, batch[j]);
    AttemptsOfOwn(b, batch[j], batch[j]);
    assert batch[j] !in batch[..j] && batch[j] !in batch[j + 1..];
    NoneFor(a, batch[..j], batch[j]);
    NoneFor(c, batch[j + 1..], batch[j]);
  }

  lemma BatchNodeTold(w: Setup, journal: Option<Rows>, s: RunState, r: RunState, batch: seq<NodeId>, envs: seq<Envelope>,
                      tokens: seq<int>, j: nat)
    requires j < |batch| && BatchDone(w, s, r, batch, envs, tokens) && AllReady(w, s, batch) && Told(w, journal, s, batch[j])
    requires journal.None? && envs == Answers(w, s, w.runBatch(NodesOf(w, batch)), batch)
    requires Planned(w, s, batch, 0) == Some(tokens)
    ensures Told(w, journal, r, batch[j])
  {
    hide EndedWith, ClosersAfter, FailuresOf, AttemptsOf, KeyNow, DepsReady, OthersSame, Answer, Planned, NodeOf, CapTokens,
      BatchAttempt, ToldBy, NodesOf;
    var id := batch[j];
    assert id in batch && HasStatus(s.states, id, Pending);
    BatchAttempts(w, s, r, batch, envs, tokens, j);
    SameDeps(w, s, r, batch, id);
    PlannedAreCaps(w, s, batch, j);
    var accounting :| tokens[j] == CapTokens(NodeOf(w, id), w.multiplier, accounting);
    EndedWithEnded(w, r, id, envs[j], tokens[j]);
    assert [] + [BatchAttempt(id, envs[j], tokens[j])] == [BatchAttempt(id, envs[j], tokens[j])];
    assert ToldByBatch(w, r, id, NodesOf(w, batch), accounting);
  }

  lemma EndedWithEnded(w: Setup, r: RunState, id: NodeId, env: Envelope, tokens: int)
    requires EndedWith(w, r, id, env, tokens)
    ensures Ended(r, id) && id in r.results && r.results[id] == env
  {
  }

  lemma ReviewBatchTold(w: Setup, journal: Option<Rows>, s: RunState, batch: seq<NodeId>)
    requires Sane(w, s) && !s.stopped && s.journal.None? && AllTold(w, journal, s) && AllReady(w, s, batch)
    ensures AllTold(w, journal, ReviewBatch(w, s, batch))
  {
    hide Sane, ReviewBatch, BatchRan, BatchDone, NotStarted, Planned, Told, OthersSame, Advanced, AllPending, DepsReady,
      Answer, KeyNow, MadeFor;
    var r, tokens := ReviewBatch(w, s, batch), Planned(w, s, batch, 0);
    ReviewBatchReads(w, s, batch);
    ReviewBatchRuns(w, s, batch);
    RanKeepsStates(w, s, r, batch);
    if tokens.Some? {
      var envs := Answers(w, s, w.runBatch(NodesOf(w, batch)), batch);
      forall id | id in batch ensures Told(w, journal, r, id) {
        var j :| 0 <= j < |batch| && batch[j] == id;
        assert HasStatus(s.states, id, Pending) by {
          PendingIn(s, batch, id);
        }
        BatchNodeTold(w, journal, s, r, batch, envs, tokens.value, j);
      }
      BatchAdds(w, s, r, batch, envs, tokens.value);
      StepTold(w, journal, s, r, batch, r.attempts[|s.attempts|..]);
    } else {
      NotStartedTold(w, journal, s, r, batch);
    }
  }

  lemma BatchAdds(w: Setup, s: RunState, r: RunState, batch: seq<NodeId>, envs: seq<Envelope>, tokens: seq<int>)
    requires BatchDone(w, s, r, batch, envs, tokens)
    ensures r.attempts == s.attempts + r.attempts[|s.attempts|..] && MadeFor(r.attempts[|s.attempts|..], batch)
    ensures OthersSame(w, s, r, batch) && r.journal == s.journal
  {
    hide EndedWith, OthersSame, KeyNow, ClosersAfter, FailuresOf;
    var added := r.attempts[|s.attempts|..];
    forall i | 0 <= i < |added| ensures added[i].node in batch {
      assert added[i] == r.attempts[|s.attempts| + i] == BatchAttempt(batch[i], envs[i], tokens[i]);
    }
  }

  lemma NotStartedLeaves(w: Setup, s: RunState, r: RunState, batch: seq<NodeId>)
    requires NotStarted(w, s, r, batch, 0)
    ensures OthersSame(w, s, r, batch) && r.attempts == s.attempts
  {
    hide SameNode, InState, SameState;
    var k: nat :| 0 <= k < |batch| && StoppedAt(w, s, r, batch, 0, k);
    forall x | x !in batch ensures SameNode(w, s, r, x) {
      assert x !in batch[..k + 1];
    }
  }

  lemma NotStartedTold(w: Setup, journal: Option<Rows>, s: RunState, r: RunState, batch: seq<NodeId>)
    requires NotStarted(w, s, r, batch, 0) && AllPending(s, batch) && AllTold(w, journal, s)
    requires r.states.Keys == s.states.Keys && r.journal == s.journal
    ensures AllTold(w, journal, r)
  {
    hide AttemptsOf, OthersSame;
    NotStartedLeaves(w, s, r, batch);
    assert s.attempts + [] == s.attempts;
    NoAttempts(batch);
    forall id | id in batch ensures Told(w, journal, r, id) {
      assert HasStatus(s.states, id, Pending) && Told(w, journal, s, id);
    }
    StepTold(w, journal, s, r, batch, []);
  }

  lemma RanKeepsStates(w: Setup, s: RunState, r: RunState, batch: seq<NodeId>)
    requires BatchRan(w, s, r, batch)
    ensures r.states.Keys == s.states.Keys && r.journal == s.journal && Sane(w, r)
  {
    hide Sane;
  }

  lemma PendingIn(s: RunState, batch: seq<NodeId>, id: NodeId)
    requires AllPending(s, batch) && id in batch
    ensures HasStatus(s.states, id, Pending)
  {
  }

  // ---- whole runs ----

  lemma SkipsTold(w: Setup, journal: Option<Rows>, s: RunState, r: RunState)
    requires AllTold(w, journal, s) && OnlySkips(s, r)
    ensures AllTold(w, journal, r)
  {
    hide AttemptsOf, Told;
    forall id | id in r.states ensures Told(w, journal, r, id) {
      SkipTold(w, journal, s, r, id);
    }
  }

  lemma SkipTold(w: Setup, journal: Option<Rows>, s: RunState, r: RunState, id: NodeId)
    requires Told(w, journal, s, id) && OnlySkips(s, r) && id in s.states
    ensures Told(w, journal, r, id)
  {
    hide AttemptsOf, KeyNow, NodeOf, DepsNow, RowAt, ToldBy, ToldByBatch;
    SameKeyNow(w, s, r, id);
    SameDepsNow(w, s, r, id);
    StoryKept(w, journal, s, r, id);
  }

  /** Journaling a batch leaves the rows of pending nodes alone. */
  lemma JournalTold(w: Setup, journal: Option<Rows>, s: RunState, batch: seq<NodeId>)
    requires AllTold(w, journal, s) && !s.fault
    ensures AllTold(w, journal, Journaled(w, s, batch))
  {
    hide Told, Journaled;
    JournaledFacts(w, s, batch);
    var r := Journaled(w, s, batch);
    forall id | id in r.states ensures Told(w, journal, r, id) {
      if HasStatus(s.states, id, Pending) {
        assert RowAt(r.journal, id) == RowAt(s.journal, id);
      }
      JournaledTold(w, journal, s, r, id);
    }
  }

  lemma JournaledTold(w: Setup, journal: Option<Rows>, s: RunState, r: RunState, id: NodeId)
    requires Told(w, journal, s, id) && r == s.(journal := r.journal, fault := r.fault)
    requires HasStatus(s.states, id, Pending) ==> RowAt(r.journal, id) == RowAt(s.journal, id)
    ensures Told(w, journal, r, id)
  {
    hide AttemptsOf, KeyNow, NodeOf, DepsNow, RowAt, ToldBy, ToldByBatch;
    SameKeyNow(w, s, r, id);
    SameDepsNow(w, s, r, id);
    StoryKept(w, journal, s, r, id);
  }

  lemma BatchIsAllReady(w: Setup, cap: int, s: RunState)
    requires WellFormed(w.nodes) && Sane(w, s)
    ensures AllReady(w, s, Batch(w, cap, s))
  {
    hide Batch, IdSet, WellFormed, Sane;
    BatchIsReady(w, cap, s);
    forall id | id in Batch(w, cap, s) ensures DepsReady(w, s, id) {
      DepsOfNode(w, id);
    }
  }

  lemma BarrierTold(w: Setup, journal: Option<Rows>, cap: int, s: RunState)
    requires WellFormed(w.nodes) && Sane(w, s) && !s.stopped && AllTold(w, journal, s)
    ensures AllTold(w, journal, Barrier(w, s, Batch(w, cap, s)))
  {
    hide Batch, SkipFailed, Journaled, Barrier, Sane, AllTold, ReviewBatch, Agents, BatchRan, DepsReady, WellFormed;
    var batch := Batch(w, cap, s);
    BatchIsAllReady(w, cap, s);
    if CanBatch(w, s, batch) {
      ReviewBatchTold(w, journal, s, batch);
    } else {
      AgentsTold(w, journal, s, batch);
    }
    JoinedRan(w, s, batch);
    var joined := Joined(w, s, batch);
    RanKeepsStates(w, s, joined, batch);
    BarrierParts(w, s, batch);
    SkipFailedSane(w, joined, batch);
    var skipped := SkipFailed(w, joined, batch);
    SkipsTold(w, journal, joined, skipped);
    SaneHasNoFault(w, skipped);
    JournalTold(w, journal, skipped, batch);
  }

  lemma {:induction false} RunTold(w: Setup, journal: Option<Rows>, cap: int, s: RunState)
    requires WellFormed(w.nodes) && Sane(w, s) && !s.stopped && AllTold(w, journal, s)
    ensures AllTold(w, journal, Run(w, cap, s))
    decreases PendingCount(s)
  {
    hide Sane, Barrier, Batch, PendingCount, AllTerminal, WellFormed, AllTold, Run;
    RunUnfolds(w, cap, s);
    if !(AllTerminal(s.states) || Batch(w, cap, s) == []) {
      BarrierTold(w, journal, cap, s);
      var next := Barrier(w, s, Batch(w, cap, s));
      if !(next.stopped || next.fault) {
        RunTold(w, journal, cap, next);
      }
    }
  }

  lemma InitialTold(w: Setup, reviewer: string, closer: string, journal: Option<Rows>)
    ensures AllTold(w, journal, Initial(w, reviewer, closer, journal))
  {
    hide IdSet;
  }

  /** WHAT A RUN DID WITH EACH NODE. At the end of every run, from any journal and with any cap, a node that made
      attempts made exactly those that were due: on the key of its final inputs, on its dependencies' final results,
      going on from its row in the journal the run started with, and ending as its last attempt says; or it was ended
      by its own envelope of a batch. */
  lemma RunIsTold(w: Setup, cap: int, reviewer: string, closer: string, journal: Option<Rows>)
    requires WellFormed(w.nodes) && GoodRows(journal)
    ensures Sane(w, Initial(w, reviewer, closer, journal))
    ensures AllTold(w, journal, Run(w, cap, Initial(w, reviewer, closer, journal)))
  {
    hide Run, Sane, AllTold, WellFormed, GoodRows, IdSet;
    InitialIsSane(w, reviewer, closer, journal);
    InitialTold(w, reviewer, closer, journal);
    RunTold(w, journal, cap, Initial(w, reviewer, closer, journal));
  }

  lemma TwoKinds(job: Job, l: Local, attempts: seq<Attempt>, i: nat)
    requires DulyMade(job, l, attempts) && i < |attempts|
    ensures attempts[i].kind == ByAdapter || attempts[i].kind == ByFallback
  {
    hide RetryDue, FallbackDue, AsBilled, CapTokens, PlannedCeiling, LeftBefore, InCharge, Named;
    assert MadeByAdapter(job, l, attempts, i) || MadeByFallback(job, l, attempts, i);
  }

  /** Retries bound the attempts. */
  lemma DulyBounded(job: Job, l: Local, attempts: seq<Attempt>)
    requires DulyMade(job, l, attempts)
    ensures |attempts| <= AtLeastZero(l.rt.remainingRetries) + 2
  {
    hide MadeByAdapter, MadeByFallback, CapTokens, PlannedCeiling, Funded, FailedTransiently, FallbackWanted, FallbackExists,
      FallbackCeiling;
    var n := |attempts|;
    if n >= 3 {
      TwoKinds(job, l, attempts, n - 1);
      assert RetryDue(job, l, attempts, n - 2) || FallbackDue(job, l, attempts, n - 2);
      assert attempts[n - 2].kind == ByAdapter;
      assert RetryDue(job, l, attempts, n - 3);
    }
  }

  lemma CountsOn(w: Setup, r: RunState, id: NodeId, row: Option<Row>, job: Job, l: Local, d: Local)
    requires ToldBy(w, r, id, row, job, l, d) && id in r.keys && r.keys[id] == KeyNow(w, r, id)
    ensures CountedOn(w, r, id, row)
  {
    hide DulyMade, TotalActual, AttemptsOf, NodesById, ResolveInputs, DepsNow, SettledEntry, ReviewerAfter, CloserAfter,
      Complaints;
    DulyBounded(job, l, d.attempts);
    FirstIsAdapters(job, l, d.attempts);
  }

  /** The counters a node has now, going on from where it started. */
  ghost predicate CountedOn(w: Setup, r: RunState, id: NodeId, row: Option<Row>) {
    var made := AttemptsOf(r.attempts, id);
    && id in r.keys && r.keys[id] == w.keyOf(NodeOf(w, id), ResolveInputs(NodeOf(w, id), r.results))
    && var carried := row.Some? && row.value.key == r.keys[id];
    var retries := if carried then row.value.remainingRetries else NodeOf(w, id).maxSchemaRetries;
    var consumed := if carried then row.value.consumed else ZERO;
    && id in r.states
    && r.states[id].attempt == (if carried then row.value.attempt else 0) + |made|
    && r.states[id].remainingRetries <= retries && |made| <= AtLeastZero(retries) + 2
    && r.states[id].consumed == consumed.Add(TotalActual(made)) && consumed.tokens == 0
  }

  lemma BatchCountsOn(w: Setup, r: RunState, id: NodeId, nodes: seq<NodeSpec>, accounting: Accounting)
    requires ToldByBatch(w, r, id, nodes, accounting) && id in r.keys && r.keys[id] == KeyNow(w, r, id)
    ensures CountedOn(w, r, id, None)
  {
    hide TotalActual, AttemptsOf, CapTokens, Answer, ResolveInputs, NodesById;
    OneTotals(AttemptsOf(r.attempts, id));
  }

  /** THE JOURNAL'S COUNTERS OVER WHOLE RUNS. After every run from any journal, a node that attempted anything has
      numbered its attempts on from its row of the starting journal, if that row has the node's key, and never has more
      retries than the row left it; its usage adds up with the row's, which had billed nothing. */
  lemma RunCarriesOver(w: Setup, cap: int, reviewer: string, closer: string, journal: Option<Rows>, id: NodeId)
    requires WellFormed(w.nodes) && GoodRows(journal) && id in IdSet(w.nodes)
    ensures Sane(w, Initial(w, reviewer, closer, journal))
    ensures var r := Run(w, cap, Initial(w, reviewer, closer, journal));
            AttemptsOf(r.attempts, id) != [] ==> CountedOn(w, r, id, RowAt(journal, id))
  {
    hide Run, Sane, WellFormed, GoodRows, IdSet, TotalActual, ToldBy, ToldByBatch, CountedOn, DepsReady;
    RunIsTold(w, cap, reviewer, closer, journal);
    var r := Run(w, cap, Initial(w, reviewer, closer, journal));
    RunKeepsIds(w, cap, Initial(w, reviewer, closer, journal));
    assert Told(w, journal, r, id);
    if AttemptsOf(r.attempts, id) != [] {
      if exists job, l, d :: ToldBy(w, r, id, RowAt(journal, id), job, l, d) {
        var job, l, d :| ToldBy(w, r, id, RowAt(journal, id), job, l, d);
        CountsOn(w, r, id, RowAt(journal, id), job, l, d);
      } else {
        var nodes, accounting :| ToldByBatch(w, r, id, nodes, accounting);
        BatchCountsOn(w, r, id, nodes, accounting);
      }
    }
  }
}
