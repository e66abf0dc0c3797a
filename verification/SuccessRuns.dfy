/** Runs whose adapter always succeeds at a fixed price: enough to show what a limit and a cap can do. */
module SuccessRuns {
  import opened AgyTypes
  import opened Budget
  import opened Scheduling
  import opened Dag
  import opened Checkpointing
  import opened Dispatching
  import opened DispatchTheorems
  import opened Engine
  import opened EngineInvariants
  import opened EngineRun
  import opened EngineOutcome
  import opened EngineTheorems
  import opened BudgetTheorems
  import opened RefusalTheorems
  import Sorting

  /** Every attempt succeeds, with an empty artifact, for `price(node)` tokens, reserved and charged exactly. */
  ghost predicate Succeeding(w: Setup, price: NodeSpec -> nat) {
    && (forall n, a :: Success(w.run(n, a), price(n)))
    && (forall n, a, d :: w.reserveAccounting(n, a, d) == Exact)
    && (forall e :: w.commitAccounting(e) == Exact)
  }

  predicate Success(e: Envelope, tokens: nat) {
    e.status == EnvSucceeded && ActualOf(e).tokens == tokens && e.cost == 0.0 && e.artifact == map[]
  }

  /** A node's reservation fits beside what the others hold. */
  predicate FitsBeside(job: Job, others: Dims) {
    Dims(Est(job.node), 0.0).FitsWithin(job.w.limit.Sub(others))
  }

  lemma SucceedingReserve(job: Job, l: Local, price: NodeSpec -> nat)
    requires Succeeding(job.w, price) && l.own.None? && l.rt.consumed.tokens == 0 && job.others.Some?
    ensures var (admission, r) := ReserveAttempt(job, l);
            && (admission == Admitted <==> FitsBeside(job, job.others.value))
            && (admission == Admitted ==> r == l.(own := Some(Entry(job.w.epoch.id, Dims(Est(job.node), 0.0), ZERO, Open))))
            && (admission != Admitted ==> r == l.(refused := true))
  {
    hide Remaining, Times, Success;
  }

  lemma SucceedingAttempt(job: Job, l: Local, price: NodeSpec -> nat)
    requires Succeeding(job.w, price) && Armed(l) && l.own.value.committed == ZERO && l.rt.consumed.tokens == 0 && l.attempts == []
    ensures var (r, env) := RunOnce(job, l);
            && Classify(env).None? && env.artifact == map[]
            && r.rt.status == Running && r.rt.consumed.tokens == price(job.node) && !r.fault && r.refused == l.refused
            && |r.attempts| == 1 && r.own.Some? && r.own.value.committed == Dims(price(job.node), 0.0)
  {
    hide Remaining, TriagedCloser, AdapterFor;
    var counted := Counted(Marked(Marked(l, NodeStatus.Reserved), Running));
    var env := Attempting(job, counted);
    assert Success(job.w.run(job.node, AttemptInput(counted.rt.attempt, job.deps, ReviewAdapter(job.node, counted), Remaining(job, counted))), price(job.node));
  }

  /** A dispatch is refused, or succeeds at once. */
  lemma SucceedingDispatch(job: Job, l: Local, price: NodeSpec -> nat)
    requires Succeeding(job.w, price) && Dispatchable(l) && l.own.None? && l.rt.consumed.tokens == 0 && l.attempts == [] && job.others.Some?
    ensures var (d, env) := Dispatch(job, l);
            if FitsBeside(job, job.others.value) then
              && env.Some? && env.value.artifact == map[] && d.rt.status == Succeeded && d.rt.consumed.tokens == price(job.node)
              && d.own.Some? && d.own.value.committed == Dims(price(job.node), 0.0) && |d.attempts| == 1 && d.refused == l.refused
            else env.None? && d.refused && d.own.None?
  {
    hide RunOnce, ReserveAttempt, Succeeding, FitsBeside, Classify, Finish;
    var ready := Marked(l, Ready);
    SucceedingReserve(job, ready, price);
    var (admission, r) := ReserveAttempt(job, ready);
    if admission == Admitted {
      SucceedingAttempt(job, r, price);
    }
  }

  /** The cache serves the node only a success with an empty artifact, or misses. */
  ghost predicate ServesSuccess(w: Setup, s: RunState, id: NodeId) {
    var hit := CacheHit(w, KeyNow(w, s, id), s.journal);
    hit.Some? ==> hit.value.status == Succeeded && hit.value.envelope.value.artifact == map[] && hit.value.consumed.tokens == 0
  }

  /** What running one node does to such a run: it succeeds and pays its price, unless it does not fit. */
  ghost predicate Paid(w: Setup, s: RunState, r: RunState, id: NodeId, price: nat) {
    && HasStatus(r.states, id, Succeeded) && !r.stopped && r.refused == s.refused && Spent(r.entries) == Spent(s.entries).Add(Dims(price, 0.0))
    && id in r.results && r.results[id].artifact == map[] && StateOf(r, id).consumed.tokens == price
  }

  lemma SucceedingAgent(w: Setup, s: RunState, id: NodeId, price: NodeSpec -> nat)
    requires Succeeding(w, price) && Sane(w, s) && HasStatus(s.states, id, Pending) && !s.stopped
    requires !BilledBefore(w, s, id) && ServesSuccess(w, s, id)
    ensures var r := Agent(w, s, id);
            if CacheHit(w, KeyNow(w, s, id), s.journal).Some? then Paid(w, s, r, id, 0)
            else if Dims(Est(NodeOf(w, id)), 0.0).FitsWithin(w.limit.Sub(Spent(s.entries))) then Paid(w, s, r, id, price(NodeOf(w, id)))
            else r.stopped && r.refused
  {
    hide Keyed, Sane, Dispatch, CacheHit, Served, Dispatched, KeyNow, BilledBefore, Succeeding, OnlyTouched, Spent, Others, DepResults, NodesById,
      Dispatchable;
    var k := Keyed(w, s, id);
    KeyedFacts(w, s, id);
    KeyedRestores(w, s, id);
    var hit := CacheHit(w, KeyOf(k, id), k.journal);
    if hit.Some? {
      HitIsUsable(w, KeyOf(k, id), k.journal);
      ServedSteps(w, s, k, id, hit.value);
      ServedPays(w, s, k, id, hit.value);
    } else {
      DispatchedPays(w, s, k, id, price);
    }
  }

  lemma HitIsUsable(w: Setup, key: Key, journal: Option<Rows>)
    requires CacheHit(w, key, journal).Some?
    ensures CacheHit(w, key, journal).value.envelope.Some?
  {
    hide LookupIn;
  }

  lemma ServedPays(w: Setup, s: RunState, k: RunState, id: NodeId, row: Row)
    requires row.envelope.Some? && row.status == Succeeded && row.envelope.value.artifact == map[] && row.consumed.tokens == 0
    requires Served(w, k, id, row).entries == s.entries && k.stopped == s.stopped && !s.stopped && k.refused == s.refused
    ensures Paid(w, s, Served(w, k, id, row), id, 0)
  {
    hide Spent, ReleaseAt;
    Unmoved(Spent(s.entries));
  }

  lemma Unmoved(a: Dims)
    ensures a.Add(Dims(0, 0.0)) == a
  {
  }

  lemma DispatchedPays(w: Setup, s: RunState, k: RunState, id: NodeId, price: NodeSpec -> nat)
    requires Succeeding(w, price) && Sane(w, s) && HasStatus(s.states, id, Pending) && !s.stopped && k == Keyed(w, s, id)
    requires !(LocalOf(w, k, id).rt.consumed.tokens > 0)
    ensures var r := Dispatched(w, k, id);
            if Dims(Est(NodeOf(w, id)), 0.0).FitsWithin(w.limit.Sub(Spent(s.entries))) then Paid(w, s, r, id, price(NodeOf(w, id)))
            else r.stopped && r.refused
  {
    hide Keyed, Sane, Dispatch, Succeeding, OnlyTouched, Spent, Others, DepResults, NodesById;
    KeyedFacts(w, s, id);
    KeyedRestores(w, s, id);
    var job, l := JobOf(w, k, id), LocalOf(w, k, id);
    PendingHasNoEntry(w, s, id);
    SaneQuietly(w, s);
    OthersSpent(s.entries, LedgerKeyOf(w, id));
    SucceedingDispatch(job, l, price);
    MergeSpends(w, k, id, Dispatch(job, l).0);
  }

  lemma PendingHasNoEntry(w: Setup, s: RunState, id: NodeId)
    requires Sane(w, s) && HasStatus(s.states, id, Pending)
    ensures LedgerKeyOf(w, id) !in s.entries
  {
    assert SaneNode(w, s, id);
  }

  lemma SaneQuietly(w: Setup, s: RunState)
    requires Sane(w, s)
    ensures Quiet(s.entries)
  {
  }

  // ---- two caps under one limit ----

  function Unit(id: NodeId, dependencies: seq<NodeId>): NodeSpec {
    NodeSpec(id, "worker", dependencies, [], Caps(1, 0), 0, [], "")
  }

  /** `b` and `c` only differ in that `c`, listed before `b`, waits for `a`; the limit pays for two of the three. */
  ghost predicate Three(w: Setup) {
    && w.nodes == [Unit("a", []), Unit("c", ["a"]), Unit("b", [])]
    && w.limit == Dims(2, 0.0) && Succeeding(w, n => 1)
  }

  lemma ThreeShape(w: Setup)
    requires w.nodes == [Unit("a", []), Unit("c", ["a"]), Unit("b", [])]
    ensures WellFormed(w.nodes) && IdSet(w.nodes) == {"a", "b", "c"}
    ensures NodeOf(w, "a") == w.nodes[0] && NodeOf(w, "c") == w.nodes[1] && NodeOf(w, "b") == w.nodes[2]
  {
    assert w.nodes[0] in w.nodes && w.nodes[1] in w.nodes && w.nodes[2] in w.nodes;
    assert UniqueIds(w.nodes);
    forall i, d | 0 <= i < |w.nodes| && d in w.nodes[i].dependencies ensures d in IdSet(w.nodes) {
      if i == 1 {
        assert d == "a" && w.nodes[0].id == "a";
      }
    }
  }

  /** The state of such a run between barriers, as far as it matters here. */
  ghost predicate At(w: Setup, s: RunState, a: NodeStatus, c: NodeStatus, b: NodeStatus, spent: nat) {
    && Sane(w, s) && !s.stopped && s.journal.None? && s.states.Keys == {"a", "b", "c"}
    && HasStatus(s.states, "a", a) && HasStatus(s.states, "b", b) && HasStatus(s.states, "c", c)
    && Spent(s.entries) == Dims(spent, 0.0)
  }

  lemma ReadyOf(s: RunState, n: NodeSpec, status: NodeStatus)
    requires HasStatus(s.states, n.id, status) && |n.dependencies| <= 1
    ensures IsReady(s.states, n) <==> status == Pending && (n.dependencies == [] || HasStatus(s.states, n.dependencies[0], Succeeded))
  {
    if n.dependencies != [] {
      assert n.dependencies == [n.dependencies[0]];
    }
  }

  function IfReady(s: RunState, n: NodeSpec): seq<NodeId> {
    if IsReady(s.states, n) then [n.id] else []
  }

  lemma ReadyOfThree(w: Setup, s: RunState)
    requires |w.nodes| == 3
    ensures ReadySet(w.nodes, s.states) == IfReady(s, w.nodes[0]) + IfReady(s, w.nodes[1]) + IfReady(s, w.nodes[2])
  {
    hide IsReady;
    assert ReadyUpTo(w.nodes, s.states, 0) == [];
    assert ReadyUpTo(w.nodes, s.states, 1) == [] + if IsReady(s.states, w.nodes[0]) then [w.nodes[0].id] else [];
    assert ReadyUpTo(w.nodes, s.states, 2) == ReadyUpTo(w.nodes, s.states, 1) + if IsReady(s.states, w.nodes[1]) then [w.nodes[1].id] else [];
  }

  /** The ready nodes of the three, in graph order. */
  lemma ThreeReady(w: Setup, s: RunState, a: NodeStatus, c: NodeStatus, b: NodeStatus, spent: nat)
    requires w.nodes == [Unit("a", []), Unit("c", ["a"]), Unit("b", [])] && At(w, s, a, c, b, spent)
    ensures ReadySet(w.nodes, s.states) ==
      (if a == Pending then ["a"] else []) + (if c == Pending && a == Succeeded then ["c"] else []) + (if b == Pending then ["b"] else [])
  {
    hide ReadySet, IsReady, Sane, Spent;
    ReadyOf(s, w.nodes[0], a);
    ReadyOf(s, w.nodes[1], c);
    ReadyOf(s, w.nodes[2], b);
    ReadyOfThree(w, s);
  }

  /** One node of the three: it succeeds while less than the limit is spent, else it stops the run. */
  lemma ThreeAgent(w: Setup, s: RunState, id: NodeId, spent: nat)
    requires Succeeding(w, n => 1) && w.limit == Dims(2, 0.0) && Est(NodeOf(w, id)) == 1
    requires Sane(w, s) && !s.stopped && s.journal.None? && HasStatus(s.states, id, Pending) && Spent(s.entries) == Dims(spent, 0.0)
    ensures var r := Agent(w, s, id);
            && OnlyTouched(w, s, r, id) && Sane(w, r) && r.journal.None?
            && (spent < 2 ==> !r.stopped && HasStatus(r.states, id, Succeeded) && Spent(r.entries) == Dims(spent + 1, 0.0))
            && (spent >= 2 ==> r.stopped && r.refused && HasStatus(r.states, id, Ready))
  {
    hide Agent, Sane, Succeeding, NodeOf, Est, CacheHit, KeyNow, Spent;
    AgentSteps(w, s, id);
    NoJournalMisses(w, s, id);
    SucceedingAgent(w, s, id, n => 1);
    KeepsJournal(w, s, Agent(w, s, id), id);
  }

  lemma NoJournalMisses(w: Setup, s: RunState, id: NodeId)
    requires s.journal.None?
    ensures !BilledBefore(w, s, id) && ServesSuccess(w, s, id) && CacheHit(w, KeyNow(w, s, id), s.journal).None?
  {
    hide KeyNow;
  }

  lemma {:induction false} NothingFailed(w: Setup, s: RunState, batch: seq<NodeId>)
    requires forall id :: id in batch ==> !HasStatus(s.states, id, Failed)
    ensures SkipFailed(w, s, batch) == s
    decreases |batch|
  {
    hide SkipFrom, HasStatus;
    if batch != [] {
      NothingFailed(w, s, batch[1..]);
    }
  }

  /** Without a journal and without a failure a barrier is just its nodes. */
  lemma PlainBarrier(w: Setup, s: RunState, batch: seq<NodeId>)
    requires !CanBatch(w, s, batch) && Agents(w, s, batch).journal.None?
    requires forall id :: id in batch ==> !HasStatus(Agents(w, s, batch).states, id, Failed)
    ensures Barrier(w, s, batch) == Agents(w, s, batch)
  {
    hide Agents, SkipFailed, HasStatus, CanBatch;
    NothingFailed(w, Agents(w, s, batch), batch);
  }

  lemma OneAlone(w: Setup, s: RunState, id: NodeId)
    ensures Agents(w, s, [id]) == Agent(w, s, id) && !CanBatch(w, s, [id])
  {
    hide Agent;
    assert [id][1..] == [];
    assert Agents(w, Agent(w, s, id), []) == Agent(w, s, id);
  }

  lemma OneBarrier(w: Setup, s: RunState, id: NodeId)
    requires Agent(w, s, id).journal.None? && !HasStatus(Agent(w, s, id).states, id, Failed)
    ensures Barrier(w, s, [id]) == Agent(w, s, id)
  {
    hide Agent, Barrier, HasStatus, Agents, CanBatch;
    OneAlone(w, s, id);
    PlainBarrier(w, s, [id]);
  }

  lemma TwoBarrier(w: Setup, s: RunState, a: NodeId, b: NodeId)
    requires var m := Agent(w, s, a);
             var r := Agent(w, m, b);
             && !m.stopped && r.journal.None? && !HasStatus(r.states, a, Failed) && !HasStatus(r.states, b, Failed)
    requires !IsReview(NodeOf(w, a))
    ensures Barrier(w, s, [a, b]) == Agent(w, Agent(w, s, a), b)
  {
    hide Agent, Barrier, HasStatus, NodeOf, IsReview;
    var m := Agent(w, s, a);
    assert [a, b][1..] == [b] && [a, b][0] == a && a in [a, b];
    OneAlone(w, m, b);
    assert !CanBatch(w, s, [a, b]);
    hide Agents;
    PlainBarrier(w, s, [a, b]);
  }

  lemma ThreeNodes(w: Setup)
    requires Three(w)
    ensures w.nodes == [Unit("a", []), Unit("c", ["a"]), Unit("b", [])] && w.limit == Dims(2, 0.0) && Succeeding(w, n => 1)
    ensures WellFormed(w.nodes) && forall id :: id in {"a", "b", "c"} ==> Est(NodeOf(w, id)) == 1 && !IsReview(NodeOf(w, id))
  {
    ThreeShape(w);
  }

  lemma AtSane(w: Setup, s: RunState, a: NodeStatus, c: NodeStatus, b: NodeStatus, spent: nat)
    requires At(w, s, a, c, b, spent)
    ensures Sane(w, s) && !s.stopped && s.journal.None? && Spent(s.entries) == Dims(spent, 0.0)
    ensures HasStatus(s.states, "a", a) && HasStatus(s.states, "b", b) && HasStatus(s.states, "c", c)
  {
  }

  /** Running one pending node of the three while the limit lasts. */
  lemma ThreeStep(w: Setup, s: RunState, id: NodeId, a: NodeStatus, c: NodeStatus, b: NodeStatus, spent: nat)
    requires Three(w) && At(w, s, a, c, b, spent) && spent < 2
    requires (id == "a" && a == Pending) || (id == "c" && c == Pending) || (id == "b" && b == Pending)
    ensures At(w, Agent(w, s, id), if id == "a" then Succeeded else a, if id == "c" then Succeeded else c, if id == "b" then Succeeded else b, spent + 1)
    ensures !HasStatus(Agent(w, s, id).states, id, Failed)
  {
    hide Sane, Agent, Three, Spent, Est, NodeOf, Succeeding;
    ThreeNodes(w);
    assert id in {"a", "b", "c"};
    ThreeAgent(w, s, id, spent);
  }

  /** The limit is spent: the node that comes next stops the run where it is. */
  lemma ThreeStop(w: Setup, s: RunState, id: NodeId, a: NodeStatus, c: NodeStatus, b: NodeStatus)
    requires Three(w) && At(w, s, a, c, b, 2)
    requires (id == "a" && a == Pending) || (id == "c" && c == Pending) || (id == "b" && b == Pending)
    ensures var r := Agent(w, s, id);
            && r.stopped && r.refused && r.journal.None? && r.states == s.states[id := StateOf(r, id)] && HasStatus(r.states, id, Ready)
  {
    hide Sane, Agent, Three, Spent, Est, NodeOf, Succeeding;
    ThreeNodes(w);
    assert id in {"a", "b", "c"};
    ThreeAgent(w, s, id, 2);
  }

  /** One turn of the driver loop whose batch is a single node. */
  lemma ThreeTurn(w: Setup, cap: int, s: RunState, id: NodeId)
    requires WellFormed(w.nodes) && Sane(w, s) && !s.stopped && Batch(w, cap, s) == [id] && HasStatus(s.states, id, Pending)
    requires var r := Agent(w, s, id); r.journal.None? && !HasStatus(r.states, id, Failed) && !r.fault
    ensures var r := Agent(w, s, id);
            if r.stopped then EngineRun.Run(w, cap, s) == r
            else Sane(w, r) && EngineRun.Run(w, cap, s) == EngineRun.Run(w, cap, r)
  {
    hide Sane, Agent, Batch, Barrier, AllTerminal, HasStatus, WellFormed, EngineRun.Run;
    PendingIsUnfinished(s.states, id);
    OneBarrier(w, s, id);
    RunUnfolds(w, cap, s);
  }

  lemma BatchFromReady(w: Setup, cap: int, s: RunState)
    requires cap >= 1
    ensures var ready := ReadySet(w.nodes, s.states); Batch(w, cap, s) == if |ready| <= cap then ready else ready[..cap]
  {
  }

  /** The batch of a state of the three: the first ready nodes. */
  lemma ThreeBatch(w: Setup, cap: int, s: RunState, a: NodeStatus, c: NodeStatus, b: NodeStatus, spent: nat)
    requires Three(w) && At(w, s, a, c, b, spent) && cap in {1, 2}
    ensures a == Pending && c == Pending && b == Pending ==> Batch(w, cap, s) == if cap == 1 then ["a"] else ["a", "b"]
    ensures a == Succeeded && c == Pending && (cap == 1 || b != Pending) ==> Batch(w, cap, s) == ["c"]
    ensures a == Succeeded && c == Succeeded && b == Pending ==> Batch(w, cap, s) == ["b"]
  {
    hide At, ReadySet, Batch, Succeeding;
    ThreeReady(w, s, a, c, b, spent);
    BatchFromReady(w, cap, s);
  }

  /** One node at a time: `a`, then `c`, then `b` is refused. */
  lemma OneByOne(w: Setup, s: RunState)
    requires Three(w) && At(w, s, Pending, Pending, Pending, 0)
    ensures WellFormed(w.nodes) && Sane(w, s)
    ensures var r := EngineRun.Run(w, 1, s); r.stopped && r.refused && HasStatus(r.states, "c", Succeeded) && HasStatus(r.states, "b", Ready)
  {
    hide Three, At, Agent, EngineRun.Run, Batch, Sane, HasStatus, WellFormed;
    ThreeNodes(w);
    AtSane(w, s, Pending, Pending, Pending, 0);
    ThreeBatch(w, 1, s, Pending, Pending, Pending, 0);
    ThreeStep(w, s, "a", Pending, Pending, Pending, 0);
    var s1 := Agent(w, s, "a");
    AtSane(w, s1, Succeeded, Pending, Pending, 1);
    SaneHasNoFault(w, s1);
    ThreeTurn(w, 1, s, "a");
    ThreeBatch(w, 1, s1, Succeeded, Pending, Pending, 1);
    ThreeStep(w, s1, "c", Succeeded, Pending, Pending, 1);
    var s2 := Agent(w, s1, "c");
    AtSane(w, s2, Succeeded, Succeeded, Pending, 2);
    SaneHasNoFault(w, s2);
    ThreeTurn(w, 1, s1, "c");
    ThreeBatch(w, 1, s2, Succeeded, Succeeded, Pending, 2);
    LastTurn(w, 1, s2, "b", Succeeded, Succeeded, Pending);
    OthersStay(s2.states, EngineRun.Run(w, 1, s2).states, "b", "c", Succeeded);
  }

  lemma OthersStay(before: States, after: States, id: NodeId, other: NodeId, status: NodeStatus)
    requires id in after && after == before[id := after[id]] && other != id && HasStatus(before, other, status)
    ensures HasStatus(after, other, status)
  {
  }

  lemma LastTurn(w: Setup, cap: int, s: RunState, id: NodeId, a: NodeStatus, c: NodeStatus, b: NodeStatus)
    requires Three(w) && At(w, s, a, c, b, 2) && Batch(w, cap, s) == [id]
    requires (id == "a" && a == Pending) || (id == "c" && c == Pending) || (id == "b" && b == Pending)
    ensures WellFormed(w.nodes) && Sane(w, s) && !s.stopped
    ensures var r := EngineRun.Run(w, cap, s);
            r.stopped && r.refused && HasStatus(r.states, id, Ready) && id in r.states && r.states == s.states[id := r.states[id]]
  {
    hide Three, Agent, EngineRun.Run, Batch, Sane, WellFormed, Succeeding, Spent;
    ThreeNodes(w);
    ThreeStop(w, s, id, a, c, b);
    AgentSteps(w, s, id);
    SaneHasNoFault(w, Agent(w, s, id));
    ThreeTurn(w, cap, s, id);
  }

  /** Two nodes at a time: `a` and `b`, then `c` is refused. */
  lemma TwoByTwo(w: Setup, s: RunState)
    requires Three(w) && At(w, s, Pending, Pending, Pending, 0)
    ensures WellFormed(w.nodes) && Sane(w, s)
    ensures var r := EngineRun.Run(w, 2, s); r.stopped && r.refused && HasStatus(r.states, "c", Ready) && HasStatus(r.states, "b", Succeeded)
  {
    hide Three, At, Agent, EngineRun.Run, Batch, Sane, HasStatus, WellFormed, AllTerminal, Barrier, NodeOf, IsReview;
    ThreeNodes(w);
    AtSane(w, s, Pending, Pending, Pending, 0);
    ThreeBatch(w, 2, s, Pending, Pending, Pending, 0);
    ThreeStep(w, s, "a", Pending, Pending, Pending, 0);
    var m := Agent(w, s, "a");
    AtSane(w, m, Succeeded, Pending, Pending, 1);
    ThreeStep(w, m, "b", Succeeded, Pending, Pending, 1);
    var s1 := Agent(w, m, "b");
    AtSane(w, s1, Succeeded, Pending, Succeeded, 2);
    SaneHasNoFault(w, s1);
    IsNot(s1.states, "a", Succeeded, Failed);
    TwoBarrier(w, s, "a", "b");
    PendingIsUnfinished(s.states, "a");
    RunUnfolds(w, 2, s);
    ThreeBatch(w, 2, s1, Succeeded, Pending, Succeeded, 2);
    LastTurn(w, 2, s1, "c", Succeeded, Pending, Succeeded);
    OthersStay(s1.states, EngineRun.Run(w, 2, s1).states, "c", "b", Succeeded);
  }

  lemma IsNot(states: States, id: NodeId, a: NodeStatus, b: NodeStatus)
    requires HasStatus(states, id, a) && a != b
    ensures !HasStatus(states, id, b)
  {
  }

  /** UNDER A LIMIT THAT REFUSES, THE CAP MATTERS. One graph, one adapter, two caps: with cap 1 the second and last
      node paid for is `c`, with cap 2 it is `b`. */
  lemma CapMattersWhenRefused(w: Setup, reviewer: string, closer: string)
    requires Three(w)
    ensures WellFormed(w.nodes) && Sane(w, Initial(w, reviewer, closer, None))
    ensures var s := Initial(w, reviewer, closer, None);
            var a, b := EngineRun.Run(w, 1, s), EngineRun.Run(w, 2, s);
            && a.refused && b.refused
            && HasStatus(a.states, "c", Succeeded) && HasStatus(a.states, "b", Ready)
            && HasStatus(b.states, "c", Ready) && HasStatus(b.states, "b", Succeeded)
  {
    hide EngineRun.Run, Sane, Tidy, HasStatus, Succeeding, At;
    var s := Initial(w, reviewer, closer, None);
    ThreeShape(w);
    InitialIsSane(w, reviewer, closer, None);
    ThreeStart(w, s);
    OneByOne(w, s);
    TwoByTwo(w, s);
  }

  lemma ThreeStart(w: Setup, s: RunState)
    requires Sane(w, s) && s.states.Keys == {"a", "b", "c"} && (forall id :: id in s.states ==> s.states[id] == FRESH)
    requires s.entries == map[] && s.journal.None? && !s.stopped
    ensures At(w, s, Pending, Pending, Pending, 0)
  {
    hide Sane, Sum;
    SumZero(CommittedOf(s.entries));
  }

  /** There is such a setup. */
  lemma ThreeExists() returns (w: Setup)
    ensures Three(w)
  {
    var nodes := [Unit("a", []), Unit("c", ["a"]), Unit("b", [])];
    var envelope := Envelope("", "", EnvSucceeded, 0, "scripted", NoError, None, map[], 1, 0, 0.0);
    w := Setup(nodes, Epoch(0, ""), Dims(2, 0.0), 1, (n: NodeSpec, i) => n.id, (n: NodeSpec, i) => envelope,
      (batch: seq<NodeSpec>) => map[], (n, a, d) => Exact, e => Exact, None, (s: set<NodeId>) => AnyOf(s));
  }
}
