/** How a run ends: every node terminal unless the budget stopped it, failures skip exactly their
    transitive dependents, nothing stays reserved. */
module EngineOutcome {
  import opened AgyTypes
  import opened Budget
  import opened Scheduling
  import opened Dag
  import opened Checkpointing
  import opened Dispatching
  import opened Engine
  import opened EngineInvariants
  import opened EngineRun

  ghost predicate Lost(states: States, id: NodeId) {
    HasStatus(states, id, Failed) || HasStatus(states, id, Skipped)
  }

  /** Between barriers a node is pending or terminal, and never cancelled. */
  ghost predicate BetweenBarriers(states: States) {
    forall id :: id in states ==> states[id].status in {Pending, Succeeded, Failed, Skipped}
  }

  /** Only nodes whose dependencies all succeeded ever ran. */
  ghost predicate DepsSucceeded(deps: Deps, states: States) {
    forall x, y :: x in deps && y in deps[x] && (HasStatus(states, x, Succeeded) || HasStatus(states, x, Failed)) ==>
      HasStatus(states, y, Succeeded)
  }

  /** A skipped node has a dependency that failed or was skipped. */
  ghost predicate Justified(deps: Deps, states: States) {
    forall x :: x in deps && HasStatus(states, x, Skipped) ==> LostDep(deps, states, x)
  }

  ghost predicate LostDep(deps: Deps, states: States, x: NodeId) {
    x in deps && exists y :: y in deps[x] && Lost(states, y)
  }

  /** A dependent of a failed or skipped node is skipped; `except` holds failures not yet propagated. */
  ghost predicate Propagated(deps: Deps, states: States, except: set<NodeId>) {
    forall x, y :: x in deps && y in deps[x] && Lost(states, y) && !(y in except && HasStatus(states, y, Failed)) ==>
      HasStatus(states, x, Skipped)
  }

  ghost predicate Tidy(deps: Deps, states: States, except: set<NodeId>) {
    && states.Keys == deps.Keys
    && BetweenBarriers(states) && DepsSucceeded(deps, states) && Justified(deps, states) && Propagated(deps, states, except)
  }

  // ---- one barrier keeps the shape ----

  /** A batch of ready nodes ended; no other status changed. */
  ghost predicate EndedBatch(deps: Deps, states: States, r: States, batch: set<NodeId>) {
    && r.Keys == states.Keys
    && (forall id :: id in states && id !in batch ==> r[id] == states[id])
    && (forall id :: id in batch ==> HasStatus(states, id, Pending) && (HasStatus(r, id, Succeeded) || HasStatus(r, id, Failed)))
    && (forall id, d :: id in batch && id in deps && d in deps[id] ==> HasStatus(states, d, Succeeded))
  }

  lemma EndedTidy(deps: Deps, states: States, r: States, batch: set<NodeId>)
    requires Tidy(deps, states, {}) && EndedBatch(deps, states, r, batch)
    ensures Tidy(deps, r, batch)
  {
    forall x | x in deps && HasStatus(r, x, Skipped) ensures LostDep(deps, r, x) {
      assert LostDep(deps, states, x);
      var y :| y in deps[x] && Lost(states, y);
      assert Lost(r, y);
    }
    forall x, y | x in deps && y in deps[x] && (HasStatus(r, x, Succeeded) || HasStatus(r, x, Failed))
      ensures HasStatus(r, y, Succeeded) {
      assert HasStatus(states, y, Succeeded);
    }
    forall x, y | x in deps && y in deps[x] && Lost(r, y) && !(y in batch && HasStatus(r, y, Failed))
      ensures HasStatus(r, x, Skipped) {
      assert Lost(states, y);
    }
  }

  lemma JoinedTidy(w: Setup, s: RunState, r: RunState, batch: seq<NodeId>)
    requires Tidy(DepsOf(w.nodes), s.states, {}) && BatchRan(w, s, r, batch) && !r.stopped
    requires AllPending(s, batch)
    requires forall id, d :: id in batch && id in DepsOf(w.nodes) && d in DepsOf(w.nodes)[id] ==> HasStatus(s.states, d, Succeeded)
    ensures Tidy(DepsOf(w.nodes), r.states, Elements(batch))
  {
    hide Sane, Tidy;
    assert forall id :: id in batch <==> id in Elements(batch);
    EndedTidy(DepsOf(w.nodes), s.states, r.states, Elements(batch));
  }

  lemma SkipIsLost(deps: Deps, states: States, failed: NodeId, p: seq<NodeId>, i: nat)
    requires SkipWalk(deps, states, failed, p) && 0 < i < |p|
    ensures p[i] in SkipSet(deps, states, failed)
  {
    var q := p[..i + 1];
    assert SkipWalk(deps, states, failed, q) && q[|q| - 1] == p[i];
    assert SkipReaches(deps, states, failed, p[i]) && p[i] in states;
  }

  /** Propagating one failure settles it. */
  lemma SkipFromTidy(deps: Deps, states: States, failed: NodeId, except: set<NodeId>)
    requires Tidy(deps, states, except + {failed}) && HasStatus(states, failed, Failed)
    ensures Tidy(deps, SkipAll(states, SkipSet(deps, states, failed)), except)
  {
    hide SkipReaches;
    var skipped := SkipSet(deps, states, failed);
    var r := SkipAll(states, skipped);
    forall x | x in skipped ensures HasStatus(states, x, Pending) {
      SkippedWasSkippable(deps, states, failed, x);
    }
    forall x | x in deps && HasStatus(r, x, Skipped) ensures LostDep(deps, r, x) {
      if x in skipped {
        SkippedHasLostDep(deps, states, failed, x);
      } else {
        assert LostDep(deps, states, x);
        var y :| y in deps[x] && Lost(states, y);
        assert Lost(r, y);
      }
    }
    forall x, y | x in deps && y in deps[x] && Lost(r, y) && !(y in except && HasStatus(r, y, Failed))
      ensures HasStatus(r, x, Skipped) {
      BelowUnsucceeded(deps, states, except + {failed}, x, y);
      if y == failed || y in skipped {
        if Skippable(states[x].status) {
          SkipStepFrom(deps, states, failed, y, x);
        }
      } else {
        assert Lost(states, y);
      }
    }
    forall x, y | x in deps && y in deps[x] && (HasStatus(r, x, Succeeded) || HasStatus(r, x, Failed))
      ensures HasStatus(r, y, Succeeded) {
      assert HasStatus(states, y, Succeeded);
    }
  }

  lemma BelowUnsucceeded(deps: Deps, states: States, except: set<NodeId>, x: NodeId, y: NodeId)
    requires Tidy(deps, states, except) && x in deps && y in deps[x]
    ensures HasStatus(states, y, Succeeded) || HasStatus(states, x, Pending) || HasStatus(states, x, Skipped)
  {
  }

  lemma SkippedWasSkippable(deps: Deps, states: States, failed: NodeId, x: NodeId)
    requires x in SkipSet(deps, states, failed)
    ensures x in states && Skippable(states[x].status)
  {
    var p :| SkipWalk(deps, states, failed, p) && p[|p| - 1] == x;
  }

  lemma SkippedHasLostDep(deps: Deps, states: States, failed: NodeId, x: NodeId)
    requires x in SkipSet(deps, states, failed) && HasStatus(states, failed, Failed)
    ensures LostDep(deps, SkipAll(states, SkipSet(deps, states, failed)), x)
  {
    var skipped := SkipSet(deps, states, failed);
    var p :| SkipWalk(deps, states, failed, p) && p[|p| - 1] == x;
    var y := p[|p| - 2];
    assert y in deps[x];
    if |p| == 2 {
      assert y == failed;
      if failed in skipped {
        SkippedWasSkippable(deps, states, failed, failed);
      }
    } else {
      SkipIsLost(deps, states, failed, p, |p| - 2);
    }
    assert Lost(SkipAll(states, skipped), y);
  }

  lemma SkipStepFrom(deps: Deps, states: States, failed: NodeId, y: NodeId, x: NodeId)
    requires y == failed || y in SkipSet(deps, states, failed)
    requires x in deps && y in deps[x] && x in states && Skippable(states[x].status)
    ensures x in SkipSet(deps, states, failed)
  {
    ReachStep(deps, states, failed, y, x);
  }

  lemma SucceededNeedsNoSkip(deps: Deps, states: States, id: NodeId, except: set<NodeId>)
    requires Tidy(deps, states, except + {id}) && !HasStatus(states, id, Failed)
    ensures Tidy(deps, states, except)
  {
  }

  lemma {:induction false} SkipFailedTidy(w: Setup, s: RunState, batch: seq<NodeId>)
    requires Tidy(DepsOf(w.nodes), s.states, Elements(batch))
    ensures Tidy(DepsOf(w.nodes), SkipFailed(w, s, batch).states, {})
    decreases |batch|
  {
    hide Tidy, SkipSet, Propagated, IdSet, DepsOf;
    if batch == [] {
      assert Elements(batch) == {};
    } else {
      assert batch == [batch[0]] + batch[1..];
      assert Elements(batch) == Elements(batch[1..]) + {batch[0]};
      if HasStatus(s.states, batch[0], Failed) {
        SkipFromTidy(DepsOf(w.nodes), s.states, batch[0], Elements(batch[1..]));
        SkipFailedTidy(w, SkipFrom(w, s, batch[0]), batch[1..]);
      } else {
        SucceededNeedsNoSkip(DepsOf(w.nodes), s.states, batch[0], Elements(batch[1..]));
        SkipFailedTidy(w, s, batch[1..]);
      }
    }
  }

  lemma BarrierTidy(w: Setup, cap: int, s: RunState)
    requires WellFormed(w.nodes) && Sane(w, s) && !s.stopped && Tidy(DepsOf(w.nodes), s.states, {})
    ensures var r := Barrier(w, s, Batch(w, cap, s)); !r.stopped ==> Tidy(DepsOf(w.nodes), r.states, {})
  {
    hide Sane, Joined, SkipFailed, Barrier, Batch, Tidy, BatchRan;
    var batch := Batch(w, cap, s);
    BatchIsReady(w, cap, s);
    BarrierSane(w, s, batch);
    JoinedRan(w, s, batch);
    var joined := Joined(w, s, batch);
    if !joined.stopped {
      JoinedTidy(w, s, joined, batch);
      SkipFailedTidy(w, joined, batch);
    }
  }

  /** What is true when a run returns. */
  ghost predicate Finished(w: Setup, cap: int, r: RunState) {
    && (!r.fault ==> Sane(w, r))
    && (!r.stopped ==> Tidy(DepsOf(w.nodes), r.states, {}))
    && (!r.stopped && !r.fault ==> AllTerminal(r.states) || Batch(w, cap, r) == [])
  }

  lemma {:induction false} RunFinishes(w: Setup, cap: int, s: RunState)
    requires WellFormed(w.nodes) && Sane(w, s) && !s.stopped && Tidy(DepsOf(w.nodes), s.states, {})
    ensures Finished(w, cap, Run(w, cap, s))
    ensures Run(w, cap, s).fault ==> "" in IdSet(w.nodes) && s.journal.Some?
    decreases PendingCount(s)
  {
    hide Sane, Barrier, Batch, Tidy, PendingCount;
    SaneHasNoFault(w, s);
    if !(AllTerminal(s.states) || Batch(w, cap, s) == []) {
      BatchIsReady(w, cap, s);
      BarrierSane(w, s, Batch(w, cap, s));
      BarrierProgress(w, cap, s);
      BarrierTidy(w, cap, s);
      var next := Barrier(w, s, Batch(w, cap, s));
      if !(next.stopped || next.fault) {
        RunFinishes(w, cap, next);
      }
    }
  }

  // ---- no stall ----

  /** A pending node all of whose dependencies ended is ready. */
  lemma PendingIsReady(w: Setup, states: States, x: NodeId)
    requires WellFormed(w.nodes) && Tidy(DepsOf(w.nodes), states, {}) && HasStatus(states, x, Pending)
    requires forall d :: d in DepsOf(w.nodes)[x] ==> !HasStatus(states, d, Pending)
    ensures x in ReadySet(w.nodes, states)
  {
    hide ReadySet, IdSet, NodesById, Justified;
    ResolvableIsClosed(w.nodes);
    var n := NodesById(w.nodes)[x];
    forall d | d in n.dependencies ensures HasStatus(states, d, Succeeded) {
      assert d in DepsOf(w.nodes)[x];
      assert !Lost(states, d);
    }
    assert IsReady(states, n);
    ReadySetExact(w.nodes, states);
  }

  /** When nothing is ready, no node is pending: the first one in dependency order would be ready. */
  lemma {:induction false} NothingPending(w: Setup, states: States, order: seq<NodeId>, i: nat)
    requires WellFormed(w.nodes) && Tidy(DepsOf(w.nodes), states, {}) && ReadySet(w.nodes, states) == []
    requires TopologicalOrder(DepsOf(w.nodes), order) && i <= |order|
    ensures forall j :: 0 <= j < i ==> !HasStatus(states, order[j], Pending)
  {
    hide ReadySet, Tidy, WellFormed;
    if i > 0 {
      NothingPending(w, states, order, i - 1);
      var x := order[i - 1];
      assert Placed(DepsOf(w.nodes), order, i - 1);
      if HasStatus(states, x, Pending) {
        forall d | d in DepsOf(w.nodes)[x] ensures !HasStatus(states, d, Pending) {
          assert d in order[..i - 1];
          var j :| 0 <= j < i - 1 && order[j] == d;
        }
        PendingIsReady(w, states, x);
      }
    }
  }

  lemma NoStall(w: Setup, cap: int, r: RunState)
    requires WellFormed(w.nodes) && !HasCycle(DepsOf(w.nodes))
    requires Tidy(DepsOf(w.nodes), r.states, {}) && Batch(w, cap, r) == []
    ensures AllTerminal(r.states)
  {
    hide Tidy;
    ResolvableIsClosed(w.nodes);
    AcyclicIffOrdered(DepsOf(w.nodes));
    BatchIsReady(w, cap, r);
    var order :| TopologicalOrder(DepsOf(w.nodes), order);
    NothingPending(w, r.states, order, |order|);
    TidyTerminal(w, r.states, order);
  }

  lemma TidyTerminal(w: Setup, states: States, order: seq<NodeId>)
    requires Tidy(DepsOf(w.nodes), states, {}) && TopologicalOrder(DepsOf(w.nodes), order)
    requires forall j :: 0 <= j < |order| ==> !HasStatus(states, order[j], Pending)
    ensures AllTerminal(states)
  {
    forall id | id in states ensures IsTerminal(states[id].status) {
      assert id in order;
    }
  }

  // ---- skipped means reached from a failure ----

  /** `x` depends, directly or not, on a failed node. */
  ghost predicate DependsOnFailure(deps: Deps, states: States, x: NodeId) {
    exists p :: Walk(deps, p) && |p| > 1 && HasStatus(states, p[0], Failed) && p[|p| - 1] == x
  }

  lemma {:induction false} SkippedDependsOnFailure(deps: Deps, states: States, order: seq<NodeId>, i: nat)
    requires Tidy(deps, states, {}) && TopologicalOrder(deps, order) && i < |order|
    requires HasStatus(states, order[i], Skipped)
    ensures DependsOnFailure(deps, states, order[i])
  {
    hide Propagated;
    var x := order[i];
    assert Placed(deps, order, i) && LostDep(deps, states, x);
    var y :| y in deps[x] && Lost(states, y);
    if HasStatus(states, y, Failed) {
      assert Walk(deps, [y, x]);
      assert [y, x][0] == y && [y, x][|[y, x]| - 1] == x;
    } else {
      assert y in order[..i];
      var j :| 0 <= j < i && order[j] == y;
      SkippedDependsOnFailure(deps, states, order, j);
      var p :| Walk(deps, p) && |p| > 1 && HasStatus(states, p[0], Failed) && p[|p| - 1] == y;
      var q := p + [x];
      assert Walk(deps, q) && q[0] == p[0] && q[|q| - 1] == x;
    }
  }

  lemma {:induction false} FailureSkips(deps: Deps, states: States, p: seq<NodeId>, i: nat)
    requires Tidy(deps, states, {}) && Walk(deps, p) && HasStatus(states, p[0], Failed) && 0 < i < |p|
    ensures HasStatus(states, p[i], Skipped)
  {
    if i > 1 {
      FailureSkips(deps, states, p, i - 1);
    }
    assert p[i - 1] in deps[p[i]] && Lost(states, p[i - 1]);
  }

  /** The exact outcome of a run on an acyclic graph, whatever the adapters do and whatever the journal
      held: unless the budget stopped it, every node is terminal, exactly the transitive dependents of
      failed nodes are skipped, and what ran had all its dependencies succeed. */
  ghost predicate ExactOutcome(deps: Deps, states: States) {
    && AllTerminal(states)
    && DepsSucceeded(deps, states)
    && (forall x :: x in deps ==> (HasStatus(states, x, Skipped) <==> DependsOnFailure(deps, states, x)))
    && (forall x :: x in deps && !HasStatus(states, x, Skipped) ==> HasStatus(states, x, Succeeded) || HasStatus(states, x, Failed))
  }

  lemma TidyIsExact(deps: Deps, states: States)
    requires Closed(deps) && !HasCycle(deps) && Tidy(deps, states, {}) && AllTerminal(states)
    ensures ExactOutcome(deps, states)
  {
    AcyclicIffOrdered(deps);
    var order :| TopologicalOrder(deps, order);
    forall x | x in deps ensures HasStatus(states, x, Skipped) <==> DependsOnFailure(deps, states, x) {
      var i :| 0 <= i < |order| && order[i] == x;
      if HasStatus(states, x, Skipped) {
        SkippedDependsOnFailure(deps, states, order, i);
      }
      if DependsOnFailure(deps, states, x) {
        var p :| Walk(deps, p) && |p| > 1 && HasStatus(states, p[0], Failed) && p[|p| - 1] == x;
        FailureSkips(deps, states, p, |p| - 1);
      }
    }
  }

  lemma InitialIsSane(w: Setup, reviewer: string, closer: string, journal: Option<Rows>)
    requires GoodRows(journal)
    ensures Sane(w, Initial(w, reviewer, closer, journal))
    ensures Tidy(DepsOf(w.nodes), Initial(w, reviewer, closer, journal).states, {})
  {
    hide IdSet;
    var states := Initial(w, reviewer, closer, journal).states;
    assert forall id :: id in states ==> states[id] == FRESH;
    assert forall x :: !HasStatus(states, x, Succeeded) && !Lost(states, x);
  }

  /** No run raises an illegal transition, a commit without reservation or a malformed journal entry, and
      every run returns with nothing reserved: on every graph, cyclic ones included. */
  lemma RunLeavesNothingReserved(w: Setup, cap: int, reviewer: string, closer: string, journal: Option<Rows>)
    requires WellFormed(w.nodes) && GoodRows(journal)
    requires "" !in IdSet(w.nodes) || journal.None?
    ensures Sane(w, Initial(w, reviewer, closer, journal))
    ensures var r := Run(w, cap, Initial(w, reviewer, closer, journal));
            !r.fault && Budget.Reserved(r.entries) == ZERO
  {
    hide Run, Sane, Tidy;
    InitialIsSane(w, reviewer, closer, journal);
    var s := Initial(w, reviewer, closer, journal);
    RunFinishes(w, cap, s);
    QuietReservesNothing(w, Run(w, cap, s));
  }

  lemma QuietReservesNothing(w: Setup, r: RunState)
    requires Sane(w, r)
    ensures Budget.Reserved(r.entries) == ZERO
  {
    SumZero(ReservedOf(r.entries));
  }

  /** No stall and exact outcome. */
  lemma RunOutcome(w: Setup, cap: int, reviewer: string, closer: string, journal: Option<Rows>)
    requires WellFormed(w.nodes) && !HasCycle(DepsOf(w.nodes)) && GoodRows(journal)
    ensures Sane(w, Initial(w, reviewer, closer, journal))
    ensures var r := Run(w, cap, Initial(w, reviewer, closer, journal));
            !r.stopped && !r.fault ==> ExactOutcome(DepsOf(w.nodes), r.states)
  {
    hide Run, Sane, Tidy, ExactOutcome, Batch;
    InitialIsSane(w, reviewer, closer, journal);
    var s := Initial(w, reviewer, closer, journal);
    RunFinishes(w, cap, s);
    ResolvableIsClosed(w.nodes);
    var r := Run(w, cap, s);
    if !r.stopped && !r.fault {
      if !AllTerminal(r.states) {
        NoStall(w, cap, r);
      }
      TidyIsExact(DepsOf(w.nodes), r.states);
    }
  }
}
