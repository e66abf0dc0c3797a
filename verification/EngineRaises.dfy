/** Exactly when a run raises: the journal refuses a row without a node id, and plan-time validation does not
    refuse such an id. */
module EngineRaises {
  import opened AgyTypes
  import opened Budget
  import opened Scheduling
  import opened Dag
  import opened Checkpointing
  import opened Dispatching
  import opened Engine
  import opened EngineInvariants
  import opened EngineRun
  import opened EngineOutcome
  import Sorting

  lemma JournaledRaises(w: Setup, s: RunState, batch: seq<NodeId>)
    requires Sane(w, s)
    ensures Journaled(w, s, batch).fault <==> s.journal.Some? && "" in batch && Ended(s, "")
  {
    hide RowOf;
    RowsOfExact(w, s, batch);
    var entries := RowsOf(w, s, batch);
    assert Ended(s, "") ==> SaneNode(w, s, "");
    if "" in batch && Journalable(s, "") {
      RowOfId(w, s, "");
      var i :| 0 <= i < |entries| && entries[i] == RowOf(w, s, "");
      assert Malformed(entries);
    }
    if Malformed(entries) {
      var i :| 0 <= i < |entries| && entries[i].nodeId == "";
      assert entries[i] in entries;
    }
  }

  lemma RowOfId(w: Setup, s: RunState, id: NodeId)
    requires Journalable(s, id)
    ensures RowOf(w, s, id).nodeId == id
  {
  }

  lemma BarrierRaises(w: Setup, s: RunState, batch: seq<NodeId>)
    requires Sane(w, s) && !s.stopped && Sorting.Distinct(batch) && AllPending(s, batch) && !Ended(s, "")
    ensures var r := Barrier(w, s, batch);
            && (r.fault <==> s.journal.Some? && Ended(r, ""))
            && (!r.fault && s.journal.Some? ==> !Ended(r, ""))
            && (s.journal.Some? <==> r.journal.Some?)
  {
    hide Sane, Joined, SkipFailed, Journaled, Barrier;
    JoinedRan(w, s, batch);
    var joined := Joined(w, s, batch);
    var skipped := SkipFailed(w, joined, batch);
    BarrierParts(w, s, batch);
    BarrierSane(w, s, batch);
    SkipFailedSane(w, joined, batch);
    JournaledRaises(w, skipped, batch);
    JournaledFacts(w, skipped, batch);
  }

  lemma {:induction false} RunRaises(w: Setup, cap: int, s: RunState)
    requires WellFormed(w.nodes) && Sane(w, s) && !s.stopped && !Ended(s, "")
    ensures Run(w, cap, s).fault <==> s.journal.Some? && Ended(Run(w, cap, s), "")
    decreases PendingCount(s)
  {
    hide Sane, Barrier, Batch, AllTerminal, PendingCount, Run, WellFormed, Ended;
    RunUnfolds(w, cap, s);
    SaneHasNoFault(w, s);
    if !(AllTerminal(s.states) || Batch(w, cap, s) == []) {
      BatchIsReady(w, cap, s);
      BarrierRaises(w, s, Batch(w, cap, s));
      var next := Barrier(w, s, Batch(w, cap, s));
      if !(next.stopped || next.fault) {
        if s.journal.Some? {
          RunRaises(w, cap, next);
        } else {
          NoJournalNoFault(w, cap, next);
        }
      }
    }
  }

  lemma {:induction false} NoJournalNoFault(w: Setup, cap: int, s: RunState)
    requires WellFormed(w.nodes) && Sane(w, s) && !s.stopped && s.journal.None?
    ensures !Run(w, cap, s).fault
    decreases PendingCount(s)
  {
    hide Sane, Barrier, Batch, AllTerminal, PendingCount, Run, WellFormed;
    RunUnfolds(w, cap, s);
    SaneHasNoFault(w, s);
    if !(AllTerminal(s.states) || Batch(w, cap, s) == []) {
      BatchIsReady(w, cap, s);
      BarrierSane(w, s, Batch(w, cap, s));
      var next := Barrier(w, s, Batch(w, cap, s));
      if !(next.stopped || next.fault) {
        NoJournalNoFault(w, cap, next);
      }
    }
  }

  /** A run raises exactly when it keeps a journal and a node with the empty id succeeds or fails. */
  lemma RunRaisesExactly(w: Setup, cap: int, reviewer: string, closer: string, journal: Option<Rows>)
    requires WellFormed(w.nodes) && GoodRows(journal)
    ensures Sane(w, Initial(w, reviewer, closer, journal))
    ensures var r := Run(w, cap, Initial(w, reviewer, closer, journal));
            r.fault <==> journal.Some? && Ended(r, "")
  {
    hide Run, Sane, Tidy;
    InitialIsSane(w, reviewer, closer, journal);
    RunRaises(w, cap, Initial(w, reviewer, closer, journal));
  }

  /** One accepted graph on which every run with a journal raises, whatever the adapters do. */
  lemma EmptyIdRaises(w: Setup, cap: int, reviewer: string, closer: string)
    requires w.nodes == [NodeSpec("", "worker", [], [], Caps(0, 0), 0, [], "")] && ZERO.FitsWithin(w.limit)
    ensures WellFormed(w.nodes) && !HasCycle(DepsOf(w.nodes))
    ensures Sane(w, Initial(w, reviewer, closer, Some(map[])))
    ensures Run(w, cap, Initial(w, reviewer, closer, Some(map[]))).fault
  {
    hide Sane, Run, Barrier, Joined, SkipFailed, Batch, AllTerminal, HasCycle, DepsOf, BatchRan, Tidy;
    var s := Initial(w, reviewer, closer, Some(map[]));
    OneNodeIsFine(w);
    InitialIsSane(w, reviewer, closer, Some(map[]));
    OneNodeBatch(w, cap, s);
    RunUnfolds(w, cap, s);
    OneNodeNotRefused(w, s);
    OneNodeEnds(w, s);
    BarrierRaises(w, s, [""]);
  }

  lemma OneNodeEnds(w: Setup, s: RunState)
    requires Sane(w, s) && HasStatus(s.states, "", Pending) && !s.stopped && !Joined(w, s, [""]).stopped
    ensures Ended(Barrier(w, s, [""]), "")
  {
    hide Sane, Joined, Barrier, SkipFailed;
    JoinedRan(w, s, [""]);
    assert "" in [""];
    SkipFailedSane(w, Joined(w, s, [""]), [""]);
    BarrierSane(w, s, [""]);
  }

  lemma OneNodeIsFine(w: Setup)
    requires |w.nodes| == 1 && w.nodes[0].dependencies == []
    ensures WellFormed(w.nodes) && !HasCycle(DepsOf(w.nodes))
    ensures DepsOf(w.nodes) == map[w.nodes[0].id := []]
  {
    var id := w.nodes[0].id;
    assert w.nodes[0] in w.nodes;
    assert IdSet(w.nodes) == {id};
    var order := [id];
    assert DepsOf(w.nodes) == map[id := []];
    assert Placed(DepsOf(w.nodes), order, 0);
    assert id in order && TopologicalOrder(DepsOf(w.nodes), order);
    AcyclicIffOrdered(DepsOf(w.nodes));
  }

  lemma OneNodeBatch(w: Setup, cap: int, s: RunState)
    requires |w.nodes| == 1 && w.nodes[0].dependencies == [] && HasStatus(s.states, w.nodes[0].id, Pending)
    ensures !AllTerminal(s.states) && Batch(w, cap, s) == [w.nodes[0].id]
  {
    var id := w.nodes[0].id;
    assert IsReady(s.states, w.nodes[0]);
    assert ReadyUpTo(w.nodes, s.states, 0) == [];
    assert ReadyUpTo(w.nodes, s.states, 1) == [] + [id];
    assert id in s.states && !IsTerminal(s.states[id].status);
  }

  /** A node without token caps is admitted under any limit that is not negative. */
  lemma OneNodeNotRefused(w: Setup, s: RunState)
    requires w.nodes == [NodeSpec("", "worker", [], [], Caps(0, 0), 0, [], "")] && ZERO.FitsWithin(w.limit)
    requires s.states == map["" := FRESH] && s.entries == map[] && s.journal == Some(map[]) && !s.stopped
    ensures !Joined(w, s, [""]).stopped
  {
    hide Keyed, JobOf, LocalOf, NodeOf, CacheHit, Agent, Dispatch;
    var keyed := Keyed(w, s, "");
    FreshKeyed(w, s, "");
    NothingHeld(LedgerKeyOf(w, ""));
    FirstNode(w);
    FreeIsAdmitted(JobOf(w, keyed, ""), LocalOf(w, keyed, ""));
    MissDispatches(w, s, "");
  }

  lemma FirstNode(w: Setup)
    requires |w.nodes| == 1
    ensures NodeOf(w, w.nodes[0].id) == w.nodes[0]
  {
    assert w.nodes[0] in w.nodes && UniqueIds(w.nodes);
  }

  lemma FreshKeyed(w: Setup, s: RunState, id: NodeId)
    requires s.journal == Some(map[]) && s.entries == map[] && id in s.states
    ensures var keyed := Keyed(w, s, id);
            && LocalOf(w, keyed, id).own.None? && LocalOf(w, keyed, id).rt.consumed == ZERO
            && JobOf(w, keyed, id).w == w && JobOf(w, keyed, id).node == NodeOf(w, id)
            && JobOf(w, keyed, id).others == Some(Others(map[], LedgerKeyOf(w, id)))
            && CacheHit(w, KeyOf(keyed, id), keyed.journal).None? && keyed.stopped == s.stopped
  {
    hide Others, NodesById, ResolveInputs;
    assert Matching(map[], KeyOf(Keyed(w, s, id), id), w.epoch.id) == {};
  }

  lemma MissDispatches(w: Setup, s: RunState, id: NodeId)
    requires var keyed := Keyed(w, s, id);
             && CacheHit(w, KeyOf(keyed, id), keyed.journal).None? && !keyed.stopped
             && Dispatch(JobOf(w, keyed, id), LocalOf(w, keyed, id)).1.Some?
    ensures !Agents(w, s, [id]).stopped && Joined(w, s, [id]) == Agents(w, s, [id])
  {
    hide Keyed, JobOf, LocalOf, NodeOf, CacheHit, Dispatch;
    assert [id][1..] == [];
  }

  lemma NothingHeld(key: LedgerKey)
    ensures Others(map[], key) == ZERO
  {
    hide Sum;
    SumZero(ReservedOf(map[] - {key}));
    SumZero(CommittedOf(map[] - {key}));
  }

  lemma FreeIsAdmitted(job: Job, l: Local)
    requires Est(job.node) == 0 && ZERO.FitsWithin(job.w.limit) && job.others == Some(ZERO)
    requires l.own.None? && l.rt.consumed == ZERO
    ensures Dispatch(job, l).1.Some?
  {
    hide AttemptLoop, Dispatching.Marked, Remaining;
    var ready := Marked(l, Ready);
    assert ready.own == l.own && ready.rt.consumed == ZERO by {
      MarkedKeeps(l);
    }
    var accounting := job.w.reserveAccounting(job.node, ready.rt.attempt + 1, Remaining(job, ready));
    TimesIsProduct(0, job.w.multiplier);
    assert ReservationAmount(0, job.w.multiplier, accounting) == ZERO;
  }

  lemma MarkedKeeps(l: Local)
    ensures Marked(l, Ready).own == l.own && Marked(l, Ready).rt.consumed == l.rt.consumed
  {
  }
}
