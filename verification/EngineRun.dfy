/** The barrier loop to its end: termination, no exception, no leaked reservation, no stall, exact outcome. */
module EngineRun {
  import opened AgyTypes
  import opened Scheduling
  import opened Dag
  import opened Checkpointing
  import opened Dispatching
  import opened Engine
  import opened EngineInvariants
  import Sorting

  // ---- the journal step ----

  lemma {:induction false} RowsOfExact(w: Setup, s: RunState, batch: seq<NodeId>)
    ensures forall row :: row in RowsOf(w, s, batch) ==>
      row.nodeId in batch && Journalable(s, row.nodeId) && row == RowOf(w, s, row.nodeId)
    ensures forall id :: id in batch && Journalable(s, id) ==> RowOf(w, s, id) in RowsOf(w, s, batch)
  {
    if batch != [] {
      RowsOfExact(w, s, batch[..|batch| - 1]);
      assert batch == batch[..|batch| - 1] + [batch[|batch| - 1]];
    }
  }

  /** Writing rows that are a function of their node id. */
  lemma {:induction false} WrittenExact(w: Setup, s: RunState, rows: Rows, entries: seq<Row>)
    requires forall row :: row in entries ==> Journalable(s, row.nodeId) && row == RowOf(w, s, row.nodeId)
    ensures var r := Written(rows, entries);
            forall id ::
              if exists row :: row in entries && row.nodeId == id
              then id in r && Journalable(s, id) && r[id] == RowOf(w, s, id)
              else (id in r <==> id in rows) && (id in rows ==> r[id] == rows[id])
  {
    if entries != [] {
      var last := entries[|entries| - 1];
      var rest := entries[..|entries| - 1];
      assert entries == rest + [last];
      WrittenExact(w, s, rows, rest);
    }
  }

  /** What a journal holds after a barrier: the batch's committed terminal nodes, and everything it held before. */
  ghost predicate JournaledExactly(w: Setup, s: RunState, batch: seq<NodeId>, rows: Rows, r: Rows) {
    forall id ::
      if id in batch && Journalable(s, id) then id in r && r[id] == RowOf(w, s, id)
      else (id in r <==> id in rows) && (id in rows ==> r[id] == rows[id])
  }

  lemma JournaledFacts(w: Setup, s: RunState, batch: seq<NodeId>)
    ensures var r := Journaled(w, s, batch);
            && r == s.(journal := r.journal, fault := r.fault)
            && (s.journal.None? ==> r == s)
            && (r.fault && !s.fault ==> "" in batch && s.journal.Some? && r.journal == s.journal)
            && (s.journal.Some? && r.fault == s.fault && !s.fault ==>
                 r.journal.Some? && JournaledExactly(w, s, batch, s.journal.value, r.journal.value))
  {
    hide RowOf, Journalable, RowsOf, Written;
    RowsOfExact(w, s, batch);
    var entries := RowsOf(w, s, batch);
    if s.journal.Some? {
      WrittenExact(w, s, s.journal.value, entries);
      if Malformed(entries) {
        var i :| 0 <= i < |entries| && entries[i].nodeId == "";
        assert entries[i] in entries;
      } else {
        RowsCover(w, s, batch);
      }
    }
  }

  lemma RowsCover(w: Setup, s: RunState, batch: seq<NodeId>)
    ensures forall id :: (exists row :: row in RowsOf(w, s, batch) && row.nodeId == id) <==> id in batch && Journalable(s, id)
  {
    RowsOfExact(w, s, batch);
    forall id | id in batch && Journalable(s, id) ensures exists row :: row in RowsOf(w, s, batch) && row.nodeId == id {
      assert RowOf(w, s, id).nodeId == id;
    }
  }

  lemma JournaledSane(w: Setup, s: RunState, batch: seq<NodeId>)
    requires Sane(w, s)
    ensures !Journaled(w, s, batch).fault ==> Sane(w, Journaled(w, s, batch))
    ensures Journaled(w, s, batch).fault ==> "" in batch && s.journal.Some?
  {
    hide Journaled;
    JournaledFacts(w, s, batch);
    var r := Journaled(w, s, batch);
    if !r.fault && s.journal.Some? {
      forall id | id in r.journal.value ensures r.journal.value[id].consumed.tokens >= 0 {
        if id in batch && Journalable(s, id) {
          assert SaneNode(w, s, id);
        }
      }
    }
    forall id | id in r.states ensures SaneNode(w, r, id) {
      assert SaneNode(w, s, id);
    }
  }

  // ---- the skip step ----

  /** Skipping changes statuses only, and only skippable ones to skipped. */
  ghost predicate OnlySkips(s: RunState, r: RunState) {
    && r == s.(states := r.states, blockers := r.blockers)
    && r.states.Keys == s.states.Keys
    && forall id :: id in s.states ==>
         r.states[id] == s.states[id] || (Skippable(s.states[id].status) && r.states[id] == s.states[id].(status := Skipped))
  }

  lemma SkipFromOnlySkips(w: Setup, s: RunState, failed: NodeId)
    ensures OnlySkips(s, SkipFrom(w, s, failed))
  {
    forall id | id in SkipSet(DepsOf(w.nodes), s.states, failed) ensures id in s.states && Skippable(s.states[id].status) {
      var p :| SkipWalk(DepsOf(w.nodes), s.states, failed, p) && p[|p| - 1] == id;
    }
  }

  lemma SkipsKeepSane(w: Setup, s: RunState, r: RunState)
    requires Sane(w, s) && OnlySkips(s, r)
    ensures Sane(w, r)
  {
    forall id | id in r.states ensures SaneNode(w, r, id) {
      assert SaneNode(w, s, id);
    }
  }

  lemma {:induction false} SkipFailedSane(w: Setup, s: RunState, batch: seq<NodeId>)
    requires Sane(w, s)
    ensures Sane(w, SkipFailed(w, s, batch)) && OnlySkips(s, SkipFailed(w, s, batch))
    decreases |batch|
  {
    hide SkipFrom, Sane;
    if batch != [] {
      var next := if HasStatus(s.states, batch[0], Failed) then SkipFrom(w, s, batch[0]) else s;
      SkipFromOnlySkips(w, s, batch[0]);
      SkipsKeepSane(w, s, next);
      SkipFailedSane(w, next, batch[1..]);
    }
  }

  // ---- one barrier ----

  /** The batch is dispatched, before skips and journal. */
  ghost function Joined(w: Setup, s: RunState, batch: seq<NodeId>): RunState {
    if CanBatch(w, s, batch) then ReviewBatch(w, s, batch) else Agents(w, s, batch)
  }

  lemma JoinedRan(w: Setup, s: RunState, batch: seq<NodeId>)
    requires Sane(w, s) && !s.stopped && Sorting.Distinct(batch) && AllPending(s, batch)
    ensures BatchRan(w, s, Joined(w, s, batch), batch)
  {
    hide Agents, ReviewBatch, BatchRan, Sane;
    if CanBatch(w, s, batch) {
      ReviewBatchRuns(w, s, batch);
    } else {
      AgentsRun(w, s, batch);
    }
  }

  lemma BatchIsReady(w: Setup, cap: int, s: RunState)
    requires WellFormed(w.nodes)
    ensures Sorting.Distinct(Batch(w, cap, s)) && AllPending(s, Batch(w, cap, s))
    ensures forall id, d :: id in Batch(w, cap, s) && id in DepsOf(w.nodes) && d in DepsOf(w.nodes)[id] ==> HasStatus(s.states, d, Succeeded)
    ensures forall id :: id in Batch(w, cap, s) ==> id in IdSet(w.nodes)
    ensures Batch(w, cap, s) == [] <==> ReadySet(w.nodes, s.states) == []
  {
    hide IdSet, ReadySet;
    ReadySetExact(w.nodes, s.states);
    var ready := ReadySet(w.nodes, s.states);
    forall id | id in Batch(w, cap, s) ensures id in ready {
    }
  }

  /** After a barrier, journal step included. */
  lemma BarrierSane(w: Setup, s: RunState, batch: seq<NodeId>)
    requires Sane(w, s) && !s.stopped && Sorting.Distinct(batch) && AllPending(s, batch)
    ensures var r := Barrier(w, s, batch);
            && (!r.fault ==> Sane(w, r))
            && (r.fault ==> "" in batch && s.journal.Some?)
            && r.stopped == Joined(w, s, batch).stopped
            && r.states == SkipFailed(w, Joined(w, s, batch), batch).states
            && s.attempts <= r.attempts && (s.refused ==> r.refused)
            && (s.journal.None? <==> r.journal.None?)
  {
    hide Sane, Joined, SkipFailed, Journaled;
    JoinedRan(w, s, batch);
    var joined := Joined(w, s, batch);
    BarrierParts(w, s, batch);
    SkipFailedSane(w, joined, batch);
    var skipped := SkipFailed(w, joined, batch);
    JournaledSane(w, skipped, batch);
    JournaledFacts(w, skipped, batch);
    SaneHasNoFault(w, skipped);
  }

  lemma BarrierParts(w: Setup, s: RunState, batch: seq<NodeId>)
    ensures Barrier(w, s, batch) == Journaled(w, SkipFailed(w, Joined(w, s, batch), batch), batch)
  {
    hide SkipFailed, Journaled, ReviewBatch, Agents, CanBatch;
  }

  lemma SaneHasNoFault(w: Setup, s: RunState)
    requires Sane(w, s)
    ensures !s.fault && Shaped(w, s)
  {
  }

  ghost function PendingSet(s: RunState): set<NodeId> {
    set id | id in s.states && s.states[id].status == Pending
  }

  ghost function PendingCount(s: RunState): nat {
    |PendingSet(s)|
  }

  /** Every barrier takes at least one node out of pending and puts none back. */
  lemma BarrierProgress(w: Setup, cap: int, s: RunState)
    requires WellFormed(w.nodes) && Sane(w, s) && !s.stopped && Batch(w, cap, s) != []
    ensures PendingCount(Barrier(w, s, Batch(w, cap, s))) < PendingCount(s)
  {
    hide Sane, Joined, SkipFailed, Barrier, Batch;
    var batch := Batch(w, cap, s);
    BatchIsReady(w, cap, s);
    JoinedRan(w, s, batch);
    var joined := Joined(w, s, batch);
    BarrierSane(w, s, batch);
    SkipFailedSane(w, joined, batch);
    RanPending(w, s, joined, batch);
    FewerPending(s, joined, Barrier(w, s, batch), batch[0]);
  }

  lemma RanPending(w: Setup, s: RunState, joined: RunState, batch: seq<NodeId>)
    requires BatchRan(w, s, joined, batch) && batch != [] && AllPending(s, batch)
    ensures joined.states.Keys == s.states.Keys && !HasStatus(joined.states, batch[0], Pending) && HasStatus(s.states, batch[0], Pending)
    ensures forall id :: HasStatus(joined.states, id, Pending) ==> HasStatus(s.states, id, Pending)
  {
    hide Sane;
    assert batch[0] in batch;
  }

  lemma FewerPending(s: RunState, joined: RunState, r: RunState, first: NodeId)
    requires forall id :: HasStatus(joined.states, id, Pending) ==> HasStatus(s.states, id, Pending)
    requires HasStatus(s.states, first, Pending) && !HasStatus(joined.states, first, Pending)
    requires forall id :: HasStatus(r.states, id, Pending) ==> HasStatus(joined.states, id, Pending)
    ensures PendingCount(r) < PendingCount(s)
  {
    assert first in PendingSet(s) && first !in PendingSet(r);
    forall id | id in PendingSet(r) ensures id in PendingSet(s) - {first} {
      assert HasStatus(r.states, id, Pending);
    }
    SubsetSize(PendingSet(r), PendingSet(s) - {first});
  }

  // ---- the run ----

  /** Barriers until every node is terminal, nothing is ready, the budget stops the run, or an exception
      escapes. */
  ghost function Run(w: Setup, cap: int, s: RunState): RunState
    requires WellFormed(w.nodes) && Sane(w, s) && !s.stopped
    decreases PendingCount(s)
  {
    if AllTerminal(s.states) || Batch(w, cap, s) == [] then s
    else
      BatchIsReady(w, cap, s);
      BarrierSane(w, s, Batch(w, cap, s));
      BarrierProgress(w, cap, s);
      var next := Barrier(w, s, Batch(w, cap, s));
      if next.stopped || next.fault then next else Run(w, cap, next)
  }

  /** One turn of the driver loop. */
  lemma RunUnfolds(w: Setup, cap: int, s: RunState)
    requires WellFormed(w.nodes) && Sane(w, s) && !s.stopped
    ensures var batch := Batch(w, cap, s);
            var next := Barrier(w, s, batch);
            if AllTerminal(s.states) || batch == [] then Run(w, cap, s) == s
            else
              && (forall id :: id in batch ==> id in s.states)
              && PendingCount(next) < PendingCount(s)
              && if next.stopped || next.fault then Run(w, cap, s) == next
                 else Sane(w, next) && Run(w, cap, s) == Run(w, cap, next)
  {
    hide Batch, Barrier, Sane, AllTerminal, WellFormed, PendingCount;
    if !AllTerminal(s.states) && Batch(w, cap, s) != [] {
      BatchIsReady(w, cap, s);
      BarrierSane(w, s, Batch(w, cap, s));
      BarrierProgress(w, cap, s);
    }
  }
}
