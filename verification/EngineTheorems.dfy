/** Whole runs against the meaning of the graph: cap independence, resume, sufficient budgets. */
module EngineTheorems {
  import opened AgyTypes
  import opened Budget
  import opened Scheduling
  import opened Dag
  import opened Checkpointing
  import opened Dispatching
  import opened DispatchTheorems
  import opened DispatchLimits
  import opened Engine
  import opened EngineInvariants
  import opened EngineRun
  import opened EngineMeaning
  import opened EngineResume
  import Sorting

  // ---- which attempts a run makes ----

  function AttemptsOf(attempts: seq<Attempt>, id: NodeId): seq<Attempt> {
    if attempts == [] then []
    else
      var rest := AttemptsOf(attempts[..|attempts| - 1], id);
      if attempts[|attempts| - 1].node == id then rest + [attempts[|attempts| - 1]] else rest
  }

  lemma {:induction false} AttemptsOfConcat(a: seq<Attempt>, b: seq<Attempt>, id: NodeId)
    ensures AttemptsOf(a + b, id) == AttemptsOf(a, id) + AttemptsOf(b, id)
  {
    if b == [] {
      assert a + b == a;
    } else {
      AttemptsOfConcat(a, b[..|b| - 1], id);
      assert (a + b)[..|a + b| - 1] == a + b[..|b| - 1];
    }
  }

  lemma {:induction false} AttemptsOfOwn(a: seq<Attempt>, id: NodeId, x: NodeId)
    requires forall i :: 0 <= i < |a| ==> a[i].node == id
    ensures AttemptsOf(a, x) == if x == id then a else []
  {
    if a != [] {
      AttemptsOfOwn(a[..|a| - 1], id, x);
      assert a == a[..|a| - 1] + [a[|a| - 1]];
    }
  }

  lemma OwnAttemptsAreOwn(w: Setup, node: NodeSpec, results: map<NodeId, Envelope>)
    requires BudgetBlind(w)
    ensures var v := OwnOutcome(w, node, results);
            v.Reached? && forall i :: 0 <= i < |v.attempts| ==> v.attempts[i].node == node.id
  {
    hide Dispatch, Conserved, OverrunBounded;
    OwnOutcomeFacts(w, node, results);
    var job, l := AloneJob(w, node, results), Clean(node);
    DispatchCompletes(job, l);
    var (r, env) := Dispatch(job, l);
    assert Grew(job, l, r, AtLeastZero(l.rt.remainingRetries) + 2);
  }

  // ---- the state of a run, seen against the meaning ----

  /** The attempts of this run are the meaning's attempts of the nodes it ended, except those served from
      the journal it started with. */
  ghost predicate TracksAt(m: Meaning, s: RunState, cached: set<NodeId>, id: NodeId) {
    AttemptsOf(s.attempts, id) == if Ended(s, id) && id !in cached && id in m && m[id].Reached? then m[id].attempts else []
  }

  /** Every ledger entry holds the meaning's charge of its node. */
  ghost predicate EntriesFollow(w: Setup, m: Meaning, entries: Entries) {
    forall k :: k in entries ==>
      k.0 == w.epoch.seqNo && k.1 in m && m[k.1].Reached? && entries[k].committed == m[k.1].committed
  }

  /** Everything but the journal. */
  ghost predicate Follows(w: Setup, m: Meaning, s: RunState, cached: set<NodeId>) {
    && Agrees(m, s) && Sane(w, s) && !s.stopped
    && SoundJournal(w, m, s.journal)
    && EntriesFollow(w, m, s.entries)
    && (forall id :: id in s.results ==> Ended(s, id))
    && (forall id :: id in s.states ==> TracksAt(m, s, cached, id))
  }

  ghost predicate Solved(w: Setup, m: Meaning) {
    IsMeaning(w, m) && Reproducible(w) && WellFormed(w.nodes)
  }

  ghost predicate DepsReady(w: Setup, s: RunState, id: NodeId) {
    forall d :: d in NodeOf(w, id).dependencies ==> HasStatus(s.states, d, Succeeded)
  }

  lemma FollowsStep(w: Setup, m: Meaning, s: RunState, id: NodeId, cached: set<NodeId>)
    requires Solved(w, m) && Follows(w, m, s, cached) && HasStatus(s.states, id, Pending) && DepsReady(w, s, id)
    requires InJournal(s, id) <==> id in cached
    requires !Agent(w, s, id).refused
    ensures var r := Agent(w, s, id);
            && Follows(w, m, r, cached) && Stepped(w, s, r, id)
            && (id in cached ==> r.entries == s.entries)
            && (id !in cached ==> r.entries.Keys == s.entries.Keys + {LedgerKeyOf(w, id)})
  {
    hide Agent, Sane, OwnOutcome, IsMeaning, Reproducible;
    AgentAgrees(w, m, s, id);
    AgentSteps(w, s, id);
    var r := Agent(w, s, id);
    EntriesKept(w, s, r, id);
    MeaningAttempts(w, m, s, id);
    SteppedFollows(w, m, s, r, id, cached);
    if id !in cached {
      forall k ensures k in r.entries <==> k in s.entries || k == LedgerKeyOf(w, id) {
      }
    }
  }

  lemma MeaningAttempts(w: Setup, m: Meaning, s: RunState, id: NodeId)
    requires AboutToRun(w, m, s, id)
    ensures id in m && m[id].Reached? && forall i :: 0 <= i < |m[id].attempts| ==> m[id].attempts[i].node == id
  {
    hide OwnOutcome, Sane, Agrees, IsMeaning, BudgetBlind;
    AgentCase(w, m, s, id);
    PendingIsFresh(w, s, id);
    OwnAttemptsAreOwn(w, NodeOf(w, id), s.results);
    NodeOfId(w, id);
  }

  lemma NodeOfId(w: Setup, id: NodeId)
    ensures NodeOf(w, id).id == id
  {
  }

  lemma StepTracks(m: Meaning, s: RunState, r: RunState, id: NodeId, cached: set<NodeId>, x: NodeId)
    requires TracksAt(m, s, cached, x) && HasStatus(s.states, id, Pending)
    requires r.states == s.states[id := StateOf(r, id)] && Ended(r, id)
    requires id in m && m[id].Reached? && forall i :: 0 <= i < |m[id].attempts| ==> m[id].attempts[i].node == id
    requires r.attempts == s.attempts + (if id in cached then [] else m[id].attempts)
    ensures TracksAt(m, r, cached, x)
  {
    var added := if id in cached then [] else m[id].attempts;
    AttemptsOfConcat(s.attempts, added, x);
    AttemptsOfOwn(added, id, x);
  }

  lemma StepEntries(w: Setup, m: Meaning, s: RunState, r: RunState, id: NodeId)
    requires EntriesFollow(w, m, s.entries) && id in m && m[id].Reached?
    requires forall k :: k != LedgerKeyOf(w, id) ==>
      (k in r.entries <==> k in s.entries) && (k in s.entries ==> r.entries[k] == s.entries[k])
    requires LedgerKeyOf(w, id) in r.entries ==> r.entries[LedgerKeyOf(w, id)].committed == m[id].committed
    ensures EntriesFollow(w, m, r.entries)
  {
  }

  lemma StepAgrees(w: Setup, m: Meaning, s: RunState, r: RunState, id: NodeId)
    requires Agrees(m, s) && OnlyTouched(w, s, r, id) && id in s.states && AgreesAt(m, r, id) && Ended(r, id)
    requires forall x :: x in s.results ==> Ended(s, x)
    ensures Agrees(m, r) && forall x :: x in r.results ==> Ended(r, x)
  {
    hide IdSet, AgreesAt, Ended;
    forall x | x in r.states ensures AgreesAt(m, r, x) {
      if x != id {
        UntouchedAgrees(w, m, s, r, id, x);
      }
    }
    forall x | x in r.results ensures Ended(r, x) {
      if x != id {
        UntouchedEnded(w, s, r, id, x);
      }
    }
  }

  lemma UntouchedAgrees(w: Setup, m: Meaning, s: RunState, r: RunState, id: NodeId, x: NodeId)
    requires AgreesAt(m, s, x) && OnlyTouched(w, s, r, id) && x != id && x in r.states
    ensures AgreesAt(m, r, x)
  {
  }

  lemma UntouchedEnded(w: Setup, s: RunState, r: RunState, id: NodeId, x: NodeId)
    requires OnlyTouched(w, s, r, id) && x != id
    ensures Ended(r, x) <==> Ended(s, x)
  {
  }

  lemma SteppedFollows(w: Setup, m: Meaning, s: RunState, r: RunState, id: NodeId, cached: set<NodeId>)
    requires Follows(w, m, s, cached) && HasStatus(s.states, id, Pending)
    requires Stepped(w, s, r, id) && !r.stopped && AgreesAt(m, r, id)
    requires id in m && m[id].Reached? && forall i :: 0 <= i < |m[id].attempts| ==> m[id].attempts[i].node == id
    requires r.attempts == s.attempts + (if id in cached then [] else m[id].attempts)
    requires forall k :: k != LedgerKeyOf(w, id) ==>
      (k in r.entries <==> k in s.entries) && (k in s.entries ==> r.entries[k] == s.entries[k])
    requires LedgerKeyOf(w, id) in r.entries ==> r.entries[LedgerKeyOf(w, id)].committed == m[id].committed
    ensures Follows(w, m, r, cached)
  {
    hide Sane, AgreesAt, Agrees, EntriesFollow, TracksAt;
    StepAgrees(w, m, s, r, id);
    StepEntries(w, m, s, r, id);
    forall x | x in r.states ensures TracksAt(m, r, cached, x) {
      assert TracksAt(m, s, cached, x);
      StepTracks(m, s, r, id, cached, x);
    }
  }

  // ---- a batch ----

  ghost predicate BatchReady(w: Setup, s: RunState, batch: seq<NodeId>, cached: set<NodeId>) {
    && Sorting.Distinct(batch) && AllPending(s, batch)
    && (forall id :: id in batch ==> DepsReady(w, s, id))
    && (forall id :: id in batch ==> (InJournal(s, id) <==> id in cached))
  }

  lemma RestReady(w: Setup, s: RunState, r: RunState, batch: seq<NodeId>, cached: set<NodeId>)
    requires batch != [] && BatchReady(w, s, batch, cached) && OnlyTouched(w, s, r, batch[0])
    ensures BatchReady(w, r, batch[1..], cached)
  {
    assert batch == [batch[0]] + batch[1..];
    forall id | id in batch[1..] ensures id != batch[0] && DepsReady(w, r, id) && HasStatus(r.states, id, Pending) {
      assert id in batch && DepsReady(w, s, id);
      forall d | d in NodeOf(w, id).dependencies ensures HasStatus(r.states, d, Succeeded) {
        assert HasStatus(s.states, d, Succeeded) && HasStatus(s.states, batch[0], Pending);
      }
    }
  }

  lemma RefusedSticks(w: Setup, s: RunState, batch: seq<NodeId>)
    requires Sane(w, s) && !s.stopped && Sorting.Distinct(batch) && AllPending(s, batch)
    ensures s.refused ==> Agents(w, s, batch).refused
  {
    hide Agents, Sane;
    AgentsRun(w, s, batch);
  }

  lemma {:induction false} AgentsFollow(w: Setup, m: Meaning, s: RunState, batch: seq<NodeId>, cached: set<NodeId>)
    requires Solved(w, m) && Follows(w, m, s, cached) && BatchReady(w, s, batch, cached)
    requires !Agents(w, s, batch).refused
    ensures Follows(w, m, Agents(w, s, batch), cached)
    decreases |batch|
  {
    hide Agent, Follows, Solved, Sane, DepsReady;
    if batch != [] {
      var id := batch[0];
      var next := Agent(w, s, id);
      FollowsSane(w, m, s, cached);
      AgentSteps(w, s, id);
      RestReady(w, s, next, batch, cached);
      if next.stopped {
        FollowsStep(w, m, s, id, cached);
        FollowsSane(w, m, next, cached);
      } else {
        RefusedSticks(w, next, batch[1..]);
        FollowsStep(w, m, s, id, cached);
        AgentsFollow(w, m, next, batch[1..], cached);
      }
    }
  }

  lemma FollowsSane(w: Setup, m: Meaning, s: RunState, cached: set<NodeId>)
    requires Follows(w, m, s, cached)
    ensures Sane(w, s) && !s.stopped && !s.fault && Shaped(w, s) && SoundJournal(w, m, s.journal) && Agrees(m, s)
  {
  }

  /** Without review roles the batch is always run one node at a time. */
  lemma NoReviewBatch(w: Setup, s: RunState, batch: seq<NodeId>)
    requires Reproducible(w) && (forall id :: id in batch ==> id in IdSet(w.nodes))
    ensures Joined(w, s, batch) == Agents(w, s, batch)
  {
    hide Agents, ReviewBatch, BudgetBlind;
    assert batch != [] ==> batch[0] in batch;
  }

  // ---- skips ----

  /** A node reached by a skip has a dependency that did not succeed, in the meaning as in the run. */
  lemma {:induction false} SkipIsAvoided(w: Setup, m: Meaning, s: RunState, failed: NodeId, p: seq<NodeId>, i: nat)
    requires IsMeaning(w, m) && Agrees(m, s) && Shaped(w, s) && HasStatus(s.states, failed, Failed)
    requires SkipWalk(DepsOf(w.nodes), s.states, failed, p) && 0 < i < |p|
    ensures p[i] in m && m[p[i]] == Avoided
  {
    hide OwnOutcome;
    if i == 1 {
      assert AgreesAt(m, s, failed);
    } else {
      SkipIsAvoided(w, m, s, failed, p, i - 1);
    }
    assert !Good(m, p[i - 1]);
    DepsOfNode(w, p[i]);
    assert p[i - 1] in NodeOf(w, p[i]).dependencies;
  }

  lemma SkipFromFollows(w: Setup, m: Meaning, s: RunState, failed: NodeId, cached: set<NodeId>)
    requires Solved(w, m) && Follows(w, m, s, cached) && HasStatus(s.states, failed, Failed)
    ensures Follows(w, m, SkipFrom(w, s, failed), cached)
  {
    hide Sane, SkipReaches, IsMeaning, Reproducible, WellFormed, EntriesFollow;
    var r := SkipFrom(w, s, failed);
    FollowsSane(w, m, s, cached);
    SkipFromOnlySkips(w, s, failed);
    SkipsKeepSane(w, s, r);
    forall x | x in SkipSet(DepsOf(w.nodes), s.states, failed) ensures x in m && m[x] == Avoided {
      SkipSetAvoided(w, m, s, failed, x);
    }
    SkipsFollow(w, m, s, r, SkipSet(DepsOf(w.nodes), s.states, failed), cached);
  }

  lemma SkipSetAvoided(w: Setup, m: Meaning, s: RunState, failed: NodeId, x: NodeId)
    requires IsMeaning(w, m) && Agrees(m, s) && Shaped(w, s) && HasStatus(s.states, failed, Failed)
    requires x in SkipSet(DepsOf(w.nodes), s.states, failed)
    ensures x in m && m[x] == Avoided
  {
    hide IsMeaning, Agrees;
    var p :| SkipWalk(DepsOf(w.nodes), s.states, failed, p) && p[|p| - 1] == x;
    SkipIsAvoided(w, m, s, failed, p, |p| - 1);
  }

  lemma SkipsFollow(w: Setup, m: Meaning, s: RunState, r: RunState, skipped: set<NodeId>, cached: set<NodeId>)
    requires Follows(w, m, s, cached) && OnlySkips(s, r) && Sane(w, r) && r.states == SkipAll(s.states, skipped)
    requires forall x :: x in skipped ==> x in m && m[x] == Avoided
    ensures Follows(w, m, r, cached)
  {
    hide Sane, EntriesFollow, SoundJournal, AgreesAt, TracksAt;
    forall x ensures Ended(r, x) <==> Ended(s, x) {
    }
    forall x | x in r.states ensures AgreesAt(m, r, x) && TracksAt(m, r, cached, x) {
      assert AgreesAt(m, s, x) && TracksAt(m, s, cached, x);
      SkippedAgrees(m, s, r, skipped, cached, x);
    }
  }

  lemma SkippedAgrees(m: Meaning, s: RunState, r: RunState, skipped: set<NodeId>, cached: set<NodeId>, x: NodeId)
    requires OnlySkips(s, r) && r.states == SkipAll(s.states, skipped) && x in s.states
    requires x in skipped ==> x in m && m[x] == Avoided
    requires AgreesAt(m, s, x) && TracksAt(m, s, cached, x) && (Ended(r, x) <==> Ended(s, x))
    ensures AgreesAt(m, r, x) && TracksAt(m, r, cached, x)
  {
  }

  lemma {:induction false} SkipFailedFollows(w: Setup, m: Meaning, s: RunState, batch: seq<NodeId>, cached: set<NodeId>)
    requires Solved(w, m) && Follows(w, m, s, cached)
    ensures Follows(w, m, SkipFailed(w, s, batch), cached)
    decreases |batch|
  {
    hide Follows, SkipFrom, Solved;
    if batch != [] {
      if HasStatus(s.states, batch[0], Failed) {
        SkipFromFollows(w, m, s, batch[0], cached);
      }
      SkipFailedFollows(w, m, if HasStatus(s.states, batch[0], Failed) then SkipFrom(w, s, batch[0]) else s, batch[1..], cached);
    }
  }

  // ---- the journal ----

  function EndedSet(s: RunState): set<NodeId> {
    set id | id in s.states && s.states[id].status in {Succeeded, Failed}
  }

  /** Between barriers the journal holds exactly what the run started with and what it ended since. */
  ghost predicate Boundary(w: Setup, m: Meaning, s: RunState, cached: set<NodeId>) {
    && Follows(w, m, s, cached)
    && (s.journal.Some? ==> s.journal.value.Keys == cached + EndedSet(s))
    && (s.journal.None? ==> cached == {})
  }

  lemma RowAgrees(w: Setup, m: Meaning, s: RunState, id: NodeId)
    requires AgreesAt(m, s, id) && Journalable(s, id)
    ensures id in m && m[id].Reached? && RowOf(w, s, id) == MeaningRow(w, id, m[id])
  {
  }

  lemma JournaledSound(w: Setup, m: Meaning, s: RunState, batch: seq<NodeId>, rows: Rows, r: Rows)
    requires Agrees(m, s) && SoundRows(w, m, rows) && JournaledExactly(w, s, batch, rows, r)
    ensures SoundRows(w, m, r)
  {
    hide RowOf;
    forall id | id in r ensures id in m && m[id].Reached? && r[id] == MeaningRow(w, id, m[id]) {
      if id in batch && Journalable(s, id) {
        assert AgreesAt(m, s, id);
        RowAgrees(w, m, s, id);
      }
    }
  }

  lemma JournaledKeys(w: Setup, s: RunState, batch: seq<NodeId>, rows: Rows, r: Rows)
    requires JournaledExactly(w, s, batch, rows, r) && Sane(w, s)
    ensures r.Keys == rows.Keys + (Elements(batch) * EndedSet(s))
  {
    hide RowOf;
    forall id ensures id in batch && Journalable(s, id) <==> id in Elements(batch) * EndedSet(s) {
      if id in s.states {
        assert SaneNode(w, s, id);
      }
    }
  }

  lemma JournaledFollows(w: Setup, m: Meaning, s: RunState, batch: seq<NodeId>, cached: set<NodeId>)
    requires Follows(w, m, s, cached) && !Journaled(w, s, batch).fault
    ensures var r := Journaled(w, s, batch);
            && Follows(w, m, r, cached)
            && (s.journal.Some? ==> r.journal.Some? && r.journal.value.Keys == s.journal.value.Keys + (Elements(batch) * EndedSet(s)))
            && (s.journal.None? <==> r.journal.None?)
            && EndedSet(r) == EndedSet(s) && r.refused == s.refused && r.entries == s.entries && r.states == s.states
            && r.results == s.results
  {
    hide Journaled, Sane, EntriesFollow, TracksAt, AgreesAt;
    FollowsSane(w, m, s, cached);
    JournaledSane(w, s, batch);
    JournaledFacts(w, s, batch);
    var r := Journaled(w, s, batch);
    if s.journal.Some? {
      JournaledSound(w, m, s, batch, s.journal.value, r.journal.value);
      JournaledKeys(w, s, batch, s.journal.value, r.journal.value);
    }
    SameButJournal(w, m, s, r, cached);
  }

  lemma SameButJournal(w: Setup, m: Meaning, s: RunState, r: RunState, cached: set<NodeId>)
    requires Follows(w, m, s, cached) && r == s.(journal := r.journal) && Sane(w, r) && SoundJournal(w, m, r.journal)
    ensures Follows(w, m, r, cached)
  {
    hide Sane, EntriesFollow, SoundJournal;
    forall x | x in r.states ensures AgreesAt(m, r, x) && TracksAt(m, r, cached, x) {
      assert AgreesAt(m, s, x) && TracksAt(m, s, cached, x);
    }
  }

  // ---- one barrier and the whole run ----

  lemma BatchIsReadyToFollow(w: Setup, m: Meaning, cap: int, s: RunState, cached: set<NodeId>)
    requires Solved(w, m) && Boundary(w, m, s, cached)
    ensures BatchReady(w, s, Batch(w, cap, s), cached)
    ensures forall id :: id in Batch(w, cap, s) ==> id in IdSet(w.nodes)
  {
    hide Batch, Follows, IsMeaning, Reproducible, IdSet, WellFormed, SoundJournal;
    BatchIsReady(w, cap, s);
    FollowsSane(w, m, s, cached);
    forall id | id in Batch(w, cap, s) ensures DepsReady(w, s, id) && (InJournal(s, id) <==> id in cached) {
      assert HasStatus(s.states, id, Pending);
      DepsOfNode(w, id);
    }
  }

  /** The dispatched and skipped batch follows the meaning. */
  lemma JoinedFollows(w: Setup, m: Meaning, s: RunState, batch: seq<NodeId>, cached: set<NodeId>)
    requires Solved(w, m) && Follows(w, m, s, cached) && BatchReady(w, s, batch, cached)
    requires forall id :: id in batch ==> id in IdSet(w.nodes)
    requires !Joined(w, s, batch).refused
    ensures var joined := Joined(w, s, batch);
            && Follows(w, m, SkipFailed(w, joined, batch), cached)
            && EndedSet(SkipFailed(w, joined, batch)) == EndedSet(s) + Elements(batch)
            && SkipFailed(w, joined, batch).journal == s.journal
  {
    hide Follows, Solved, Joined, SkipFailed, Agents, BatchReady, IdSet, Sane;
    PendingBatch(w, s, batch, cached);
    FollowsSane(w, m, s, cached);
    SolvedReproducible(w, m);
    NoReviewBatch(w, s, batch);
    JoinedRan(w, s, batch);
    var joined := Joined(w, s, batch);
    SkipFailedSane(w, joined, batch);
    AgentsFollow(w, m, s, batch, cached);
    FollowsSane(w, m, joined, cached);
    SkipFailedFollows(w, m, joined, batch, cached);
    EndedByBarrier(w, m, s, joined, SkipFailed(w, joined, batch), batch, cached);
  }

  lemma BarrierFollows(w: Setup, m: Meaning, cap: int, s: RunState, cached: set<NodeId>)
    requires Solved(w, m) && Boundary(w, m, s, cached)
    requires "" !in IdSet(w.nodes) || s.journal.None?
    requires !Barrier(w, s, Batch(w, cap, s)).refused
    ensures var r := Barrier(w, s, Batch(w, cap, s)); !r.fault && Boundary(w, m, r, cached)
  {
    hide Batch, Follows, Solved, Joined, SkipFailed, Journaled, Barrier, BatchReady, IdSet, Sane, BatchRan, OnlySkips, EndedSet, AllPending, SoundJournal, Agrees;
    var batch := Batch(w, cap, s);
    BatchIsReadyToFollow(w, m, cap, s, cached);
    PendingBatch(w, s, batch, cached);
    FollowsSane(w, m, s, cached);
    BarrierParts(w, s, batch);
    BarrierSane(w, s, batch);
    var skipped := SkipFailed(w, Joined(w, s, batch), batch);
    BarrierRefused(w, s, batch);
    JoinedFollows(w, m, s, batch, cached);
    assert !Journaled(w, skipped, batch).fault;
    JournaledFollows(w, m, skipped, batch, cached);
    AddEnded(cached, EndedSet(s), Elements(batch));
  }

  lemma AddEnded(cached: set<NodeId>, ended: set<NodeId>, batch: set<NodeId>)
    ensures cached + ended + (batch * (ended + batch)) == cached + (ended + batch)
  {
  }

  lemma BarrierRefused(w: Setup, s: RunState, batch: seq<NodeId>)
    requires Sane(w, s) && !s.stopped && Sorting.Distinct(batch) && AllPending(s, batch)
    ensures Joined(w, s, batch).refused == Barrier(w, s, batch).refused
  {
    hide Joined, SkipFailed, Journaled, Barrier, Sane;
    BarrierParts(w, s, batch);
    JoinedRan(w, s, batch);
    SkipFailedSane(w, Joined(w, s, batch), batch);
    JournaledFacts(w, SkipFailed(w, Joined(w, s, batch), batch), batch);
  }

  lemma SolvedReproducible(w: Setup, m: Meaning)
    requires Solved(w, m)
    ensures Reproducible(w) && WellFormed(w.nodes) && IsMeaning(w, m)
  {
  }

  lemma PendingBatch(w: Setup, s: RunState, batch: seq<NodeId>, cached: set<NodeId>)
    requires BatchReady(w, s, batch, cached)
    ensures Sorting.Distinct(batch) && AllPending(s, batch)
  {
  }

  lemma EndedByBarrier(w: Setup, m: Meaning, s: RunState, joined: RunState, skipped: RunState, batch: seq<NodeId>, cached: set<NodeId>)
    requires BatchRan(w, s, joined, batch) && !joined.stopped && OnlySkips(joined, skipped) && AllPending(s, batch)
    ensures EndedSet(skipped) == EndedSet(s) + Elements(batch) && joined.journal == s.journal
  {
    hide Sane, BatchRan, OnlySkips, EndedSet;
    BatchJournal(w, s, joined, batch);
    forall id ensures id in EndedSet(skipped) <==> id in EndedSet(s) || id in Elements(batch) {
      EndedAfter(w, s, joined, skipped, batch, id);
      assert id in batch <==> id in Elements(batch);
    }
  }

  lemma BatchJournal(w: Setup, s: RunState, joined: RunState, batch: seq<NodeId>)
    requires BatchRan(w, s, joined, batch)
    ensures joined.journal == s.journal && joined.states.Keys == s.states.Keys
  {
    hide Sane;
  }

  lemma EndedAfter(w: Setup, s: RunState, joined: RunState, skipped: RunState, batch: seq<NodeId>, id: NodeId)
    requires BatchRan(w, s, joined, batch) && !joined.stopped && OnlySkips(joined, skipped) && AllPending(s, batch)
    ensures id in EndedSet(skipped) <==> id in EndedSet(s) || id in batch
  {
    hide Sane;
    assert id in batch ==> Ended(joined, id);
  }

  lemma {:induction false} RunKeeps(w: Setup, cap: int, s: RunState)
    requires WellFormed(w.nodes) && Sane(w, s) && !s.stopped
    ensures s.refused ==> Run(w, cap, s).refused
    ensures s.journal.None? <==> Run(w, cap, s).journal.None?
    decreases PendingCount(s)
  {
    hide Sane, Barrier, Batch, PendingCount, AllTerminal;
    if !(AllTerminal(s.states) || Batch(w, cap, s) == []) {
      BatchIsReady(w, cap, s);
      BarrierSane(w, s, Batch(w, cap, s));
      BarrierProgress(w, cap, s);
      var next := Barrier(w, s, Batch(w, cap, s));
      if !(next.stopped || next.fault) {
        RunKeeps(w, cap, next);
      }
    }
  }

  /** A run that the global budget never refused follows the meaning to its end. */
  lemma {:induction false} RunFollows(w: Setup, m: Meaning, cap: int, s: RunState, cached: set<NodeId>)
    requires Solved(w, m) && Boundary(w, m, s, cached) && Sane(w, s) && !s.stopped
    requires "" !in IdSet(w.nodes) || s.journal.None?
    requires !Run(w, cap, s).refused
    ensures var r := Run(w, cap, s); Boundary(w, m, r, cached) && !r.fault && !r.stopped
    ensures AllTerminal(Run(w, cap, s).states) || Batch(w, cap, Run(w, cap, s)) == []
    decreases PendingCount(s)
  {
    hide Sane, Barrier, Batch, PendingCount, AllTerminal, Boundary, IsMeaning, Reproducible, WellFormed, IdSet;
    BoundaryFacts(w, m, s, cached);
    if !(AllTerminal(s.states) || Batch(w, cap, s) == []) {
      BatchIsReady(w, cap, s);
      BarrierSane(w, s, Batch(w, cap, s));
      BarrierProgress(w, cap, s);
      var next := Barrier(w, s, Batch(w, cap, s));
      if next.stopped || next.fault {
        BarrierFollows(w, m, cap, s, cached);
        BoundaryFacts(w, m, next, cached);
      } else {
        RunKeeps(w, cap, next);
        BarrierFollows(w, m, cap, s, cached);
        RunFollows(w, m, cap, next, cached);
      }
    }
  }

  lemma BoundaryFacts(w: Setup, m: Meaning, s: RunState, cached: set<NodeId>)
    requires Boundary(w, m, s, cached)
    ensures Sane(w, s) && !s.stopped && !s.fault
  {
    hide Sane;
    FollowsSane(w, m, s, cached);
  }
}
