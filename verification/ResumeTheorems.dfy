/** Crash and resume, and budgets that are large enough. */
module ResumeTheorems {
  import opened AgyTypes
  import opened Budget
  import opened Scheduling
  import opened Dag
  import opened Checkpointing
  import opened Dispatching
  import opened DispatchLimits
  import opened Engine
  import opened EngineInvariants
  import opened EngineRun
  import opened EngineOutcome
  import opened EngineMeaning
  import opened EngineResume
  import opened EngineTheorems
  import opened RunTheorems

  // ---- interrupted after some barriers ----

  /** The state in which a crash after at most `k` barriers leaves the run. */
  ghost function AfterBarriers(w: Setup, cap: int, s: RunState, k: nat): RunState
    requires WellFormed(w.nodes) && Sane(w, s) && !s.stopped
    decreases k
  {
    if k == 0 || AllTerminal(s.states) || Batch(w, cap, s) == [] then s
    else
      BatchIsReady(w, cap, s);
      BarrierSane(w, s, Batch(w, cap, s));
      var next := Barrier(w, s, Batch(w, cap, s));
      if next.stopped || next.fault then next else AfterBarriers(w, cap, next, k - 1)
  }

  /** One barrier of the interrupted run. */
  lemma AfterUnfolds(w: Setup, cap: int, s: RunState, k: nat)
    requires WellFormed(w.nodes) && Sane(w, s) && !s.stopped
    ensures var batch := Batch(w, cap, s);
            var next := Barrier(w, s, batch);
            if k == 0 || AllTerminal(s.states) || batch == [] then AfterBarriers(w, cap, s, k) == s
            else if next.stopped || next.fault then AfterBarriers(w, cap, s, k) == next
            else Sane(w, next) && AfterBarriers(w, cap, s, k) == AfterBarriers(w, cap, next, k - 1)
  {
    hide Batch, Barrier, Sane, AllTerminal, WellFormed;
    if !(k == 0 || AllTerminal(s.states) || Batch(w, cap, s) == []) {
      BatchIsReady(w, cap, s);
      BarrierSane(w, s, Batch(w, cap, s));
    }
  }

  lemma BarrierKeepsBoundary(w: Setup, m: Meaning, cap: int, s: RunState, cached: set<NodeId>)
    requires Solved(w, m) && Boundary(w, m, s, cached) && Sane(w, s) && !s.stopped && WellFormed(w.nodes)
    requires "" !in IdSet(w.nodes) || s.journal.None?
    requires !AllTerminal(s.states) && Batch(w, cap, s) != [] && !Run(w, cap, s).refused
    ensures var next := Barrier(w, s, Batch(w, cap, s));
            && Boundary(w, m, next, cached) && (s.journal.None? <==> next.journal.None?)
            && (!next.stopped && !next.fault ==> !Run(w, cap, next).refused)
  {
    hide Sane, Barrier, Batch, AllTerminal, Boundary, WellFormed, IdSet, PendingCount, Solved, Run;
    RunUnfolds(w, cap, s);
    BatchIsReady(w, cap, s);
    BarrierSane(w, s, Batch(w, cap, s));
    var next := Barrier(w, s, Batch(w, cap, s));
    if !(next.stopped || next.fault) {
      RunKeeps(w, cap, next);
    }
    BarrierFollows(w, m, cap, s, cached);
  }

  /** The interrupted run is a prefix of the uninterrupted one, and its journal is sound. */
  lemma {:induction false} PrefixFollows(w: Setup, m: Meaning, cap: int, s: RunState, cached: set<NodeId>, k: nat)
    requires Solved(w, m) && Boundary(w, m, s, cached) && Sane(w, s) && !s.stopped && WellFormed(w.nodes)
    requires "" !in IdSet(w.nodes) || s.journal.None?
    requires !Run(w, cap, s).refused
    ensures Boundary(w, m, AfterBarriers(w, cap, s, k), cached)
    ensures (s.journal.None? <==> AfterBarriers(w, cap, s, k).journal.None?)
    decreases k
  {
    hide Sane, Barrier, Batch, AllTerminal, Boundary, WellFormed, IdSet, PendingCount, Solved, Run, AfterBarriers;
    AfterUnfolds(w, cap, s, k);
    if !(k == 0 || AllTerminal(s.states) || Batch(w, cap, s) == []) {
      BarrierKeepsBoundary(w, m, cap, s, cached);
      var next := Barrier(w, s, Batch(w, cap, s));
      if !(next.stopped || next.fault) {
        PrefixFollows(w, m, cap, next, cached, k - 1);
      }
    }
  }

  lemma BoundaryJournal(w: Setup, m: Meaning, s: RunState, cached: set<NodeId>)
    requires Boundary(w, m, s, cached)
    ensures SoundJournal(w, m, s.journal)
  {
  }

  // ---- a looser ledger ----

  ghost predicate NonNegative(m: map<LedgerKey, Dims>) {
    forall k :: k in m ==> m[k].tokens >= 0 && m[k].usd >= 0.0
  }

  lemma {:induction false} SumSubmap(a: map<LedgerKey, Dims>, b: map<LedgerKey, Dims>)
    requires a.Keys <= b.Keys && NonNegative(b) && forall k :: k in a ==> a[k] == b[k]
    ensures Sum(a).FitsWithin(Sum(b))
    decreases |b|
  {
    if b != map[] {
      var k := Pick(b);
      assert |b - {k}| < |b|;
      SumSubmap(a - {k}, b - {k});
      if k in a {
        SumRemove(a, k);
      } else {
        assert a - {k} == a;
      }
    }
  }

  lemma QuietOthers(entries: Entries, key: LedgerKey)
    requires Quiet(entries)
    ensures Others(entries, key) == Sum(CommittedOf(entries - {key}))
  {
    hide Sum;
    SumZero(ReservedOf(entries - {key}));
  }

  lemma MeaningCharges(w: Setup, m: Meaning)
    requires Solved(w, m)
    ensures forall id :: id in m && m[id].Reached? ==> m[id].committed.tokens >= 0 && m[id].committed.usd >= 0.0
  {
    hide OwnOutcome, BudgetBlind;
    forall id | id in m && m[id].Reached? ensures m[id].committed.tokens >= 0 && m[id].committed.usd >= 0.0 {
      OwnOutcomeFacts(w, NodeOf(w, id), Outputs(m));
    }
  }

  /** Of two ledgers that both follow the meaning, the one with fewer entries leaves more room. */
  lemma FewerEntriesLooser(w: Setup, m: Meaning, more: Entries, fewer: Entries, key: LedgerKey)
    requires Solved(w, m) && EntriesFollow(w, m, more) && EntriesFollow(w, m, fewer) && Quiet(more) && Quiet(fewer)
    requires fewer.Keys <= more.Keys
    ensures Others(fewer, key).FitsWithin(Others(more, key))
  {
    hide Sum, Solved;
    MeaningCharges(w, m);
    QuietOthers(more, key);
    QuietOthers(fewer, key);
    SumSubmap(CommittedOf(fewer - {key}), CommittedOf(more - {key}));
  }

  // ---- resumed and original run in step ----

  /** The resumed run has the same node states as the original, a ledger with fewer entries, and at least as
      much in its journal. */
  ghost predicate InStep(w: Setup, m: Meaning, o: RunState, r: RunState, co: set<NodeId>, cr: set<NodeId>) {
    && Follows(w, m, o, co) && Follows(w, m, r, cr)
    && o.states == r.states && r.entries.Keys <= o.entries.Keys && co <= cr && !r.refused
  }

  lemma SameDeps(w: Setup, m: Meaning, o: RunState, r: RunState, id: NodeId)
    requires Agrees(m, o) && Agrees(m, r) && DepsReady(w, o, id) && DepsReady(w, r, id)
    ensures SameOn(NodeOf(w, id).dependencies, o.results, r.results)
  {
    forall d | d in NodeOf(w, id).dependencies
      ensures d in o.results && d in r.results && o.results[d] == r.results[d]
    {
      assert HasStatus(o.states, d, Succeeded) && HasStatus(r.states, d, Succeeded);
      assert AgreesAt(m, o, d) && AgreesAt(m, r, d);
    }
  }

  /** The dispatch of a keyed fresh node, in terms of the node alone. */
  lemma KeyedDispatch(w: Setup, s: RunState, id: NodeId)
    requires Sane(w, s) && HasStatus(s.states, id, Pending)
    requires var k := Keyed(w, s, id); s.journal.Some? && id in s.journal.value ==> s.journal.value[id].key != KeyOf(k, id)
    ensures var k := Keyed(w, s, id);
            && JobOf(w, k, id) == With(AloneJob(w, NodeOf(w, id), s.results), Some(Others(s.entries, LedgerKeyOf(w, id))))
            && LocalOf(w, k, id) == Reviewed(Clean(NodeOf(w, id)), s.reviewer, s.closer)
            && k.refused == s.refused
  {
    hide Sane, DepResults, ResolveInputs;
    PendingIsFresh(w, s, id);
  }

  lemma DispatchedRefused(w: Setup, k: RunState, id: NodeId)
    ensures Dispatched(w, k, id).refused == (k.refused || Dispatch(JobOf(w, k, id), LocalOf(w, k, id)).0.refused)
  {
    hide Dispatch;
  }

  /** An agent step on a node that is not journaled is a dispatch; on a journaled one it charges nothing. */
  lemma AgentRefused(w: Setup, m: Meaning, s: RunState, id: NodeId)
    requires AboutToRun(w, m, s, id)
    ensures InJournal(s, id) ==> Agent(w, s, id).refused == s.refused
    ensures !InJournal(s, id) ==>
      var alone := AloneJob(w, NodeOf(w, id), s.results);
      Agent(w, s, id).refused ==
        (s.refused || Dispatch(With(alone, Some(Others(s.entries, LedgerKeyOf(w, id)))), Clean(NodeOf(w, id))).0.refused)
  {
    hide Dispatch, OwnOutcome, Sane, Agrees, IsMeaning, BudgetBlind, CacheHit, SoundJournal, AloneJob, JobOf, Dispatched, Others;
    AgentCase(w, m, s, id);
    PendingIsFresh(w, s, id);
    if !InJournal(s, id) {
      KeyedDispatch(w, s, id);
      DispatchedRefused(w, Keyed(w, s, id), id);
      var alone := AloneJob(w, NodeOf(w, id), s.results);
      NotReview(w, id, s.results);
      DispatchReviewed(With(alone, Some(Others(s.entries, LedgerKeyOf(w, id)))), Clean(NodeOf(w, id)), s.reviewer, s.closer);
    }
  }

  lemma NotReview(w: Setup, id: NodeId, results: map<NodeId, Envelope>)
    requires Reproducible(w) && id in IdSet(w.nodes)
    ensures !IsReview(AloneJob(w, NodeOf(w, id), results).node) && AloneJob(w, NodeOf(w, id), results).w == w
    ensures AloneJob(w, NodeOf(w, id), results).others.None? && BudgetBlind(w)
    ensures AloneJob(w, NodeOf(w, id), results).node == NodeOf(w, id)
  {
  }

  lemma InStepAgent(w: Setup, m: Meaning, o: RunState, r: RunState, id: NodeId, co: set<NodeId>, cr: set<NodeId>)
    requires Solved(w, m) && InStep(w, m, o, r, co, cr) && HasStatus(o.states, id, Pending) && DepsReady(w, o, id)
    requires (InJournal(o, id) <==> id in co) && (InJournal(r, id) <==> id in cr)
    requires !Agent(w, o, id).refused
    ensures InStep(w, m, Agent(w, o, id), Agent(w, r, id), co, cr)
  {
    hide Agent, Dispatch, Sane, Agrees, IsMeaning, Reproducible, SoundJournal, EntriesFollow, TracksAt, WellFormed, Others, AloneJob;
    assert DepsReady(w, r, id);
    if !InJournal(r, id) {
      NotRefusedEither(w, m, o, r, id, co, cr);
    } else {
      AgentRefused(w, m, r, id);
    }
    FollowsStep(w, m, o, id, co);
    FollowsStep(w, m, r, id, cr);
    AfterStep(w, m, o, Agent(w, o, id), id, co);
    AfterStep(w, m, r, Agent(w, r, id), id, cr);
  }

  lemma AfterStep(w: Setup, m: Meaning, s: RunState, r: RunState, id: NodeId, cached: set<NodeId>)
    requires Stepped(w, s, r, id) && Follows(w, m, r, cached) && id in s.states
    ensures id in m && m[id].Reached? && r.states == s.states[id := m[id].rt]
  {
    hide Sane;
    assert AgreesAt(m, r, id);
  }

  lemma NotRefusedEither(w: Setup, m: Meaning, o: RunState, r: RunState, id: NodeId, co: set<NodeId>, cr: set<NodeId>)
    requires Solved(w, m) && InStep(w, m, o, r, co, cr) && HasStatus(o.states, id, Pending) && DepsReady(w, o, id)
    requires (InJournal(o, id) <==> id in co) && id !in cr && !InJournal(r, id)
    requires !Agent(w, o, id).refused
    ensures !Agent(w, r, id).refused
  {
    hide Agent, Dispatch, Sane, Agrees, IsMeaning, SoundJournal, EntriesFollow, TracksAt, WellFormed, Others, AloneJob, BudgetBlind;
    assert DepsReady(w, r, id);
    AgentRefused(w, m, o, id);
    AgentRefused(w, m, r, id);
    SameDeps(w, m, o, r, id);
    JobSame(w, NodeOf(w, id), o.results, r.results);
    var key := LedgerKeyOf(w, id);
    SaneIsQuiet(w, o);
    SaneIsQuiet(w, r);
    FewerEntriesLooser(w, m, o.entries, r.entries, key);
    PendingIsFresh(w, o, id);
    NotReview(w, id, o.results);
    var alone := AloneJob(w, NodeOf(w, id), o.results);
    DispatchLooser(With(alone, Some(Others(o.entries, key))), Some(Others(r.entries, key)), Clean(NodeOf(w, id)));
  }

  lemma SaneIsQuiet(w: Setup, s: RunState)
    requires Sane(w, s)
    ensures Quiet(s.entries)
  {
  }

  lemma {:induction false} InStepAgents(w: Setup, m: Meaning, o: RunState, r: RunState, batch: seq<NodeId>, co: set<NodeId>, cr: set<NodeId>)
    requires Solved(w, m) && InStep(w, m, o, r, co, cr)
    requires BatchReady(w, o, batch, co) && BatchReady(w, r, batch, cr)
    requires !Agents(w, o, batch).refused
    ensures InStep(w, m, Agents(w, o, batch), Agents(w, r, batch), co, cr)
    decreases |batch|
  {
    hide Agent, Follows, Solved, Sane, DepsReady, InJournal;
    if batch != [] {
      var id := batch[0];
      FollowsSane(w, m, o, co);
      FollowsSane(w, m, r, cr);
      AgentSteps(w, o, id);
      AgentSteps(w, r, id);
      var o', r' := Agent(w, o, id), Agent(w, r, id);
      RestReady(w, o, o', batch, co);
      RestReady(w, r, r', batch, cr);
      if !o'.stopped {
        RefusedSticks(w, o', batch[1..]);
      }
      InStepAgent(w, m, o, r, id, co, cr);
      FollowsSane(w, m, o', co);
      FollowsSane(w, m, r', cr);
      InStepAgents(w, m, o', r', batch[1..], co, cr);
    }
  }

  /** Skips depend on node states only, and touch nothing else but blockers. */
  lemma {:induction false} SkipsInStep(w: Setup, o: RunState, r: RunState, batch: seq<NodeId>)
    requires o.states == r.states
    ensures SkipFailed(w, o, batch).states == SkipFailed(w, r, batch).states
    decreases |batch|
  {
    hide SkipSet;
    if batch != [] {
      var o' := if HasStatus(o.states, batch[0], Failed) then SkipFrom(w, o, batch[0]) else o;
      var r' := if HasStatus(r.states, batch[0], Failed) then SkipFrom(w, r, batch[0]) else r;
      SkipsInStep(w, o', r', batch[1..]);
    }
  }

  lemma InStepBarrier(w: Setup, m: Meaning, cap: int, o: RunState, r: RunState, co: set<NodeId>, cr: set<NodeId>)
    requires Solved(w, m) && InStep(w, m, o, r, co, cr) && Boundary(w, m, o, co) && Boundary(w, m, r, cr)
    requires "" !in IdSet(w.nodes)
    requires !Barrier(w, o, Batch(w, cap, o)).refused
    ensures Batch(w, cap, r) == Batch(w, cap, o)
    ensures InStep(w, m, Barrier(w, o, Batch(w, cap, o)), Barrier(w, r, Batch(w, cap, r)), co, cr)
    ensures Boundary(w, m, Barrier(w, r, Batch(w, cap, r)), cr)
  {
    hide ReadySet, Follows, Solved, Joined, SkipFailed, Journaled, Barrier, BatchReady, IdSet, Sane, Agents, BatchRan, Boundary;
    var batch := Batch(w, cap, o);
    assert batch == Batch(w, cap, r);
    JoinedInStep(w, m, cap, o, r, co, cr);
    BarrierFromJoined(w, m, cap, o, co);
    BarrierFromJoined(w, m, cap, r, cr);
    SkipsInStep(w, Joined(w, o, batch), Joined(w, r, batch), batch);
    BarrierFollows(w, m, cap, o, co);
    BarrierFollows(w, m, cap, r, cr);
    BoundaryFollows(w, m, Barrier(w, o, batch), co);
    BoundaryFollows(w, m, Barrier(w, r, batch), cr);
  }

  lemma BoundaryFollows(w: Setup, m: Meaning, s: RunState, cached: set<NodeId>)
    requires Boundary(w, m, s, cached)
    ensures Follows(w, m, s, cached) && Sane(w, s) && !s.stopped && !s.fault
  {
    FollowsSane(w, m, s, cached);
  }

  lemma JoinedInStep(w: Setup, m: Meaning, cap: int, o: RunState, r: RunState, co: set<NodeId>, cr: set<NodeId>)
    requires Solved(w, m) && InStep(w, m, o, r, co, cr) && Boundary(w, m, o, co) && Boundary(w, m, r, cr)
    requires !Barrier(w, o, Batch(w, cap, o)).refused
    ensures Batch(w, cap, r) == Batch(w, cap, o)
    ensures InStep(w, m, Joined(w, o, Batch(w, cap, o)), Joined(w, r, Batch(w, cap, o)), co, cr)
  {
    hide ReadySet, Follows, Solved, Joined, SkipFailed, Journaled, Barrier, BatchReady, IdSet, Sane, Agents, BatchRan, Boundary;
    var batch := Batch(w, cap, o);
    BoundaryFollows(w, m, o, co);
    BatchIsReadyToFollow(w, m, cap, o, co);
    BatchIsReadyToFollow(w, m, cap, r, cr);
    PendingBatch(w, o, batch, co);
    BarrierRefused(w, o, batch);
    SolvedReproducible(w, m);
    NoReviewBatch(w, o, batch);
    NoReviewBatch(w, r, batch);
    InStepAgents(w, m, o, r, batch, co, cr);
  }

  /** The skip and journal steps leave the ledger and the refusal flag alone. */
  lemma BarrierFromJoined(w: Setup, m: Meaning, cap: int, s: RunState, cached: set<NodeId>)
    requires Solved(w, m) && Boundary(w, m, s, cached)
    ensures var batch := Batch(w, cap, s);
            var joined, r := Joined(w, s, batch), Barrier(w, s, batch);
            r.entries == joined.entries && r.refused == joined.refused && r.states == SkipFailed(w, joined, batch).states
  {
    hide Batch, Joined, SkipFailed, Journaled, Barrier, Sane, Boundary, BatchReady, Solved;
    var batch := Batch(w, cap, s);
    BoundaryFollows(w, m, s, cached);
    BatchIsReadyToFollow(w, m, cap, s, cached);
    PendingBatch(w, s, batch, cached);
    BarrierParts(w, s, batch);
    JoinedRan(w, s, batch);
    SkipFailedSane(w, Joined(w, s, batch), batch);
    JournaledFacts(w, SkipFailed(w, Joined(w, s, batch), batch), batch);
  }

  /** A run that starts in step with one that is never refused is never refused. */
  lemma {:induction false} InStepRun(w: Setup, m: Meaning, cap: int, o: RunState, r: RunState, co: set<NodeId>, cr: set<NodeId>)
    requires Solved(w, m) && InStep(w, m, o, r, co, cr) && Boundary(w, m, o, co) && Boundary(w, m, r, cr)
    requires Sane(w, o) && Sane(w, r) && !o.stopped && !r.stopped && "" !in IdSet(w.nodes)
    requires !Run(w, cap, o).refused
    ensures !Run(w, cap, r).refused
    decreases PendingCount(o)
  {
    hide Sane, Barrier, Batch, PendingCount, AllTerminal, Boundary, IsMeaning, Reproducible, WellFormed, IdSet, Follows;
    BatchFromStates(w, cap, o, r);
    if !(AllTerminal(o.states) || Batch(w, cap, o) == []) {
      BatchIsReady(w, cap, o);
      BarrierSane(w, o, Batch(w, cap, o));
      BarrierProgress(w, cap, o);
      BatchIsReady(w, cap, r);
      BarrierSane(w, r, Batch(w, cap, r));
      BarrierProgress(w, cap, r);
      var o', r' := Barrier(w, o, Batch(w, cap, o)), Barrier(w, r, Batch(w, cap, r));
      if !o'.stopped && !o'.fault {
        RunKeeps(w, cap, o');
      }
      BarrierFollows(w, m, cap, o, co);
      InStepBarrier(w, m, cap, o, r, co, cr);
      BoundaryFacts(w, m, o', co);
      BoundaryFacts(w, m, r', cr);
      InStepRun(w, m, cap, o', r', co, cr);
    }
  }

  lemma BatchFromStates(w: Setup, cap: int, o: RunState, r: RunState)
    requires o.states == r.states
    ensures Batch(w, cap, o) == Batch(w, cap, r)
  {
  }

  // ---- the resume theorem ----

  /** RESUME SIMULATES THE UNINTERRUPTED RUN. A run that journals and is never refused by the global budget
      is interrupted after any number of barriers; a new conductor starts from the journal left behind.
      With the same cap it is not refused either, and with any cap, as long as it is not refused, it ends
      with the same node states, results and journal, never attempts a journaled node, and makes for every
      other node exactly the attempts of the original run. */
  lemma ResumeSimulates(w: Setup, m: Meaning, cap: int, cap': int, reviewer: string, closer: string, k: nat)
    requires Solved(w, m) && !HasCycle(DepsOf(w.nodes)) && DistinctKeys(m) && "" !in IdSet(w.nodes)
    ensures Sane(w, Initial(w, reviewer, closer, Some(map[])))
    ensures var start := Initial(w, reviewer, closer, Some(map[]));
            var original := Run(w, cap, start);
            !original.refused ==>
              var journal := AfterBarriers(w, cap, start, k).journal;
              && journal.Some?
              && Sane(w, Initial(w, reviewer, closer, journal))
              && var resumed := Run(w, cap', Initial(w, reviewer, closer, journal));
              && (cap' == cap ==> !resumed.refused)
              && (!resumed.refused ==>
                   && SameOutcome(original, resumed)
                   && original.journal == resumed.journal
                   && (forall id :: id in m && id in journal.value ==> AttemptsOf(resumed.attempts, id) == [])
                   && (forall id :: id in m && id !in journal.value ==>
                        AttemptsOf(resumed.attempts, id) == AttemptsOf(original.attempts, id)))
  {
    hide Run, AfterBarriers, IsMeaning, Reproducible, WellFormed, Sane, Boundary, Follows, IdSet, Tidy, SoundRows, DistinctKeys, SoundJournal, AttemptsOf, DepsOf;
    var start := Initial(w, reviewer, closer, Some(map[]));
    EmptyJournalIsSound(w, m);
    InitialBoundary(w, m, reviewer, closer, Some(map[]));
    assert CachedIn(Some(map[])) == {};
    RunIsMeaning(w, m, cap, reviewer, closer, Some(map[]));
    if !Run(w, cap, start).refused {
      PrefixFollows(w, m, cap, start, {}, k);
      var stopped := AfterBarriers(w, cap, start, k);
      BoundaryJournal(w, m, stopped, {});
      InitialBoundary(w, m, reviewer, closer, stopped.journal);
      RunIsMeaning(w, m, cap', reviewer, closer, stopped.journal);
      var again := Initial(w, reviewer, closer, stopped.journal);
      RunKeeps(w, cap, start);
      RunKeeps(w, cap', again);
      FreshInStep(w, m, start, again, {}, CachedIn(stopped.journal));
      InStepRun(w, m, cap, start, again, {}, CachedIn(stopped.journal));
    }
  }

  lemma EmptyJournalIsSound(w: Setup, m: Meaning)
    requires DistinctKeys(m)
    ensures SoundJournal(w, m, Some(map[]))
  {
    hide DistinctKeys;
  }

  lemma FreshInStep(w: Setup, m: Meaning, o: RunState, r: RunState, co: set<NodeId>, cr: set<NodeId>)
    requires Boundary(w, m, o, co) && Boundary(w, m, r, cr) && o.states == r.states && co <= cr
    requires r.entries == map[] && !r.refused
    ensures InStep(w, m, o, r, co, cr)
  {
    hide Follows;
  }
}
