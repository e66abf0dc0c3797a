/** The global budget over whole runs: when it is large enough, and how far it can be overrun. */
module BudgetTheorems {
  import opened AgyTypes
  import opened Budget
  import opened Scheduling
  import opened Dag
  import opened Checkpointing
  import opened Dispatching
  import opened DispatchTheorems
  import opened DispatchLimits
  import opened Engine
  import opened EngineInvariants
  import opened EngineRun
  import opened EngineOutcome
  import opened EngineMeaning
  import opened EngineResume
  import opened EngineTheorems
  import opened RunTheorems
  import opened ResumeTheorems
  import Sorting

  // ---- a budget that is never felt ----

  /** What every reached node is charged, as a ledger column. */
  function ChargeColumn(w: Setup, m: Meaning): map<LedgerKey, Dims> {
    map k | k in (set id | id in m && m[id].Reached? :: LedgerKeyOf(w, id)) :: m[k.1].committed
  }

  /** The whole graph's charges plus any one reservation fit in the limit. */
  ghost predicate Ample(w: Setup, m: Meaning) {
    forall id :: id in m && m[id].Reached? ==>
      Sum(ChargeColumn(w, m)).Add(MostReserved(w, NodeOf(w, id))).FitsWithin(w.limit)
  }

  lemma FollowedCharges(w: Setup, m: Meaning, entries: Entries, id: NodeId)
    requires Solved(w, m) && EntriesFollow(w, m, entries) && Quiet(entries) && id in m && m[id].Reached?
    ensures Others(entries, LedgerKeyOf(w, id)).Add(m[id].committed).FitsWithin(Sum(ChargeColumn(w, m)))
  {
    hide Sum, Solved, Others, Quiet;
    var key := LedgerKeyOf(w, id);
    var others := CommittedOf(entries - {key});
    QuietOthers(entries, key);
    SumUpdate(others, key, m[id].committed);
    assert others - {key} == others;
    ChargesCovered(w, m, entries, id);
    SumSubmap(others[key := m[id].committed], ChargeColumn(w, m));
    Swapped(m[id].committed, Sum(others));
  }

  lemma Swapped(a: Dims, b: Dims)
    ensures a.Add(b) == b.Add(a)
  {
  }

  lemma ChargesCovered(w: Setup, m: Meaning, entries: Entries, id: NodeId)
    requires Solved(w, m) && EntriesFollow(w, m, entries) && id in m && m[id].Reached?
    ensures var with := CommittedOf(entries - {LedgerKeyOf(w, id)})[LedgerKeyOf(w, id) := m[id].committed];
            && with.Keys <= ChargeColumn(w, m).Keys && NonNegative(ChargeColumn(w, m))
            && forall k :: k in with ==> with[k] == ChargeColumn(w, m)[k]
  {
    hide Sum, Solved;
    MeaningCharges(w, m);
  }

  /** A dispatch within an ample budget goes as if there were no limit. */
  lemma AmpleAgent(w: Setup, m: Meaning, s: RunState, id: NodeId, cached: set<NodeId>)
    requires Solved(w, m) && Ample(w, m) && Follows(w, m, s, cached) && !s.refused
    requires HasStatus(s.states, id, Pending) && DepsReady(w, s, id) && (InJournal(s, id) <==> id in cached)
    ensures !Agent(w, s, id).refused
  {
    hide Agent, Dispatch, Sane, Agrees, IsMeaning, SoundJournal, TracksAt, WellFormed, Others, AloneJob, BudgetBlind, Sum, Times,
      EntriesFollow, ChargeColumn;
    AgentRefused(w, m, s, id);
    if !InJournal(s, id) {
      PendingIsFresh(w, s, id);
      AgentCase(w, m, s, id);
      SaneIsQuiet(w, s);
      FollowedCharges(w, m, s.entries, id);
      NotReview(w, id, s.results);
      var alone, clean := AloneJob(w, NodeOf(w, id), s.results), Clean(NodeOf(w, id));
      OwnIsCommitted(w, NodeOf(w, id), s.results);
      DispatchSuffices(alone, Others(s.entries, LedgerKeyOf(w, id)), clean);
      DispatchLooser(alone, None, clean);
    }
  }

  lemma OwnIsCommitted(w: Setup, node: NodeSpec, results: map<NodeId, Envelope>)
    requires BudgetBlind(w)
    ensures var v := OwnOutcome(w, node, results);
            v.Reached? && v.committed == CommittedBy(Dispatch(AloneJob(w, node, results), Clean(node)).0.own)
  {
    hide Dispatch, AloneJob;
    OwnOutcomeFacts(w, node, results);
  }

  lemma {:induction false} AmpleAgents(w: Setup, m: Meaning, s: RunState, batch: seq<NodeId>, cached: set<NodeId>)
    requires Solved(w, m) && Ample(w, m) && Follows(w, m, s, cached) && !s.refused && BatchReady(w, s, batch, cached)
    ensures !Agents(w, s, batch).refused
    decreases |batch|
  {
    hide Agent, Follows, Solved, Sane, DepsReady, InJournal, Ample;
    if batch != [] {
      FollowsSane(w, m, s, cached);
      AgentSteps(w, s, batch[0]);
      RestReady(w, s, Agent(w, s, batch[0]), batch, cached);
      AmpleAgent(w, m, s, batch[0], cached);
      FollowsStep(w, m, s, batch[0], cached);
      AmpleAgents(w, m, Agent(w, s, batch[0]), batch[1..], cached);
    }
  }

  lemma AmpleBarrier(w: Setup, m: Meaning, cap: int, s: RunState, cached: set<NodeId>)
    requires Solved(w, m) && Ample(w, m) && Boundary(w, m, s, cached) && !s.refused
    ensures !Barrier(w, s, Batch(w, cap, s)).refused
  {
    hide Batch, Joined, SkipFailed, Journaled, Barrier, Sane, Boundary, BatchReady, Solved, Ample, Agents;
    BoundaryFollows(w, m, s, cached);
    BatchIsReadyToFollow(w, m, cap, s, cached);
    PendingBatch(w, s, Batch(w, cap, s), cached);
    SolvedReproducible(w, m);
    NoReviewBatch(w, s, Batch(w, cap, s));
    AmpleAgents(w, m, s, Batch(w, cap, s), cached);
    BarrierRefused(w, s, Batch(w, cap, s));
  }

  lemma {:induction false} AmpleFromBoundary(w: Setup, m: Meaning, cap: int, s: RunState, cached: set<NodeId>)
    requires Solved(w, m) && Ample(w, m) && Boundary(w, m, s, cached) && !s.refused && Sane(w, s) && !s.stopped
    requires "" !in IdSet(w.nodes) || s.journal.None?
    ensures !Run(w, cap, s).refused
    decreases PendingCount(s)
  {
    hide Sane, Barrier, Batch, PendingCount, AllTerminal, Boundary, IsMeaning, Reproducible, WellFormed, IdSet, Ample;
    if !(AllTerminal(s.states) || Batch(w, cap, s) == []) {
      BatchIsReady(w, cap, s);
      BarrierSane(w, s, Batch(w, cap, s));
      BarrierProgress(w, cap, s);
      AmpleBarrier(w, m, cap, s, cached);
      BarrierFollows(w, m, cap, s, cached);
      var next := Barrier(w, s, Batch(w, cap, s));
      BoundaryFacts(w, m, next, cached);
      AmpleFromBoundary(w, m, cap, next, cached);
    }
  }

  /** A BUDGET LARGE ENOUGH IS NEVER FELT. If the meaning's charges plus any one reservation fit in the limit,
      then every run, with every cap and from every sound journal, computes the meaning. */
  lemma AmpleRunIsMeaning(w: Setup, m: Meaning, cap: int, reviewer: string, closer: string, journal: Option<Rows>)
    requires Solved(w, m) && !HasCycle(DepsOf(w.nodes)) && SoundJournal(w, m, journal) && Ample(w, m)
    requires "" !in IdSet(w.nodes) || journal.None?
    ensures Sane(w, Initial(w, reviewer, closer, journal))
    ensures var r := Run(w, cap, Initial(w, reviewer, closer, journal));
            !r.refused && !r.stopped && !r.fault && Computes(w, m, r, CachedIn(journal))
  {
    hide Run, Boundary, Sane, Tidy, Solved, Computes, Ample, SoundJournal;
    InitialBoundary(w, m, reviewer, closer, journal);
    RunIsMeaning(w, m, cap, reviewer, closer, journal);
    AmpleFromBoundary(w, m, cap, Initial(w, reviewer, closer, journal), CachedIn(journal));
  }

  // ---- conservation ----

  lemma AddAssociates(a: Dims, b: Dims, c: Dims)
    ensures a.Add(b).Add(c) == a.Add(b.Add(c))
  {
  }

  lemma {:induction false} TotalChargedConcat(a: seq<Attempt>, b: seq<Attempt>)
    ensures TotalCharged(a + b) == TotalCharged(a).Add(TotalCharged(b))
  {
    if b == [] {
      assert a + b == a;
    } else {
      var rest, last := b[..|b| - 1], b[|b| - 1];
      TotalChargedConcat(a, rest);
      assert (a + b)[..|a + b| - 1] == a + rest && (a + b)[|a + b| - 1] == last;
      AddAssociates(TotalCharged(a), TotalCharged(rest), last.charged);
    }
  }

  /** Every charge of the ledger is the charge of an attempt, made by the accounting rule. */
  ghost predicate Accounted(s: RunState) {
    && Spent(s.entries) == TotalCharged(s.attempts)
    && forall i :: 0 <= i < |s.attempts| ==> FairlyCharged(s.attempts[i])
  }

  /** Spent tokens exceed the limit at most by what the last attempt cost beyond its own reservation. */
  ghost predicate OverrunByLast(w: Setup, s: RunState) {
    s.attempts != [] ==>
      var last := s.attempts[|s.attempts| - 1];
      Spent(s.entries).tokens <= w.limit.tokens + last.charged.tokens - last.reserved.tokens
  }

  /** Attempts were made only at the end of the list, and the last one bounds the overrun. */
  ghost predicate Bounded(w: Setup, s: RunState, r: RunState) {
    && s.attempts <= r.attempts
    && (s.attempts != r.attempts || OverrunByLast(w, s) ==> OverrunByLast(w, r))
  }

  lemma MergeSpends(w: Setup, s: RunState, id: NodeId, l: Local)
    requires LedgerKeyOf(w, id) !in s.entries
    ensures Spent(Merge(w, s, id, l).entries) == Spent(s.entries).Add(CommittedBy(l.own))
  {
    hide Sum;
    var key := LedgerKeyOf(w, id);
    assert s.entries - {key} == s.entries;
    if l.own.Some? {
      SumsAt(s.entries, key, l.own.value);
    }
  }

  /** One dispatch, from a clean ledger entry. */
  lemma DispatchAccounts(job: Job, l: Local)
    requires Dispatchable(l) && l.own.None? && l.attempts == []
    ensures var d := Dispatch(job, l).0;
            && CommittedBy(d.own) == TotalCharged(d.attempts)
            && (forall i :: 0 <= i < |d.attempts| ==> FairlyCharged(d.attempts[i]))
            && (d.attempts != [] && job.others.Some? ==>
                 var last := d.attempts[|d.attempts| - 1];
                 job.others.value.tokens + CommittedBy(d.own).tokens <= job.w.limit.tokens + last.charged.tokens - last.reserved.tokens)
            && (d.attempts == [] ==> CommittedBy(d.own) == ZERO)
  {
    hide Dispatch, TotalCharged, TotalActual;
    DispatchCompletes(job, l);
    EmptyTotals();
  }

  /** Attempts and charges of one dispatch added to those of the run. */
  lemma AccountsAdd(w: Setup, s: RunState, r: RunState, added: seq<Attempt>, committed: Dims)
    requires Accounted(s) && r.attempts == s.attempts + added
    requires Spent(r.entries) == Spent(s.entries).Add(committed) && committed == TotalCharged(added)
    requires forall i :: 0 <= i < |added| ==> FairlyCharged(added[i])
    requires added != [] ==>
      Spent(s.entries).tokens + committed.tokens <= w.limit.tokens + added[|added| - 1].charged.tokens - added[|added| - 1].reserved.tokens
    ensures Accounted(r)
    ensures added != [] || OverrunByLast(w, s) ==> OverrunByLast(w, r)
  {
    hide Spent, FairlyCharged;
    TotalChargedConcat(s.attempts, added);
    forall i | 0 <= i < |r.attempts| ensures FairlyCharged(r.attempts[i]) {
      assert i >= |s.attempts| ==> r.attempts[i] == added[i - |s.attempts|];
    }
    if added == [] {
      assert r.attempts == s.attempts;
      EmptyTotals();
    } else {
      assert r.attempts[|r.attempts| - 1] == added[|added| - 1];
    }
  }

  lemma DispatchedAccounted(w: Setup, s: RunState, k: RunState, id: NodeId)
    requires Sane(w, s) && HasStatus(s.states, id, Pending) && !s.stopped && k == Keyed(w, s, id)
    requires Accounted(s)
    ensures Accounted(Dispatched(w, k, id))
    ensures Bounded(w, s, Dispatched(w, k, id))
  {
    hide Dispatch, Keyed, TotalCharged, Sane, Others, DepResults, FairlyCharged, Dispatchable, Spent, Accounted, OverrunByLast, OnlyTouched;
    KeyedFacts(w, s, id);
    PendingIsFresh(w, s, id);
    var job, l := JobOf(w, k, id), LocalOf(w, k, id);
    DispatchAccounts(job, l);
    var d := Dispatch(job, l).0;
    MergeSpends(w, k, id, d);
    SaneIsQuiet(w, s);
    OthersSpent(s.entries, LedgerKeyOf(w, id));
    AccountsAdd(w, s, Dispatched(w, k, id), d.attempts, CommittedBy(d.own));
  }

  lemma OthersSpent(entries: Entries, key: LedgerKey)
    requires Quiet(entries) && key !in entries
    ensures Others(entries, key) == Spent(entries)
  {
    hide Sum;
    QuietOthers(entries, key);
    assert entries - {key} == entries;
  }

  lemma AgentAccounted(w: Setup, s: RunState, id: NodeId)
    requires Sane(w, s) && HasStatus(s.states, id, Pending) && !s.stopped && Accounted(s)
    ensures Accounted(Agent(w, s, id))
    ensures Bounded(w, s, Agent(w, s, id))
  {
    hide Keyed, Served, Dispatched, CacheHit, Sane;
    var k := Keyed(w, s, id);
    var hit := CacheHit(w, KeyOf(k, id), k.journal);
    if hit.Some? {
      ServedSteps(w, s, k, id, hit.value);
    } else {
      DispatchedAccounted(w, s, k, id);
    }
  }

  lemma {:induction false} AgentsAccounted(w: Setup, s: RunState, batch: seq<NodeId>)
    requires Sane(w, s) && !s.stopped && Sorting.Distinct(batch) && AllPending(s, batch) && Accounted(s)
    ensures Accounted(Agents(w, s, batch))
    ensures Bounded(w, s, Agents(w, s, batch))
    decreases |batch|
  {
    hide Agent, Sane, Accounted, OverrunByLast, OnlyTouched;
    if batch != [] {
      var next := Agent(w, s, batch[0]);
      AgentSteps(w, s, batch[0]);
      AgentAccounted(w, s, batch[0]);
      if !next.stopped {
        TailStillPending(w, s, next, batch);
        AgentsAccounted(w, next, batch[1..]);
      }
    }
  }

  lemma TailStillPending(w: Setup, s: RunState, r: RunState, batch: seq<NodeId>)
    requires batch != [] && Sorting.Distinct(batch) && AllPending(s, batch) && OnlyTouched(w, s, r, batch[0])
    ensures Sorting.Distinct(batch[1..]) && AllPending(r, batch[1..])
  {
    assert batch[0..] == batch;
    TailPending(w, s, r, batch, 0);
  }

  // ---- conservation in a batch of review roles ----

  /** Open reservations of the batch are denominated in non-negative tokens. */
  ghost predicate TokenReserved(entries: Entries) {
    forall k :: k in entries ==> entries[k].reserved.tokens >= 0 && entries[k].reserved.usd == 0.0
  }

  lemma PrepareOneAccounted(w: Setup, s: RunState, id: NodeId, busy: set<NodeId>)
    requires Mid(w, s, busy) && HasStatus(s.states, id, Pending) && id !in busy && s.journal.None? && Accounted(s)
    requires TokenReserved(s.entries)
    ensures Accounted(PrepareOne(w, s, id).1) && TokenReserved(PrepareOne(w, s, id).1.entries)
  {
    hide Started, Keyed, Mid, JobOf, TotalCharged, Sum;
    MidKeyed(w, s, id, busy);
    var k := Keyed(w, s, id);
    var job, l := JobOf(w, k, id), LocalOf(w, k, id);
    StartedCommitsNothing(job, l);
    StartedFacts(job, l);
    MergeSpends(w, k, id, Started(job, l).1);
    assert s.attempts + [] == s.attempts;
  }

  lemma StartedCommitsNothing(job: Job, l: Local)
    requires Dispatchable(l) && l.own.None?
    ensures var r := Started(job, l).1;
            CommittedBy(r.own) == ZERO && (r.own.Some? ==> r.own.value.reserved.tokens >= 0 && r.own.value.reserved.usd == 0.0)
  {
    hide ReserveAs, Remaining;
    var ready := Marked(l, Ready);
    ReserveGrants(job, ready, job.w.reserveAccounting(job.node, ready.rt.attempt + 1, Remaining(job, ready)));
  }

  lemma {:induction false} ReleaseManySpends(w: Setup, entries: Entries, ids: seq<NodeId>)
    ensures Spent(ReleaseMany(w, entries, ids)) == Spent(entries)
  {
    hide Sum;
    if ids != [] {
      var rest := ReleaseMany(w, entries, ids[..|ids| - 1]);
      ReleaseManySpends(w, entries, ids[..|ids| - 1]);
      assert CommittedOf(ReleaseAt(rest, LedgerKeyOf(w, ids[|ids| - 1]))) == CommittedOf(rest);
    }
  }

  lemma {:induction false} PrepareAccounted(w: Setup, s: RunState, batch: seq<NodeId>, i: nat)
    requires i <= |batch| && Sorting.Distinct(batch) && s.journal.None? && !s.stopped
    requires Mid(w, s, Elements(batch[..i])) && AllPending(s, batch[i..]) && Accounted(s) && TokenReserved(s.entries)
    ensures var (ok, r) := Prepare(w, s, batch, i); Accounted(r) && (ok ==> TokenReserved(r.entries))
    decreases |batch| - i
  {
    hide Mid, PrepareOne, Sane, OnlyTouched, TotalCharged, Sum, TokenReserved;
    if i < |batch| {
      Shorter(batch, i);
      assert batch[i..][0] == batch[i];
      PrepareOneSteps(w, s, batch[i], Elements(batch[..i]));
      PrepareOneAccounted(w, s, batch[i], Elements(batch[..i]));
      var (admission, next) := PrepareOne(w, s, batch[i]);
      TailPending(w, s, next, batch, i);
      KeepsJournal(w, s, next, batch[i]);
      if admission == Admitted {
        PrepareAccounted(w, next, batch, i + 1);
      } else {
        ReleaseManySpends(w, next.entries, batch[..i]);
      }
    }
  }

  lemma EndedCharges(job: Job, l: Local, env: Envelope)
    requires l.rt.status == Running && l.own.Some? && l.own.value.status == Open && l.attempts == []
    requires l.own.value.reserved.tokens >= 0 && l.own.value.reserved.usd == 0.0
    ensures var r := EndedBy(job, l, env);
            && |r.attempts| == 1 && FairlyCharged(r.attempts[0])
            && CommittedBy(r.own) == CommittedBy(l.own).Add(r.attempts[0].charged)
  {
    hide TriagedCloser, Classify;
  }

  lemma CommitOneAccounted(w: Setup, s: RunState, envelopes: map<NodeId, Envelope>, id: NodeId, busy: set<NodeId>)
    requires Mid(w, s, busy) && id in busy && Accounted(s) && TokenReserved(s.entries)
    ensures Accounted(CommitOne(w, s, envelopes, id)) && TokenReserved(CommitOne(w, s, envelopes, id).entries)
  {
    hide Mid, EndedBy, JobOf, Sum, TotalCharged;
    MidBusy(w, s, id, busy);
    var key := LedgerKeyOf(w, id);
    var job, l := JobOf(w, s, id), LocalOf(w, s, id);
    var env := Stamped(job, l, BatchEnvelope(envelopes, id, KeyOf(s, id)));
    EndedCharges(job, l, env);
    EndedFacts(job, l, env);
    var done := EndedBy(job, l, env);
    SumsWith(s.entries, key);
    SumsAt(s.entries, key, done.own.value);
    TotalChargedConcat(s.attempts, done.attempts);
    OneTotal(done.attempts);
  }

  lemma OneTotal(attempts: seq<Attempt>)
    requires |attempts| == 1
    ensures TotalCharged(attempts) == attempts[0].charged
  {
    assert attempts[..0] == [];
  }

  lemma {:induction false} CommitManyAccounted(w: Setup, s: RunState, envelopes: map<NodeId, Envelope>, batch: seq<NodeId>)
    requires Sorting.Distinct(batch) && Mid(w, s, Elements(batch)) && Accounted(s) && TokenReserved(s.entries)
    ensures Accounted(CommitMany(w, s, envelopes, batch))
    decreases |batch|
  {
    hide Mid, CommitOne, Accounted, TokenReserved, OnlyTouched;
    if batch != [] {
      var id, rest := batch[0], batch[1..];
      assert batch == [id] + rest;
      assert Elements(batch) == Elements(rest) + {id} && id !in Elements(rest);
      assert Elements(batch) - {id} == Elements(rest);
      CommitOneSteps(w, s, envelopes, id, Elements(batch));
      CommitOneAccounted(w, s, envelopes, id, Elements(batch));
      CommitManyAccounted(w, CommitOne(w, s, envelopes, id), envelopes, rest);
    }
  }

  lemma ReviewBatchAccounted(w: Setup, s: RunState, batch: seq<NodeId>)
    requires Sane(w, s) && !s.stopped && s.journal.None? && Sorting.Distinct(batch) && AllPending(s, batch) && Accounted(s)
    ensures Accounted(ReviewBatch(w, s, batch))
  {
    hide Prepare, CommitMany, Sane, Mid, Advanced, AllPending, Accounted;
    SaneIsMid(w, s);
    assert Elements(batch[..0]) == {} && batch[0..] == batch;
    SaneIsQuiet(w, s);
    PrepareRuns(w, s, batch, 0);
    PrepareAccounted(w, s, batch, 0);
    var (ok, prepared) := Prepare(w, s, batch, 0);
    if ok {
      CommitManyAccounted(w, prepared, w.runBatch(NodesOf(w, batch)), batch);
    }
  }

  // ---- whole runs ----

  /** No batch ever takes the one-invocation path: it needs two nodes, no journal, and only review roles. */
  ghost predicate OneAtATime(w: Setup, cap: int, s: RunState) {
    cap <= 1 || s.journal.Some? || forall id :: id in IdSet(w.nodes) ==> !IsReview(NodeOf(w, id))
  }

  lemma SmallCapSmallBatch(w: Setup, cap: int, s: RunState)
    ensures cap <= 1 ==> |Batch(w, cap, s)| <= 1
  {
  }

  lemma BarrierAccounted(w: Setup, cap: int, s: RunState)
    requires WellFormed(w.nodes) && Sane(w, s) && !s.stopped && Accounted(s)
    ensures var r := Barrier(w, s, Batch(w, cap, s));
            Accounted(r) && (OneAtATime(w, cap, s) && OverrunByLast(w, s) ==> OverrunByLast(w, r))
  {
    hide Batch, SkipFailed, Journaled, Barrier, Sane, Accounted, OverrunByLast, ReviewBatch, Agents, BatchRan;
    var batch := Batch(w, cap, s);
    BatchIsReady(w, cap, s);
    SmallCapSmallBatch(w, cap, s);
    if CanBatch(w, s, batch) {
      ReviewBatchAccounted(w, s, batch);
      assert batch[0] in batch;
    } else {
      AgentsAccounted(w, s, batch);
    }
    SameAccounts(w, s, batch);
  }

  /** Skips and the journal step touch neither ledger nor attempts. */
  lemma SameAccounts(w: Setup, s: RunState, batch: seq<NodeId>)
    requires Sane(w, s) && !s.stopped && Sorting.Distinct(batch) && AllPending(s, batch)
    ensures var joined, r := Joined(w, s, batch), Barrier(w, s, batch);
            && r.entries == joined.entries && r.attempts == joined.attempts
            && (Accounted(joined) ==> Accounted(r)) && (OverrunByLast(w, joined) ==> OverrunByLast(w, r))
  {
    hide Joined, SkipFailed, Journaled, Barrier, Sane, Spent;
    BarrierParts(w, s, batch);
    JoinedRan(w, s, batch);
    SkipFailedSane(w, Joined(w, s, batch), batch);
    JournaledFacts(w, SkipFailed(w, Joined(w, s, batch), batch), batch);
  }

  lemma {:induction false} RunAccounted(w: Setup, cap: int, s: RunState)
    requires WellFormed(w.nodes) && Sane(w, s) && !s.stopped && Accounted(s)
    ensures Accounted(Run(w, cap, s))
    ensures OneAtATime(w, cap, s) && OverrunByLast(w, s) ==> OverrunByLast(w, Run(w, cap, s))
    decreases PendingCount(s)
  {
    hide Sane, Barrier, Batch, PendingCount, AllTerminal, WellFormed, Accounted, OverrunByLast;
    if !(AllTerminal(s.states) || Batch(w, cap, s) == []) {
      BatchIsReady(w, cap, s);
      BarrierSane(w, s, Batch(w, cap, s));
      BarrierProgress(w, cap, s);
      BarrierAccounted(w, cap, s);
      var next := Barrier(w, s, Batch(w, cap, s));
      if !(next.stopped || next.fault) {
        RunAccounted(w, cap, next);
      }
    }
  }

  /** CONSERVATION AND BOUNDED OVERRUN. Whatever the adapters return, on every graph and with every cap, the
      reported spend is the sum of the charges of the attempts made; and on the one-node-at-a-time path it
      exceeds the limit at most by what the last attempt cost beyond its own reservation. */
  lemma SpendIsBounded(w: Setup, cap: int, reviewer: string, closer: string, journal: Option<Rows>)
    requires WellFormed(w.nodes) && GoodRows(journal)
    ensures Sane(w, Initial(w, reviewer, closer, journal))
    ensures var s := Initial(w, reviewer, closer, journal);
            var r := Run(w, cap, s);
            && Accounted(r)
            && (OneAtATime(w, cap, s) ==> OverrunByLast(w, r))
  {
    hide Run, Sane, OneAtATime, IdSet;
    InitialIsSane(w, reviewer, closer, journal);
    var s := Initial(w, reviewer, closer, journal);
    SumZero(CommittedOf(s.entries));
    EmptyTotals();
    RunAccounted(w, cap, s);
  }

  /** Once more has been spent than the limit allows, no reservation is granted again. */
  lemma OverspentAdmitsNothing(limit: Dims, entries: Entries, key: LedgerKey, perCall: nat, consumed: Dims, amount: Dims)
    requires Quiet(entries) && Spent(entries).tokens > limit.tokens && amount.tokens >= 0
    ensures AdmitAt(limit, entries, key, perCall, consumed, amount) != Admitted
  {
    hide Sum, Others, Spent, Available;
    AvailableSplit(limit, entries, key);
    OverspentLeavesNothing(limit, entries);
  }

  lemma OverspentLeavesNothing(limit: Dims, entries: Entries)
    requires Quiet(entries) && Spent(entries).tokens > limit.tokens
    ensures Available(limit, entries).tokens < 0
  {
    hide Sum;
    SumZero(ReservedOf(entries));
  }
}
