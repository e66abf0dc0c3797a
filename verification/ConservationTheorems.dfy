/** Conservation node by node over whole runs: what a node was charged covers what it used. */
module ConservationTheorems {
  import opened AgyTypes
  import opened Budget
  import opened Scheduling
  import opened Dag
  import opened Checkpointing
  import opened Dispatching
  import opened DispatchTheorems
  import opened Engine
  import opened EngineInvariants
  import opened EngineRun
  import opened EngineOutcome
  import opened EngineTheorems
  import opened BudgetTheorems
  import Sorting

  /** A node's ledger entry holds the charges of its own attempts in this run; if it made any, its running total
      holds the tokens they used; and without a journal every ended node made one. */
  ghost predicate NodeConserved(w: Setup, s: RunState, id: NodeId) {
    var own := AttemptsOf(s.attempts, id);
    && CommittedBy(Own(s.entries, LedgerKeyOf(w, id))) == TotalCharged(own)
    && AllFair(own)
    && (own != [] ==> StateOf(s, id).consumed.tokens == TotalActual(own).tokens)
    && (s.journal.None? && Ended(s, id) ==> own != [])
  }

  /** The same, while `busy` nodes hold open reservations: those, like the pending ones, made no attempt yet. */
  ghost predicate ConservedAt(w: Setup, s: RunState, busy: set<NodeId>, id: NodeId) {
    && NodeConserved(w, s, id)
    && (HasStatus(s.states, id, Pending) || id in busy ==> AttemptsOf(s.attempts, id) == [])
    && (id in busy ==> StateOf(s, id).consumed.tokens == 0)
  }

  ghost predicate Conserving(w: Setup, s: RunState, busy: set<NodeId>) {
    forall id :: id in s.states ==> ConservedAt(w, s, busy, id)
  }

  lemma OthersConserved(w: Setup, s: RunState, r: RunState, id: NodeId, added: seq<Attempt>, busy: set<NodeId>, busy': set<NodeId>, x: NodeId)
    requires ConservedAt(w, s, busy, x) && x in s.states && x != id && OnlyTouched(w, s, r, id)
    requires r.attempts == s.attempts + added && forall i :: 0 <= i < |added| ==> added[i].node == id
    requires busy' - {id} == busy - {id}
    ensures ConservedAt(w, r, busy', x)
  {
    hide TotalCharged, TotalActual, AllFair, AttemptsOf;
    EntriesKept(w, s, r, id);
    AttemptsOfConcat(s.attempts, added, x);
    AttemptsOfOwn(added, id, x);
    assert AttemptsOf(r.attempts, x) == AttemptsOf(s.attempts, x);
    assert LedgerKeyOf(w, x) != LedgerKeyOf(w, id);
    assert x in busy' <==> x in busy by {
      assert x in busy' - {id} <==> x in busy - {id};
    }
  }

  lemma StepConserves(w: Setup, s: RunState, r: RunState, id: NodeId, added: seq<Attempt>, busy: set<NodeId>, busy': set<NodeId>)
    requires Conserving(w, s, busy) && id in s.states && OnlyTouched(w, s, r, id) && ConservedAt(w, r, busy', id)
    requires r.attempts == s.attempts + added && forall i :: 0 <= i < |added| ==> added[i].node == id
    requires busy' - {id} == busy - {id}
    ensures Conserving(w, r, busy')
  {
    hide ConservedAt;
    forall x | x in r.states ensures ConservedAt(w, r, busy', x) {
      if x != id {
        OthersConserved(w, s, r, id, added, busy, busy', x);
      }
    }
  }

  // ---- one node at a time ----

  /** What one dispatch adds for its node. */
  lemma DispatchAdds(job: Job, l: Local)
    requires Dispatchable(l) && l.own.None? && l.attempts == []
    ensures var (d, env) := Dispatch(job, l);
            && CommittedBy(d.own) == TotalCharged(d.attempts) && AllFair(d.attempts)
            && (d.attempts != [] ==> d.rt.consumed.tokens == TotalActual(d.attempts).tokens)
            && (forall i :: 0 <= i < |d.attempts| ==> d.attempts[i].node == job.node.id)
            && (env.Some? ==> d.attempts != []) && d.rt.status != Pending
            && (env.None? ==> d.rt.status == Ready && d.attempts == [])
  {
    hide Dispatch, TotalCharged, TotalActual, FairlyCharged, OverrunBounded;
    DispatchCompletes(job, l);
    DispatchConserves(job, l);
    DispatchStopsOnBilled(job, l);
  }

  lemma DispatchedConserves(w: Setup, s: RunState, k: RunState, id: NodeId)
    requires Sane(w, s) && HasStatus(s.states, id, Pending) && !s.stopped && k == Keyed(w, s, id)
    requires Conserving(w, s, {})
    ensures Conserving(w, Dispatched(w, k, id), {})
  {
    hide Dispatch, Keyed, TotalCharged, TotalActual, Sane, AllFair, DepResults, Others, Dispatchable, OnlyTouched, NodesById;
    KeyedFacts(w, s, id);
    var job, l := JobOf(w, k, id), LocalOf(w, k, id);
    var (d, env) := Dispatch(job, l);
    var r := Dispatched(w, k, id);
    DispatchAdds(job, l);
    DispatchedSteps(w, s, k, id);
    NodeOfId(w, id);
    AddsConserved(w, s, k, r, id, d);
    StepConserves(w, s, r, id, d.attempts, {}, {});
  }

  lemma AddsConserved(w: Setup, s: RunState, k: RunState, r: RunState, id: NodeId, d: Local)
    requires ConservedAt(w, s, {}, id) && HasStatus(s.states, id, Pending)
    requires r.attempts == s.attempts + d.attempts && StateOf(r, id) == d.rt && Own(r.entries, LedgerKeyOf(w, id)) == d.own
    requires id in r.states && d.rt.status != Pending
    requires CommittedBy(d.own) == TotalCharged(d.attempts) && AllFair(d.attempts)
    requires d.attempts != [] ==> d.rt.consumed.tokens == TotalActual(d.attempts).tokens
    requires d.attempts == [] ==> d.rt.status == Ready
    requires forall i :: 0 <= i < |d.attempts| ==> d.attempts[i].node == id
    ensures ConservedAt(w, r, {}, id)
  {
    hide TotalCharged, TotalActual, AllFair;
    AttemptsOfConcat(s.attempts, d.attempts, id);
    AttemptsOfOwn(d.attempts, id, id);
    assert [] + d.attempts == d.attempts;
  }

  lemma ServedConserves(w: Setup, s: RunState, k: RunState, id: NodeId, row: Row)
    requires Sane(w, s) && HasStatus(s.states, id, Pending) && !s.stopped && k == Keyed(w, s, id)
    requires CacheHit(w, KeyOf(k, id), k.journal) == Some(row) && Conserving(w, s, {})
    ensures Conserving(w, Served(w, k, id, row), {})
  {
    hide Keyed, Served, TotalCharged, TotalActual, Sane, AllFair, OnlyTouched;
    ServedSteps(w, s, k, id, row);
    ServedKeepsJournal(w, s, id, row);
    var r := Served(w, k, id, row);
    assert s.attempts + [] == s.attempts;
    assert ConservedAt(w, s, {}, id);
    StepConserves(w, s, r, id, [], {}, {});
  }

  lemma ServedKeepsJournal(w: Setup, s: RunState, id: NodeId, row: Row)
    requires CacheHit(w, KeyOf(Keyed(w, s, id), id), Keyed(w, s, id).journal) == Some(row)
    ensures Served(w, Keyed(w, s, id), id, row).journal == s.journal && s.journal.Some?
  {
    hide LookupIn, Restored, ResolveInputs;
  }

  lemma AgentConserves(w: Setup, s: RunState, id: NodeId)
    requires Sane(w, s) && HasStatus(s.states, id, Pending) && !s.stopped && Conserving(w, s, {})
    ensures Conserving(w, Agent(w, s, id), {})
  {
    hide Keyed, Served, Dispatched, CacheHit, Sane, Conserving;
    var k := Keyed(w, s, id);
    var hit := CacheHit(w, KeyOf(k, id), k.journal);
    if hit.Some? {
      ServedConserves(w, s, k, id, hit.value);
    } else {
      DispatchedConserves(w, s, k, id);
    }
  }

  lemma {:induction false} AgentsConserve(w: Setup, s: RunState, batch: seq<NodeId>)
    requires Sane(w, s) && !s.stopped && Sorting.Distinct(batch) && AllPending(s, batch) && Conserving(w, s, {})
    ensures Conserving(w, Agents(w, s, batch), {})
    decreases |batch|
  {
    hide Agent, Sane, Conserving, OnlyTouched;
    if batch != [] {
      var next := Agent(w, s, batch[0]);
      AgentSteps(w, s, batch[0]);
      AgentConserves(w, s, batch[0]);
      if !next.stopped {
        assert batch[0..] == batch;
        TailPending(w, s, next, batch, 0);
        AgentsConserve(w, next, batch[1..]);
      }
    }
  }

  // ---- a batch of review roles ----

  lemma StartedAddsNothing(job: Job, l: Local)
    requires Dispatchable(l) && l.own.None?
    ensures CommittedBy(Started(job, l).1.own) == ZERO
  {
    hide ReserveAs, Remaining;
    var ready := Marked(l, Ready);
    ReserveGrants(job, ready, job.w.reserveAccounting(job.node, ready.rt.attempt + 1, Remaining(job, ready)));
  }

  /** What preparing one node leaves: no attempt, no charge, no usage. */
  lemma PreparedFacts(w: Setup, s: RunState, id: NodeId, busy: set<NodeId>)
    requires Mid(w, s, busy) && HasStatus(s.states, id, Pending) && id !in busy && s.journal.None?
    ensures var (admission, r) := PrepareOne(w, s, id);
            && r.attempts == s.attempts && r.journal == s.journal && CommittedBy(Own(r.entries, LedgerKeyOf(w, id))) == ZERO
            && StateOf(r, id).consumed == ZERO && id in r.states && StateOf(r, id).status in {Running, Ready}
  {
    hide Started, Keyed, Mid, JobOf, OnlyTouched, Dispatchable;
    MidKeyed(w, s, id, busy);
    var k := Keyed(w, s, id);
    var job, l := JobOf(w, k, id), LocalOf(w, k, id);
    StartedFacts(job, l);
    StartedAddsNothing(job, l);
    KeyedIsClean(w, s, id);
    assert s.attempts + [] == s.attempts;
  }

  lemma PrepareOneConserves(w: Setup, s: RunState, id: NodeId, busy: set<NodeId>)
    requires Mid(w, s, busy) && HasStatus(s.states, id, Pending) && id !in busy && s.journal.None?
    requires Conserving(w, s, busy)
    ensures var (admission, r) := PrepareOne(w, s, id);
            Conserving(w, r, if admission == Admitted then busy + {id} else busy)
  {
    hide PrepareOne, Mid, OnlyTouched;
    PreparedFacts(w, s, id, busy);
    PrepareOneSteps(w, s, id, busy);
    var (admission, r) := PrepareOne(w, s, id);
    var now := if admission == Admitted then busy + {id} else busy;
    assert ConservedAt(w, s, busy, id);
    NothingTotals();
    assert ConservedAt(w, r, now, id);
    hide ConservedAt;
    assert s.attempts + [] == s.attempts;
    StepConserves(w, s, r, id, [], busy, now);
  }

  lemma KeyedIsClean(w: Setup, s: RunState, id: NodeId)
    requires s.journal.None?
    ensures LocalOf(w, Keyed(w, s, id), id).rt.consumed == ZERO
  {
    hide ResolveInputs, NodesById;
  }

  lemma {:induction false} ReleasedCommits(w: Setup, entries: Entries, ids: seq<NodeId>, key: LedgerKey)
    ensures CommittedBy(Own(ReleaseMany(w, entries, ids), key)) == CommittedBy(Own(entries, key))
  {
    if ids != [] {
      ReleasedCommits(w, entries, ids[..|ids| - 1], key);
    }
  }

  lemma RollBackConserves(w: Setup, s: RunState, ids: seq<NodeId>, busy: set<NodeId>)
    requires Conserving(w, s, busy)
    ensures Conserving(w, s.(entries := ReleaseMany(w, s.entries, ids), stopped := true), {})
  {
    hide TotalCharged, TotalActual, AllFair, ReleaseMany;
    var r := s.(entries := ReleaseMany(w, s.entries, ids), stopped := true);
    forall id | id in r.states ensures ConservedAt(w, r, {}, id) {
      assert ConservedAt(w, s, busy, id);
      ReleasedCommits(w, s.entries, ids, LedgerKeyOf(w, id));
    }
  }

  lemma {:induction false} PrepareConserves(w: Setup, s: RunState, batch: seq<NodeId>, i: nat)
    requires i <= |batch| && Sorting.Distinct(batch) && s.journal.None? && !s.stopped
    requires Mid(w, s, Elements(batch[..i])) && AllPending(s, batch[i..]) && Conserving(w, s, Elements(batch[..i]))
    ensures var (ok, r) := Prepare(w, s, batch, i); Conserving(w, r, if ok then Elements(batch) else {})
    decreases |batch| - i
  {
    hide Mid, PrepareOne, Sane, OnlyTouched, Conserving;
    if i == |batch| {
      assert batch[..i] == batch;
    } else {
      Shorter(batch, i);
      assert batch[i..][0] == batch[i];
      PrepareOneSteps(w, s, batch[i], Elements(batch[..i]));
      PrepareOneConserves(w, s, batch[i], Elements(batch[..i]));
      var (admission, next) := PrepareOne(w, s, batch[i]);
      TailPending(w, s, next, batch, i);
      KeepsJournal(w, s, next, batch[i]);
      if admission == Admitted {
        PrepareConserves(w, next, batch, i + 1);
      } else {
        RollBackConserves(w, next, batch[..i], Elements(batch[..i]));
      }
    }
  }

  lemma EndedAdds(job: Job, l: Local, env: Envelope)
    requires l.rt.status == Running && l.own.Some? && l.own.value.status == Open && l.attempts == []
    requires l.own.value.reserved.tokens >= 0 && l.own.value.reserved.usd == 0.0 && l.own.value.committed == ZERO
    requires l.rt.consumed.tokens == 0
    ensures var d := EndedBy(job, l, env);
            && |d.attempts| == 1 && d.attempts[0].node == job.node.id && FairlyCharged(d.attempts[0])
            && d.attempts[0].reserved == l.own.value.reserved && d.attempts[0].actual == ActualOf(env) && d.attempts[0].accounting == Exact
            && CommittedBy(d.own) == d.attempts[0].charged && d.rt.consumed.tokens == d.attempts[0].actual.tokens
            && d.rt.status in {Succeeded, Failed}
  {
    hide TriagedCloser, Classify;
  }

  lemma OneTotals(attempts: seq<Attempt>)
    requires |attempts| == 1
    ensures TotalCharged(attempts) == attempts[0].charged && TotalActual(attempts) == attempts[0].actual
  {
    assert attempts[..0] == [];
  }

  /** What ending one node of the batch does to the run. */
  lemma CommitOneAdds(w: Setup, s: RunState, envelopes: map<NodeId, Envelope>, id: NodeId, busy: set<NodeId>) returns (d: Local)
    requires Mid(w, s, busy) && id in busy && ConservedAt(w, s, busy, id) && TokenReserved(s.entries)
    ensures var r := CommitOne(w, s, envelopes, id);
            && |d.attempts| == 1 && d.attempts[0].node == id && FairlyCharged(d.attempts[0])
            && IsOpen(s.entries, LedgerKeyOf(w, id)) && s.entries[LedgerKeyOf(w, id)].committed == ZERO
            && d.attempts[0].reserved == s.entries[LedgerKeyOf(w, id)].reserved
            && d.attempts[0].actual == ActualOf(BatchEnvelope(envelopes, id, KeyOf(s, id))) && d.attempts[0].accounting == Exact
            && CommittedBy(d.own) == d.attempts[0].charged && d.rt.consumed.tokens == d.attempts[0].actual.tokens
            && d.rt.status in {Succeeded, Failed} && d.own.Some? && d.own.value.reserved == ZERO
            && r.attempts == s.attempts + d.attempts && r.journal == s.journal
            && r.entries == s.entries[LedgerKeyOf(w, id) := d.own.value] && r.states == s.states[id := d.rt]
  {
    hide Mid, EndedBy, JobOf, TotalCharged, TotalActual, FairlyCharged;
    MidBusy(w, s, id, busy);
    NothingTotals();
    var job, l := JobOf(w, s, id), LocalOf(w, s, id);
    var env := Stamped(job, l, BatchEnvelope(envelopes, id, KeyOf(s, id)));
    d := EndedBy(job, l, env);
    EndedAdds(job, l, env);
    EndedFacts(job, l, env);
    JobNodeId(w, s, id);
  }

  lemma CommitOneConserves(w: Setup, s: RunState, envelopes: map<NodeId, Envelope>, id: NodeId, busy: set<NodeId>)
    requires Mid(w, s, busy) && id in busy && Conserving(w, s, busy) && TokenReserved(s.entries)
    ensures Conserving(w, CommitOne(w, s, envelopes, id), busy - {id})
    ensures TokenReserved(CommitOne(w, s, envelopes, id).entries)
  {
    hide Mid, CommitOne, OnlyTouched, ConservedAt, Runs;
    MidBusy(w, s, id, busy);
    RunningIsThere(w, s, id);
    assert ConservedAt(w, s, busy, id);
    var d := CommitOneAdds(w, s, envelopes, id, busy);
    var r := CommitOne(w, s, envelopes, id);
    CommitOneSteps(w, s, envelopes, id, busy);
    EndsConserved(w, s, r, id, d, busy);
    StepConserves(w, s, r, id, d.attempts, busy, busy - {id});
  }

  lemma RunningIsThere(w: Setup, s: RunState, id: NodeId)
    requires Runs(w, s, id)
    ensures id in s.states
  {
  }

  lemma EndsConserved(w: Setup, s: RunState, r: RunState, id: NodeId, d: Local, busy: set<NodeId>)
    requires ConservedAt(w, s, busy, id) && id in busy
    requires |d.attempts| == 1 && d.attempts[0].node == id && FairlyCharged(d.attempts[0])
    requires CommittedBy(d.own) == d.attempts[0].charged && d.rt.consumed.tokens == d.attempts[0].actual.tokens
    requires d.rt.status in {Succeeded, Failed} && r.attempts == s.attempts + d.attempts
    requires Own(r.entries, LedgerKeyOf(w, id)) == d.own && StateOf(r, id) == d.rt && id in r.states
    ensures ConservedAt(w, r, busy - {id}, id)
  {
    hide TotalCharged, TotalActual, FairlyCharged;
    OneTotals(d.attempts);
    AttemptsOfConcat(s.attempts, d.attempts, id);
    AttemptsOfOwn(d.attempts, id, id);
    assert [] + d.attempts == d.attempts;
  }

  lemma JobNodeId(w: Setup, s: RunState, id: NodeId)
    ensures JobOf(w, s, id).node.id == id
  {
  }

  lemma {:induction false} CommitManyConserves(w: Setup, s: RunState, envelopes: map<NodeId, Envelope>, batch: seq<NodeId>)
    requires Sorting.Distinct(batch) && Mid(w, s, Elements(batch)) && Conserving(w, s, Elements(batch)) && TokenReserved(s.entries)
    ensures Conserving(w, CommitMany(w, s, envelopes, batch), {})
    decreases |batch|
  {
    hide Mid, CommitOne, Conserving, TokenReserved, OnlyTouched;
    if batch == [] {
      assert Elements(batch) == {};
    } else {
      var id, rest := batch[0], batch[1..];
      assert batch == [id] + rest;
      assert Elements(batch) == Elements(rest) + {id} && id !in Elements(rest);
      assert Elements(batch) - {id} == Elements(rest);
      CommitOneSteps(w, s, envelopes, id, Elements(batch));
      CommitOneConserves(w, s, envelopes, id, Elements(batch));
      CommitManyConserves(w, CommitOne(w, s, envelopes, id), envelopes, rest);
    }
  }

  lemma ReviewBatchConserves(w: Setup, s: RunState, batch: seq<NodeId>)
    requires Sane(w, s) && !s.stopped && s.journal.None? && Sorting.Distinct(batch) && AllPending(s, batch)
    requires Conserving(w, s, {}) && Accounted(s)
    ensures Conserving(w, ReviewBatch(w, s, batch), {})
  {
    hide Prepare, CommitMany, Mid, Advanced, AllPending, Conserving, Accounted;
    SaneIsMid(w, s);
    assert Elements(batch[..0]) == {} && batch[0..] == batch;
    QuietTokens(w, s);
    hide Sane;
    PrepareRuns(w, s, batch, 0);
    PrepareAccounted(w, s, batch, 0);
    PrepareConserves(w, s, batch, 0);
    var (ok, prepared) := Prepare(w, s, batch, 0);
    if ok {
      CommitManyConserves(w, prepared, w.runBatch(NodesOf(w, batch)), batch);
    }
  }

  lemma QuietTokens(w: Setup, s: RunState)
    requires Sane(w, s)
    ensures TokenReserved(s.entries)
  {
  }

  // ---- whole runs ----

  /** Skipping and journaling move no attempt, no charge and no running total. */
  lemma BarrierConserves(w: Setup, cap: int, s: RunState)
    requires WellFormed(w.nodes) && Sane(w, s) && !s.stopped && Conserving(w, s, {}) && Accounted(s)
    ensures Conserving(w, Barrier(w, s, Batch(w, cap, s)), {})
  {
    hide Batch, SkipFailed, Journaled, Barrier, Sane, Conserving, Accounted, ReviewBatch, Agents, BatchRan;
    var batch := Batch(w, cap, s);
    BatchIsReady(w, cap, s);
    if CanBatch(w, s, batch) {
      ReviewBatchConserves(w, s, batch);
    } else {
      AgentsConserve(w, s, batch);
    }
    JoinedRan(w, s, batch);
    JoinedIsSane(w, s, batch);
    var joined := Joined(w, s, batch);
    BarrierParts(w, s, batch);
    SkipFailedSane(w, joined, batch);
    var skipped := SkipFailed(w, joined, batch);
    SkipsConserve(w, joined, skipped);
    JournaledFacts(w, skipped, batch);
    SaneHasNoFault(w, skipped);
    JournalConserves(w, skipped, Journaled(w, skipped, batch));
  }

  lemma JoinedIsSane(w: Setup, s: RunState, batch: seq<NodeId>)
    requires BatchRan(w, s, Joined(w, s, batch), batch)
    ensures Sane(w, Joined(w, s, batch))
  {
    hide Joined;
  }

  lemma SkipsConserve(w: Setup, s: RunState, r: RunState)
    requires Conserving(w, s, {}) && OnlySkips(s, r)
    ensures Conserving(w, r, {})
  {
    hide TotalCharged, TotalActual, AllFair;
    forall id | id in r.states ensures ConservedAt(w, r, {}, id) {
      assert ConservedAt(w, s, {}, id);
    }
  }

  lemma JournalConserves(w: Setup, s: RunState, r: RunState)
    requires Conserving(w, s, {}) && r == s.(journal := r.journal, fault := r.fault)
    requires s.journal.None? <==> r.journal.None?
    ensures Conserving(w, r, {})
  {
    hide TotalCharged, TotalActual, AllFair;
    forall id | id in r.states ensures ConservedAt(w, r, {}, id) {
      assert ConservedAt(w, s, {}, id);
    }
  }

  lemma {:induction false} RunConserves(w: Setup, cap: int, s: RunState)
    requires WellFormed(w.nodes) && Sane(w, s) && !s.stopped && Conserving(w, s, {}) && Accounted(s)
    ensures Conserving(w, Run(w, cap, s), {})
    decreases PendingCount(s)
  {
    hide Sane, Barrier, Batch, PendingCount, AllTerminal, WellFormed, Accounted, Conserving, Run;
    RunUnfolds(w, cap, s);
    if !(AllTerminal(s.states) || Batch(w, cap, s) == []) {
      BarrierConserves(w, cap, s);
      BarrierAccounted(w, cap, s);
      var next := Barrier(w, s, Batch(w, cap, s));
      if !(next.stopped || next.fault) {
        RunConserves(w, cap, next);
      }
    }
  }

  /** CONSERVATION NODE BY NODE. At the end of every run a node's charge is that of its own attempts in this run;
      if it made any, its running total holds exactly the tokens they used, and the charge covers them, with
      equality under exact accounting. Without a journal every node that ended made an attempt. */
  lemma NodeChargesCoverUsage(w: Setup, cap: int, reviewer: string, closer: string, journal: Option<Rows>, id: NodeId)
    requires WellFormed(w.nodes) && GoodRows(journal) && id in IdSet(w.nodes)
    ensures Sane(w, Initial(w, reviewer, closer, journal))
    ensures var r := Run(w, cap, Initial(w, reviewer, closer, journal));
            var own, charged := AttemptsOf(r.attempts, id), CommittedBy(Own(r.entries, LedgerKeyOf(w, id)));
            && charged == TotalCharged(own)
            && (own != [] ==>
                 && StateOf(r, id).consumed.tokens == TotalActual(own).tokens
                 && StateOf(r, id).consumed.tokens <= charged.tokens
                 && (AllExact(own) ==> StateOf(r, id).consumed.tokens == charged.tokens))
            && (journal.None? && Ended(r, id) ==> own != [])
  {
    hide Run, Sane, IdSet, Accounted, WellFormed, TotalActual, TotalCharged, AllFair, AllExact, GoodRows;
    InitialIsSane(w, reviewer, closer, journal);
    var s := Initial(w, reviewer, closer, journal);
    NothingSpent(w, s);
    NothingTotals();
    FreshConserves(w, s);
    RunConserves(w, cap, s);
    RunKeeps(w, cap, s);
    var r := Run(w, cap, s);
    RunKeepsIds(w, cap, s);
    assert ConservedAt(w, r, {}, id);
    ChargesCoverUsage(AttemptsOf(r.attempts, id));
  }

  lemma NothingSpent(w: Setup, s: RunState)
    requires s.entries == map[] && s.attempts == []
    ensures Accounted(s)
  {
    hide Sum;
    SumZero(CommittedOf(s.entries));
  }

  lemma FreshConserves(w: Setup, s: RunState)
    requires s.entries == map[] && s.attempts == [] && forall id :: id in s.states ==> s.states[id] == FRESH
    ensures Conserving(w, s, {})
  {
    NothingTotals();
  }

  lemma {:induction false} RunKeepsIds(w: Setup, cap: int, s: RunState)
    requires WellFormed(w.nodes) && Sane(w, s) && !s.stopped
    ensures Run(w, cap, s).states.Keys == s.states.Keys
    decreases PendingCount(s)
  {
    hide Sane, Barrier, Batch, PendingCount, AllTerminal, WellFormed, Run, Joined, SkipFailed, BatchRan;
    RunUnfolds(w, cap, s);
    if !(AllTerminal(s.states) || Batch(w, cap, s) == []) {
      var batch := Batch(w, cap, s);
      BatchIsReady(w, cap, s);
      BarrierSane(w, s, batch);
      JoinedRan(w, s, batch);
      JoinedIsSane(w, s, batch);
      SkipFailedSane(w, Joined(w, s, batch), batch);
      JoinedKeepsIds(w, s, batch);
      var next := Barrier(w, s, batch);
      if !(next.stopped || next.fault) {
        RunKeepsIds(w, cap, next);
      }
    }
  }

  lemma JoinedKeepsIds(w: Setup, s: RunState, batch: seq<NodeId>)
    requires BatchRan(w, s, Joined(w, s, batch), batch)
    ensures Joined(w, s, batch).states.Keys == s.states.Keys
  {
    hide Joined, Sane;
  }
}
