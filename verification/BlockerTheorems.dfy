/** The blockers a run reports: which nodes they name, and why. */
module BlockerTheorems {
  import opened AgyTypes
  import opened Budget
  import opened Scheduling
  import opened Dag
  import opened Checkpointing
  import opened Dispatching
  import opened DispatchTheorems
  import opened DispatchTraces
  import opened Engine
  import opened EngineInvariants
  import opened EngineRun
  import opened EngineOutcome
  import opened EngineMeaning
  import opened EngineTheorems
  import opened RefusalTheorems
  import opened BatchTraces
  import opened RunTraces
  import Sorting

  // ---- what is said of one node ----

  /** The blockers that name the node are exactly these. */
  ghost predicate Says(s: RunState, id: NodeId, said: multiset<Blocker>) {
    forall b: Blocker :: b.id == id ==> s.blockers[b] == said[b]
  }

  ghost predicate AllNamed(blockers: multiset<Blocker>, ids: seq<NodeId>) {
    forall b: Blocker :: b.id !in ids ==> blockers[b] == 0
  }

  /** A chain of dependents leads from `failed` to the node. */
  ghost predicate Downstream(w: Setup, failed: NodeId, id: NodeId) {
    exists p :: Walk(DepsOf(w.nodes), p) && |p| > 1 && p[0] == failed && p[|p| - 1] == id
  }

  ghost predicate SkippedBy(w: Setup, s: RunState, id: NodeId, failed: NodeId) {
    && HasStatus(s.states, failed, Failed) && Downstream(w, failed, id)
    && Says(s, id, multiset{Blocker(id, "skipped: upstream dependency failed", failed)})
  }

  /** What may be said of a fallback that was wanted and not tried. */
  function MayPrecede(id: NodeId): set<multiset<Blocker>> {
    {multiset{},
     multiset{Blocker(id, "budget exhausted before fallback", "global")},
     multiset{Blocker(id, "budget exhausted before fallback", "node-ceiling")},
     multiset{Blocker(id, "fallback misses required capabilities", "fallback_uncovered")}}
  }

  /** A failed node has one blocker with its result's error, after at most one about its fallback. */
  ghost predicate SaysFailed(s: RunState, id: NodeId, missed: multiset<Blocker>, what: string) {
    && id in s.results && missed in MayPrecede(id) && (what == "node failed" || (what == "node failed (cached)" && missed == multiset{}))
    && Says(s, id, missed + multiset{Blocker(id, what, ErrorName(s.results[id].errorClass))})
  }

  /** The blockers that name a node agree with its status. */
  ghost predicate Explained(w: Setup, s: RunState, id: NodeId) {
    && (HasStatus(s.states, id, Pending) || HasStatus(s.states, id, Succeeded) ==> Says(s, id, multiset{}))
    && (HasStatus(s.states, id, Skipped) ==> exists failed :: SkippedBy(w, s, id, failed))
    && (HasStatus(s.states, id, Failed) ==> exists missed, what :: SaysFailed(s, id, missed, what))
    && (id in s.states && s.states[id].status !in {Pending, Skipped} ==> DepsReady(w, s, id))
  }

  ghost predicate AllExplained(w: Setup, s: RunState) {
    forall id :: id in s.states ==> Explained(w, s, id)
  }

  // ---- steps ----

  lemma SaysMore(s: RunState, r: RunState, id: NodeId, added: multiset<Blocker>)
    requires Says(s, id, multiset{}) && r.blockers == s.blockers + added
    ensures Says(r, id, added)
  {
  }

  lemma SaysKept(s: RunState, r: RunState, x: NodeId, ids: seq<NodeId>, added: multiset<Blocker>, said: multiset<Blocker>)
    requires Says(s, x, said) && r.blockers == s.blockers + added && AllNamed(added, ids) && x !in ids
    ensures Says(r, x, said)
  {
  }

  lemma OtherExplained(w: Setup, s: RunState, r: RunState, ids: seq<NodeId>, added: multiset<Blocker>, x: NodeId)
    requires Explained(w, s, x) && x !in ids && OthersSame(w, s, r, ids) && AllPending(s, ids)
    requires r.blockers == s.blockers + added && AllNamed(added, ids)
    ensures Explained(w, r, x)
  {
    hide Says, OthersSame, Downstream, NodeOf, DepsReady, AllNamed, AllPending, MayPrecede;
    IsSame(w, s, r, ids, x);
    if HasStatus(s.states, x, Pending) || HasStatus(s.states, x, Succeeded) {
      SaysKept(s, r, x, ids, added, multiset{});
    }
    if HasStatus(s.states, x, Skipped) {
      var failed :| SkippedBy(w, s, x, failed);
      StillFailed(w, s, r, ids, failed);
      SaysKept(s, r, x, ids, added, multiset{Blocker(x, "skipped: upstream dependency failed", failed)});
      assert SkippedBy(w, r, x, failed);
    }
    if HasStatus(s.states, x, Failed) {
      var missed, what :| SaysFailed(s, x, missed, what);
      SaysKept(s, r, x, ids, added, missed + multiset{Blocker(x, what, ErrorName(s.results[x].errorClass))});
      assert SaysFailed(r, x, missed, what);
    }
    if x in s.states && s.states[x].status !in {Pending, Skipped} {
      SameDeps(w, s, r, ids, x);
    }
  }

  lemma StillFailed(w: Setup, s: RunState, r: RunState, ids: seq<NodeId>, failed: NodeId)
    requires OthersSame(w, s, r, ids) && AllPending(s, ids) && HasStatus(s.states, failed, Failed)
    ensures HasStatus(r.states, failed, Failed)
  {
    assert failed !in ids;
    assert SameNode(w, s, r, failed);
  }

  lemma StepExplained(w: Setup, s: RunState, r: RunState, ids: seq<NodeId>, added: multiset<Blocker>)
    requires AllExplained(w, s) && OthersSame(w, s, r, ids) && AllPending(s, ids) && r.states.Keys == s.states.Keys
    requires r.blockers == s.blockers + added && AllNamed(added, ids)
    requires forall id :: id in ids ==> Explained(w, r, id)
    ensures AllExplained(w, r)
  {
    hide Explained, OthersSame, AllNamed;
    forall x | x in r.states ensures Explained(w, r, x) {
      if x !in ids {
        OtherExplained(w, s, r, ids, added, x);
      }
    }
  }

  // ---- one node's turn ----

  lemma ComplaintsNamed(job: Job, l: Local, last: Attempt)
    ensures multiset(MissedFallback(job, l, last)) in MayPrecede(job.node.id)
    ensures multiset(Complaints(job, l, last)) ==
      if last.env.status == EnvSucceeded then multiset{}
      else multiset(MissedFallback(job, l, last)) + multiset{Blocker(job.node.id, "node failed", ErrorName(last.env.errorClass))}
    ensures AllNamed(multiset(Complaints(job, l, last)), [job.node.id])
  {
    hide FallbackWanted, FallbackExists, ErrorName;
  }

  lemma MadeExplained(w: Setup, s: RunState, r: RunState, id: NodeId, d: Local, env: Envelope)
    requires TurnMade(w, s, r, id, d, env) && DepsReady(w, r, id) && Says(s, id, multiset{})
    ensures Explained(w, r, id) && r.blockers == s.blockers + multiset(d.blockers) && AllNamed(multiset(d.blockers), [id])
  {
    hide DulyMade, Complaints, MissedFallback, MayPrecede, Says, DepsReady, KeyNow, StartsFrom, SettledEntry, ReviewerAfter,
      CloserAfter, NodeOf, Others, DepResults, TotalActual, AllNamed, JobNow, NodesById, ErrorName;
    JobIsNamed(w, s, id);
    var job, l := JobNow(w, s, id), StartNow(w, s, id);
    var last := d.attempts[|d.attempts| - 1];
    ComplaintsNamed(job, l, last);
    assert l.blockers + Complaints(job, l, last) == Complaints(job, l, last);
    SaysMore(s, r, id, multiset(d.blockers));
    if env.status != EnvSucceeded {
      assert SaysFailed(r, id, multiset(MissedFallback(job, l, last)), "node failed");
    }
  }

  lemma OneNamed(b: Blocker, ids: seq<NodeId>)
    requires b.id in ids
    ensures AllNamed(multiset{b}, ids) && AllNamed(multiset{}, ids)
  {
  }

  lemma ServedExplained(w: Setup, s: RunState, r: RunState, id: NodeId, row: Row) returns (added: multiset<Blocker>)
    requires TurnServed(s, r, id, row) && DepsReady(w, r, id) && Says(s, id, multiset{}) && row.status in {Succeeded, Failed}
    ensures Explained(w, r, id) && r.blockers == s.blockers + added && AllNamed(added, [id])
  {
    hide Says, DepsReady, ErrorName, MayPrecede;
    var b := Blocker(id, "node failed (cached)", ErrorName(row.envelope.value.errorClass));
    added := if row.status == Failed then multiset{b} else multiset{};
    OneNamed(b, [id]);
    SaysMore(s, r, id, added);
    NothingPrecedes(id);
    if row.status == Failed {
      assert multiset{} + multiset{b} == multiset{b};
      assert SaysFailed(r, id, multiset{}, "node failed (cached)");
    }
  }

  lemma NothingPrecedes(id: NodeId)
    ensures multiset{} in MayPrecede(id)
  {
  }

  lemma RefusedExplained(w: Setup, s: RunState, r: RunState, id: NodeId) returns (added: multiset<Blocker>)
    requires TurnRefused(w, s, r, id) && DepsReady(w, r, id)
    ensures Explained(w, r, id) && r.blockers == s.blockers + added && AllNamed(added, [id])
  {
    hide Says, DepsReady, KeyNow, StartsFrom;
    var reason := if StartNow(w, s, id).rt.consumed.tokens > 0 then "node-ceiling" else "global";
    var b := Blocker(id, "budget exhausted before dispatch", reason);
    added := multiset{b};
    OneNamed(b, [id]);
  }

  lemma PendingSilent(w: Setup, s: RunState, id: NodeId)
    requires Explained(w, s, id) && HasStatus(s.states, id, Pending)
    ensures Says(s, id, multiset{})
  {
  }

  lemma HitIsTerminal(w: Setup, key: Key, journal: Option<Rows>)
    ensures CacheHit(w, key, journal).Some? ==> CacheHit(w, key, journal).value.status in {Succeeded, Failed}
  {
    hide LookupIn;
  }

  lemma AgentExplained(w: Setup, s: RunState, id: NodeId)
    requires Sane(w, s) && HasStatus(s.states, id, Pending) && !s.stopped && AllExplained(w, s) && DepsReady(w, s, id)
    ensures AllExplained(w, Agent(w, s, id))
  {
    hide Sane, CacheHit, HasRoom, PlannedCeiling, Agent, TurnMade, TurnServed, TurnRefused, OnlyTouched, OthersSame, Explained, DepsReady, KeyNow, JobNow,
      StartNow, AllPending, AllNamed, Says;
    var r := Agent(w, s, id);
    AgentSteps(w, s, id);
    OnlyOne(w, s, r, id);
    OnlyPending(s, id);
    SameDeps(w, s, r, [id], id);
    assert Explained(w, s, id);
    PendingSilent(w, s, id);
    AgentReads(w, s, id);
    HitIsTerminal(w, KeyNow(w, s, id), s.journal);
    if exists d, env :: TurnMade(w, s, r, id, d, env) {
      var d, env :| TurnMade(w, s, r, id, d, env);
      MadeExplained(w, s, r, id, d, env);
      StepExplained(w, s, r, [id], multiset(d.blockers));
    } else if CacheHit(w, KeyNow(w, s, id), s.journal).Some? {
      var added := ServedExplained(w, s, r, id, CacheHit(w, KeyNow(w, s, id), s.journal).value);
      StepExplained(w, s, r, [id], added);
    } else {
      var added := RefusedExplained(w, s, r, id);
      StepExplained(w, s, r, [id], added);
    }
  }

  lemma {:induction false} AgentsExplained(w: Setup, s: RunState, batch: seq<NodeId>)
    requires Sane(w, s) && !s.stopped && AllExplained(w, s) && AllReady(w, s, batch)
    ensures AllExplained(w, Agents(w, s, batch))
    decreases |batch|
  {
    hide Agent, Sane, AllExplained, DepsReady, OnlyTouched;
    if batch != [] {
      var next := Agent(w, s, batch[0]);
      assert batch[0] in batch;
      AgentSteps(w, s, batch[0]);
      AgentExplained(w, s, batch[0]);
      if !next.stopped {
        RestStillReady(w, s, next, batch);
        AgentsExplained(w, next, batch[1..]);
      }
    }
  }

  // ---- a batch in one invocation ----

  lemma {:induction false} NoFailures(batch: seq<NodeId>, envs: seq<Envelope>, b: Blocker)
    requires |envs| == |batch| && b.id !in batch
    ensures FailuresOf(batch, envs)[b] == 0
    decreases |batch|
  {
    if batch != [] {
      assert batch[0] in batch;
      NoFailures(batch[1..], envs[1..], b);
    }
  }

  /** The blockers of a batch, seen from one of its nodes. */
  lemma {:induction false} FailuresRead(batch: seq<NodeId>, envs: seq<Envelope>, b: Blocker, j: nat)
    requires |envs| == |batch| && Sorting.Distinct(batch) && j < |batch| && batch[j] == b.id
    ensures FailuresOf(batch, envs)[b] == FailureOfNode(batch[j], envs[j])[b]
    decreases j
  {
    if j == 0 {
      assert b.id !in batch[1..];
      NoFailures(batch[1..], envs[1..], b);
    } else {
      assert batch[0] != batch[j];
      FailuresRead(batch[1..], envs[1..], b, j - 1);
    }
  }

  lemma BatchNodeExplained(w: Setup, s: RunState, r: RunState, batch: seq<NodeId>, envs: seq<Envelope>, tokens: seq<int>, j: nat)
    requires j < |batch| && BatchDone(w, s, r, batch, envs, tokens) && Sorting.Distinct(batch) && DepsReady(w, r, batch[j])
    requires Says(s, batch[j], multiset{})
    ensures Explained(w, r, batch[j])
  {
    hide DepsReady, KeyNow, OthersSame, ClosersAfter, FailuresOf, BatchAttempt, NodeOf, ErrorName;
    var id, env := batch[j], envs[j];
    assert EndedWith(w, r, id, env, tokens[j]);
    forall b: Blocker | b.id == id ensures r.blockers[b] == FailureOfNode(id, env)[b] {
      FailuresRead(batch, envs, b, j);
    }
    if env.status != EnvSucceeded {
      NothingPrecedes(id);
      assert SaysFailed(r, id, multiset{}, "node failed");
    }
  }

  lemma BatchNamed(batch: seq<NodeId>, envs: seq<Envelope>)
    requires |envs| == |batch|
    ensures AllNamed(FailuresOf(batch, envs), batch)
  {
    forall b: Blocker | b.id !in batch ensures FailuresOf(batch, envs)[b] == 0 {
      NoFailures(batch, envs, b);
    }
  }

  /** What a batch that was not started leaves of its nodes: still pending, refused, or running without a reservation. */
  ghost predicate StartedOrNot(r: RunState, id: NodeId) {
    HasStatus(r.states, id, Pending) || HasStatus(r.states, id, Ready) || HasStatus(r.states, id, Running)
  }

  /** Where a batch that was not started left each of its nodes. */
  lemma StoppedStatus(w: Setup, s: RunState, r: RunState, batch: seq<NodeId>, k: nat, id: NodeId)
    requires k < |batch| && StoppedAt(w, s, r, batch, 0, k) && Sorting.Distinct(batch) && AllPending(s, batch) && id in batch
    ensures StartedOrNot(r, id) && HasStatus(r.states, batch[k], Ready)
  {
    hide NodeOf;
    var j :| 0 <= j < |batch| && batch[j] == id;
    if j > k {
      assert id !in batch[..k + 1] && HasStatus(s.states, id, Pending);
      assert SameNode(w, s, r, id);
    }
  }

  lemma ReviewBatchExplained(w: Setup, s: RunState, batch: seq<NodeId>)
    requires Sane(w, s) && !s.stopped && s.journal.None? && AllExplained(w, s) && AllReady(w, s, batch)
    ensures AllExplained(w, ReviewBatch(w, s, batch))
  {
    hide Sane, ReviewBatch, BatchRan, BatchDone, NotStarted, Planned, Explained, OthersSame, AllPending, DepsReady, Answer,
      KeyNow, AllNamed, Says, FailuresOf;
    var r, tokens := ReviewBatch(w, s, batch), Planned(w, s, batch, 0);
    ReviewBatchReads(w, s, batch);
    ReviewBatchRuns(w, s, batch);
    RanKeepsStates(w, s, r, batch);
    forall id | id in batch ensures Says(s, id, multiset{}) && DepsReady(w, s, id) && HasStatus(s.states, id, Pending) {
      PendingIn(s, batch, id);
      assert Explained(w, s, id);
      PendingSilent(w, s, id);
    }
    if tokens.Some? {
      var envs := Answers(w, s, w.runBatch(NodesOf(w, batch)), batch);
      BatchAdds(w, s, r, batch, envs, tokens.value);
      BatchBlockers(w, s, r, batch, envs, tokens.value);
      forall id | id in batch ensures Explained(w, r, id) {
        var j :| 0 <= j < |batch| && batch[j] == id;
        SameDeps(w, s, r, batch, id);
        BatchNodeExplained(w, s, r, batch, envs, tokens.value, j);
      }
      BatchNamed(batch, envs);
      StepExplained(w, s, r, batch, FailuresOf(batch, envs));
    } else {
      NotStartedExplained(w, s, r, batch);
    }
  }

  lemma BatchBlockers(w: Setup, s: RunState, r: RunState, batch: seq<NodeId>, envs: seq<Envelope>, tokens: seq<int>)
    requires BatchDone(w, s, r, batch, envs, tokens)
    ensures r.blockers == s.blockers + FailuresOf(batch, envs)
  {
    hide EndedWith, OthersSame, KeyNow, ClosersAfter, FailuresOf;
  }

  lemma NotStartedExplained(w: Setup, s: RunState, r: RunState, batch: seq<NodeId>)
    requires NotStarted(w, s, r, batch, 0) && Sorting.Distinct(batch) && AllPending(s, batch) && AllExplained(w, s)
    requires forall id :: id in batch ==> Says(s, id, multiset{}) && DepsReady(w, s, id)
    requires r.states.Keys == s.states.Keys
    ensures AllExplained(w, r)
  {
    hide OthersSame, DepsReady, Explained, AllPending, InState, SameState, Says, StartedOrNot;
    NotStartedLeaves(w, s, r, batch);
    var k: nat :| 0 <= k < |batch| && StoppedAt(w, s, r, batch, 0, k);
    var b := Blocker(batch[k], "budget exhausted before dispatch", "global");
    OneNamed(b, batch);
    forall id | id in batch ensures Explained(w, r, id) {
      SameDeps(w, s, r, batch, id);
      StoppedStatus(w, s, r, batch, k, id);
      NotStartedNode(w, s, r, id, b);
    }
    StepExplained(w, s, r, batch, multiset{b});
  }

  lemma NotStartedNode(w: Setup, s: RunState, r: RunState, id: NodeId, b: Blocker)
    requires Says(s, id, multiset{}) && DepsReady(w, r, id) && StartedOrNot(r, id)
    requires r.blockers == s.blockers + multiset{b} && HasStatus(r.states, b.id, Ready)
    ensures Explained(w, r, id)
  {
    hide DepsReady;
  }

  // ---- skips ----

  lemma SkipBlockersRead(skipped: set<NodeId>, failed: NodeId, b: Blocker)
    ensures SkipBlockers(skipped, failed)[b] ==
      if b.id in skipped && b == Blocker(b.id, "skipped: upstream dependency failed", failed) then 1 else 0
  {
    var all := set x | x in skipped :: Blocker(x, "skipped: upstream dependency failed", failed);
    assert b in all <==> b.id in skipped && b == Blocker(b.id, "skipped: upstream dependency failed", failed);
  }

  /** A node a skip reaches was still pending: the dependencies of every other node had all succeeded. */
  lemma SkippedWasPending(w: Setup, s: RunState, failed: NodeId, x: NodeId)
    requires AllExplained(w, s) && Shaped(w, s) && WellFormed(w.nodes) && HasStatus(s.states, failed, Failed)
    requires x in SkipSet(DepsOf(w.nodes), s.states, failed)
    ensures HasStatus(s.states, x, Pending) && Downstream(w, failed, x)
  {
    hide Says, SkippedBy, SaysFailed, DepsOf, NodeOf, WellFormed, Walk;
    var p :| SkipWalk(DepsOf(w.nodes), s.states, failed, p) && p[|p| - 1] == x;
    assert Explained(w, s, x);
    var y := p[|p| - 2];
    LastStep(w, p);
    DepsOfNode(w, x);
    assert y == failed || Skippable(s.states[y].status);
    assert y in NodeOf(w, x).dependencies && !HasStatus(s.states, y, Succeeded);
  }

  lemma LastStep(w: Setup, p: seq<NodeId>)
    requires Walk(DepsOf(w.nodes), p) && |p| > 1
    ensures p[|p| - 1] in DepsOf(w.nodes) && p[|p| - 2] in DepsOf(w.nodes)[p[|p| - 1]]
  {
  }

  lemma SkipFromExplained(w: Setup, s: RunState, failed: NodeId)
    requires AllExplained(w, s) && Shaped(w, s) && WellFormed(w.nodes) && HasStatus(s.states, failed, Failed)
    ensures AllExplained(w, SkipFrom(w, s, failed))
  {
    hide Explained, SkipBlockers, WellFormed, Shaped, SkipSet;
    var skipped := SkipSet(DepsOf(w.nodes), s.states, failed);
    var r := SkipFrom(w, s, failed);
    SkipFromOnlySkips(w, s, failed);
    forall x | x in skipped ensures HasStatus(s.states, x, Pending) && Downstream(w, failed, x) {
      SkippedWasPending(w, s, failed, x);
    }
    assert !HasStatus(s.states, failed, Pending);
    forall x | x in r.states ensures Explained(w, r, x) {
      assert Explained(w, s, x);
      if x in skipped {
        NewlySkipped(w, s, r, failed, skipped, x);
      } else {
        NotSkipped(w, s, r, failed, skipped, x);
      }
    }
  }

  lemma NewlySkipped(w: Setup, s: RunState, r: RunState, failed: NodeId, skipped: set<NodeId>, x: NodeId)
    requires Explained(w, s, x) && HasStatus(s.states, x, Pending) && Downstream(w, failed, x) && x in skipped && x in s.states
    requires r == s.(states := SkipAll(s.states, skipped), blockers := s.blockers + SkipBlockers(skipped, failed))
    requires HasStatus(s.states, failed, Failed) && failed !in skipped
    ensures Explained(w, r, x)
  {
    hide SkipBlockers, Downstream, SaysFailed, DepsReady;
    var said := multiset{Blocker(x, "skipped: upstream dependency failed", failed)};
    forall b: Blocker | b.id == x ensures r.blockers[b] == said[b] {
      SkipBlockersRead(skipped, failed, b);
    }
    assert SkippedBy(w, r, x, failed);
  }

  lemma NotSkipped(w: Setup, s: RunState, r: RunState, failed: NodeId, skipped: set<NodeId>, x: NodeId)
    requires Explained(w, s, x) && x !in skipped && x in s.states
    requires r == s.(states := SkipAll(s.states, skipped), blockers := s.blockers + SkipBlockers(skipped, failed))
    requires forall y :: y in skipped ==> HasStatus(s.states, y, Pending)
    ensures Explained(w, r, x)
  {
    hide SkipBlockers, Downstream, MayPrecede, NodeOf;
    forall b: Blocker | b.id == x ensures r.blockers[b] == s.blockers[b] {
      SkipBlockersRead(skipped, failed, b);
    }
    if HasStatus(s.states, x, Skipped) {
      var f :| SkippedBy(w, s, x, f);
      assert SkippedBy(w, r, x, f);
    }
    if HasStatus(s.states, x, Failed) {
      var missed, what :| SaysFailed(s, x, missed, what);
      assert SaysFailed(r, x, missed, what);
    }
  }

  lemma {:induction false} SkipFailedExplained(w: Setup, s: RunState, batch: seq<NodeId>)
    requires AllExplained(w, s) && Sane(w, s) && WellFormed(w.nodes)
    ensures AllExplained(w, SkipFailed(w, s, batch))
    decreases |batch|
  {
    hide SkipFrom, Sane, AllExplained, WellFormed;
    if batch != [] {
      var next := if HasStatus(s.states, batch[0], Failed) then SkipFrom(w, s, batch[0]) else s;
      SkipFromOnlySkips(w, s, batch[0]);
      SkipsKeepSane(w, s, next);
      SaneHasNoFault(w, s);
      if HasStatus(s.states, batch[0], Failed) {
        SkipFromExplained(w, s, batch[0]);
      }
      SkipFailedExplained(w, next, batch[1..]);
    }
  }

  // ---- whole runs ----

  lemma JournalExplained(w: Setup, s: RunState, r: RunState)
    requires AllExplained(w, s) && r == s.(journal := r.journal, fault := r.fault)
    ensures AllExplained(w, r)
  {
    hide Downstream, MayPrecede, NodeOf;
    forall id | id in r.states ensures Explained(w, r, id) {
      assert Explained(w, s, id);
      forall b: Blocker ensures r.blockers[b] == s.blockers[b] {
      }
      if HasStatus(s.states, id, Skipped) {
        var f :| SkippedBy(w, s, id, f);
        assert SkippedBy(w, r, id, f);
      }
      if HasStatus(s.states, id, Failed) {
        var missed, what :| SaysFailed(s, id, missed, what);
        assert SaysFailed(r, id, missed, what);
      }
    }
  }

  lemma BarrierExplained(w: Setup, cap: int, s: RunState)
    requires WellFormed(w.nodes) && Sane(w, s) && !s.stopped && AllExplained(w, s)
    ensures AllExplained(w, Barrier(w, s, Batch(w, cap, s)))
  {
    hide Batch, SkipFailed, Journaled, Barrier, Sane, AllExplained, ReviewBatch, Agents, BatchRan, DepsReady, WellFormed;
    var batch := Batch(w, cap, s);
    BatchIsAllReady(w, cap, s);
    if CanBatch(w, s, batch) {
      ReviewBatchExplained(w, s, batch);
    } else {
      AgentsExplained(w, s, batch);
    }
    JoinedRan(w, s, batch);
    var joined := Joined(w, s, batch);
    RanKeepsStates(w, s, joined, batch);
    BarrierParts(w, s, batch);
    SkipFailedExplained(w, joined, batch);
    var skipped := SkipFailed(w, joined, batch);
    JournaledFacts(w, skipped, batch);
    JournalExplained(w, skipped, Journaled(w, skipped, batch));
  }

  lemma {:induction false} RunExplained(w: Setup, cap: int, s: RunState)
    requires WellFormed(w.nodes) && Sane(w, s) && !s.stopped && AllExplained(w, s)
    ensures AllExplained(w, Run(w, cap, s))
    decreases PendingCount(s)
  {
    hide Sane, Barrier, Batch, PendingCount, AllTerminal, WellFormed, AllExplained, Run;
    RunUnfolds(w, cap, s);
    if !(AllTerminal(s.states) || Batch(w, cap, s) == []) {
      BarrierExplained(w, cap, s);
      var next := Barrier(w, s, Batch(w, cap, s));
      if !(next.stopped || next.fault) {
        RunExplained(w, cap, next);
      }
    }
  }

  lemma InitialExplained(w: Setup, reviewer: string, closer: string, journal: Option<Rows>)
    ensures AllExplained(w, Initial(w, reviewer, closer, journal))
  {
    hide IdSet, NodeOf;
  }

  /** WHAT THE BLOCKERS SAY. After every run, whatever the adapters, the journal and the cap: a succeeded or pending node
      has no blocker; a skipped one has exactly one, and it names a failed node it depends on through others; a failed
      one has exactly one with its result's error, after at most one that says why its fallback was not tried. */
  lemma BlockersExplain(w: Setup, cap: int, reviewer: string, closer: string, journal: Option<Rows>)
    requires WellFormed(w.nodes) && GoodRows(journal)
    ensures Sane(w, Initial(w, reviewer, closer, journal))
    ensures AllExplained(w, Run(w, cap, Initial(w, reviewer, closer, journal)))
  {
    hide Run, Sane, AllExplained, WellFormed, GoodRows, IdSet;
    InitialIsSane(w, reviewer, closer, journal);
    InitialExplained(w, reviewer, closer, journal);
    RunExplained(w, cap, Initial(w, reviewer, closer, journal));
  }
}
