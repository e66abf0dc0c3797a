/** The run computes the meaning: for every cap, and from every journal that earlier runs may have left. */
module EngineResume {
  import opened AgyTypes
  import opened Budget
  import opened Scheduling
  import opened Checkpointing
  import opened Dispatching
  import opened DispatchTheorems
  import opened DispatchLimits
  import opened Engine
  import opened EngineInvariants
  import opened EngineRun
  import opened EngineMeaning

  /** Attempts are functions of node, attempt number and dependency results; no review roles. */
  ghost predicate Reproducible(w: Setup) {
    BudgetBlind(w) && forall id :: id in IdSet(w.nodes) ==> !IsReview(NodeOf(w, id))
  }

  /** The key does not hash the node id, so two nodes may collide; here they do not. */
  ghost predicate DistinctKeys(m: Meaning) {
    forall a, b :: a in m && b in m && m[a].Reached? && m[b].Reached? && m[a].key == m[b].key ==> a == b
  }

  function MeaningRow(w: Setup, id: NodeId, v: Verdict): Row
    requires v.Reached?
  {
    Row(id, v.key, w.epoch, v.rt.status, v.rt.attempt, v.rt.remainingRetries, v.rt.consumed, Some(v.env))
  }

  /** Every row is what the meaning says about its node. */
  ghost predicate SoundRows(w: Setup, m: Meaning, rows: Rows) {
    forall id :: id in rows ==> id in m && m[id].Reached? && rows[id] == MeaningRow(w, id, m[id])
  }

  ghost predicate SoundJournal(w: Setup, m: Meaning, journal: Option<Rows>) {
    journal.Some? ==> SoundRows(w, m, journal.value) && DistinctKeys(m)
  }

  ghost predicate AgreesAt(m: Meaning, s: RunState, id: NodeId) {
    && (Ended(s, id) ==>
         && id in m && m[id].Reached? && s.states[id] == m[id].rt
         && id in s.results && s.results[id] == m[id].env
         && id in s.keys && s.keys[id] == m[id].key)
    && (HasStatus(s.states, id, Skipped) ==> id in m && m[id] == Avoided)
  }

  ghost predicate Agrees(m: Meaning, s: RunState) {
    forall id :: id in s.states ==> AgreesAt(m, s, id)
  }

  /** The solved nodes are what ran: terminal, labelled, with a non-negative running total. */
  lemma OwnOutcomeFacts(w: Setup, node: NodeSpec, results: map<NodeId, Envelope>)
    requires BudgetBlind(w)
    ensures var v := OwnOutcome(w, node, results);
            && v.Reached? && v.rt.status in {Succeeded, Failed}
            && v.rt.errorClass == v.env.errorClass && v.rt.consumed.tokens >= 0
            && v.committed.tokens >= 0 && v.committed.usd >= 0.0
  {
    hide Dispatch, Completed, Grew, Conserved, OverrunBounded;
    var job, l := AloneJob(w, node, results), Clean(node);
    DispatchCompletes(job, l);
    DispatchLooser(job, None, l);
    var (r, env) := Dispatch(job, l);
    if env.Some? {
      CompletedFacts(job, l, r, env.value);
    }
  }

  lemma CompletedFacts(job: Job, l: Local, r: Local, env: Envelope)
    requires Completed(job, l, r, env, AtLeastZero(l.rt.remainingRetries) + 2)
    requires l.own.None? && l.attempts == [] && l.rt.consumed == ZERO
    ensures r.rt.status in {Succeeded, Failed} && r.rt.errorClass == env.errorClass
    ensures r.rt.consumed.tokens >= 0 && CommittedBy(r.own).tokens >= 0 && CommittedBy(r.own).usd >= 0.0
  {
    hide TotalActual, TotalCharged;
    ConsumedNonNegative(job, l, r, env);
    ChargesNonNegative(r.attempts);
    assert TotalCharged([]) == ZERO by {
      EmptyTotals();
    }
  }

  lemma EmptyTotals()
    ensures TotalCharged([]) == ZERO && TotalActual([]) == ZERO
  {
  }

  lemma {:induction false} ChargesNonNegative(attempts: seq<Attempt>)
    requires forall i :: 0 <= i < |attempts| ==> FairlyCharged(attempts[i])
    ensures TotalCharged(attempts).tokens >= 0 && TotalCharged(attempts).usd >= 0.0
  {
    if attempts != [] {
      ChargesNonNegative(attempts[..|attempts| - 1]);
      assert FairlyCharged(attempts[|attempts| - 1]);
    }
  }

  // ---- one agent step computes the node's verdict ----

  lemma ReadyIsReached(w: Setup, m: Meaning, s: RunState, id: NodeId)
    requires IsMeaning(w, m) && Reproducible(w) && Agrees(m, s) && Shaped(w, s) && id in s.states
    requires forall d :: d in NodeOf(w, id).dependencies ==> HasStatus(s.states, d, Succeeded)
    ensures m[id] == OwnOutcome(w, NodeOf(w, id), s.results)
  {
    hide OwnOutcome, Reproducible, IdSet;
    var node := NodeOf(w, id);
    forall d | d in node.dependencies ensures Good(m, d) && d in s.results && s.results[d] == Outputs(m)[d] {
      assert AgreesAt(m, s, d);
    }
    OwnOutcomeSame(w, node, Outputs(m), s.results);
  }

  lemma OwnOutcomeSame(w: Setup, node: NodeSpec, a: map<NodeId, Envelope>, b: map<NodeId, Envelope>)
    requires SameOn(node.dependencies, a, b)
    ensures OwnOutcome(w, node, a) == OwnOutcome(w, node, b)
  {
    hide AloneJob;
    JobSame(w, node, a, b);
  }

  /** A dispatch that the global budget did not refuse is the node's own outcome. */
  lemma DispatchedAgrees(w: Setup, s: RunState, k: RunState, id: NodeId)
    requires Sane(w, s) && HasStatus(s.states, id, Pending) && !s.stopped && Reproducible(w)
    requires k == Keyed(w, s, id)
    requires s.journal.Some? && id in s.journal.value ==> s.journal.value[id].key != KeyOf(k, id)
    requires !Dispatched(w, k, id).refused
    ensures var r := Dispatched(w, k, id);
            var v := OwnOutcome(w, NodeOf(w, id), s.results);
            && v.Reached? && !r.stopped
            && StateOf(r, id) == v.rt && id in r.results && r.results[id] == v.env && id in r.keys && r.keys[id] == v.key
            && id in r.states
            && r.attempts == s.attempts + v.attempts
            && LedgerKeyOf(w, id) in r.entries && r.entries[LedgerKeyOf(w, id)].committed == v.committed
  {
    hide Dispatch, Sane, BudgetBlind, DepResults, ResolveInputs;
    PendingIsFresh(w, s, id);
    var node := NodeOf(w, id);
    var job, l := JobOf(w, k, id), LocalOf(w, k, id);
    var (d, env) := Dispatch(job, l);
    assert With(job, None) == AloneJob(w, node, s.results);
    assert l == Reviewed(Clean(node), s.reviewer, s.closer);
    assert !d.refused;
    DispatchLooser(job, None, l);
    DispatchReviewed(With(job, None), Clean(node), s.reviewer, s.closer);
    OwnOutcomeFacts(w, node, s.results);
    DispatchCloses(job, l);
  }

  lemma DispatchCloses(job: Job, l: Local)
    requires Dispatchable(l)
    ensures var (r, env) := Dispatch(job, l); env.Some? ==> r.own.Some?
  {
    hide Dispatch, Grew, Conserved, OverrunBounded;
    DispatchCompletes(job, l);
  }

  lemma PendingIsFresh(w: Setup, s: RunState, id: NodeId)
    requires Sane(w, s) && HasStatus(s.states, id, Pending)
    ensures s.states[id] == FRESH && LedgerKeyOf(w, id) !in s.entries && !s.fault && id in IdSet(w.nodes)
  {
    assert SaneNode(w, s, id);
  }

  /** A row of a sound journal is found under its own key, and only under it. */
  lemma SoundHit(w: Setup, m: Meaning, rows: Rows, id: NodeId)
    requires SoundRows(w, m, rows) && DistinctKeys(m) && Reproducible(w) && IsMeaning(w, m)
    requires id in m && m[id].Reached?
    ensures CacheHit(w, m[id].key, Some(rows)) == if id in rows then Some(MeaningRow(w, id, m[id])) else None
  {
    hide OwnOutcome, BudgetBlind;
    var found := Matching(rows, m[id].key, w.epoch.id);
    forall x | x in found ensures x == id {
      assert m[x].key == m[id].key;
    }
    if id in rows {
      assert id in found;
      assert w.select(found) in found;
      OwnOutcomeFacts(w, NodeOf(w, id), Outputs(m));
    } else {
      assert found == {};
    }
  }

  ghost predicate InJournal(s: RunState, id: NodeId) {
    s.journal.Some? && id in s.journal.value
  }

  ghost predicate AboutToRun(w: Setup, m: Meaning, s: RunState, id: NodeId) {
    && IsMeaning(w, m) && Reproducible(w) && Agrees(m, s) && Sane(w, s) && SoundJournal(w, m, s.journal)
    && HasStatus(s.states, id, Pending) && !s.stopped
    && forall d :: d in NodeOf(w, id).dependencies ==> HasStatus(s.states, d, Succeeded)
  }

  /** The ready-time key is the meaning's key, so the cache answers exactly for journaled nodes. */
  lemma AgentCase(w: Setup, m: Meaning, s: RunState, id: NodeId)
    requires AboutToRun(w, m, s, id)
    ensures id in m && m[id].Reached? && m[id] == OwnOutcome(w, NodeOf(w, id), s.results)
    ensures m[id].rt.status in {Succeeded, Failed} && m[id].rt.errorClass == m[id].env.errorClass
    ensures var k := Keyed(w, s, id);
            && KeyOf(k, id) == m[id].key && k.journal == s.journal
            && CacheHit(w, KeyOf(k, id), k.journal) == if InJournal(s, id) then Some(MeaningRow(w, id, m[id])) else None
  {
    hide Dispatched, OwnOutcome, BudgetBlind, DepResults, Sane, Evaluate, ResolveInputs;
    PendingIsFresh(w, s, id);
    SaneHasNoFault(w, s);
    ReadyIsReached(w, m, s, id);
    OwnOutcomeFacts(w, NodeOf(w, id), s.results);
    OwnOutcomeKey(w, NodeOf(w, id), s.results);
    if s.journal.Some? {
      SoundHit(w, m, s.journal.value, id);
    }
  }

  lemma ServedAgrees(w: Setup, m: Meaning, s: RunState, id: NodeId, v: Verdict)
    requires v.Reached? && id in m && m[id] == v && v.rt.errorClass == v.env.errorClass
    requires KeyOf(Keyed(w, s, id), id) == v.key && !s.stopped
    requires v.rt.status in {Succeeded, Failed}
    requires LedgerKeyOf(w, id) !in s.entries
    ensures var r := Served(w, Keyed(w, s, id), id, MeaningRow(w, id, v));
            !r.stopped && AgreesAt(m, r, id) && r.attempts == s.attempts && r.entries == s.entries
  {
    hide ResolveInputs;
  }

  /** What one agent step does, when the budget does not refuse it: it leaves exactly the node's verdict,
      and runs nothing for a node that is already journaled. */
  lemma AgentAgrees(w: Setup, m: Meaning, s: RunState, id: NodeId)
    requires AboutToRun(w, m, s, id) && !Agent(w, s, id).refused
    ensures var r := Agent(w, s, id);
            && !r.stopped && AgreesAt(m, r, id)
            && id in m && m[id].Reached?
            && r.attempts == s.attempts + (if InJournal(s, id) then [] else m[id].attempts)
            && (InJournal(s, id) ==> r.entries == s.entries)
            && (!InJournal(s, id) ==>
                 LedgerKeyOf(w, id) in r.entries && r.entries[LedgerKeyOf(w, id)].committed == m[id].committed)
  {
    hide Dispatched, Served, OwnOutcome, BudgetBlind, Sane, Keyed, CacheHit, Agrees, IsMeaning, SoundJournal;
    AgentCase(w, m, s, id);
    PendingIsFresh(w, s, id);
    if InJournal(s, id) {
      ServedAgrees(w, m, s, id, m[id]);
    } else {
      DispatchedAgrees(w, s, Keyed(w, s, id), id);
    }
  }

  lemma OwnOutcomeKey(w: Setup, node: NodeSpec, results: map<NodeId, Envelope>)
    ensures var v := OwnOutcome(w, node, results);
            v.Reached? ==> v.key == w.keyOf(node, ResolveInputs(node, results))
  {
    hide Dispatch;
  }
}
