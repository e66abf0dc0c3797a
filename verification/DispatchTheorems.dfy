/** What every dispatch guarantees, whatever the adapters return. */
module DispatchTheorems {
  import opened AgyTypes
  import opened Budget
  import opened Scheduling
  import opened Dispatching

  /** Ready to attempt: the node is ready, its reservation is open, nothing went wrong. */
  ghost predicate Armed(l: Local) {
    l.rt.status == Ready && l.own.Some? && l.own.value.status == Open && !l.fault
  }

  /** The state a charged attempt leaves: still running, reservation closed. */
  ghost predicate Billed(l: Local) {
    l.rt.status == Running && l.own.Some? && l.own.value.status != Open && l.own.value.reserved == ZERO && !l.fault
  }

  /** Terminal status, reservation closed, no exception. */
  ghost predicate Closed(l: Local) {
    && l.rt.status in {Succeeded, Failed}
    && l.own.Some? && l.own.value.status != Open && l.own.value.reserved == ZERO
    && !l.fault
  }

  function TotalActual(attempts: seq<Attempt>): Dims {
    if attempts == [] then ZERO
    else TotalActual(attempts[..|attempts| - 1]).Add(attempts[|attempts| - 1].actual)
  }

  function TotalCharged(attempts: seq<Attempt>): Dims {
    if attempts == [] then ZERO
    else TotalCharged(attempts[..|attempts| - 1]).Add(attempts[|attempts| - 1].charged)
  }

  /** The rule that turns usage into a charge. */
  ghost predicate FairlyCharged(a: Attempt) {
    && a.charged == Charge(Some(a.actual), a.accounting, a.reserved)
    && a.actual.tokens >= 0 && a.actual.usd >= 0.0 && a.reserved.tokens >= 0 && a.reserved.usd == 0.0
  }

  /** What one more charged attempt changes. */
  ghost predicate OneAttempt(job: Job, l: Local, r: Local, a: Attempt) {
    && r.attempts == l.attempts + [a]
    && a.node == job.node.id
    && FairlyCharged(a)
    && l.own.Some? && a.reserved == l.own.value.reserved
    && r.rt.attempt == l.rt.attempt + 1
    && r.rt.remainingRetries == l.rt.remainingRetries
    && r.rt.consumed == l.rt.consumed.Add(a.actual)
    && r.own.Some? && r.own.value.committed == l.own.value.committed.Add(a.charged)
    && (l.refused ==> r.refused)
  }

  ghost predicate Fits(job: Job, l: Local) {
    l.own.Some? && l.own.value.reserved.tokens >= 0 && l.own.value.reserved.usd == 0.0 &&
    (job.others.Some? ==>
      job.others.value.tokens + l.own.value.committed.tokens + l.own.value.reserved.tokens <= job.w.limit.tokens)
  }

  lemma RunOnceCharges(job: Job, l: Local) returns (a: Attempt)
    requires Armed(l) && Fits(job, l)
    ensures var (r, env) := RunOnce(job, l);
            && Billed(r) && OneAttempt(job, l, r, a)
            && r.rt.errorClass == env.errorClass
            && env.nodeId == job.node.id && env.key == job.key && env.attempt == r.rt.attempt
            && r.blockers == l.blockers
  {
    hide Attempting, Remaining, TriagedCloser;
    var (r, env) := RunOnce(job, l);
    a := r.attempts[|r.attempts| - 1];
    AttemptIsLabelled(job, Marked(Marked(l, NodeStatus.Reserved), Running).(rt := l.rt.(status := Running, attempt := l.rt.attempt + 1)));
  }

  lemma AttemptIsLabelled(job: Job, l: Local)
    ensures var env := Attempting(job, l); env.nodeId == job.node.id && env.key == job.key && env.attempt == l.rt.attempt
  {
  }

  /** A reservation is granted only to a node that has been billed nothing, and only if it fits. */
  lemma ReserveGrants(job: Job, l: Local, accounting: Accounting)
    requires l.own.Some? ==> l.own.value.status != Open && l.own.value.reserved == ZERO
    ensures var (admission, r) := ReserveAs(job, l, accounting);
            && r == l.(own := r.own, refused := r.refused)
            && (admission == Admitted ==>
                 && Fits(job, r) && r.refused == l.refused && r.own.value.status == Open
                 && l.rt.consumed.tokens <= 0
                 && r.own.value.committed == if l.own.Some? then l.own.value.committed else ZERO)
            && (admission != Admitted ==> r.own == l.own)
            && (l.refused ==> r.refused)
            && (admission == GlobalLimit ==> r.refused)
            && (admission == NodeCeiling ==> l.rt.consumed.tokens > 0)
  {
    hide Times;
  }

  /** A fallback: nothing happened, or one attempt of a node that had been billed nothing. */
  ghost predicate Tried(job: Job, l: Local, r: Local, env: Option<Envelope>) {
    && Billed(r)
    && (env.None? ==>
         && r.attempts == l.attempts && r.rt == l.rt && r.own == l.own && (l.refused ==> r.refused))
    && (env.Some? ==>
         && l.rt.consumed.tokens <= 0
         && r.rt.errorClass == env.value.errorClass
         && env.value.nodeId == job.node.id && env.value.key == job.key && env.value.attempt == r.rt.attempt
         && exists a :: FallbackOnce(job, l, r, a))
  }

  lemma ReviewFallbackCharges(job: Job, l: Local, next: string)
    requires Billed(l)
    ensures var (r, env) := ReviewFallback(job, l, next); Tried(job, l, r, env)
  {
    hide Attempting, Remaining, TriagedCloser, ReserveAs, IsReviewer;
    ReserveGrants(job, l, Exact);
    var (r, env) := ReviewFallback(job, l, next);
    if env.Some? {
      var (_, reserved) := ReserveAs(job, l, Exact);
      AttemptIsLabelled(job, Counted(Switched(job.node, reserved, next)));
      assert FallbackOnce(job, l, r, r.attempts[|r.attempts| - 1]);
    }
  }

  lemma AdapterFallbackCharges(job: Job, l: Local, fallback: Fallback)
    requires Billed(l)
    ensures var (r, env) := AdapterFallback(job, l, fallback); Tried(job, l, r, env)
  {
    hide Remaining, TriagedCloser, ReserveAs;
    ReserveGrants(job, l, fallback.accounting);
    var (r, env) := AdapterFallback(job, l, fallback);
    if env.Some? {
      assert FallbackOnce(job, l, r, r.attempts[|r.attempts| - 1]);
    }
  }

  /** The fallback makes at most one attempt, and only for a node that has been billed nothing. */
  lemma FallbackCharges(job: Job, l: Local)
    requires Billed(l)
    ensures var (r, env) := FallbackAttempt(job, l); Tried(job, l, r, env)
  {
    hide ReviewFallback, AdapterFallback, FallbackOnce;
    if IsReview(job.node) {
      var next := NextReviewAdapter(ReviewAdapter(job.node, l));
      if next.Some? {
        ReviewFallbackCharges(job, l, next.value);
      }
    } else if job.w.fallback.Some? {
      AdapterFallbackCharges(job, l, job.w.fallback.value);
    }
  }

  /** The fallback attempt, seen from before its reservation. */
  ghost predicate FallbackOnce(job: Job, l: Local, r: Local, a: Attempt) {
    && r.attempts == l.attempts + [a]
    && a.node == job.node.id
    && FairlyCharged(a)
    && r.rt.attempt == l.rt.attempt + 1
    && r.rt.consumed == l.rt.consumed.Add(a.actual)
    && r.own.Some? && l.own.Some? && r.own.value.committed == l.own.value.committed.Add(a.charged)
    && (l.refused ==> r.refused)
    && (job.others.Some? ==>
         job.others.value.tokens + l.own.value.committed.tokens + a.reserved.tokens <= job.w.limit.tokens)
  }

  // ---- the whole retry loop ----

  /** How a list of attempts grew: boundedly, charged by the rule, and billing tokens only at the end. */
  ghost predicate Grew(job: Job, l: Local, r: Local, most: nat) {
    && l.attempts <= r.attempts && |l.attempts| < |r.attempts| <= |l.attempts| + most
    && (forall i :: |l.attempts| <= i < |r.attempts| ==> FairlyCharged(r.attempts[i]) && r.attempts[i].node == job.node.id)
    && (forall i :: |l.attempts| <= i < |r.attempts| - 1 ==> r.attempts[i].actual.tokens == 0)
    && r.rt.attempt == l.rt.attempt + |r.attempts| - |l.attempts|
    && (l.refused ==> r.refused)
  }

  ghost function CommittedBy(own: Option<Entry>): Dims {
    if own.Some? then own.value.committed else ZERO
  }

  /** Usage reaches the node's running total and charges reach the ledger, neither lost nor counted twice. */
  ghost predicate Conserved(l: Local, r: Local) {
    && r.rt.consumed.Add(TotalActual(l.attempts)) == l.rt.consumed.Add(TotalActual(r.attempts))
    && CommittedBy(r.own).Add(TotalCharged(l.attempts)) == CommittedBy(l.own).Add(TotalCharged(r.attempts))
  }

  /** Spending exceeds the limit at most by what the last attempt cost beyond its reservation. */
  ghost predicate OverrunBounded(job: Job, r: Local) {
    r.own.Some? && |r.attempts| > 0 && (job.others.Some? ==>
      var last := r.attempts[|r.attempts| - 1];
      job.others.value.tokens + r.own.value.committed.tokens
        <= job.w.limit.tokens + last.charged.tokens - last.reserved.tokens)
  }

  ghost predicate Labelled(job: Job, r: Local, env: Envelope) {
    && env.nodeId == job.node.id && env.key == job.key && env.attempt == r.rt.attempt
    && r.rt.errorClass == env.errorClass
  }

  lemma TotalsSnoc(attempts: seq<Attempt>, a: Attempt)
    ensures TotalActual(attempts + [a]) == TotalActual(attempts).Add(a.actual)
    ensures TotalCharged(attempts + [a]) == TotalCharged(attempts).Add(a.charged)
  {
    assert (attempts + [a])[..|attempts|] == attempts;
  }

  lemma OneAttemptGrows(job: Job, l: Local, r: Local, a: Attempt)
    requires Armed(l) && Fits(job, l) && OneAttempt(job, l, r, a)
    ensures Grew(job, l, r, 1) && Conserved(l, r) && OverrunBounded(job, r)
  {
    hide Times;
    TotalsSnoc(l.attempts, a);
  }

  lemma FallbackGrows(job: Job, l: Local, r: Local, a: Attempt)
    requires FallbackOnce(job, l, r, a)
    ensures Grew(job, l, r, 1) && Conserved(l, r) && OverrunBounded(job, r)
  {
    TotalsSnoc(l.attempts, a);
  }

  lemma GrewThrough(job: Job, l: Local, m: Local, r: Local, a: nat, b: nat)
    requires Grew(job, l, m, a) && Grew(job, m, r, b)
    requires m.attempts[|m.attempts| - 1].actual.tokens == 0
    ensures Grew(job, l, r, a + b)
  {
    forall i | |l.attempts| <= i < |r.attempts|
      ensures FairlyCharged(r.attempts[i]) && r.attempts[i].node == job.node.id
      ensures i < |r.attempts| - 1 ==> r.attempts[i].actual.tokens == 0
    {
      if i < |m.attempts| {
        assert r.attempts[i] == m.attempts[i];
      }
    }
  }

  lemma ConservedThrough(l: Local, m: Local, r: Local)
    requires Conserved(l, m) && Conserved(m, r)
    ensures Conserved(l, r)
  {
    hide TotalActual, TotalCharged;
  }

  /** What a dispatched node looks like once it is terminal. */
  ghost predicate Completed(job: Job, l: Local, r: Local, env: Envelope, most: nat) {
    && Closed(r)
    && r.rt.status == (if Classify(env).None? then Succeeded else Failed)
    && Labelled(job, r, env)
    && Grew(job, l, r, most) && Conserved(l, r) && OverrunBounded(job, r)
  }

  lemma TerminalMarks(job: Job, l: Local, m: Local, env: Envelope, most: nat)
    requires Billed(m) && Labelled(job, m, env) && Grew(job, l, m, most) && Conserved(l, m) && OverrunBounded(job, m)
    ensures Classify(env).None? ==> Completed(job, l, Marked(m, Succeeded), env, most)
    ensures Classify(env).Some? ==> Completed(job, l, Failing(job, m, env).0, env, most)
  {
    hide TotalActual, TotalCharged;
  }

  /** After a failed attempt with no retry left, at most the fallback follows. */
  lemma FinishCompletes(job: Job, l: Local, m: Local, env: Envelope, failure: FailureClass)
    requires Billed(m) && Labelled(job, m, env) && Classify(env) == Some(failure)
    requires Grew(job, l, m, 1) && Conserved(l, m) && OverrunBounded(job, m)
    requires m.rt.consumed.tokens <= 0 ==> m.attempts[|m.attempts| - 1].actual.tokens == 0
    ensures var (r, last) := Finish(job, m, env, failure); Completed(job, l, r, last, 2)
  {
    hide FallbackAttempt, TotalActual, TotalCharged, Times, FallbackOnce, Marked;
    FallbackCharges(job, m);
    var (r, second) := FallbackAttempt(job, m);
    if !EarnsFallback(job, failure) {
      TerminalMarks(job, l, m, env, 2);
    } else if second.None? {
      TerminalMarks(job, l, r, env, 2);
    } else {
      var b :| FallbackOnce(job, m, r, b);
      FallbackGrows(job, m, r, b);
      GrewThrough(job, l, m, r, 1, 1);
      ConservedThrough(l, m, r);
      TerminalMarks(job, l, r, second.value, 2);
    }
  }

  /** Every run of the retry loop terminates within its retries, bills tokens at most once, conserves
      usage and charges, and closes its reservation. */
  lemma {:induction false} LoopCompletes(job: Job, l: Local)
    requires Armed(l) && Fits(job, l) && l.rt.consumed.tokens >= 0
    ensures var (r, env) := AttemptLoop(job, l);
            Completed(job, l, r, env, AtLeastZero(l.rt.remainingRetries) + 2)
    decreases l.rt.remainingRetries
  {
    hide RunOnce, ReserveAs, Finish, TotalActual, TotalCharged;
    var a := RunOnceCharges(job, l);
    var (m, env) := RunOnce(job, l);
    OneAttemptGrows(job, l, m, a);
    var failure := Classify(env);
    if failure.None? {
      TerminalMarks(job, l, m, env, AtLeastZero(l.rt.remainingRetries) + 2);
    } else {
      if RetryEligible(failure.value, env.errorClass, m.rt.remainingRetries, job.node.retryableErrors) {
        ReserveGrants(job, m, job.w.reserveAccounting(job.node, m.rt.attempt + 1, Remaining(job, m)));
        var (admission, again) := ReserveAttempt(job, m);
        if admission == Admitted {
          var next := Retried(again);
          LoopCompletes(job, next);
          var (r, last) := AttemptLoop(job, next);
          var most := AtLeastZero(next.rt.remainingRetries) + 2;
          assert Grew(job, m, r, most) && Conserved(m, r);
          GrewThrough(job, l, m, r, 1, most);
          ConservedThrough(l, m, r);
        } else {
          FinishCompletes(job, l, again, env, failure.value);
        }
      } else {
        FinishCompletes(job, l, m, env, failure.value);
      }
    }
  }

  /** A node about to be dispatched: pending, with no reservation open. */
  ghost predicate Dispatchable(l: Local) {
    && l.rt.status == Pending && l.rt.consumed.tokens >= 0 && !l.fault
    && (l.own.Some? ==> l.own.value.status != Open && l.own.value.reserved == ZERO)
  }

  /** A dispatch refused before its first attempt leaves nothing reserved and runs nothing. */
  ghost predicate Stopped(job: Job, l: Local, r: Local) {
    && r.rt == l.rt.(status := Ready) && r.own == l.own && r.attempts == l.attempts && !r.fault
    && (l.refused ==> r.refused)
    && (l.rt.consumed.tokens <= 0 ==> r.refused)
  }

  /** The guarantees of one dispatch, for every adapter: it either is refused outright, or ends the
      node after at most `maxSchemaRetries + 2` attempts (retries plus one fallback). */
  lemma DispatchCompletes(job: Job, l: Local)
    requires Dispatchable(l)
    ensures var (r, env) := Dispatch(job, l);
            && (env.None? ==> Stopped(job, l, r))
            && (env.Some? ==> Completed(job, l, r, env.value, AtLeastZero(l.rt.remainingRetries) + 2))
  {
    hide RunOnce, ReserveAs, AttemptLoop, TotalActual, TotalCharged;
    var ready := Marked(l, Ready);
    ReserveGrants(job, ready, job.w.reserveAccounting(job.node, ready.rt.attempt + 1, Remaining(job, ready)));
    var (admission, armed) := ReserveAttempt(job, ready);
    if admission == Admitted {
      LoopCompletes(job, armed);
      assert CommittedBy(armed.own) == CommittedBy(l.own);
    }
  }

  // ---- what a charge covers ----

  ghost predicate AllExact(attempts: seq<Attempt>) {
    forall i :: 0 <= i < |attempts| ==> attempts[i].accounting == Exact
  }

  ghost predicate AllFair(attempts: seq<Attempt>) {
    forall i :: 0 <= i < |attempts| ==> FairlyCharged(attempts[i])
  }

  /** Charges cover usage, and are usage when every attempt was accounted exactly. */
  lemma {:induction false} ChargesCoverUsage(attempts: seq<Attempt>)
    requires AllFair(attempts)
    ensures TotalActual(attempts).FitsWithin(TotalCharged(attempts))
    ensures AllExact(attempts) ==> TotalActual(attempts) == TotalCharged(attempts)
  {
    if attempts != [] {
      var last := attempts[|attempts| - 1];
      assert FairlyCharged(last);
      ChargesCoverUsage(attempts[..|attempts| - 1]);
    }
  }

  /** CONSERVATION IN ONE DISPATCH. What the node's running total gained is what its attempts used; what its
      ledger entry gained covers that, and equals it under exact accounting. */
  lemma DispatchConserves(job: Job, l: Local)
    requires Dispatchable(l) && l.attempts == []
    ensures var r := Dispatch(job, l).0;
            var used, charged := r.rt.consumed.Sub(l.rt.consumed), CommittedBy(r.own).Sub(CommittedBy(l.own));
            && used == TotalActual(r.attempts) && charged == TotalCharged(r.attempts)
            && used.FitsWithin(charged) && (AllExact(r.attempts) ==> used == charged)
  {
    hide Dispatch, TotalActual, TotalCharged, FairlyCharged, OverrunBounded;
    DispatchCompletes(job, l);
    NothingTotals();
    ChargesCoverUsage(Dispatch(job, l).0.attempts);
  }

  lemma NothingTotals()
    ensures TotalActual([]) == ZERO && TotalCharged([]) == ZERO
  {
  }

  /** A dispatch stops without a global refusal exactly when the node comes with billed tokens. */
  lemma DispatchStopsOnBilled(job: Job, l: Local)
    requires Dispatchable(l)
    ensures var (r, env) := Dispatch(job, l);
            && (env.Some? ==> l.rt.consumed.tokens == 0)
            && (l.rt.consumed.tokens > 0 ==> r.refused == l.refused)
            && (!l.refused ==> (env.None? && !r.refused <==> l.rt.consumed.tokens > 0))
  {
    hide AttemptLoop, Times;
  }
}
