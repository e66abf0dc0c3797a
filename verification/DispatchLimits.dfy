/** How a dispatch depends on the global budget: not at all, unless the budget refuses it. */
module DispatchLimits {
  import opened AgyTypes
  import opened Budget
  import opened Scheduling
  import opened Dispatching
  import opened DispatchTheorems

  /** Adapters and routing do not look at the remaining budget: a node attempt is a function of the
      node, the attempt number, its dependencies' results and the review adapter. */
  ghost predicate BudgetBlind(w: Setup) {
    && (forall n, a, d, r, x, y :: w.run(n, AttemptInput(a, d, r, x)) == w.run(n, AttemptInput(a, d, r, y)))
    && (forall n, a, x, y :: w.reserveAccounting(n, a, x) == w.reserveAccounting(n, a, y))
  }

  /** Less of the budget is held by others. */
  ghost predicate Looser(loose: Option<Dims>, tight: Option<Dims>) {
    loose.None? || (tight.Some? && loose.value.FitsWithin(tight.value))
  }

  function With(job: Job, others: Option<Dims>): Job {
    job.(others := others)
  }

  lemma RunOnceIsBlind(job: Job, others: Option<Dims>, l: Local)
    requires BudgetBlind(job.w)
    ensures RunOnce(With(job, others), l) == RunOnce(job, l)
  {
    hide Remaining, Marked, ReviewAdapter, Charged;
    var running := Marked(Marked(l, NodeStatus.Reserved), Running);
    AttemptingIsBlind(job, others, running.(rt := running.rt.(attempt := running.rt.attempt + 1)));
    ChargedIsBlind(job, others);
  }

  lemma AttemptingIsBlind(job: Job, others: Option<Dims>, l: Local)
    requires BudgetBlind(job.w)
    ensures Attempting(With(job, others), l) == Attempting(job, l)
  {
    hide Remaining;
  }

  lemma ChargedIsBlind(job: Job, others: Option<Dims>)
    ensures forall l, kind, env, accounting ::
      Charged(With(job, others), l, kind, env, accounting) == Charged(job, l, kind, env, accounting)
  {
  }

  lemma ReserveLooser(job: Job, others: Option<Dims>, l: Local, accounting: Accounting)
    requires Looser(others, job.others)
    ensures var (admission, r) := ReserveAs(job, l, accounting);
            !r.refused ==> ReserveAs(With(job, others), l, accounting) == (admission, r)
    ensures l.refused ==> ReserveAs(job, l, accounting).1.refused
    ensures job.others.None? ==> ReserveAs(job, l, accounting).1.refused == l.refused
  {
    hide Times;
  }

  lemma ReserveAttemptLooser(job: Job, others: Option<Dims>, l: Local)
    requires Looser(others, job.others) && BudgetBlind(job.w)
    ensures var (admission, r) := ReserveAttempt(job, l);
            !r.refused ==> ReserveAttempt(With(job, others), l) == (admission, r)
    ensures l.refused ==> ReserveAttempt(job, l).1.refused
    ensures job.others.None? ==> ReserveAttempt(job, l).1.refused == l.refused
  {
    hide ReserveAs, Remaining;
    var accounting := job.w.reserveAccounting(job.node, l.rt.attempt + 1, Remaining(job, l));
    assert accounting == job.w.reserveAccounting(job.node, l.rt.attempt + 1, Remaining(With(job, others), l));
    ReserveLooser(job, others, l, accounting);
  }

  lemma ReviewFallbackLooser(job: Job, others: Option<Dims>, l: Local, next: string)
    requires Looser(others, job.others) && BudgetBlind(job.w)
    ensures var (r, env) := ReviewFallback(job, l, next);
            && (!r.refused ==> ReviewFallback(With(job, others), l, next) == (r, env))
            && (l.refused ==> r.refused) && (job.others.None? ==> r.refused == l.refused)
  {
    hide ReserveAs, Attempting, TriagedCloser, Stamped, IsReviewer;
    ReserveLooser(job, others, l, Exact);
    var (admission, r) := FallbackReserved(job, l, Exact);
    if admission == Admitted {
      AttemptingIsBlind(job, others, Counted(Switched(job.node, r, next)));
    }
  }

  lemma AdapterFallbackLooser(job: Job, others: Option<Dims>, l: Local, fallback: Fallback)
    requires Looser(others, job.others) && BudgetBlind(job.w)
    ensures var (r, env) := AdapterFallback(job, l, fallback);
            && (!r.refused ==> AdapterFallback(With(job, others), l, fallback) == (r, env))
            && (l.refused ==> r.refused) && (job.others.None? ==> r.refused == l.refused)
  {
    hide ReserveAs, TriagedCloser, Stamped;
    ReserveLooser(job, others, l, fallback.accounting);
    StampedIsBlind(job, others);
  }

  lemma FallbackLooser(job: Job, others: Option<Dims>, l: Local)
    requires Looser(others, job.others) && BudgetBlind(job.w)
    ensures var (r, env) := FallbackAttempt(job, l);
            !r.refused ==> FallbackAttempt(With(job, others), l) == (r, env)
    ensures l.refused ==> FallbackAttempt(job, l).0.refused
    ensures job.others.None? ==> FallbackAttempt(job, l).0.refused == l.refused
  {
    hide ReviewFallback, AdapterFallback, BudgetBlind, Looser;
    if IsReview(job.node) {
      var next := NextReviewAdapter(ReviewAdapter(job.node, l));
      if next.Some? {
        ReviewFallbackLooser(job, others, l, next.value);
      }
    } else if job.w.fallback.Some? {
      AdapterFallbackLooser(job, others, l, job.w.fallback.value);
    }
  }

  lemma StampedIsBlind(job: Job, others: Option<Dims>)
    ensures forall l, env :: Stamped(With(job, others), l, env) == Stamped(job, l, env)
  {
  }

  lemma FinishLooser(job: Job, others: Option<Dims>, l: Local, env: Envelope, failure: FailureClass)
    requires Looser(others, job.others) && BudgetBlind(job.w)
    ensures var (r, last) := Finish(job, l, env, failure);
            !r.refused ==> Finish(With(job, others), l, env, failure) == (r, last)
    ensures l.refused ==> Finish(job, l, env, failure).0.refused
    ensures job.others.None? ==> Finish(job, l, env, failure).0.refused == l.refused
  {
    hide FallbackAttempt, Classify;
    FallbackLooser(job, others, l);
  }

  lemma RunOnceRefusesNothing(job: Job, l: Local)
    ensures RunOnce(job, l).0.refused == l.refused
  {
    hide Attempting, TriagedCloser;
  }

  lemma {:induction false} LoopLooser(job: Job, others: Option<Dims>, l: Local)
    requires Looser(others, job.others) && BudgetBlind(job.w)
    ensures var (r, env) := AttemptLoop(job, l);
            !r.refused ==> AttemptLoop(With(job, others), l) == (r, env)
    ensures l.refused ==> AttemptLoop(job, l).0.refused
    ensures job.others.None? ==> AttemptLoop(job, l).0.refused == l.refused
    decreases l.rt.remainingRetries
  {
    hide RunOnce, ReserveAttempt, Finish, Classify, RetryEligible;
    RunOnceIsBlind(job, others, l);
    RunOnceRefusesNothing(job, l);
    var (m, env) := RunOnce(job, l);
    var failure := Classify(env);
    if failure.Some? {
      ReserveAttemptLooser(job, others, m);
      var (admission, again) := ReserveAttempt(job, m);
      LoopDecreases(job, l);
      if RetryEligible(failure.value, env.errorClass, m.rt.remainingRetries, job.node.retryableErrors) {
        if admission == Admitted {
          LoopLooser(job, others, Retried(again));
        } else {
          FinishLooser(job, others, again, env, failure.value);
        }
      } else {
        FinishLooser(job, others, m, env, failure.value);
      }
    }
  }

  lemma LoopDecreases(job: Job, l: Local)
    ensures var (m, env) := RunOnce(job, l);
            var (admission, again) := ReserveAttempt(job, m);
            && Retried(again).rt.remainingRetries == l.rt.remainingRetries - 1
            && Retried(again).refused == again.refused
            && (Classify(env).Some? && RetryEligible(Classify(env).value, env.errorClass, m.rt.remainingRetries, job.node.retryableErrors) ==> l.rt.remainingRetries > 0)
  {
    hide Attempting, TriagedCloser, Admit, OpenEntry, ReservationAmount, Remaining;
  }

  /** With less of the budget taken, a dispatch that was not refused goes exactly the same way; and with
      no global limit it is never refused. */
  lemma DispatchLooser(job: Job, others: Option<Dims>, l: Local)
    requires Looser(others, job.others) && BudgetBlind(job.w)
    ensures var (r, env) := Dispatch(job, l);
            !r.refused ==> Dispatch(With(job, others), l) == (r, env)
    ensures job.others.None? ==> Dispatch(job, l).0.refused == l.refused
  {
    hide ReserveAttempt, AttemptLoop;
    var ready := Marked(l, Ready);
    ReserveAttemptLooser(job, others, ready);
    var (admission, armed) := ReserveAttempt(job, ready);
    if admission == Admitted {
      LoopLooser(job, others, armed);
    }
  }

  // ---- when a budget is large enough ----

  /** The largest reservation the node can ask for. */
  function MostReserved(w: Setup, node: NodeSpec): Dims {
    Dims(if Times(Est(node), w.multiplier) >= Est(node) then Times(Est(node), w.multiplier) else Est(node), 0.0)
  }

  /** Enough is left for the node's charges so far plus one more reservation. */
  ghost predicate Enough(job: Job, others: Dims, committed: Dims) {
    others.Add(committed).Add(MostReserved(job.w, job.node)).FitsWithin(job.w.limit)
  }

  ghost predicate AtMost(a: Dims, b: Dims) {
    a.FitsWithin(b)
  }

  lemma EnoughForLess(job: Job, others: Dims, less: Dims, more: Dims)
    requires Enough(job, others, more) && AtMost(less, more)
    ensures Enough(job, others, less)
  {
    hide Times;
  }

  lemma ReserveSuffices(job: Job, others: Dims, l: Local, accounting: Accounting)
    requires job.others.None? && Enough(job, others, CommittedBy(l.own))
    requires l.own.Some? ==> l.own.value.status != Open && l.own.value.reserved == ZERO
    ensures ReserveAs(With(job, Some(others)), l, accounting) == ReserveAs(job, l, accounting)
    ensures CommittedBy(ReserveAs(job, l, accounting).1.own) == CommittedBy(l.own)
  {
    hide Times;
  }

  lemma FairChargeCounts(a: Attempt, committed: Dims)
    requires FairlyCharged(a)
    ensures AtMost(committed, committed.Add(a.charged))
  {
  }

  lemma FallbackSuffices(job: Job, others: Dims, l: Local)
    requires job.others.None? && BudgetBlind(job.w) && Billed(l)
    requires Enough(job, others, CommittedBy(l.own))
    ensures FallbackAttempt(With(job, Some(others)), l) == FallbackAttempt(job, l)
    ensures AtMost(CommittedBy(l.own), CommittedBy(FallbackAttempt(job, l).0.own))
  {
    hide ReserveAs, Attempting, TriagedCloser, Stamped, Enough;
    FallbackCharges(job, l);
    var (r, env) := FallbackAttempt(job, l);
    if env.Some? {
      var a :| FallbackOnce(job, l, r, a);
      FairChargeCounts(a, CommittedBy(l.own));
    }
    FallbackAttemptSame(job, others, l);
  }

  lemma FallbackAttemptSame(job: Job, others: Dims, l: Local)
    requires job.others.None? && BudgetBlind(job.w) && Billed(l)
    requires Enough(job, others, CommittedBy(l.own))
    ensures FallbackAttempt(With(job, Some(others)), l) == FallbackAttempt(job, l)
  {
    hide ReserveAs, Attempting, TriagedCloser, Stamped, Enough;
    if IsReview(job.node) {
      ReserveSuffices(job, others, l, Exact);
      var next := NextReviewAdapter(ReviewAdapter(job.node, l));
      var (admission, r) := FallbackReserved(job, l, Exact);
      if next.Some? && admission == Admitted {
        var switched := if IsReviewer(job.node) then r.(reviewer := next.value) else r.(closer := next.value);
        AttemptingIsBlind(job, Some(others), switched.(rt := switched.rt.(attempt := switched.rt.attempt + 1)));
      }
    } else if job.w.fallback.Some? {
      ReserveSuffices(job, others, l, job.w.fallback.value.accounting);
      StampedIsBlind(job, Some(others));
    }
  }

  lemma FinishCommits(job: Job, l: Local, env: Envelope, failure: FailureClass)
    requires Billed(l)
    ensures AtMost(CommittedBy(l.own), CommittedBy(Finish(job, l, env, failure).0.own))
  {
    hide FallbackAttempt, Classify;
    FallbackCharges(job, l);
    var (r, second) := FallbackAttempt(job, l);
    if second.Some? {
      var a :| FallbackOnce(job, l, r, a);
      FairChargeCounts(a, CommittedBy(l.own));
    }
  }

  lemma FinishSuffices(job: Job, others: Dims, l: Local, env: Envelope, failure: FailureClass)
    requires job.others.None? && BudgetBlind(job.w) && Billed(l)
    requires Enough(job, others, CommittedBy(Finish(job, l, env, failure).0.own))
    ensures Finish(With(job, Some(others)), l, env, failure) == Finish(job, l, env, failure)
  {
    hide FallbackAttempt, Classify, Enough;
    FinishCommits(job, l, env, failure);
    EnoughForLess(job, others, CommittedBy(l.own), CommittedBy(Finish(job, l, env, failure).0.own));
    FallbackSuffices(job, others, l);
  }

  /** If the unlimited run of the retry loop plus one more reservation fits, the limit is never felt. */
  lemma {:induction false} LoopSuffices(job: Job, others: Dims, l: Local)
    requires job.others.None? && BudgetBlind(job.w) && Armed(l) && Fits(job, l)
    requires Enough(job, others, CommittedBy(AttemptLoop(job, l).0.own))
    ensures AttemptLoop(With(job, Some(others)), l) == AttemptLoop(job, l)
    ensures AtMost(CommittedBy(l.own), CommittedBy(AttemptLoop(job, l).0.own))
    decreases l.rt.remainingRetries
  {
    hide RunOnce, ReserveAs, Finish, Classify, RetryEligible, Enough;
    RunOnceIsBlind(job, Some(others), l);
    var a := RunOnceCharges(job, l);
    FairChargeCounts(a, CommittedBy(l.own));
    var (m, env) := RunOnce(job, l);
    var (r, last) := AttemptLoop(job, l);
    var failure := Classify(env);
    if failure.Some? {
      if RetryEligible(failure.value, env.errorClass, m.rt.remainingRetries, job.node.retryableErrors) {
        LoopDecreases(job, l);
        var accounting := job.w.reserveAccounting(job.node, m.rt.attempt + 1, Remaining(job, m));
        assert accounting == job.w.reserveAccounting(job.node, m.rt.attempt + 1, Remaining(With(job, Some(others)), m));
        ReserveGrants(job, m, accounting);
        var (admission, again) := ReserveAttempt(job, m);
        if admission == Admitted {
          LoopSuffices(job, others, Retried(again));
        } else {
          FinishCommits(job, again, env, failure.value);
          FinishSuffices(job, others, again, env, failure.value);
        }
        EnoughForLess(job, others, CommittedBy(m.own), CommittedBy(r.own));
        ReserveSuffices(job, others, m, accounting);
      } else {
        FinishCommits(job, m, env, failure.value);
        FinishSuffices(job, others, m, env, failure.value);
      }
    }
  }

  /** A dispatch whose unlimited cost plus one more reservation fits in the budget is the unlimited one. */
  lemma DispatchSuffices(job: Job, others: Dims, l: Local)
    requires job.others.None? && BudgetBlind(job.w) && Dispatchable(l)
    requires Enough(job, others, CommittedBy(Dispatch(job, l).0.own))
    ensures Dispatch(With(job, Some(others)), l) == Dispatch(job, l)
  {
    hide ReserveAs, AttemptLoop, Enough;
    var ready := Marked(l, Ready);
    var accounting := job.w.reserveAccounting(job.node, ready.rt.attempt + 1, Remaining(job, ready));
    assert accounting == job.w.reserveAccounting(job.node, ready.rt.attempt + 1, Remaining(With(job, Some(others)), ready));
    ReserveGrants(job, ready, accounting);
    var (admission, armed) := ReserveAttempt(job, ready);
    if admission == Admitted {
      LoopSuffices(job, others, armed);
      EnoughForLess(job, others, CommittedBy(armed.own), CommittedBy(Dispatch(job, l).0.own));
    }
    assert CommittedBy(armed.own) == CommittedBy(ready.own);
    ReserveSuffices(job, others, ready, accounting);
  }
}
