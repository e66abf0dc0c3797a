/** One dispatch read off the attempts it made: what each attempt saw, reserved and was charged, why another one
    followed it, and why none did. */
module DispatchTraces {
  import opened AgyTypes
  import opened Budget
  import opened Scheduling
  import opened Dispatching
  import opened DispatchTheorems

  // ---- reading an envelope ----

  /** A failure class the adapter names decides; without one, a timeout, or an error that may pass. */
  ghost predicate FailedTransiently(env: Envelope) {
    && env.status != EnvSucceeded
    && (env.failureClass == Some(Transient) ||
        (env.failureClass == None && (env.status == EnvTimedOut || env.errorClass in {SchemaInvalid, Transport, Timeout, Tool})))
  }

  ghost predicate FailedForGood(env: Envelope) {
    && env.status != EnvSucceeded
    && (env.failureClass == Some(Deterministic) ||
        (env.failureClass == None && env.status != EnvTimedOut && env.errorClass in {NoError, Auth, Unknown}))
  }

  ghost predicate FailedOnBudget(env: Envelope) {
    && env.status != EnvSucceeded
    && (env.failureClass == Some(OverBudget) ||
        (env.failureClass == None && env.status != EnvTimedOut && env.errorClass == BudgetError))
  }

  lemma ClassifyReads(env: Envelope)
    ensures Classify(env).None? <==> env.status == EnvSucceeded
    ensures Classify(env) == Some(Transient) <==> FailedTransiently(env)
    ensures Classify(env) == Some(Deterministic) <==> FailedForGood(env)
    ensures Classify(env) == Some(OverBudget) <==> FailedOnBudget(env)
  {
  }

  // ---- what a dispatch is given ----

  predicate HasReviewRole(node: NodeSpec) {
    node.role == "reviewer" || node.role == "closer"
  }

  /** The review adapter a role starts with. */
  function InCharge(node: NodeSpec, l: Local): string {
    if node.role == "reviewer" then l.reviewer else if node.role == "closer" then l.closer else ""
  }

  /** What is left of the limit beside the others and the node's own charges. */
  function LeftOver(job: Job, committed: Dims): Dims {
    if job.others.None? then ZERO
    else Dims(job.w.limit.tokens - job.others.value.tokens - committed.tokens, job.w.limit.usd - job.others.value.usd - committed.usd)
  }

  ghost predicate HasRoom(job: Job, committed: Dims, tokens: int) {
    job.others.Some? ==> tokens <= LeftOver(job, committed).tokens && 0.0 <= LeftOver(job, committed).usd
  }

  /** What the node was charged before its attempt number `i`. */
  ghost function ChargedBefore(l: Local, attempts: seq<Attempt>, i: nat): Dims
    requires i <= |attempts|
  {
    CommittedBy(l.own).Add(TotalCharged(attempts[..i]))
  }

  ghost function LeftBefore(job: Job, l: Local, attempts: seq<Attempt>, i: nat): Dims
    requires i <= |attempts|
  {
    LeftOver(job, ChargedBefore(l, attempts, i))
  }

  /** The reservation of a planned attempt number `i`. */
  ghost function PlannedCeiling(job: Job, l: Local, attempts: seq<Attempt>, i: nat): int
    requires i <= |attempts|
  {
    CapTokens(job.node, job.w.multiplier, job.w.reserveAccounting(job.node, l.rt.attempt + i + 1, LeftBefore(job, l, attempts, i)))
  }

  // ---- one attempt ----

  /** Usage is output plus thinking; an opaque attempt is charged at least its reservation. */
  ghost predicate AsBilled(job: Job, a: Attempt) {
    && a.node == job.node.id
    && a.actual == Dims(a.env.output + a.env.thinking, a.env.cost)
    && a.charged ==
         if a.accounting == Exact || a.actual.tokens >= a.reserved.tokens then a.actual
         else Dims(a.reserved.tokens, a.env.cost)
  }

  function Named(job: Job, env: Envelope, attempt: int): Envelope {
    env.(nodeId := job.node.id, key := job.key, attempt := attempt)
  }

  /** Attempt number `i` is the adapter's: on its own number, the dependencies' results, the review adapter in charge
      and the remaining budget. */
  ghost predicate MadeByAdapter(job: Job, l: Local, attempts: seq<Attempt>, i: nat)
    requires i < |attempts|
  {
    var a, number := attempts[i], l.rt.attempt + i + 1;
    && a.kind == ByAdapter && AsBilled(job, a)
    && a.env == Named(job,
         job.w.run(job.node, AttemptInput(number, job.deps, InCharge(job.node, l), LeftBefore(job, l, attempts, i))), number)
    && a.accounting == job.w.commitAccounting(a.env)
    && a.reserved == Dims(PlannedCeiling(job, l, attempts, i), 0.0)
  }

  /** Attempt number `i` is the fallback's: the next review adapter's, accounted exactly, or the configured one's. */
  ghost predicate MadeByFallback(job: Job, l: Local, attempts: seq<Attempt>, i: nat)
    requires i < |attempts|
  {
    var a, number := attempts[i], l.rt.attempt + i + 1;
    && a.kind == ByFallback && AsBilled(job, a) && a.reserved == Dims(CapTokens(job.node, job.w.multiplier, a.accounting), 0.0)
    && if HasReviewRole(job.node) then
         && a.accounting == Exact
         && var next := Successor(InCharge(job.node, l));
         a.env == Named(job, job.w.run(job.node, AttemptInput(number, job.deps, next, LeftBefore(job, l, attempts, i))), number)
       else
         && job.w.fallback.Some? && a.accounting == job.w.fallback.value.accounting
         && a.env == Named(job, job.w.fallback.value.run(job.node, number), number)
  }

  /** Review adapters give way in one order: agy, codex, off. */
  function Successor(adapter: string): string {
    if adapter == "agy" then "codex" else "off"
  }

  // ---- why another attempt follows ----

  /** Nothing billed so far, and room for the reservation. */
  ghost predicate Funded(job: Job, l: Local, attempts: seq<Attempt>, i: nat, tokens: int)
    requires i < |attempts|
  {
    attempts[i].actual.tokens == 0 && HasRoom(job, ChargedBefore(l, attempts, i + 1), tokens)
  }

  /** Attempt number `i` is retried: it failed in passing, on an error the node's policy lists, a retry is left, and
      the budget has room. */
  ghost predicate RetryDue(job: Job, l: Local, attempts: seq<Attempt>, i: nat)
    requires i < |attempts|
  {
    var env := attempts[i].env;
    && attempts[i].kind == ByAdapter
    && FailedTransiently(env) && env.errorClass in job.node.retryableErrors
    && i < l.rt.remainingRetries
    && Funded(job, l, attempts, i, PlannedCeiling(job, l, attempts, i + 1))
  }

  /** The failures a fallback is for. */
  ghost predicate FallbackWanted(job: Job, env: Envelope) {
    env.status != EnvSucceeded && if HasReviewRole(job.node) then !FailedOnBudget(env) else FailedForGood(env)
  }

  ghost predicate FallbackExists(job: Job, l: Local) {
    if HasReviewRole(job.node) then InCharge(job.node, l) in {"agy", "codex"}
    else job.w.fallback.Some? && job.w.fallback.value.covers(job.node)
  }

  function FallbackCeiling(job: Job): int {
    var accounting := if HasReviewRole(job.node) || job.w.fallback.None? then Exact else job.w.fallback.value.accounting;
    CapTokens(job.node, job.w.multiplier, accounting)
  }

  /** Attempt number `i` is followed by the fallback. */
  ghost predicate FallbackDue(job: Job, l: Local, attempts: seq<Attempt>, i: nat)
    requires i < |attempts|
  {
    && attempts[i].kind == ByAdapter && !RetryDue(job, l, attempts, i)
    && FallbackWanted(job, attempts[i].env) && FallbackExists(job, l)
    && Funded(job, l, attempts, i, FallbackCeiling(job))
  }

  // ---- how the node ends ----

  predicate FellBack(attempts: seq<Attempt>) {
    attempts != [] && attempts[|attempts| - 1].kind == ByFallback
  }

  function EndStatus(env: Envelope): NodeStatus {
    if env.status == EnvSucceeded then Succeeded else Failed
  }

  /** The node's ledger entry once its last attempt is charged. */
  ghost function SettledEntry(job: Job, l: Local, attempts: seq<Attempt>): Entry
    requires attempts != []
  {
    var last := attempts[|attempts| - 1];
    Entry(job.w.epoch.id, ZERO, ChargedBefore(l, attempts, |attempts|),
      if last.actual.tokens > last.reserved.tokens || last.env.cost > 0.0 then Overspend else Committed)
  }

  /** The reviewer's adapter changes by its own fallback only. */
  function ReviewerAfter(job: Job, l: Local, attempts: seq<Attempt>): string {
    if job.node.role == "reviewer" && FellBack(attempts) then Successor(l.reviewer) else l.reviewer
  }

  /** The closer's adapter changes by its own fallback, or gives way after a reviewer that used more than 1000 tokens. */
  function CloserAfter(job: Job, l: Local, attempts: seq<Attempt>): string
    requires attempts != []
  {
    var gives :=
      || (job.node.role == "closer" && FellBack(attempts))
      || (job.node.role == "reviewer" && attempts[|attempts| - 1].actual.tokens > 1000 && l.closer in {"agy", "codex"});
    if gives then Successor(l.closer) else l.closer
  }

  function Unfunded(job: Job, last: Attempt): Blocker {
    Blocker(job.node.id, "budget exhausted before fallback", if last.actual.tokens > 0 then "node-ceiling" else "global")
  }

  /** Why a wanted fallback was not tried; a role without one is told nothing. */
  ghost function MissedFallback(job: Job, l: Local, last: Attempt): seq<Blocker> {
    if last.kind != ByAdapter || !FallbackWanted(job, last.env) then []
    else if FallbackExists(job, l) then
      [Unfunded(job, last)]
    else if HasReviewRole(job.node) || job.w.fallback.None? then []
    else [Blocker(job.node.id, "fallback misses required capabilities", "fallback_uncovered")]
  }

  ghost function Complaints(job: Job, l: Local, last: Attempt): seq<Blocker> {
    if last.env.status == EnvSucceeded then []
    else MissedFallback(job, l, last) + [Blocker(job.node.id, "node failed", ErrorName(last.env.errorClass))]
  }

  /** The whole state a dispatch leaves, read off its attempts. */
  ghost predicate EndedAs(job: Job, l: Local, r: Local, env: Envelope) {
    && r.attempts != []
    && var last := r.attempts[|r.attempts| - 1];
    && env == last.env
    && r.rt == Runtime(EndStatus(env), l.rt.attempt + |r.attempts|,
         l.rt.remainingRetries - (|r.attempts| - 1) + (if FellBack(r.attempts) then 1 else 0),
         l.rt.consumed.Add(TotalActual(r.attempts)), env.errorClass)
    && r.own == Some(SettledEntry(job, l, r.attempts))
    && r.reviewer == ReviewerAfter(job, l, r.attempts) && r.closer == CloserAfter(job, l, r.attempts)
    && r.blockers == l.blockers + Complaints(job, l, last) && !r.fault
  }

  /** The attempts are the adapter's and then at most one of the fallback's; each is followed by exactly the one that
      was due, and by none if none was. */
  ghost predicate DulyMade(job: Job, l: Local, attempts: seq<Attempt>) {
    && attempts != [] && attempts[0].kind == ByAdapter
    && forall i :: 0 <= i < |attempts| ==>
         && (MadeByAdapter(job, l, attempts, i) || MadeByFallback(job, l, attempts, i))
         && (RetryDue(job, l, attempts, i) <==> i + 1 < |attempts| && attempts[i + 1].kind == ByAdapter)
         && (FallbackDue(job, l, attempts, i) <==> i + 1 < |attempts| && attempts[i + 1].kind == ByFallback)
  }

  // ---- proofs: one reservation ----

  /** An open reservation of that many tokens, beside what was charged before. */
  function Opened(job: Job, tokens: int, committed: Dims): Option<Entry> {
    Some(Entry(job.w.epoch.id, Dims(tokens, 0.0), committed, Open))
  }

  ghost predicate NotOpen(l: Local) {
    l.own.Some? ==> l.own.value.status != Open && l.own.value.reserved == ZERO
  }

  lemma RemainingReads(job: Job, l: Local)
    ensures Remaining(job, l) == LeftOver(job, CommittedBy(l.own))
  {
  }

  /** A reservation is granted exactly to a node that was billed no token and has room. */
  lemma ReserveReads(job: Job, l: Local, accounting: Accounting)
    requires NotOpen(l)
    ensures var (admission, r) := ReserveAs(job, l, accounting);
            && (admission == Admitted <==>
                 l.rt.consumed.tokens <= 0 && HasRoom(job, CommittedBy(l.own), CapTokens(job.node, job.w.multiplier, accounting)))
            && (admission == NodeCeiling <==> l.rt.consumed.tokens > 0)
            && r == if admission == Admitted
                    then l.(own := Opened(job, CapTokens(job.node, job.w.multiplier, accounting), CommittedBy(l.own)))
                    else l.(refused := r.refused)
  {
    hide Times, CapTokens;
    CapTokensReserved(job.node, job.w.multiplier, accounting);
  }

  // ---- proofs: one attempt of the adapter ----

  lemma Snoc(job: Job, l: Local, attempts: seq<Attempt>, a: Attempt)
    ensures forall i :: 0 <= i <= |attempts| ==> ChargedBefore(l, attempts + [a], i) == ChargedBefore(l, attempts, i)
    ensures ChargedBefore(l, attempts + [a], |attempts| + 1) == ChargedBefore(l, attempts, |attempts|).Add(a.charged)
    ensures TotalActual(attempts + [a]) == TotalActual(attempts).Add(a.actual)
  {
    hide TotalActual, TotalCharged;
    TotalsSnoc(attempts, a);
    assert attempts[..|attempts|] == attempts && (attempts + [a])[..|attempts| + 1] == attempts + [a];
    forall i | 0 <= i <= |attempts| ensures ChargedBefore(l, attempts + [a], i) == ChargedBefore(l, attempts, i) {
      assert (attempts + [a])[..i] == attempts[..i];
    }
  }

  /** What is said of an attempt depends on no later one. */
  lemma KeptBySnoc(job: Job, l: Local, attempts: seq<Attempt>, a: Attempt, i: nat)
    requires i < |attempts|
    ensures MadeByAdapter(job, l, attempts + [a], i) == MadeByAdapter(job, l, attempts, i)
    ensures RetryDue(job, l, attempts + [a], i) == RetryDue(job, l, attempts, i)
    ensures FallbackDue(job, l, attempts + [a], i) == FallbackDue(job, l, attempts, i)
  {
    hide AsBilled, CapTokens, FailedTransiently, FallbackWanted, FallbackExists, InCharge, Named, HasRoom, LeftOver,
      ChargedBefore, FallbackCeiling;
    Snoc(job, l, attempts, a);
  }

  /** The attempts so far were all the adapter's, and each before number `n` was retried. */
  ghost predicate AllRetried(job: Job, l: Local, attempts: seq<Attempt>, n: int) {
    forall i :: 0 <= i < |attempts| ==> MadeByAdapter(job, l, attempts, i) && (i < n ==> RetryDue(job, l, attempts, i))
  }

  /** About to make one more attempt. */
  ghost predicate Going(job: Job, l: Local, m: Local) {
    var n := |m.attempts|;
    && !m.fault && m.rt.consumed.tokens == 0
    && m.rt == Runtime(Ready, l.rt.attempt + n, l.rt.remainingRetries - n, l.rt.consumed.Add(TotalActual(m.attempts)), m.rt.errorClass)
    && m.own == Opened(job, PlannedCeiling(job, l, m.attempts, n), ChargedBefore(l, m.attempts, n))
    && m.reviewer == l.reviewer && m.closer == l.closer && m.blockers == l.blockers
    && AllRetried(job, l, m.attempts, n)
  }

  /** The last attempt is charged, and nothing is decided yet. */
  ghost predicate Ran(job: Job, l: Local, m: Local) {
    var n := |m.attempts|;
    && n > 0 && !m.fault && m.rt.consumed.tokens == m.attempts[n - 1].actual.tokens
    && m.rt == Runtime(Running, l.rt.attempt + n, l.rt.remainingRetries - (n - 1), l.rt.consumed.Add(TotalActual(m.attempts)),
         m.attempts[n - 1].env.errorClass)
    && m.own == Some(SettledEntry(job, l, m.attempts))
    && m.reviewer == l.reviewer && m.closer == CloserAfter(job, l, m.attempts) && m.blockers == l.blockers
    && AllRetried(job, l, m.attempts, n - 1)
  }

  lemma AttemptingReads(job: Job, l: Local, m: Local, counted: Local)
    requires Going(job, l, m)
    requires counted == m.(rt := m.rt.(status := Running, attempt := m.rt.attempt + 1))
    ensures var n := |m.attempts|;
            Attempting(job, counted) == Named(job,
              job.w.run(job.node, AttemptInput(l.rt.attempt + n + 1, job.deps, InCharge(job.node, l), LeftBefore(job, l, m.attempts, n))),
              l.rt.attempt + n + 1)
  {
    hide Remaining, LeftOver, AllRetried, ChargedBefore, PlannedCeiling, TotalActual;
    RemainingReads(job, counted);
  }

  /** Charging an open reservation. */
  lemma ChargedReads(job: Job, l: Local, kind: AttemptKind, env: Envelope, accounting: Accounting, tokens: int)
    requires l.own.Some? && l.own.value.status == Open && l.own.value.reserved == Dims(tokens, 0.0)
    ensures var r := Charged(job, l, kind, env, accounting);
            && |r.attempts| == |l.attempts| + 1
            && var a := r.attempts[|l.attempts|];
            && r.attempts == l.attempts + [a] && AsBilled(job, a)
            && a.kind == kind && a.env == env && a.accounting == accounting && a.reserved == Dims(tokens, 0.0)
            && r == l.(rt := l.rt.(consumed := l.rt.consumed.Add(a.actual)), attempts := r.attempts,
                 own := Some(Entry(l.own.value.epochId, ZERO, l.own.value.committed.Add(a.charged),
                   if a.actual.tokens > tokens || env.cost > 0.0 then Overspend else Committed)),
                 closer := if job.node.role == "reviewer" && a.actual.tokens > 1000 && l.closer in {"agy", "codex"}
                           then Successor(l.closer) else l.closer)
  {
  }

  /** One more attempt is the adapter's, and is charged. */
  lemma RunOnceReads(job: Job, l: Local, m: Local)
    requires Going(job, l, m)
    ensures var (r, env) := RunOnce(job, m);
            Ran(job, l, r) && |r.attempts| == |m.attempts| + 1 && env == r.attempts[|m.attempts|].env
  {
    hide Attempting, Charged, AsBilled, CapTokens, InCharge, Named, TotalActual, LeftOver, ChargedBefore, AllRetried,
      PlannedCeiling;
    var n := |m.attempts|;
    var counted := Counted(Marked(Marked(m, NodeStatus.Reserved), Running));
    AttemptingReads(job, l, m, counted);
    var env := Attempting(job, counted);
    ChargedReads(job, counted, ByAdapter, env, job.w.commitAccounting(env), PlannedCeiling(job, l, m.attempts, n));
    var r := RunOnce(job, m).0;
    var a := r.attempts[n];
    Snoc(job, l, m.attempts, a);
    SamePlan(job, l, m.attempts, a);
    assert (m.attempts + [a])[n] == a;
    assert MadeByAdapter(job, l, m.attempts + [a], n);
    OneMoreMade(job, l, m.attempts, a);
  }

  lemma SamePlan(job: Job, l: Local, attempts: seq<Attempt>, a: Attempt)
    ensures PlannedCeiling(job, l, attempts + [a], |attempts|) == PlannedCeiling(job, l, attempts, |attempts|)
    ensures LeftBefore(job, l, attempts + [a], |attempts|) == LeftBefore(job, l, attempts, |attempts|)
  {
    hide CapTokens, ChargedBefore, LeftOver;
    Snoc(job, l, attempts, a);
  }

  /** A made attempt joins the ones before it. */
  lemma OneMoreMade(job: Job, l: Local, attempts: seq<Attempt>, a: Attempt)
    requires AllRetried(job, l, attempts, |attempts|)
    requires MadeByAdapter(job, l, attempts + [a], |attempts|)
    ensures AllRetried(job, l, attempts + [a], |attempts|)
  {
    hide MadeByAdapter, RetryDue, FallbackDue;
    forall i | 0 <= i < |attempts + [a]|
      ensures MadeByAdapter(job, l, attempts + [a], i) && (i < |attempts| ==> RetryDue(job, l, attempts + [a], i))
    {
      if i < |attempts| {
        KeptBySnoc(job, l, attempts, a, i);
      }
    }
  }

  // ---- proofs: what follows ----

  lemma LastIsAdapters(job: Job, l: Local, m: Local)
    requires Ran(job, l, m)
    ensures m.attempts[|m.attempts| - 1].kind == ByAdapter && !FellBack(m.attempts)
    ensures MadeByAdapter(job, l, m.attempts, |m.attempts| - 1)
    ensures m.attempts[|m.attempts| - 1].actual.tokens >= 0
  {
    hide CapTokens, ChargedBefore, LeftOver, InCharge, TotalActual;
  }

  /** The reservation a retry would need. */
  lemma RetryReserves(job: Job, l: Local, m: Local)
    requires Ran(job, l, m)
    ensures var (admission, r) := ReserveAttempt(job, m);
            var n := |m.attempts|;
            && (admission == Admitted <==> Funded(job, l, m.attempts, n - 1, PlannedCeiling(job, l, m.attempts, n)))
            && r == if admission == Admitted
                    then m.(own := Opened(job, PlannedCeiling(job, l, m.attempts, n), ChargedBefore(l, m.attempts, n)))
                    else m.(refused := r.refused)
  {
    hide ReserveAs, CapTokens, TotalActual, Remaining, ChargedBefore, HasRoom, LeftOver, AllRetried, CloserAfter;
    LastIsAdapters(job, l, m);
    RemainingReads(job, m);
    ReserveReads(job, m, job.w.reserveAccounting(job.node, m.rt.attempt + 1, Remaining(job, m)));
  }

  /** A failed attempt is retried exactly when a retry is due. */
  lemma RetryReads(job: Job, l: Local, m: Local)
    requires Ran(job, l, m) && m.attempts[|m.attempts| - 1].env.status != EnvSucceeded
    ensures var n := |m.attempts|;
            var env := m.attempts[n - 1].env;
            Classify(env).Some? && (Retries(job, m, env, Classify(env).value) <==> RetryDue(job, l, m.attempts, n - 1))
  {
    hide ReserveAttempt, CapTokens, TotalActual, ChargedBefore, Funded, LeftOver, AllRetried, CloserAfter, Classify, FailedTransiently, PlannedCeiling,
      SettledEntry;
    var n := |m.attempts|;
    ClassifyReads(m.attempts[n - 1].env);
    LastIsAdapters(job, l, m);
    RetryReserves(job, l, m);
  }

  lemma RetryGoes(job: Job, l: Local, m: Local)
    requires Ran(job, l, m) && RetryDue(job, l, m.attempts, |m.attempts| - 1)
    ensures Going(job, l, Retried(ReserveAttempt(job, m).1))
  {
    hide ReserveAttempt, CapTokens, TotalActual, ChargedBefore, LeftOver, FailedTransiently, PlannedCeiling, SettledEntry,
      HasRoom, MadeByAdapter;
    LastIsAdapters(job, l, m);
    RetryReserves(job, l, m);
  }

  // ---- proofs: the fallback ----

  /** The fallback's attempt after the last one of `m`. */
  ghost predicate FellBackOnce(job: Job, l: Local, m: Local, r: Local, env: Envelope) {
    var n := |m.attempts|;
    && |r.attempts| == n + 1 && m.attempts == r.attempts[..n] && MadeByFallback(job, l, r.attempts, n) && env == r.attempts[n].env
    && r.rt == m.rt.(attempt := m.rt.attempt + 1, consumed := m.rt.consumed.Add(r.attempts[n].actual), errorClass := env.errorClass)
    && r.own == Some(SettledEntry(job, l, r.attempts))
    && r.reviewer == ReviewerAfter(job, l, r.attempts) && r.closer == CloserAfter(job, l, r.attempts)
    && r.blockers == m.blockers && !r.fault
  }

  /** The reservation of a fallback. */
  lemma FallbackReserves(job: Job, l: Local, m: Local, accounting: Accounting)
    requires Ran(job, l, m)
    ensures var (admission, r) := FallbackReserved(job, m, accounting);
            var n := |m.attempts|;
            var last := m.attempts[n - 1];
            && (admission == Admitted <==> Funded(job, l, m.attempts, n - 1, CapTokens(job.node, job.w.multiplier, accounting)))
            && r == if admission == Admitted
                    then m.(own := Opened(job, CapTokens(job.node, job.w.multiplier, accounting), ChargedBefore(l, m.attempts, n)))
                    else m.(refused := r.refused, blockers := m.blockers +
                      [Unfunded(job, last)])
  {
    hide ReserveAs, CapTokens, TotalActual, ChargedBefore, HasRoom, LeftOver, AllRetried, CloserAfter;
    LastIsAdapters(job, l, m);
    ReserveReads(job, m, accounting);
  }

  /** A funded fallback attempt, charged. */
  lemma FallbackCharged(job: Job, l: Local, m: Local, c: Local, env: Envelope, accounting: Accounting)
    requires Ran(job, l, m) && m.attempts[|m.attempts| - 1].actual.tokens == 0
    requires c == m.(rt := m.rt.(attempt := m.rt.attempt + 1, errorClass := env.errorClass), refused := c.refused,
      own := Opened(job, CapTokens(job.node, job.w.multiplier, accounting), ChargedBefore(l, m.attempts, |m.attempts|)),
      reviewer := if job.node.role == "reviewer" then Successor(l.reviewer) else l.reviewer,
      closer := if job.node.role == "closer" then Successor(l.closer) else l.closer)
    requires var n := |m.attempts|;
             var number := l.rt.attempt + n + 1;
             if HasReviewRole(job.node) then
               && accounting == Exact
               && env == Named(job, job.w.run(job.node,
                    AttemptInput(number, job.deps, Successor(InCharge(job.node, l)), LeftBefore(job, l, m.attempts, n))), number)
             else
               && job.w.fallback.Some? && accounting == job.w.fallback.value.accounting
               && env == Named(job, job.w.fallback.value.run(job.node, number), number)
    ensures FellBackOnce(job, l, m, Charged(job, c, ByFallback, env, accounting), env)
  {
    hide Charged, AsBilled, CapTokens, Named, TotalActual, LeftOver, ChargedBefore, AllRetried, PlannedCeiling;
    LastIsAdapters(job, l, m);
    ChargedReads(job, c, ByFallback, env, accounting, CapTokens(job.node, job.w.multiplier, accounting));
    var n, r := |m.attempts|, Charged(job, c, ByFallback, env, accounting);
    Snoc(job, l, m.attempts, r.attempts[n]);
    SamePlan(job, l, m.attempts, r.attempts[n]);
    assert r.attempts == m.attempts + [r.attempts[n]];
  }

  /** What the fallback does: one attempt if there is a fallback and it is funded, else a blocker or nothing. */
  ghost predicate FallbackTold(job: Job, l: Local, m: Local, r: Local, env: Option<Envelope>) {
    var n := |m.attempts|;
    && n > 0
    && (env.Some? <==> FallbackExists(job, l) && Funded(job, l, m.attempts, n - 1, FallbackCeiling(job)))
    && (env.Some? ==> FellBackOnce(job, l, m, r, env.value))
    && (env.None? ==>
         r == m.(refused := r.refused, blockers := m.blockers +
           if FallbackExists(job, l) then
             [Unfunded(job, m.attempts[n - 1])]
           else if HasReviewRole(job.node) || job.w.fallback.None? then []
           else [Blocker(job.node.id, "fallback misses required capabilities", "fallback_uncovered")]))
  }

  lemma ReviewAttempts(job: Job, l: Local, m: Local, r: Local, counted: Local)
    requires Ran(job, l, m) && HasReviewRole(job.node)
    requires r == m.(own := Opened(job, CapTokens(job.node, job.w.multiplier, Exact), ChargedBefore(l, m.attempts, |m.attempts|)))
    requires counted == Counted(Switched(job.node, r, Successor(InCharge(job.node, l))))
    requires job.node.role == "closer" ==> m.closer == l.closer
    ensures var number := l.rt.attempt + |m.attempts| + 1;
            Attempting(job, counted) == Named(job, job.w.run(job.node,
              AttemptInput(number, job.deps, Successor(InCharge(job.node, l)), LeftBefore(job, l, m.attempts, |m.attempts|))), number)
  {
    hide Remaining, CapTokens, TotalActual, LeftOver, ChargedBefore, AllRetried, SettledEntry;
    RemainingReads(job, counted);
  }

  lemma ReviewFallbackReads(job: Job, l: Local, m: Local)
    requires Ran(job, l, m) && HasReviewRole(job.node) && FallbackExists(job, l)
    ensures var (r, env) := ReviewFallback(job, m, Successor(InCharge(job.node, l))); FallbackTold(job, l, m, r, env)
  {
    hide FallbackReserved, Attempting, Charged, CapTokens, Named, TotalActual, LeftOver, ChargedBefore, AllRetried,
      SettledEntry, HasRoom, FellBackOnce;
    LastIsAdapters(job, l, m);
    FallbackReserves(job, l, m, Exact);
    var (admission, r) := FallbackReserved(job, m, Exact);
    if admission == Admitted {
      var counted := Counted(Switched(job.node, r, Successor(InCharge(job.node, l))));
      ReviewAttempts(job, l, m, r, counted);
      var env := Attempting(job, counted);
      FallbackCharged(job, l, m, counted.(rt := counted.rt.(errorClass := env.errorClass)), env, Exact);
    }
  }

  lemma AdapterFallbackReads(job: Job, l: Local, m: Local)
    requires Ran(job, l, m) && !HasReviewRole(job.node) && job.w.fallback.Some?
    ensures var (r, env) := AdapterFallback(job, m, job.w.fallback.value); FallbackTold(job, l, m, r, env)
  {
    hide FallbackReserved, Charged, CapTokens, TotalActual, LeftOver, ChargedBefore, AllRetried, SettledEntry, HasRoom,
      FellBackOnce;
    LastIsAdapters(job, l, m);
    var fallback := job.w.fallback.value;
    FallbackReserves(job, l, m, fallback.accounting);
    var (admission, r) := FallbackReserved(job, m, fallback.accounting);
    if fallback.covers(job.node) && admission == Admitted {
      var counted := Counted(r);
      var env := Stamped(job, counted, fallback.run(job.node, counted.rt.attempt));
      FallbackCharged(job, l, m, counted.(rt := counted.rt.(errorClass := env.errorClass)), env, fallback.accounting);
    }
  }

  lemma FallbackReads(job: Job, l: Local, m: Local)
    requires Ran(job, l, m)
    ensures var (r, env) := FallbackAttempt(job, m); FallbackTold(job, l, m, r, env)
  {
    hide ReviewFallback, AdapterFallback, TotalActual, LeftOver, ChargedBefore, AllRetried, SettledEntry, HasRoom,
      FellBackOnce, CapTokens, Funded;
    LastIsAdapters(job, l, m);
    if HasReviewRole(job.node) {
      if FallbackExists(job, l) {
        ReviewFallbackReads(job, l, m);
      }
    } else if job.w.fallback.Some? {
      AdapterFallbackReads(job, l, m);
    }
  }

  // ---- proofs: the end ----

  /** No attempt follows the last one of `m`. */
  lemma NothingFollows(job: Job, l: Local, m: Local)
    requires Ran(job, l, m)
    requires !RetryDue(job, l, m.attempts, |m.attempts| - 1) && !FallbackDue(job, l, m.attempts, |m.attempts| - 1)
    ensures DulyMade(job, l, m.attempts)
  {
    hide MadeByFallback, RetryDue, CapTokens, ChargedBefore, LeftOver, TotalActual, AsBilled, SettledEntry, CloserAfter,
      Funded, FallbackWanted;
    LastIsAdapters(job, l, m);
    forall i | 0 <= i < |m.attempts|
      ensures MadeByAdapter(job, l, m.attempts, i)
      ensures RetryDue(job, l, m.attempts, i) <==> i + 1 < |m.attempts| && m.attempts[i + 1].kind == ByAdapter
      ensures FallbackDue(job, l, m.attempts, i) <==> i + 1 < |m.attempts| && m.attempts[i + 1].kind == ByFallback
    {
      assert i + 1 < |m.attempts| ==> MadeByAdapter(job, l, m.attempts, i + 1);
    }
    assert MadeByAdapter(job, l, m.attempts, 0);
  }

  /** The fallback follows, and nothing after it. */
  lemma FallbackFollows(job: Job, l: Local, m: Local, attempts: seq<Attempt>)
    requires Ran(job, l, m) && FallbackDue(job, l, m.attempts, |m.attempts| - 1)
    requires |attempts| == |m.attempts| + 1 && m.attempts == attempts[..|m.attempts|]
    requires MadeByFallback(job, l, attempts, |m.attempts|)
    ensures DulyMade(job, l, attempts)
  {
    hide RetryDue, CapTokens, ChargedBefore, LeftOver, TotalActual, AsBilled, SettledEntry, CloserAfter, Funded,
      FallbackWanted, FallbackDue;
    var n := |m.attempts|;
    assert attempts == m.attempts + [attempts[n]];
    OnlyAdaptersFollow(job, l, attempts, n);
    forall i | 0 <= i < |attempts|
      ensures MadeByAdapter(job, l, attempts, i) || MadeByFallback(job, l, attempts, i)
      ensures RetryDue(job, l, attempts, i) <==> i + 1 < |attempts| && attempts[i + 1].kind == ByAdapter
      ensures FallbackDue(job, l, attempts, i) <==> i + 1 < |attempts| && attempts[i + 1].kind == ByFallback
    {
      if i < n {
        KeptBySnoc(job, l, m.attempts, attempts[n], i);
        assert MadeByAdapter(job, l, m.attempts, i) && (i + 1 < n ==> MadeByAdapter(job, l, m.attempts, i + 1));
        OnlyAdaptersFollow(job, l, attempts, i);
      }
    }
    assert MadeByAdapter(job, l, m.attempts, 0) && attempts[0] == m.attempts[0];
  }

  /** Either the retry or the fallback, and only after the adapter. */
  lemma OnlyAdaptersFollow(job: Job, l: Local, attempts: seq<Attempt>, i: nat)
    requires i < |attempts|
    ensures attempts[i].kind != ByAdapter ==> !RetryDue(job, l, attempts, i) && !FallbackDue(job, l, attempts, i)
    ensures !(RetryDue(job, l, attempts, i) && FallbackDue(job, l, attempts, i))
  {
  }

  lemma EarnsReads(job: Job, env: Envelope, failure: FailureClass)
    requires Classify(env) == Some(failure)
    ensures EarnsFallback(job, failure) <==> FallbackWanted(job, env)
    ensures env.status != EnvSucceeded
  {
    hide Classify;
    ClassifyReads(env);
  }

  /** The terminal mark and its blocker. */
  lemma FailsAs(job: Job, l: Local, m: Local, env: Envelope, missed: seq<Blocker>)
    requires m.attempts != [] && env == m.attempts[|m.attempts| - 1].env && env.status != EnvSucceeded && !m.fault && m.rt.status == Running
    requires m.rt == Runtime(Running, l.rt.attempt + |m.attempts|,
               l.rt.remainingRetries - (|m.attempts| - 1) + (if FellBack(m.attempts) then 1 else 0),
               l.rt.consumed.Add(TotalActual(m.attempts)), env.errorClass)
    requires m.own == Some(SettledEntry(job, l, m.attempts))
    requires m.reviewer == ReviewerAfter(job, l, m.attempts) && m.closer == CloserAfter(job, l, m.attempts)
    requires missed == MissedFallback(job, l, m.attempts[|m.attempts| - 1])
    requires m.blockers == l.blockers + missed
    ensures EndedAs(job, l, Failing(job, m, env).0, env)
    ensures Failing(job, m, env).0.attempts == m.attempts && Failing(job, m, env).1 == env
  {
    hide SettledEntry, CloserAfter, ReviewerAfter, TotalActual, MissedFallback;
    assert l.blockers + missed + [Blocker(job.node.id, "node failed", ErrorName(env.errorClass))]
        == l.blockers + (missed + [Blocker(job.node.id, "node failed", ErrorName(env.errorClass))]);
    var r := Failing(job, m, env).0;
    assert r.attempts == m.attempts && r.own == m.own && r.closer == m.closer && r.rt == m.rt.(status := Failed);
  }

  lemma SucceedsAs(job: Job, l: Local, m: Local, env: Envelope)
    requires m.attempts != [] && env == m.attempts[|m.attempts| - 1].env && env.status == EnvSucceeded && !m.fault && m.rt.status == Running
    requires m.rt == Runtime(Running, l.rt.attempt + |m.attempts|,
               l.rt.remainingRetries - (|m.attempts| - 1) + (if FellBack(m.attempts) then 1 else 0),
               l.rt.consumed.Add(TotalActual(m.attempts)), env.errorClass)
    requires m.own == Some(SettledEntry(job, l, m.attempts))
    requires m.reviewer == ReviewerAfter(job, l, m.attempts) && m.closer == CloserAfter(job, l, m.attempts)
    requires m.blockers == l.blockers
    ensures EndedAs(job, l, Marked(m, Succeeded), env) && Marked(m, Succeeded).attempts == m.attempts
  {
    hide SettledEntry, CloserAfter, ReviewerAfter, TotalActual;
    assert l.blockers + [] == l.blockers;
  }

  lemma FellBackTotals(job: Job, l: Local, m: Local, r: Local, env: Envelope)
    requires Ran(job, l, m) && FellBackOnce(job, l, m, r, env)
    ensures r.rt == Runtime(Running, l.rt.attempt + |r.attempts|, l.rt.remainingRetries - (|r.attempts| - 1) + 1,
              l.rt.consumed.Add(TotalActual(r.attempts)), env.errorClass)
    ensures FellBack(r.attempts) && r.attempts != [] && MissedFallback(job, l, r.attempts[|r.attempts| - 1]) == []
  {
    hide SettledEntry, ReviewerAfter, CloserAfter, AllRetried, ChargedBefore, AsBilled, TotalActual, CapTokens;
    var n := |m.attempts|;
    assert r.attempts == m.attempts + [r.attempts[n]];
    Snoc(job, l, m.attempts, r.attempts[n]);
  }

  /** A failed attempt with no retry due ends the node, after the fallback if one is due. */
  lemma FinishReads(job: Job, l: Local, m: Local, failure: FailureClass)
    requires Ran(job, l, m) && !RetryDue(job, l, m.attempts, |m.attempts| - 1)
    requires Classify(m.attempts[|m.attempts| - 1].env) == Some(failure)
    ensures var (r, env) := Finish(job, m, m.attempts[|m.attempts| - 1].env, failure);
            DulyMade(job, l, r.attempts) && EndedAs(job, l, r, env)
  {
    hide FallbackAttempt, Failing, Marked, EarnsFallback, FallbackWanted, FallbackExists, Funded, SettledEntry, TotalActual, Classify, RetryDue,
      MadeByAdapter, MadeByFallback, EndedAs, DulyMade, FallbackCeiling;
    var n := |m.attempts|;
    var last := m.attempts[n - 1];
    LastIsAdapters(job, l, m);
    EarnsReads(job, last.env, failure);
    FallbackReads(job, l, m);
    var (r, second) := FallbackAttempt(job, m);
    if !FallbackWanted(job, last.env) {
      NothingFollows(job, l, m);
      assert l.blockers + [] == l.blockers;
      FailsAs(job, l, m, last.env, []);
    } else if second.None? {
      NothingFollows(job, l, m);
      FailsAs(job, l, r, last.env, MissedFallback(job, l, last));
    } else {
      FallbackFollows(job, l, m, r.attempts);
      FellBackTotals(job, l, m, r, second.value);
      ClassifyReads(second.value);
      if Classify(second.value).None? {
        SucceedsAs(job, l, r, second.value);
      } else {
        assert l.blockers + [] == l.blockers;
        FailsAs(job, l, r, second.value, []);
      }
    }
  }

  lemma RanEnds(job: Job, l: Local, m: Local)
    requires Ran(job, l, m) && m.attempts[|m.attempts| - 1].env.status == EnvSucceeded
    ensures DulyMade(job, l, m.attempts) && EndedAs(job, l, Marked(m, Succeeded), m.attempts[|m.attempts| - 1].env)
    ensures Marked(m, Succeeded).attempts == m.attempts
  {
    hide AllRetried, SettledEntry, TotalActual, CloserAfter, DulyMade, EndedAs, Marked;
    LastIsAdapters(job, l, m);
    NothingFollows(job, l, m);
    SucceedsAs(job, l, m, m.attempts[|m.attempts| - 1].env);
  }

  lemma UnretriedEnds(job: Job, l: Local, m: Local, failure: FailureClass)
    requires Ran(job, l, m) && !RetryDue(job, l, m.attempts, |m.attempts| - 1)
    requires Classify(m.attempts[|m.attempts| - 1].env) == Some(failure)
    ensures var (r, env) := Unretried(job, m, m.attempts[|m.attempts| - 1].env, failure);
            DulyMade(job, l, r.attempts) && EndedAs(job, l, r, env)
  {
    hide AllRetried, SettledEntry, TotalActual, CloserAfter, Finish, DulyMade, EndedAs, ReserveAttempt, RetryDue, Classify,
      PlannedCeiling;
    var env := m.attempts[|m.attempts| - 1].env;
    ClassifyReads(env);
    RetryReads(job, l, m);
    RetryReserves(job, l, m);
    FinishReads(job, l, m, failure);
    FinishReads(job, l, m.(refused := ReserveAttempt(job, m).1.refused), failure);
  }

  lemma {:induction false} LoopReads(job: Job, l: Local, m: Local)
    requires Going(job, l, m)
    ensures var (r, env) := AttemptLoop(job, m); DulyMade(job, l, r.attempts) && EndedAs(job, l, r, env)
    decreases m.rt.remainingRetries
  {
    hide Going, Ran, RunOnce, AttemptLoop, Retries, Unretried, Marked, DulyMade, EndedAs, RetryDue, Classify, ReserveAttempt,
      Retried;
    LoopUnfolds(job, m);
    RunOnceReads(job, l, m);
    var (r, env) := RunOnce(job, m);
    HasRun(job, l, r);
    ClassifyReads(env);
    if Classify(env).None? {
      RanEnds(job, l, r);
    } else {
      RetryReads(job, l, r);
      if RetryDue(job, l, r.attempts, |r.attempts| - 1) {
        RetryGoes(job, l, r);
        LoopReads(job, l, Retried(ReserveAttempt(job, r).1));
      } else {
        UnretriedEnds(job, l, r, Classify(env).value);
      }
    }
  }

  lemma HasRun(job: Job, l: Local, m: Local)
    requires Ran(job, l, m)
    ensures m.attempts != []
  {
  }

  /** The first reservation of a dispatch. */
  lemma DispatchStarts(job: Job, l: Local)
    requires Dispatchable(l) && l.attempts == []
    ensures var (admission, r) := ReserveAttempt(job, Marked(l, Ready));
            && (admission == Admitted <==> l.rt.consumed.tokens == 0 && HasRoom(job, CommittedBy(l.own), PlannedCeiling(job, l, [], 0)))
            && (admission == NodeCeiling <==> l.rt.consumed.tokens > 0)
            && (admission == Admitted ==> Going(job, l, r))
            && (admission != Admitted ==> r == l.(rt := l.rt.(status := Ready), refused := r.refused))
  {
    hide Remaining, ReserveAs, HasRoom, CapTokens, LeftOver, MadeByAdapter, RetryDue, TotalActual, TotalCharged, Marked,
      PlannedCeiling, ChargedBefore;
    var ready := Marked(l, Ready);
    ReadyIs(l);
    NothingCharged(l);
    FirstPlanned(job, l);
    NothingTotals();
    RemainingReads(job, ready);
    ReserveReads(job, ready, job.w.reserveAccounting(job.node, ready.rt.attempt + 1, Remaining(job, ready)));
  }

  lemma NothingCharged(l: Local)
    ensures ChargedBefore(l, [], 0) == CommittedBy(l.own)
  {
    NothingTotals();
    var none: seq<Attempt> := [];
    assert none[..0] == none;
  }

  lemma FirstPlanned(job: Job, l: Local)
    ensures PlannedCeiling(job, l, [], 0) ==
      CapTokens(job.node, job.w.multiplier, job.w.reserveAccounting(job.node, l.rt.attempt + 1, LeftOver(job, CommittedBy(l.own))))
  {
    hide CapTokens, LeftOver, ChargedBefore;
    NothingCharged(l);
  }

  lemma ReadyIs(l: Local)
    requires l.rt.status == Pending
    ensures Marked(l, Ready) == l.(rt := l.rt.(status := Ready))
  {
  }

  /** EVERY ATTEMPT ACCOUNTED FOR. A dispatch starts exactly if the node was billed nothing and its reservation fits.
      Then each attempt ran on the stated inputs, under the stated reservation; a failure was retried exactly if it was
      transient, on an error the node's policy lists, with a retry left, nothing billed and room for one more; it was
      handed to the fallback exactly if it was deterministic (for a review role, anything but a budget failure), a
      fallback was there to take it, and the budget allowed it; and the last attempt decides how the node ends. */
  lemma DispatchReads(job: Job, l: Local)
    requires Dispatchable(l) && l.attempts == []
    ensures var (r, env) := Dispatch(job, l);
            && (env.Some? <==> l.rt.consumed.tokens == 0 && HasRoom(job, CommittedBy(l.own), PlannedCeiling(job, l, [], 0)))
            && (env.Some? ==> DulyMade(job, l, r.attempts) && EndedAs(job, l, r, env.value))
            && (env.None? ==> r == l.(rt := l.rt.(status := Ready), refused := r.refused, blockers := l.blockers +
                 [Blocker(job.node.id, "budget exhausted before dispatch", if l.rt.consumed.tokens > 0 then "node-ceiling" else "global")]))
  {
    hide AttemptLoop, DulyMade, EndedAs, ReserveAttempt, HasRoom, PlannedCeiling, Going, Marked, Dispatchable;
    DispatchStarts(job, l);
    var (admission, armed) := ReserveAttempt(job, Marked(l, Ready));
    if admission == Admitted {
      LoopReads(job, l, armed);
    }
  }
}
