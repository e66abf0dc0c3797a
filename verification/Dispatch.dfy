/** One node from dispatch to a terminal status: reserve, run, commit, classify, retry, fall back.
    The functions follow one node; `Job.others` is what the other ledger entries hold, `None`
    meaning a run without a global limit. */
module Dispatching {
  import opened AgyTypes
  import opened Budget
  import opened Scheduling
  import opened Checkpointing

  // ---- what the engine is configured with ----

  /** What one attempt can see. Model routing looks at the remaining budget. */
  datatype AttemptInput = AttemptInput(
    attempt: int,
    deps: map<NodeId, Envelope>,
    reviewAdapter: string,
    remaining: Dims)

  datatype Fallback = Fallback(accounting: Accounting, covers: NodeSpec -> bool, run: (NodeSpec, int) -> Envelope)

  /** The graph, the limits, and adapters as arbitrary total functions. */
  datatype Setup = Setup(
    nodes: seq<NodeSpec>,
    epoch: Epoch,
    limit: Dims,
    multiplier: nat,
    keyOf: (NodeSpec, map<string, string>) -> Key,
    run: (NodeSpec, AttemptInput) -> Envelope,
    runBatch: seq<NodeSpec> -> map<NodeId, Envelope>,
    reserveAccounting: (NodeSpec, int, Dims) -> Accounting,
    commitAccounting: Envelope -> Accounting,
    fallback: Option<Fallback>,
    select: Selector)

  /** One dispatch: the node, its ready-time key, its committed dependencies. */
  datatype Job = Job(
    w: Setup,
    node: NodeSpec,
    key: Key,
    deps: map<NodeId, Envelope>,
    others: Option<Dims>)

  datatype Blocker = Blocker(id: NodeId, what: string, needs: string)

  /** Who made an attempt: the node's adapter, its fallback, or one invocation for a whole batch. */
  datatype AttemptKind = ByAdapter | ByFallback | ByBatch

  /** A charged attempt: what it returned, what it had reserved, what it used, what it was charged. */
  datatype Attempt = Attempt(
    node: NodeId,
    kind: AttemptKind,
    env: Envelope,
    reserved: Dims,
    actual: Dims,
    accounting: Accounting,
    charged: Dims)

  /** What a dispatch works on. `refused` records a refusal on the global budget; `fault` records that
      an exception would have been raised (an illegal transition or a commit without a reservation). */
  datatype Local = Local(
    rt: Runtime,
    own: Option<Entry>,
    reviewer: string,
    closer: string,
    blockers: seq<Blocker>,
    attempts: seq<Attempt>,
    refused: bool,
    fault: bool)

  // ---- classification ----

  function FailureOf(e: ErrorClass): Option<FailureClass> {
    match e
    case NoError => None
    case SchemaInvalid => Some(Transient)
    case Transport => Some(Transient)
    case Timeout => Some(Transient)
    case Tool => Some(Transient)
    case Auth => Some(Deterministic)
    case BudgetError => Some(OverBudget)
    case Unknown => Some(Deterministic)
  }

  /** `None` is success; a failure that names no error fails closed. */
  function Classify(env: Envelope): Option<FailureClass> {
    if env.status == EnvSucceeded then None
    else if env.failureClass.Some? then env.failureClass
    else if env.status == EnvTimedOut then Some(Transient)
    else if FailureOf(env.errorClass).None? then Some(Deterministic)
    else FailureOf(env.errorClass)
  }

  predicate RetryEligible(failure: FailureClass, error: ErrorClass, remaining: int, retryable: seq<ErrorClass>) {
    failure == Transient && remaining > 0 && error in retryable
  }

  function ErrorName(e: ErrorClass): string {
    match e
    case NoError => "none"
    case SchemaInvalid => "schema_invalid"
    case Transport => "transport"
    case Auth => "auth"
    case Timeout => "timeout"
    case BudgetError => "budget"
    case Tool => "tool"
    case Unknown => "unknown"
  }

  /** The error class a name stands for. */
  function ErrorNamed(name: string): Option<ErrorClass> {
    if name == "none" then Some(NoError)
    else if name == "schema_invalid" then Some(SchemaInvalid)
    else if name == "transport" then Some(Transport)
    else if name == "auth" then Some(Auth)
    else if name == "timeout" then Some(Timeout)
    else if name == "budget" then Some(BudgetError)
    else if name == "tool" then Some(Tool)
    else if name == "unknown" then Some(Unknown)
    else None
  }

  /** A blocker's name for an error reads back as that error, and only the eight names do. */
  lemma ErrorNamesReadBack(e: ErrorClass, name: string)
    ensures ErrorNamed(ErrorName(e)) == Some(e)
    ensures ErrorNamed(name).Some? ==> ErrorName(ErrorNamed(name).value) == name
  {
    NamesDiffer();
  }

  /** No two names agree in length and first character. */
  lemma NamesDiffer()
    ensures "auth" != "none" && "tool" != "none" && "tool" != "auth" && "unknown" != "timeout"
    ensures "schema_invalid" != "none" && "transport" != "none" && "transport" != "schema_invalid"
    ensures "auth" != "schema_invalid" && "auth" != "transport"
    ensures "timeout" != "none" && "timeout" != "schema_invalid" && "timeout" != "transport" && "timeout" != "auth"
    ensures "budget" != "none" && "budget" != "schema_invalid" && "budget" != "transport" && "budget" != "auth" && "budget" != "timeout"
    ensures "tool" != "schema_invalid" && "tool" != "transport" && "tool" != "timeout" && "tool" != "budget"
    ensures "unknown" != "none" && "unknown" != "schema_invalid" && "unknown" != "transport" && "unknown" != "auth"
    ensures "unknown" != "budget" && "unknown" != "tool"
  {
    var names := ["none", "schema_invalid", "transport", "auth", "timeout", "budget", "tool", "unknown"];
    assert |names[0]| == 4 && |names[1]| == 14 && |names[2]| == 9 && |names[3]| == 4 && |names[4]| == 7 && |names[5]| == 6;
    assert |names[6]| == 4 && |names[7]| == 7;
    assert "none"[0] == 'n' && "auth"[0] == 'a' && "tool"[0] == 't' && "timeout"[0] == 't' && "unknown"[0] == 'u';
  }

  function ReasonName(a: Admission): string {
    if a == NodeCeiling then "node-ceiling" else "global"
  }

  predicate IsReviewer(node: NodeSpec) {
    node.role == "reviewer"
  }

  predicate IsReview(node: NodeSpec) {
    IsReviewer(node) || node.role == "closer"
  }

  /** The command-line adapter that currently serves the node's review role. */
  function AdapterFor(node: NodeSpec, reviewer: string, closer: string): string {
    if IsReviewer(node) then reviewer else if node.role == "closer" then closer else ""
  }

  /** An expensive reviewer attempt downgrades the closer's adapter. */
  function TriagedCloser(node: NodeSpec, tokens: int, closer: string): string {
    if IsReviewer(node) && tokens > 1000 && closer in {"agy", "codex"}
    then if closer == "agy" then "codex" else "off"
    else closer
  }

  function NextReviewAdapter(current: string): Option<string> {
    if current == "agy" then Some("codex") else if current == "codex" then Some("off") else None
  }

  // ---- the steps ----

  function Marked(l: Local, status: NodeStatus): Local {
    if CanTransition(l.rt.status, status) then l.(rt := l.rt.(status := status)) else l.(fault := true)
  }

  function Counted(l: Local): Local {
    l.(rt := l.rt.(attempt := l.rt.attempt + 1))
  }

  function Blocked(l: Local, id: NodeId, what: string, needs: string): Local {
    l.(blockers := l.blockers + [Blocker(id, what, needs)])
  }

  function ReviewAdapter(node: NodeSpec, l: Local): string {
    AdapterFor(node, l.reviewer, l.closer)
  }

  /** The budget a routing decision sees: what is available plus the node's own reservation. */
  function Remaining(job: Job, l: Local): Dims {
    if job.others.None? then ZERO
    else
      var room := Room(job.w.limit, job.others, l.own).value;
      if l.own.Some? then room.Add(l.own.value.reserved) else room
  }

  function ReserveAs(job: Job, l: Local, accounting: Accounting): (Admission, Local) {
    var amount := ReservationAmount(Est(job.node), job.w.multiplier, accounting);
    var admission := Admit(job.w.limit, job.others, l.own, Est(job.node), l.rt.consumed, amount);
    if admission == Admitted then (admission, l.(own := Some(OpenEntry(l.own, job.w.epoch.id, amount))))
    else (admission, l.(refused := l.refused || admission == GlobalLimit))
  }

  function ReserveAttempt(job: Job, l: Local): (Admission, Local) {
    ReserveAs(job, l, job.w.reserveAccounting(job.node, l.rt.attempt + 1, Remaining(job, l)))
  }

  function Stamped(job: Job, l: Local, env: Envelope): Envelope {
    env.(nodeId := job.node.id, key := job.key, attempt := l.rt.attempt)
  }

  /** What an attempt used: thinking is billed as output. */
  function ActualOf(env: Envelope): Dims {
    Dims(env.output + env.thinking, env.cost)
  }

  /** Charges an attempt to the ledger and to the node's own running total. */
  function Charged(job: Job, l: Local, kind: AttemptKind, env: Envelope, accounting: Accounting): Local {
    var actual := ActualOf(env);
    if l.own.Some? && l.own.value.status == Open then
      var reserved := l.own.value.reserved;
      l.(own := Some(CommitEntry(l.own.value, Some(actual), accounting)),
         rt := l.rt.(consumed := l.rt.consumed.Add(actual)),
         attempts := l.attempts +
           [Attempt(job.node.id, kind, env, reserved, actual, accounting, Charge(Some(actual), accounting, reserved))],
         closer := TriagedCloser(job.node, actual.tokens, l.closer))
    else l.(fault := true)
  }

  function Attempting(job: Job, l: Local): Envelope {
    Stamped(job, l, job.w.run(job.node, AttemptInput(l.rt.attempt, job.deps, ReviewAdapter(job.node, l), Remaining(job, l))))
  }

  /** Reserved, running, one attempt, charged. */
  function RunOnce(job: Job, l: Local): (Local, Envelope) {
    var counted := Counted(Marked(Marked(l, NodeStatus.Reserved), Running));
    var env := Attempting(job, counted);
    var charged := Charged(job, counted, ByAdapter, env, job.w.commitAccounting(env));
    (charged.(rt := charged.rt.(errorClass := env.errorClass)), env)
  }

  function FallbackReserved(job: Job, l: Local, accounting: Accounting): (Admission, Local) {
    var (admission, r) := ReserveAs(job, l, accounting);
    (admission,
     if admission == Admitted then r
     else Blocked(r, job.node.id, "budget exhausted before fallback", ReasonName(admission)))
  }

  function Switched(node: NodeSpec, l: Local, next: string): Local {
    if IsReviewer(node) then l.(reviewer := next) else l.(closer := next)
  }

  /** A review role's fallback: its adapter is switched for good, then tried once. */
  function ReviewFallback(job: Job, l: Local, next: string): (Local, Option<Envelope>) {
    var (admission, r) := FallbackReserved(job, l, Exact);
    if admission != Admitted then (r, None)
    else
      var counted := Counted(Switched(job.node, r, next));
      var env := Attempting(job, counted);
      (Charged(job, counted.(rt := counted.rt.(errorClass := env.errorClass)), ByFallback, env, Exact), Some(env))
  }

  /** Any other role's fallback: the configured adapter, if it covers the node, tried once. */
  function AdapterFallback(job: Job, l: Local, fallback: Fallback): (Local, Option<Envelope>) {
    if !fallback.covers(job.node) then
      (Blocked(l, job.node.id, "fallback misses required capabilities", "fallback_uncovered"), None)
    else
      var (admission, r) := FallbackReserved(job, l, fallback.accounting);
      if admission != Admitted then (r, None)
      else
        var counted := Counted(r);
        var env := Stamped(job, counted, fallback.run(job.node, counted.rt.attempt));
        (Charged(job, counted.(rt := counted.rt.(errorClass := env.errorClass)), ByFallback, env, fallback.accounting), Some(env))
  }

  /** One fallback attempt, never a retry: the next review adapter, or the configured fallback. */
  function FallbackAttempt(job: Job, l: Local): (Local, Option<Envelope>) {
    if IsReview(job.node) then
      var next := NextReviewAdapter(ReviewAdapter(job.node, l));
      if next.None? then (l, None) else ReviewFallback(job, l, next.value)
    else if job.w.fallback.None? then (l, None)
    else AdapterFallback(job, l, job.w.fallback.value)
  }

  function Failing(job: Job, l: Local, env: Envelope): (Local, Envelope) {
    (Blocked(Marked(l, Failed), job.node.id, "node failed", ErrorName(env.errorClass)), env)
  }

  predicate EarnsFallback(job: Job, failure: FailureClass) {
    failure == Deterministic || (IsReview(job.node) && failure != OverBudget)
  }

  /** No retry is left: a deterministic failure earns the fallback, anything else is terminal. */
  function Finish(job: Job, l: Local, env: Envelope, failure: FailureClass): (Local, Envelope) {
    if EarnsFallback(job, failure) then
      var (r, second) := FallbackAttempt(job, l);
      if second.None? then Failing(job, r, env)
      else if Classify(second.value).None? then (Marked(r, Succeeded), second.value)
      else Failing(job, r, second.value)
    else Failing(job, l, env)
  }

  function Retried(l: Local): Local {
    Marked(l.(rt := l.rt.(remainingRetries := l.rt.remainingRetries - 1)), Ready)
  }

  /** The retry loop, entered with an open reservation. */
  function AttemptLoop(job: Job, l: Local): (Local, Envelope)
    decreases l.rt.remainingRetries
  {
    var (r, env) := RunOnce(job, l);
    var failure := Classify(env);
    if failure.None? then (Marked(r, Succeeded), env)
    else if RetryEligible(failure.value, env.errorClass, r.rt.remainingRetries, job.node.retryableErrors) then
      var (admission, again) := ReserveAttempt(job, r);
      if admission == Admitted then AttemptLoop(job, Retried(again))
      else Finish(job, again, env, failure.value)
    else Finish(job, r, env, failure.value)
  }

  /** A failed attempt earns a retry when its error allows one and the budget admits it. */
  predicate Retries(job: Job, l: Local, env: Envelope, failure: FailureClass) {
    && RetryEligible(failure, env.errorClass, l.rt.remainingRetries, job.node.retryableErrors)
    && ReserveAttempt(job, l).0 == Admitted
  }

  /** A failed attempt that earns no retry ends the node, after any refused reservation. */
  function Unretried(job: Job, l: Local, env: Envelope, failure: FailureClass): (Local, Envelope) {
    if RetryEligible(failure, env.errorClass, l.rt.remainingRetries, job.node.retryableErrors)
    then Finish(job, ReserveAttempt(job, l).1, env, failure)
    else Finish(job, l, env, failure)
  }

  lemma LoopUnfolds(job: Job, l: Local)
    ensures var (r, env) := RunOnce(job, l);
            var failure := Classify(env);
            AttemptLoop(job, l) ==
              if failure.None? then (Marked(r, Succeeded), env)
              else if Retries(job, r, env, failure.value) then AttemptLoop(job, Retried(ReserveAttempt(job, r).1))
              else Unretried(job, r, env, failure.value)
    ensures var (r, env) := RunOnce(job, l);
            var failure := Classify(env);
            failure.Some? && Retries(job, r, env, failure.value) ==>
              0 <= Retried(ReserveAttempt(job, r).1).rt.remainingRetries < l.rt.remainingRetries
  {
  }

  /** A whole dispatch; no envelope means the budget was gone before the first attempt. */
  function Dispatch(job: Job, l: Local): (Local, Option<Envelope>) {
    var (admission, r) := ReserveAttempt(job, Marked(l, Ready));
    if admission != Admitted then
      (Blocked(r, job.node.id, "budget exhausted before dispatch", ReasonName(admission)), None)
    else
      var (done, env) := AttemptLoop(job, r);
      (done, Some(env))
  }
}
