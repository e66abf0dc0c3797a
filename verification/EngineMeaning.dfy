/** The recursive meaning of a graph, and the run as a way of computing it: the same for every cap and
    from every journal that earlier runs may have left. */
module EngineMeaning {
  import opened AgyTypes
  import opened Budget
  import opened Scheduling
  import opened Dag
  import opened Checkpointing
  import opened Dispatching
  import opened DispatchTheorems
  import opened DispatchLimits
  import opened Engine

  /** What becomes of a node: never run because a dependency did not succeed, or run to its end. */
  datatype Verdict =
    | Avoided
    | Reached(rt: Runtime, key: Key, env: Envelope, attempts: seq<Attempt>, committed: Dims)

  type Meaning = map<NodeId, Verdict>

  ghost predicate Good(m: Meaning, id: NodeId) {
    id in m && m[id].Reached? && m[id].rt.status == Succeeded
  }

  function Outputs(m: Meaning): map<NodeId, Envelope> {
    map id | id in m && m[id].Reached? :: m[id].env
  }

  /** A node that has never been tried, with no global limit and no review adapters. */
  function Clean(node: NodeSpec): Local {
    Local(FRESH.(remainingRetries := node.maxSchemaRetries), None, "", "", [], [], false, false)
  }

  function AloneJob(w: Setup, node: NodeSpec, results: map<NodeId, Envelope>): Job {
    Job(w, node, w.keyOf(node, ResolveInputs(node, results)), DepResults(node, results), None)
  }

  ghost function OwnOutcome(w: Setup, node: NodeSpec, results: map<NodeId, Envelope>): Verdict {
    var job := AloneJob(w, node, results);
    var (l, env) := Dispatch(job, Clean(node));
    if env.None? then Avoided else Reached(l.rt, job.key, env.value, l.attempts, CommittedBy(l.own))
  }

  ghost predicate AllGood(m: Meaning, deps: seq<NodeId>) {
    forall d :: d in deps ==> Good(m, d)
  }

  /** Skipped if any dependency did not succeed, else the outcome of the node's own attempts. */
  ghost function Evaluate(w: Setup, m: Meaning, id: NodeId): Verdict {
    if AllGood(m, NodeOf(w, id).dependencies) then OwnOutcome(w, NodeOf(w, id), Outputs(m)) else Avoided
  }

  /** `m` solves the equations of the graph. */
  ghost predicate IsMeaning(w: Setup, m: Meaning) {
    m.Keys == IdSet(w.nodes) && forall id :: id in m ==> m[id] == Evaluate(w, m, id)
  }

  // ---- only dependencies matter ----

  ghost predicate SameOn(deps: seq<NodeId>, a: map<NodeId, Envelope>, b: map<NodeId, Envelope>) {
    forall d :: d in deps ==> (d in a <==> d in b) && (d in a ==> a[d] == b[d])
  }

  lemma {:induction false} FirstWithSame(name: string, deps: seq<NodeId>, a: map<NodeId, Envelope>, b: map<NodeId, Envelope>)
    requires SameOn(deps, a, b)
    ensures FirstWith(name, deps, a) == FirstWith(name, deps, b)
  {
    if deps != [] {
      assert deps[0] in deps;
      FirstWithSame(name, deps[1..], a, b);
    }
  }

  lemma {:induction false} InputsSame(node: NodeSpec, a: map<NodeId, Envelope>, b: map<NodeId, Envelope>, i: nat)
    requires SameOn(node.dependencies, a, b) && i <= |node.inputs|
    ensures InputsUpTo(node, a, i) == InputsUpTo(node, b, i)
  {
    if i > 0 {
      InputsSame(node, a, b, i - 1);
      FirstWithSame(node.inputs[i - 1], node.dependencies, a, b);
    }
  }

  lemma JobSame(w: Setup, node: NodeSpec, a: map<NodeId, Envelope>, b: map<NodeId, Envelope>)
    requires SameOn(node.dependencies, a, b)
    ensures AloneJob(w, node, a) == AloneJob(w, node, b)
  {
    InputsSame(node, a, b, |node.inputs|);
    assert DepResults(node, a) == DepResults(node, b);
  }

  lemma EvaluateSame(w: Setup, a: Meaning, b: Meaning, id: NodeId)
    requires forall d :: d in NodeOf(w, id).dependencies ==> d in a && d in b && a[d] == b[d]
    ensures Evaluate(w, a, id) == Evaluate(w, b, id)
  {
    var node := NodeOf(w, id);
    JobSame(w, node, Outputs(a), Outputs(b));
    assert AllGood(a, node.dependencies) <==> AllGood(b, node.dependencies) by {
      forall d | d in node.dependencies ensures Good(a, d) <==> Good(b, d) {
      }
    }
  }

  lemma DepsOfNode(w: Setup, id: NodeId)
    requires id in IdSet(w.nodes)
    ensures DepsOf(w.nodes)[id] == NodeOf(w, id).dependencies
  {
  }

  // ---- the meaning exists and is unique ----

  lemma {:induction false} UniqueUpTo(w: Setup, a: Meaning, b: Meaning, order: seq<NodeId>, i: nat)
    requires IsMeaning(w, a) && IsMeaning(w, b) && TopologicalOrder(DepsOf(w.nodes), order) && i <= |order|
    ensures forall j :: 0 <= j < i ==> order[j] in a && order[j] in b && a[order[j]] == b[order[j]]
  {
    hide Evaluate;
    if i > 0 {
      UniqueUpTo(w, a, b, order, i - 1);
      var x := order[i - 1];
      assert Placed(DepsOf(w.nodes), order, i - 1);
      DepsOfNode(w, x);
      forall d | d in NodeOf(w, x).dependencies ensures d in a && d in b && a[d] == b[d] {
        assert d in order[..i - 1];
      }
      EvaluateSame(w, a, b, x);
    }
  }

  /** An acyclic graph has at most one meaning. */
  lemma MeaningUnique(w: Setup, a: Meaning, b: Meaning)
    requires WellFormed(w.nodes) && !HasCycle(DepsOf(w.nodes)) && IsMeaning(w, a) && IsMeaning(w, b)
    ensures a == b
  {
    hide Evaluate, DepsOf, IdSet, Ordered, HasCycle;
    ResolvableIsClosed(w.nodes);
    AcyclicIffOrdered(DepsOf(w.nodes));
    var order :| TopologicalOrder(DepsOf(w.nodes), order);
    UniqueUpTo(w, a, b, order, |order|);
    forall id | id in a ensures id in b && a[id] == b[id] {
      assert id in order;
    }
  }

  ghost predicate Solves(w: Setup, m: Meaning, order: seq<NodeId>) {
    m.Keys == Elements(order) && forall id :: id in m ==> m[id] == Evaluate(w, m, id)
  }

  /** The dependencies of a listed node are listed before the last one. */
  lemma DepsListedBefore(w: Setup, prefix: seq<NodeId>, x: NodeId, id: NodeId)
    requires Ordered(DepsOf(w.nodes), prefix + [x]) && id in prefix + [x]
    ensures forall d :: d in NodeOf(w, id).dependencies ==> d in Elements(prefix) && d != x
  {
    var order := prefix + [x];
    var k :| 0 <= k < |order| && order[k] == id;
    assert Placed(DepsOf(w.nodes), order, k);
    DepsOfNode(w, id);
    forall d | d in NodeOf(w, id).dependencies ensures d in Elements(prefix) && d != x {
      var j :| 0 <= j < |order[..k]| && order[..k][j] == d;
      assert order[j] == d && prefix[j] == d && order[|prefix|] == x;
    }
  }

  lemma ExtendMeaning(w: Setup, m: Meaning, prefix: seq<NodeId>, x: NodeId, v: Verdict)
    requires Ordered(DepsOf(w.nodes), prefix + [x]) && Solves(w, m, prefix) && v == Evaluate(w, m, x)
    ensures Solves(w, m[x := v], prefix + [x])
  {
    hide Evaluate, Ordered, IdSet, DepsOf, NodesById, NodeOf;
    var next := m[x := v];
    assert Elements(prefix + [x]) == Elements(prefix) + {x};
    forall id | id in next ensures next[id] == Evaluate(w, next, id) {
      assert id in prefix + [x];
      DepsListedBefore(w, prefix, x, id);
      EvaluateSame(w, m, next, id);
    }
  }

  lemma OrderedPrefix(deps: Deps, prefix: seq<NodeId>, x: NodeId)
    requires Ordered(deps, prefix + [x])
    ensures Ordered(deps, prefix)
  {
    forall i | 0 <= i < |prefix| ensures Placed(deps, prefix, i) {
      assert Placed(deps, prefix + [x], i);
      assert (prefix + [x])[..i] == prefix[..i];
    }
    forall i, j | 0 <= i < j < |prefix| ensures prefix[i] != prefix[j] {
      assert (prefix + [x])[i] != (prefix + [x])[j];
    }
  }

  lemma {:induction false} MeaningUpTo(w: Setup, order: seq<NodeId>) returns (m: Meaning)
    requires Ordered(DepsOf(w.nodes), order)
    ensures Solves(w, m, order)
    decreases |order|
  {
    hide Evaluate, Ordered;
    if order == [] {
      m := map[];
    } else {
      var prefix, x := order[..|order| - 1], order[|order| - 1];
      assert order == prefix + [x];
      OrderedPrefix(DepsOf(w.nodes), prefix, x);
      var rest := MeaningUpTo(w, prefix);
      ExtendMeaning(w, rest, prefix, x, Evaluate(w, rest, x));
      m := rest[x := Evaluate(w, rest, x)];
    }
  }

  /** An acyclic graph has a meaning. */
  lemma MeaningExists(w: Setup) returns (m: Meaning)
    requires WellFormed(w.nodes) && !HasCycle(DepsOf(w.nodes))
    ensures IsMeaning(w, m)
  {
    hide Evaluate, HasCycle, IdSet, DepsOf;
    ResolvableIsClosed(w.nodes);
    AcyclicIffOrdered(DepsOf(w.nodes));
    var order :| TopologicalOrder(DepsOf(w.nodes), order);
    m := MeaningUpTo(w, order);
    OrderedIsDownClosed(DepsOf(w.nodes), order);
    assert Elements(order) == IdSet(w.nodes);
  }

  // ---- review adapters do not matter to other roles ----

  function Reviewed(l: Local, reviewer: string, closer: string): Local {
    l.(reviewer := reviewer, closer := closer)
  }

  lemma RunOnceReviewed(job: Job, l: Local, x: string, y: string)
    requires !IsReview(job.node)
    ensures var (r, env) := RunOnce(job, l); RunOnce(job, Reviewed(l, x, y)) == (Reviewed(r, x, y), env)
  {
    hide Remaining;
    var running := Marked(Marked(l, NodeStatus.Reserved), Running);
    var counted := running.(rt := running.rt.(attempt := running.rt.attempt + 1));
    AttemptingReviewed(job, counted, x, y);
  }

  lemma AttemptingReviewed(job: Job, l: Local, x: string, y: string)
    requires !IsReview(job.node)
    ensures Attempting(job, Reviewed(l, x, y)) == Attempting(job, l)
  {
    hide Remaining;
    RemainingReviewed(job, x, y);
  }

  lemma RemainingReviewed(job: Job, x: string, y: string)
    ensures forall l :: Remaining(job, Reviewed(l, x, y)) == Remaining(job, l)
  {
    forall l ensures Remaining(job, Reviewed(l, x, y)) == Remaining(job, l) {
      var r := Reviewed(l, x, y);
      assert r.own == l.own;
    }
  }

  lemma ReserveReviewed(job: Job, l: Local, accounting: Accounting, x: string, y: string)
    ensures var (admission, r) := ReserveAs(job, l, accounting);
            ReserveAs(job, Reviewed(l, x, y), accounting) == (admission, Reviewed(r, x, y))
  {
    hide Admit, OpenEntry, ReservationAmount;
  }

  lemma FinishReviewed(job: Job, l: Local, env: Envelope, failure: FailureClass, x: string, y: string)
    requires !IsReview(job.node)
    ensures var (r, last) := Finish(job, l, env, failure);
            Finish(job, Reviewed(l, x, y), env, failure) == (Reviewed(r, x, y), last)
  {
    hide Classify, FallbackAttempt;
    FallbackReviewed(job, l, x, y);
  }

  lemma AdapterFallbackReviewed(job: Job, l: Local, fallback: Fallback, x: string, y: string)
    requires !IsReview(job.node)
    ensures var (r, env) := AdapterFallback(job, l, fallback);
            AdapterFallback(job, Reviewed(l, x, y), fallback) == (Reviewed(r, x, y), env)
  {
    hide ReserveAs;
    ReserveReviewed(job, l, fallback.accounting, x, y);
  }

  lemma FallbackReviewed(job: Job, l: Local, x: string, y: string)
    requires !IsReview(job.node)
    ensures var (r, env) := FallbackAttempt(job, l);
            FallbackAttempt(job, Reviewed(l, x, y)) == (Reviewed(r, x, y), env)
  {
    hide AdapterFallback;
    if job.w.fallback.Some? {
      AdapterFallbackReviewed(job, l, job.w.fallback.value, x, y);
    }
  }

  lemma {:induction false} LoopReviewed(job: Job, l: Local, x: string, y: string)
    requires !IsReview(job.node)
    ensures var (r, env) := AttemptLoop(job, l);
            AttemptLoop(job, Reviewed(l, x, y)) == (Reviewed(r, x, y), env)
    decreases l.rt.remainingRetries
  {
    hide RunOnce, ReserveAs, Finish, Classify, RetryEligible, Remaining;
    RunOnceReviewed(job, l, x, y);
    var (m, env) := RunOnce(job, l);
    var failure := Classify(env);
    if failure.Some? {
      RemainingReviewed(job, x, y);
      ReserveReviewed(job, m, job.w.reserveAccounting(job.node, m.rt.attempt + 1, Remaining(job, m)), x, y);
      var (admission, again) := ReserveAttempt(job, m);
      LoopDecreases(job, l);
      if RetryEligible(failure.value, env.errorClass, m.rt.remainingRetries, job.node.retryableErrors) {
        if admission == Admitted {
          LoopReviewed(job, Retried(again), x, y);
        } else {
          FinishReviewed(job, again, env, failure.value, x, y);
        }
      } else {
        FinishReviewed(job, m, env, failure.value, x, y);
      }
    }
  }

  lemma DispatchReviewed(job: Job, l: Local, x: string, y: string)
    requires !IsReview(job.node)
    ensures var (r, env) := Dispatch(job, l);
            Dispatch(job, Reviewed(l, x, y)) == (Reviewed(r, x, y), env)
  {
    hide ReserveAs, AttemptLoop, Remaining;
    var ready := Marked(l, Ready);
    RemainingReviewed(job, x, y);
    ReserveReviewed(job, ready, job.w.reserveAccounting(job.node, ready.rt.attempt + 1, Remaining(job, ready)), x, y);
    var (admission, armed) := ReserveAttempt(job, ready);
    if admission == Admitted {
      LoopReviewed(job, armed, x, y);
    }
  }
}
