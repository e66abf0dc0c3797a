/** The conductor as an object over its scheduler, ledger and checkpoint. Every method is proved to take the
    engine state exactly where the functions of module Engine say. */
module Conducting {
  import opened AgyTypes
  import opened Budget
  import opened Scheduling
  import opened Dag
  import opened Checkpointing
  import opened Dispatching
  import opened Engine
  import opened EngineInvariants
  import opened EngineRun
  import Sorting

  lemma MergeSelf(w: Setup, s: RunState, id: NodeId)
    requires id in s.states
    ensures Merge(w, s, id, LocalOf(w, s, id)) == s
  {
    assert s.states[id := s.states[id]] == s.states;
    assert s.blockers + multiset([]) == s.blockers;
    assert s.attempts + [] == s.attempts;
    if LedgerKeyOf(w, id) in s.entries {
      SameEntry(s.entries, LedgerKeyOf(w, id));
    }
  }

  lemma OthersUntouched(entries: Entries, key: LedgerKey, own: Option<Entry>)
    requires own.None? ==> key !in entries
    ensures var now := if own.Some? then entries[key := own.value] else entries;
            Others(now, key) == Others(entries, key) && Own(now, key) == own
  {
    hide Sum;
    if own.Some? {
      assert entries[key := own.value] - {key} == entries - {key};
    }
  }

  /** What the engine state shows of the node at hand. */
  lemma MergeReads(w: Setup, s: RunState, id: NodeId, l: Local)
    requires l.own.None? ==> LedgerKeyOf(w, id) !in s.entries
    ensures var m := Merge(w, s, id, l);
            && id in m.states && m.states[id] == l.rt && Own(m.entries, LedgerKeyOf(w, id)) == l.own
            && m.reviewer == l.reviewer && m.closer == l.closer && m.results == s.results && m.keys == s.keys
  {
  }

  lemma MergeOthers(w: Setup, s: RunState, id: NodeId, l: Local)
    requires l.own.None? ==> LedgerKeyOf(w, id) !in s.entries
    ensures Others(Merge(w, s, id, l).entries, LedgerKeyOf(w, id)) == Others(s.entries, LedgerKeyOf(w, id))
  {
    hide Others;
    OthersUntouched(s.entries, LedgerKeyOf(w, id), l.own);
  }

  lemma MergeRuntime(w: Setup, s: RunState, id: NodeId, l: Local, rt: Runtime)
    ensures var m := Merge(w, s, id, l); m.(states := m.states[id := rt]) == Merge(w, s, id, l.(rt := rt))
  {
  }

  lemma MergeEntry(w: Setup, s: RunState, id: NodeId, l: Local, e: Entry)
    ensures var m := Merge(w, s, id, l);
            m.(entries := m.entries[LedgerKeyOf(w, id) := e]) == Merge(w, s, id, l.(own := Some(e)))
  {
  }

  lemma MergeFlags(w: Setup, s: RunState, id: NodeId, l: Local, refused: bool, fault: bool)
    ensures var m := Merge(w, s, id, l);
            m.(refused := m.refused || refused, fault := m.fault || fault)
              == Merge(w, s, id, l.(refused := l.refused || refused, fault := l.fault || fault))
  {
  }

  lemma MergeBlocker(w: Setup, s: RunState, id: NodeId, l: Local, b: Blocker)
    ensures var m := Merge(w, s, id, l);
            m.(blockers := m.blockers + multiset{b}) == Merge(w, s, id, l.(blockers := l.blockers + [b]))
  {
  }

  lemma MergeAttempt(w: Setup, s: RunState, id: NodeId, l: Local, a: Attempt, closer: string)
    ensures var m := Merge(w, s, id, l);
            m.(attempts := m.attempts + [a], closer := closer) == Merge(w, s, id, l.(attempts := l.attempts + [a], closer := closer))
  {
    assert s.attempts + (l.attempts + [a]) == s.attempts + l.attempts + [a];
  }

  lemma MergeAdapters(w: Setup, s: RunState, id: NodeId, l: Local, next: string)
    ensures var m := Merge(w, s, id, l);
            && m.(reviewer := next) == Merge(w, s, id, l.(reviewer := next))
            && m.(closer := next) == Merge(w, s, id, l.(closer := next))
  {
  }

  class Conductor {
    const w: Setup
    const cap: int
    const scheduler: Scheduler
    const ledger: BudgetLedger
    const checkpoint: Checkpoint?
    var results: map<NodeId, Envelope>
    var keys: map<NodeId, Key>
    var blockers: seq<Blocker>
    var reviewer: string
    var closer: string
    var stopped: bool
    /** Set where an exception escapes. */
    var fault: bool
    ghost var attempts: seq<Attempt>
    ghost var refused: bool

    ghost predicate Valid()
      reads this, scheduler, ledger, checkpoint
    {
      && WellFormed(w.nodes)
      && scheduler.nodes == w.nodes && scheduler.Linked()
      && ledger.limit == w.limit && ledger.multiplier == w.multiplier
      && (checkpoint != null ==>
           checkpoint.epochId == w.epoch.id && checkpoint.select == w.select)
    }

    /** The whole engine state. */
    ghost function State(): RunState
      reads this, scheduler, ledger, checkpoint
    {
      RunState(scheduler.states, ledger.entries, results, keys, multiset(blockers), reviewer, closer, stopped,
               if checkpoint == null then None else Some(checkpoint.rows), attempts, refused, fault)
    }

    constructor (w: Setup, cap: int, reviewer: string, closer: string, checkpoint: Checkpoint?)
      requires WellFormed(w.nodes)
      requires checkpoint != null ==> checkpoint.epochId == w.epoch.id && checkpoint.select == w.select
      ensures Valid() && this.w == w && this.cap == cap && this.checkpoint == checkpoint
      ensures this.reviewer == reviewer && this.closer == closer
      ensures fresh(this) && fresh(scheduler) && fresh(ledger)
      ensures State() == Initial(w, reviewer, closer, if checkpoint == null then None else Some(checkpoint.rows))
    {
      this.w := w;
      this.cap := cap;
      this.checkpoint := checkpoint;
      scheduler := new Scheduler(w.nodes);
      ledger := new BudgetLedger(w.limit, w.multiplier);
      results, keys, blockers := map[], map[], [];
      this.reviewer, this.closer := reviewer, closer;
      stopped, fault := false, false;
      attempts, refused := [], false;
    }

    /** In the middle of a dispatch that started in `s`, the node at hand has come to `l`. */
    ghost predicate At(s: RunState, id: NodeId, l: Local)
      reads this, scheduler, ledger, checkpoint
    {
      && Valid() && State() == Merge(w, s, id, l)
      && id in s.states && id in s.keys && s.states.Keys == IdSet(w.nodes)
      && (l.own.None? ==> LedgerKeyOf(w, id) !in s.entries)
    }

    // ---- primitive steps ----

    method AddBlocker(id: NodeId, what: string, needs: string)
      modifies `blockers
      ensures blockers == old(blockers) + [Blocker(id, what, needs)]
    {
      blockers := blockers + [Blocker(id, what, needs)];
    }

    method Mark(id: NodeId, status: NodeStatus, ghost s: RunState, ghost l: Local)
      requires At(s, id, l)
      modifies this, scheduler, ledger
      ensures At(s, id, Marked(l, status))
    {
      hide WellFormed, Merge, IdSet, CanTransition, DepsOf, NodesById, Scheduler.Linked, Sum;
      MergeReads(w, s, id, l);
      MergeRuntime(w, s, id, l, l.rt.(status := status));
      MergeFlags(w, s, id, l, false, true);
      var ok := scheduler.Mark(id, status);
      if !ok {
        fault := true;
      }
    }

    method Block(id: NodeId, what: string, needs: string, ghost s: RunState, ghost l: Local)
      requires At(s, id, l)
      modifies this, scheduler, ledger
      ensures At(s, id, Dispatching.Blocked(l, id, what, needs))
    {
      hide WellFormed, Merge, IdSet, DepsOf, NodesById, Scheduler.Linked, Sum;
      MergeBlocker(w, s, id, l, Blocker(id, what, needs));
      AddBlocker(id, what, needs);
    }

    method SetRuntime(id: NodeId, rt: Runtime, ghost s: RunState, ghost l: Local)
      requires At(s, id, l)
      modifies this, scheduler, ledger
      ensures At(s, id, l.(rt := rt))
    {
      hide WellFormed, Merge, IdSet, DepsOf, NodesById, Scheduler.Linked, Sum;
      MergeReads(w, s, id, l);
      MergeRuntime(w, s, id, l, rt);
      scheduler.SetRuntime(id, rt);
    }

    method CountAttempt(id: NodeId, ghost s: RunState, ghost l: Local)
      requires At(s, id, l)
      modifies this, scheduler, ledger
      ensures At(s, id, Counted(l))
    {
      hide At, State;
      RuntimeAt(s, id, l);
      var rt := scheduler.states[id];
      SetRuntime(id, rt.(attempt := rt.attempt + 1), s, l);
    }

    method SetError(id: NodeId, error: ErrorClass, ghost s: RunState, ghost l: Local)
      requires At(s, id, l)
      modifies this, scheduler, ledger
      ensures At(s, id, l.(rt := l.rt.(errorClass := error)))
    {
      hide At, State;
      RuntimeAt(s, id, l);
      SetRuntime(id, scheduler.states[id].(errorClass := error), s, l);
    }

    /** What a routing decision sees: the available budget plus the node's own reservation. */
    method RemainingBudget(id: NodeId, ghost s: RunState, ghost l: Local) returns (remaining: Dims)
      requires At(s, id, l)
      ensures remaining == Remaining(JobOf(w, s, id), l)
    {
      hide Sum, WellFormed, NodesById, DepResults, Merge, IdSet, Others, DepsOf, Scheduler.Linked;
      var key := LedgerKeyOf(w, id);
      MergeReads(w, s, id, l);
      MergeOthers(w, s, id, l);
      AvailableSplit(w.limit, ledger.entries, key);
      var available := ledger.TotalAvailable();
      remaining := if key in ledger.entries then available.Add(ledger.entries[key].reserved) else available;
    }

    method ReserveWith(id: NodeId, accounting: Accounting, ghost s: RunState, ghost l: Local) returns (admission: Admission)
      requires At(s, id, l)
      modifies this, scheduler, ledger
      ensures admission == ReserveAs(JobOf(w, s, id), l, accounting).0
      ensures At(s, id, ReserveAs(JobOf(w, s, id), l, accounting).1)
    {
      hide WellFormed, IdSet, Merge, NodesById, AdmitAt, ReserveAs, OpenEntry, ReservationAmount, JobOf, DepsOf, Scheduler.Linked, Sum;
      MergeReads(w, s, id, l);
      ReserveMerges(w, s, id, l, accounting);
      ReserveKeepsOwn(JobOf(w, s, id), l, accounting);
      var node := NodeOf(w, id);
      admission := ledger.Reserve(LedgerKeyOf(w, id), w.epoch.id, node, scheduler.states[id].consumed, accounting);
      refused := refused || admission == GlobalLimit;
    }

    method Reserve(id: NodeId, ghost s: RunState, ghost l: Local) returns (admission: Admission)
      requires At(s, id, l)
      modifies this, scheduler, ledger
      ensures admission == ReserveAttempt(JobOf(w, s, id), l).0
      ensures At(s, id, ReserveAttempt(JobOf(w, s, id), l).1)
    {
      hide ReserveAs, Remaining, WellFormed, JobOf, Merge, IdSet, Others, DepsOf, NodesById, Scheduler.Linked, Sum;
      MergeReads(w, s, id, l);
      var remaining := RemainingBudget(id, s, l);
      var node := NodeOf(w, id);
      JobNode(w, s, id);
      admission := ReserveWith(id, w.reserveAccounting(node, scheduler.states[id].attempt + 1, remaining), s, l);
    }

    method CommitLedger(id: NodeId, actual: Dims, accounting: Accounting, ghost s: RunState, ghost l: Local) returns (ok: bool)
      requires At(s, id, l)
      modifies this, scheduler, ledger
      ensures ok <==> l.own.Some? && l.own.value.status == Open
      ensures ok ==> At(s, id, l.(own := Some(CommitEntry(l.own.value, Some(actual), accounting))))
      ensures !ok ==> At(s, id, l.(fault := true))
    {
      hide WellFormed, IdSet, Merge, CommitEntry, DepsOf, NodesById, Scheduler.Linked, Sum;
      MergeReads(w, s, id, l);
      MergeFlags(w, s, id, l, false, true);
      if l.own.Some? {
        MergeEntry(w, s, id, l, CommitEntry(l.own.value, Some(actual), accounting));
      }
      ok := ledger.Commit(LedgerKeyOf(w, id), Some(actual), accounting);
      if !ok {
        fault := true;
      }
    }

    /** Logs the charged attempt; reviewers over the token guardrail downgrade the closer. */
    method RecordAttempt(id: NodeId, tokens: int, ghost a: Attempt, ghost s: RunState, ghost l: Local)
      requires At(s, id, l)
      modifies this, scheduler, ledger
      ensures At(s, id, l.(attempts := l.attempts + [a], closer := TriagedCloser(NodeOf(w, id), tokens, l.closer)))
    {
      hide WellFormed, IdSet, Merge, TriagedCloser, NodesById, DepsOf, Scheduler.Linked, Sum;
      MergeReads(w, s, id, l);
      MergeAttempt(w, s, id, l, a, TriagedCloser(NodeOf(w, id), tokens, closer));
      attempts := attempts + [a];
      closer := TriagedCloser(NodeOf(w, id), tokens, closer);
    }

    /** Charges an attempt to the ledger and to the node. */
    method Charge(id: NodeId, ghost kind: AttemptKind, env: Envelope, accounting: Accounting, ghost s: RunState, ghost l: Local)
      requires At(s, id, l)
      modifies this, scheduler, ledger
      ensures At(s, id, Charged(JobOf(w, s, id), l, kind, env, accounting))
    {
      hide WellFormed, IdSet, Merge, JobOf, TriagedCloser, Budget.Charge, CommitEntry, NodesById, State, DepsOf, Scheduler.Linked, Sum;
      JobNode(w, s, id);
      RuntimeAt(s, id, l);
      var actual := ActualOf(env);
      var ok := CommitLedger(id, actual, accounting, s, l);
      if ok {
        ghost var reserved := l.own.value.reserved;
        ghost var l1 := l.(own := Some(CommitEntry(l.own.value, Some(actual), accounting)));
        RuntimeAt(s, id, l1);
        var rt := scheduler.states[id];
        SetRuntime(id, rt.(consumed := rt.consumed.Add(actual)), s, l1);
        RecordAttempt(id, actual.tokens,
          Attempt(NodeOf(w, id).id, kind, env, reserved, actual, accounting, Budget.Charge(Some(actual), accounting, reserved)),
          s, l1.(rt := l.rt.(consumed := l.rt.consumed.Add(actual))));
      }
    }

    // ---- one node ----

    /** One attempt through its role's adapter, stamped with the node's identity. */
    method RunAttempt(id: NodeId, ghost s: RunState, ghost l: Local) returns (env: Envelope)
      requires At(s, id, l)
      ensures env == Attempting(JobOf(w, s, id), l)
    {
      hide At, State, Remaining, JobOf, NodesById, DepResults, AdapterFor, Own;
      RuntimeAt(s, id, l);
      JobNode(w, s, id);
      var node := NodeOf(w, id);
      var remaining := RemainingBudget(id, s, l);
      var attempt := scheduler.states[id].attempt;
      env := w.run(node, AttemptInput(attempt, DepResults(node, results), AdapterFor(node, reviewer, closer), remaining));
      env := env.(nodeId := node.id, key := keys[id], attempt := attempt);
    }

    /** Moves a reserved node to running and counts the attempt. */
    method Start(id: NodeId, ghost s: RunState, ghost l: Local)
      requires At(s, id, l)
      modifies this, scheduler, ledger
      ensures At(s, id, Counted(Dispatching.Marked(Dispatching.Marked(l, NodeStatus.Reserved), Running)))
    {
      hide At, State, Dispatching.Marked;
      Mark(id, NodeStatus.Reserved, s, l);
      Mark(id, Running, s, Dispatching.Marked(l, NodeStatus.Reserved));
      CountAttempt(id, s, Dispatching.Marked(Dispatching.Marked(l, NodeStatus.Reserved), Running));
    }

    /** Reserved, running, one attempt, charged. */
    method RunOnce(id: NodeId, ghost s: RunState, ghost l: Local) returns (env: Envelope)
      requires At(s, id, l)
      modifies this, scheduler, ledger
      ensures env == Dispatching.RunOnce(JobOf(w, s, id), l).1
      ensures At(s, id, Dispatching.RunOnce(JobOf(w, s, id), l).0)
    {
      hide At, State, JobOf, Charged, Attempting, Dispatching.Marked, Counted, Merge, NodesById;
      ghost var job := JobOf(w, s, id);
      JobNode(w, s, id);
      ghost var started := Counted(Dispatching.Marked(Dispatching.Marked(l, NodeStatus.Reserved), Running));
      Start(id, s, l);
      env := RunAttempt(id, s, started);
      ghost var charged := Charged(job, started, ByAdapter, env, w.commitAccounting(env));
      Charge(id, ByAdapter, env, w.commitAccounting(env), s, started);
      SetError(id, env.errorClass, s, charged);
    }

    method ReserveFallback(id: NodeId, accounting: Accounting, ghost s: RunState, ghost l: Local) returns (admission: Admission)
      requires At(s, id, l)
      modifies this, scheduler, ledger
      ensures admission == FallbackReserved(JobOf(w, s, id), l, accounting).0
      ensures At(s, id, FallbackReserved(JobOf(w, s, id), l, accounting).1)
    {
      hide At, State, JobOf, ReserveAs;
      JobNode(w, s, id);
      admission := ReserveWith(id, accounting, s, l);
      if admission != Admitted {
        Block(id, "budget exhausted before fallback", ReasonName(admission), s, ReserveAs(JobOf(w, s, id), l, accounting).1);
      }
    }

    method SwitchReview(id: NodeId, next: string, ghost s: RunState, ghost l: Local)
      requires At(s, id, l)
      modifies this, scheduler, ledger
      ensures At(s, id, Switched(NodeOf(w, id), l, next))
    {
      hide WellFormed, IdSet, DepsOf, NodesById, Scheduler.Linked, IsReviewer, Merge, NodeOf;
      MergeReads(w, s, id, l);
      MergeAdapters(w, s, id, l, next);
      if IsReviewer(NodeOf(w, id)) {
        reviewer := next;
      } else {
        closer := next;
      }
    }

    /** Ends a fallback attempt: the error class is kept, then the attempt is charged. */
    method Settle(id: NodeId, env: Envelope, accounting: Accounting, ghost s: RunState, ghost l: Local)
      requires At(s, id, l)
      modifies this, scheduler, ledger
      ensures At(s, id, Charged(JobOf(w, s, id), l.(rt := l.rt.(errorClass := env.errorClass)), ByFallback, env, accounting))
    {
      hide At, State, JobOf, Charged, Merge;
      SetError(id, env.errorClass, s, l);
      Charge(id, ByFallback, env, accounting, s, l.(rt := l.rt.(errorClass := env.errorClass)));
    }

    /** Switches the review adapter for good and counts the attempt. */
    method SwitchAndCount(id: NodeId, next: string, ghost s: RunState, ghost l: Local)
      requires At(s, id, l)
      modifies this, scheduler, ledger
      ensures At(s, id, Counted(Switched(NodeOf(w, id), l, next)))
    {
      hide At, State, Counted, Switched, NodesById;
      SwitchReview(id, next, s, l);
      CountAttempt(id, s, Switched(NodeOf(w, id), l, next));
    }

    method ReviewFallback(id: NodeId, next: string, ghost s: RunState, ghost l: Local) returns (env: Option<Envelope>)
      requires At(s, id, l)
      modifies this, scheduler, ledger
      ensures env == Dispatching.ReviewFallback(JobOf(w, s, id), l, next).1
      ensures At(s, id, Dispatching.ReviewFallback(JobOf(w, s, id), l, next).0)
    {
      hide At, State, JobOf, Charged, Attempting, FallbackReserved, NodesById, IsReviewer, Merge, Switched, Counted;
      ghost var job := JobOf(w, s, id);
      JobNode(w, s, id);
      var admission := ReserveFallback(id, Exact, s, l);
      ghost var r := FallbackReserved(job, l, Exact).1;
      if admission != Admitted {
        return None;
      }
      ghost var counted := Counted(Switched(NodeOf(w, id), r, next));
      SwitchAndCount(id, next, s, r);
      var e := RunAttempt(id, s, counted);
      Settle(id, e, Exact, s, counted);
      env := Some(e);
    }

    /** One attempt of the configured fallback adapter. */
    method RunFallback(id: NodeId, fallback: Fallback, ghost s: RunState, ghost l: Local) returns (env: Envelope)
      requires At(s, id, l)
      ensures env == Stamped(JobOf(w, s, id), l, fallback.run(NodeOf(w, id), l.rt.attempt))
    {
      hide At, State, JobOf, NodesById, Own;
      RuntimeAt(s, id, l);
      JobNode(w, s, id);
      var attempt := scheduler.states[id].attempt;
      env := fallback.run(NodeOf(w, id), attempt).(nodeId := id, key := keys[id], attempt := attempt);
    }

    method AdapterFallback(id: NodeId, fallback: Fallback, ghost s: RunState, ghost l: Local) returns (env: Option<Envelope>)
      requires At(s, id, l)
      modifies this, scheduler, ledger
      ensures env == Dispatching.AdapterFallback(JobOf(w, s, id), l, fallback).1
      ensures At(s, id, Dispatching.AdapterFallback(JobOf(w, s, id), l, fallback).0)
    {
      hide At, State, JobOf, Charged, FallbackReserved, NodesById, Merge, Counted, Stamped, Dispatching.Blocked, Dispatching.AdapterFallback;
      ghost var job := JobOf(w, s, id);
      JobNode(w, s, id);
      AdapterFallbackIs(job, l, fallback);
      if !fallback.covers(NodeOf(w, id)) {
        Block(id, "fallback misses required capabilities", "fallback_uncovered", s, l);
        return None;
      }
      var admission := ReserveFallback(id, fallback.accounting, s, l);
      ghost var r := FallbackReserved(job, l, fallback.accounting).1;
      if admission != Admitted {
        return None;
      }
      CountAttempt(id, s, r);
      var e := RunFallback(id, fallback, s, Counted(r));
      Settle(id, e, fallback.accounting, s, Counted(r));
      env := Some(e);
    }

    /** The one fallback attempt. */
    method FallbackAttempt(id: NodeId, ghost s: RunState, ghost l: Local) returns (env: Option<Envelope>)
      requires At(s, id, l)
      modifies this, scheduler, ledger
      ensures env == Dispatching.FallbackAttempt(JobOf(w, s, id), l).1
      ensures At(s, id, Dispatching.FallbackAttempt(JobOf(w, s, id), l).0)
    {
      hide At, State, JobOf, Dispatching.ReviewFallback, Dispatching.AdapterFallback, NodesById, AdapterFor, IsReview, NextReviewAdapter, Own;
      JobNode(w, s, id);
      RuntimeAt(s, id, l);
      var node := NodeOf(w, id);
      env := None;
      if IsReview(node) {
        var next := NextReviewAdapter(AdapterFor(node, reviewer, closer));
        if next.Some? {
          assert Dispatching.FallbackAttempt(JobOf(w, s, id), l) == Dispatching.ReviewFallback(JobOf(w, s, id), l, next.value);
          env := ReviewFallback(id, next.value, s, l);
        }
      } else if w.fallback.Some? {
        assert Dispatching.FallbackAttempt(JobOf(w, s, id), l) == Dispatching.AdapterFallback(JobOf(w, s, id), l, w.fallback.value);
        env := AdapterFallback(id, w.fallback.value, s, l);
      }
    }

    /** No retry is left: fall back once if the failure earns it, and end the node. */
    method Finish(id: NodeId, primary: Envelope, failure: FailureClass, ghost s: RunState, ghost l: Local) returns (env: Envelope)
      requires At(s, id, l)
      modifies this, scheduler, ledger
      ensures env == Dispatching.Finish(JobOf(w, s, id), l, primary, failure).1
      ensures At(s, id, Dispatching.Finish(JobOf(w, s, id), l, primary, failure).0)
    {
      hide At, State, JobOf, Dispatching.FallbackAttempt, NodesById, Dispatching.Marked, Classify;
      JobNode(w, s, id);
      env := primary;
      ghost var r := l;
      if failure == Deterministic || (IsReview(NodeOf(w, id)) && failure != OverBudget) {
        var second := FallbackAttempt(id, s, l);
        r := Dispatching.FallbackAttempt(JobOf(w, s, id), l).0;
        if second.Some? {
          env := second.value;
          if Classify(env).None? {
            Mark(id, Succeeded, s, r);
            return;
          }
        }
      }
      Mark(id, Failed, s, r);
      Block(id, "node failed", ErrorName(env.errorClass), s, Dispatching.Marked(r, Failed));
    }

    /** Takes one retry and goes back to ready. */
    method Retry(id: NodeId, ghost s: RunState, ghost l: Local)
      requires At(s, id, l)
      modifies this, scheduler, ledger
      ensures At(s, id, Retried(l))
    {
      hide At, State, Dispatching.Marked, Own;
      RuntimeAt(s, id, l);
      var rt := scheduler.states[id];
      SetRuntime(id, rt.(remainingRetries := rt.remainingRetries - 1), s, l);
      Mark(id, Ready, s, l.(rt := l.rt.(remainingRetries := l.rt.remainingRetries - 1)));
    }

    /** Ends an attempt that did not succeed: a funded retry, or the end of the node. */
    method RetryOrFinish(id: NodeId, primary: Envelope, failure: FailureClass, ghost s: RunState, ghost l: Local)
      returns (again: bool, env: Envelope)
      requires At(s, id, l)
      modifies this, scheduler, ledger
      ensures again <==> Retries(JobOf(w, s, id), l, primary, failure)
      ensures again ==> At(s, id, Retried(ReserveAttempt(JobOf(w, s, id), l).1))
      ensures !again ==> env == Unretried(JobOf(w, s, id), l, primary, failure).1
      ensures !again ==> At(s, id, Unretried(JobOf(w, s, id), l, primary, failure).0)
    {
      hide At, State, JobOf, NodesById, Own, ReserveAttempt, Retried, RetryEligible, Dispatching.Finish;
      JobNode(w, s, id);
      RuntimeAt(s, id, l);
      env := primary;
      if RetryEligible(failure, primary.errorClass, scheduler.states[id].remainingRetries, NodeOf(w, id).retryableErrors) {
        var admission := Reserve(id, s, l);
        ghost var r := ReserveAttempt(JobOf(w, s, id), l).1;
        if admission == Admitted {
          Retry(id, s, r);
          again := true;
        } else {
          env := Finish(id, primary, failure, s, r);
          again := false;
        }
      } else {
        env := Finish(id, primary, failure, s, l);
        again := false;
      }
    }

    /** One pass of the dispatch loop. */
    method AttemptNext(id: NodeId, ghost s: RunState, ghost l: Local) returns (again: bool, env: Envelope, ghost next: Local)
      requires At(s, id, l)
      modifies this, scheduler, ledger
      ensures At(s, id, next)
      ensures again ==> AttemptLoop(JobOf(w, s, id), next) == AttemptLoop(JobOf(w, s, id), l)
      ensures again ==> 0 <= next.rt.remainingRetries < l.rt.remainingRetries
      ensures !again ==> (next, env) == AttemptLoop(JobOf(w, s, id), l)
    {
      hide At, State, JobOf, Dispatching.RunOnce, Dispatching.Marked, Retries, Unretried, Retried, ReserveAttempt, Classify;
      ghost var job := JobOf(w, s, id);
      LoopUnfolds(job, l);
      env := RunOnce(id, s, l);
      ghost var r := Dispatching.RunOnce(job, l).0;
      var failure := Classify(env);
      if failure.None? {
        Mark(id, Succeeded, s, r);
        return false, env, Dispatching.Marked(r, Succeeded);
      }
      again, env := RetryOrFinish(id, env, failure.value, s, r);
      next := if again then Retried(ReserveAttempt(job, r).1) else AttemptLoop(job, l).0;
    }

    /** The retry loop, entered with an open reservation. */
    method AttemptUntilDone(id: NodeId, ghost s: RunState, ghost l: Local) returns (env: Envelope)
      requires At(s, id, l)
      modifies this, scheduler, ledger
      ensures env == AttemptLoop(JobOf(w, s, id), l).1
      ensures At(s, id, AttemptLoop(JobOf(w, s, id), l).0)
    {
      hide At, State, JobOf, AttemptLoop;
      var again: bool;
      ghost var now: Local;
      again, env, now := AttemptNext(id, s, l);
      while again
        invariant At(s, id, now)
        invariant again ==> AttemptLoop(JobOf(w, s, id), now) == AttemptLoop(JobOf(w, s, id), l)
        invariant !again ==> (now, env) == AttemptLoop(JobOf(w, s, id), l)
        decreases again, now.rt.remainingRetries
      {
        again, env, now := AttemptNext(id, s, now);
      }
    }

    /** The budget is gone: the run ends after this barrier. */
    method Stop(id: NodeId, ghost s: RunState, ghost l: Local)
      requires At(s, id, l)
      modifies `stopped
      ensures Valid() && State() == Merge(w, s, id, l).(stopped := true)
    {
      hide Merge, WellFormed, IdSet, Scheduler.Linked, DepsOf, NodesById;
      stopped := true;
    }

    method Record(id: NodeId, env: Envelope, ghost s: RunState, ghost l: Local)
      requires At(s, id, l)
      modifies `results
      ensures Valid() && State() == Recorded(w, s, id, l, env)
    {
      hide WellFormed, IdSet, Scheduler.Linked, DepsOf, NodesById;
      results := results[id := env];
    }

    /** Ready, reserve, and attempt until the node ends; a refusal before the first attempt stops the run. */
    method Dispatch(id: NodeId, ghost s: RunState)
      requires At(s, id, LocalOf(w, s, id))
      modifies this, scheduler, ledger
      ensures Valid() && State() == Dispatched(w, s, id)
    {
      hide At, State, Valid, JobOf, AttemptLoop, Dispatching.Marked, ReserveAttempt, Merge, LocalOf, Recorded;
      ghost var job, l := JobOf(w, s, id), LocalOf(w, s, id);
      JobNode(w, s, id);
      Mark(id, Ready, s, l);
      var admission := Reserve(id, s, Dispatching.Marked(l, Ready));
      ghost var r := ReserveAttempt(job, Dispatching.Marked(l, Ready)).1;
      if admission != Admitted {
        Block(id, "budget exhausted before dispatch", ReasonName(admission), s, r);
        Stop(id, s, Dispatching.Blocked(r, id, "budget exhausted before dispatch", ReasonName(admission)));
      } else {
        var env := AttemptUntilDone(id, s, r);
        Record(id, env, s, AttemptLoop(job, r).0);
      }
    }

    lemma AtStart(s: RunState, id: NodeId)
      requires Valid() && State() == s && id in s.states && id in s.keys && s.states.Keys == IdSet(w.nodes)
      ensures At(s, id, LocalOf(w, s, id))
    {
      hide WellFormed, IdSet, Scheduler.Linked, DepsOf, NodesById, Merge;
      MergeSelf(w, s, id);
    }

    // ---- the atom ----

    /** Between two nodes, the engine state is `s`. */
    ghost predicate Here(s: RunState)
      reads this, scheduler, ledger, checkpoint
    {
      Valid() && State() == s && s.states.Keys == IdSet(w.nodes)
    }

    method FirstProviding(name: string, deps: seq<NodeId>) returns (found: Option<string>)
      ensures found == FirstWith(name, deps, results)
    {
      for i := 0 to |deps|
        invariant FirstWith(name, deps, results) == FirstWith(name, deps[i..], results)
      {
        if deps[i] in results && name in results[deps[i]].artifact {
          return Some(results[deps[i]].artifact[name]);
        }
      }
      found := None;
    }

    /** Each declared input, taken from the first committed dependency that has it. */
    method ResolvedInputs(node: NodeSpec) returns (resolved: map<string, string>)
      ensures resolved == ResolveInputs(node, results)
    {
      resolved := map[];
      for i := 0 to |node.inputs|
        invariant resolved == InputsUpTo(node, results, i)
      {
        var found := FirstProviding(node.inputs[i], node.dependencies);
        if found.Some? {
          resolved := resolved[node.inputs[i] := found.value];
        }
      }
    }

    /** The runtime a node starts from: carried over from a row of the same key, or clean. */
    method RestoreRuntime(id: NodeId, key: Key, rt: Runtime) returns (r: Runtime)
      requires Valid()
      ensures r == Restored(NodeOf(w, id), key, rt, State().journal)
    {
      hide WellFormed, IdSet, Scheduler.Linked, DepsOf, NodesById;
      var node := NodeOf(w, id);
      assert node.id == id by {
        NodeHasId(w, id);
      }
      var row := None;
      if checkpoint != null {
        row := checkpoint.GetRuntime(id);
      }
      if row.Some? && row.value.key == key {
        r := rt.(consumed := row.value.consumed, remainingRetries := row.value.remainingRetries, attempt := row.value.attempt);
      } else {
        r := rt.(consumed := ZERO, remainingRetries := node.maxSchemaRetries, attempt := 0);
      }
    }

    /** Computes the ready-time key and restores the runtime. */
    method KeyNode(id: NodeId, ghost s: RunState)
      requires Here(s) && id in s.states
      modifies this, scheduler
      ensures Here(Keyed(w, s, id)) && id in Keyed(w, s, id).states && id in Keyed(w, s, id).keys
    {
      hide WellFormed, IdSet, Scheduler.Linked, DepsOf, NodesById, Restored, ResolveInputs;
      var node := NodeOf(w, id);
      var inputs := ResolvedInputs(node);
      var key := w.keyOf(node, inputs);
      var rt := RestoreRuntime(id, key, scheduler.states[id]);
      keys := keys[id := key];
      scheduler.SetRuntime(id, rt);
    }

    method Lookup(id: NodeId, ghost s: RunState) returns (hit: Option<Row>)
      requires Here(s) && id in s.keys
      ensures hit == CacheHit(w, KeyOf(s, id), s.journal)
      ensures hit.Some? ==> hit.value.envelope.Some?
    {
      hide WellFormed, IdSet, Scheduler.Linked, DepsOf, NodesById, LookupIn;
      hit := None;
      if checkpoint != null {
        hit := checkpoint.Lookup(keys[id]);
        if hit.Some? && !(hit.value.envelope.Some? && hit.value.status in {Succeeded, Failed}) {
          hit := None;
        }
      }
    }

    /** Serves the node from a journaled row: any open reservation is released, no attempt is made. */
    method Serve(id: NodeId, row: Row, ghost s: RunState)
      requires Here(s) && id in s.states && row.envelope.Some?
      modifies this, scheduler, ledger
      ensures Here(Served(w, s, id, row))
    {
      hide WellFormed, IdSet, Scheduler.Linked, DepsOf, NodesById, Adopted, ReleaseAt;
      ledger.Release(LedgerKeyOf(w, id));
      scheduler.SetRuntime(id, Adopted(scheduler.states[id], row));
      results := results[id := row.envelope.value];
      if row.status == Failed {
        AddBlocker(id, "node failed (cached)", ErrorName(row.envelope.value.errorClass));
      }
    }

    /** Runs a single node to a terminal state, or serves it from the journal. */
    method Agent(id: NodeId, ghost s: RunState)
      requires Here(s) && id in s.states
      modifies this, scheduler, ledger
      ensures Here(Engine.Agent(w, s, id))
    {
      hide Here, Keyed, Served, Dispatched, CacheHit;
      KeyNode(id, s);
      ghost var keyed := Keyed(w, s, id);
      var hit := Lookup(id, keyed);
      if hit.Some? {
        Serve(id, hit.value, keyed);
      } else {
        DispatchHere(id, keyed);
      }
    }

    method DispatchHere(id: NodeId, ghost s: RunState)
      requires Here(s) && id in s.states && id in s.keys
      modifies this, scheduler, ledger
      ensures Here(Dispatched(w, s, id))
    {
      hide At, State, Valid, Dispatched, WellFormed, IdSet;
      AtStart(s, id);
      DispatchKeepsIds(w, s, id);
      Dispatch(id, s);
    }

    method Agents(batch: seq<NodeId>, ghost s: RunState)
      requires Here(s) && forall id :: id in batch ==> id in s.states
      modifies this, scheduler, ledger
      ensures Here(Engine.Agents(w, s, batch))
    {
      hide Here, Engine.Agent;
      ghost var now := s;
      for i := 0 to |batch|
        invariant Here(now)
        invariant now.states.Keys == s.states.Keys
        invariant Engine.Agents(w, now, batch[i..]) == Engine.Agents(w, s, batch)
      {
        Agent(batch[i], now);
        AgentKeepsIds(w, now, batch[i]);
        now := Engine.Agent(w, now, batch[i]);
        var over := Stopped(now);
        if over {
          return;
        }
      }
    }

    method Stopped(ghost s: RunState) returns (over: bool)
      requires Here(s)
      ensures over == s.stopped
    {
      hide WellFormed, IdSet, Scheduler.Linked, DepsOf, NodesById;
      over := stopped;
    }

    // ---- one invocation for a batch of review roles ----

    method CanBatchHere(batch: seq<NodeId>, ghost s: RunState) returns (can: bool)
      requires Here(s)
      ensures can <==> CanBatch(w, s, batch)
    {
      hide WellFormed, IdSet, Scheduler.Linked, DepsOf, NodesById, NodeOf, IsReview, AdapterFor, RoutesToCodex;
      if checkpoint != null || |batch| < 2 {
        return false;
      }
      for i := 0 to |batch|
        invariant forall j :: 0 <= j < i ==>
          IsReview(NodeOf(w, batch[j])) && RoutesToCodex(AdapterFor(NodeOf(w, batch[j]), reviewer, closer))
      {
        var node := NodeOf(w, batch[i]);
        if !(IsReview(node) && RoutesToCodex(AdapterFor(node, reviewer, closer))) {
          assert batch[i] in batch;
          return false;
        }
      }
      can := true;
    }

    /** Reserves and starts one node of the batch, or blocks it. */
    method StartInBatch(id: NodeId, ghost s: RunState, ghost l: Local) returns (admission: Admission)
      requires At(s, id, l)
      modifies this, scheduler, ledger
      ensures admission == Started(JobOf(w, s, id), l).0
      ensures At(s, id, Started(JobOf(w, s, id), l).1)
    {
      hide At, State, Valid, JobOf, Dispatching.Marked, Counted, ReserveAttempt, Merge, Dispatching.Blocked;
      JobNode(w, s, id);
      Mark(id, Ready, s, l);
      admission := Reserve(id, s, Dispatching.Marked(l, Ready));
      ghost var r := ReserveAttempt(JobOf(w, s, id), Dispatching.Marked(l, Ready)).1;
      if admission != Admitted {
        Block(id, "budget exhausted before dispatch", ReasonName(admission), s, r);
      } else {
        Start(id, s, r);
      }
    }

    /** The node's local state is written back: the engine is between two nodes again. */
    lemma AtHere(s: RunState, id: NodeId, l: Local)
      requires At(s, id, l)
      ensures Here(Merge(w, s, id, l))
    {
      hide WellFormed, IdSet, Scheduler.Linked, DepsOf, NodesById;
    }

    lemma HereAt(s: RunState, id: NodeId)
      requires Here(s) && id in s.states && id in s.keys
      ensures At(s, id, LocalOf(w, s, id))
    {
      hide WellFormed, IdSet, Scheduler.Linked, DepsOf, NodesById, Merge;
      AtStart(s, id);
    }

    method PrepareNode(id: NodeId, ghost s: RunState) returns (admission: Admission)
      requires Here(s) && id in s.states
      modifies this, scheduler, ledger
      ensures admission == PrepareOne(w, s, id).0
      ensures Here(PrepareOne(w, s, id).1)
    {
      hide Here, At, Keyed, JobOf, LocalOf, Started, Merge;
      KeyNode(id, s);
      ghost var keyed := Keyed(w, s, id);
      HereAt(keyed, id);
      admission := StartInBatch(id, keyed, LocalOf(w, keyed, id));
      AtHere(keyed, id, Started(JobOf(w, keyed, id), LocalOf(w, keyed, id)).1);
    }

    method ReleaseOne(id: NodeId, ghost s: RunState)
      requires Here(s)
      modifies ledger
      ensures Here(s.(entries := ReleaseAt(s.entries, LedgerKeyOf(w, id))))
    {
      hide WellFormed, IdSet, Scheduler.Linked, DepsOf, NodesById, ReleaseAt;
      ledger.Release(LedgerKeyOf(w, id));
    }

    method StopHere(ghost s: RunState)
      requires Here(s)
      modifies `stopped
      ensures Here(s.(stopped := true))
    {
      hide WellFormed, IdSet, Scheduler.Linked, DepsOf, NodesById;
      stopped := true;
    }

    /** Releases the reservations a refused batch has taken so far, and stops the run. */
    method RollBack(ids: seq<NodeId>, ghost s: RunState)
      requires Here(s)
      modifies this, ledger
      ensures Here(s.(entries := ReleaseMany(w, s.entries, ids), stopped := true))
    {
      hide Here, ReleaseAt, LedgerKeyOf;
      StopHere(s);
      ghost var now := s.(stopped := true);
      for i := 0 to |ids|
        invariant Here(now) && now == s.(entries := ReleaseMany(w, s.entries, ids[..i]), stopped := true)
      {
        ReleaseOneMore(w, s.entries, ids, i);
        ReleaseOne(ids[i], now);
        now := now.(entries := ReleaseAt(now.entries, LedgerKeyOf(w, ids[i])));
      }
      assert ids[..|ids|] == ids;
    }

    /** Starts every node of the batch, or stops the run at the first refusal. */
    method PrepareBatch(batch: seq<NodeId>, ghost s: RunState) returns (ok: bool)
      requires Here(s) && forall id :: id in batch ==> id in s.states
      modifies this, scheduler, ledger
      ensures ok == Prepare(w, s, batch, 0).0
      ensures Here(Prepare(w, s, batch, 0).1)
    {
      hide Here, PrepareOne, ReleaseMany;
      ghost var now := s;
      for i := 0 to |batch|
        invariant Here(now) && now.states.Keys == s.states.Keys
        invariant Prepare(w, now, batch, i) == Prepare(w, s, batch, 0)
      {
        var admission := PrepareNode(batch[i], now);
        PrepareKeepsIds(w, now, batch[i]);
        now := PrepareOne(w, now, batch[i]).1;
        if admission != Admitted {
          RollBack(batch[..i], now);
          return false;
        }
      }
      ok := true;
    }

    /** Charges one node of the batch and ends it. */
    method EndInBatch(id: NodeId, env: Envelope, ghost s: RunState, ghost l: Local)
      requires At(s, id, l)
      modifies this, scheduler, ledger
      ensures At(s, id, EndedBy(JobOf(w, s, id), l, env))
    {
      hide At, State, Valid, JobOf, Dispatching.Marked, Charged, Merge, Dispatching.Blocked, Classify;
      ghost var charged := Charged(JobOf(w, s, id), l, ByBatch, env, Exact);
      ghost var erred := charged.(rt := charged.rt.(errorClass := env.errorClass));
      JobNode(w, s, id);
      Charge(id, ByBatch, env, Exact, s, l);
      SetError(id, env.errorClass, s, charged);
      if Classify(env).None? {
        Mark(id, Succeeded, s, erred);
      } else {
        Mark(id, Failed, s, erred);
        Block(id, "node failed", ErrorName(env.errorClass), s, Dispatching.Marked(erred, Failed));
      }
    }

    /** The envelope the batch returned for the node, stamped; a missing one is a failure. */
    method EnvelopeInBatch(envelopes: map<NodeId, Envelope>, id: NodeId, ghost s: RunState, ghost l: Local) returns (env: Envelope)
      requires At(s, id, l)
      ensures env == Stamped(JobOf(w, s, id), l, BatchEnvelope(envelopes, id, KeyOf(s, id)))
    {
      hide At, State, Valid, JobOf, Own, KeyOf, NodesById;
      JobNode(w, s, id);
      RuntimeAt(s, id, l);
      env := BatchEnvelope(envelopes, id, keys[id]).(nodeId := id, key := keys[id], attempt := scheduler.states[id].attempt);
    }

    method CommitNode(envelopes: map<NodeId, Envelope>, id: NodeId, ghost s: RunState)
      requires Here(s) && id in s.states && id in s.keys
      modifies this, scheduler, ledger
      ensures Here(CommitOne(w, s, envelopes, id))
    {
      hide At, State, Valid, Here, JobOf, LocalOf, EndedBy, BatchEnvelope, KeyOf, Stamped, Recorded;
      ghost var l := LocalOf(w, s, id);
      HereAt(s, id);
      var env := EnvelopeInBatch(envelopes, id, s, l);
      EndInBatch(id, env, s, l);
      RecordHere(id, env, s, EndedBy(JobOf(w, s, id), l, env));
    }

    method RecordHere(id: NodeId, env: Envelope, ghost s: RunState, ghost l: Local)
      requires At(s, id, l)
      modifies `results
      ensures Here(Recorded(w, s, id, l, env))
    {
      hide WellFormed, IdSet, Scheduler.Linked, DepsOf, NodesById;
      Record(id, env, s, l);
    }

    method CommitBatch(envelopes: map<NodeId, Envelope>, batch: seq<NodeId>, ghost s: RunState)
      requires Here(s) && forall id :: id in batch ==> id in s.states && id in s.keys
      modifies this, scheduler, ledger
      ensures Here(CommitMany(w, s, envelopes, batch))
    {
      hide Here, CommitOne;
      ghost var now := s;
      for i := 0 to |batch|
        invariant Here(now) && now.states.Keys == s.states.Keys && now.keys == s.keys
        invariant CommitMany(w, now, envelopes, batch[i..]) == CommitMany(w, s, envelopes, batch)
      {
        CommitNode(envelopes, batch[i], now);
        CommitKeepsIds(w, now, envelopes, batch[i]);
        now := CommitOne(w, now, envelopes, batch[i]);
      }
    }

    method ReviewBatch(batch: seq<NodeId>, ghost s: RunState)
      requires Here(s) && forall id :: id in batch ==> id in s.states
      modifies this, scheduler, ledger
      ensures Here(Engine.ReviewBatch(w, s, batch))
    {
      hide Here, Prepare, CommitMany, NodesOf;
      var ok := PrepareBatch(batch, s);
      if ok {
        PreparedHasKeys(w, s, batch, 0);
        var envelopes := w.runBatch(NodesOf(w, batch));
        CommitBatch(envelopes, batch, Prepare(w, s, batch, 0).1);
      }
    }

    // ---- the barrier ----

    method BlockOne(id: NodeId, failed: NodeId, ghost s: RunState)
      requires Here(s)
      modifies `blockers
      ensures Here(s.(blockers := s.blockers + multiset{Blocker(id, "skipped: upstream dependency failed", failed)}))
    {
      hide WellFormed, IdSet, Scheduler.Linked, DepsOf, NodesById;
      AddBlocker(id, "skipped: upstream dependency failed", failed);
    }

    /** Records one blocker per skipped node. */
    method BlockSkipped(skipped: seq<NodeId>, failed: NodeId, ghost s: RunState)
      requires Here(s) && Sorting.Distinct(skipped)
      modifies `blockers
      ensures Here(s.(blockers := s.blockers + SkipBlockers(Elements(skipped), failed)))
    {
      hide Here, SkipBlockers, Elements;
      NoSkipBlockers(skipped, failed);
      ghost var now := s;
      for i := 0 to |skipped|
        invariant Here(now)
        invariant now == s.(blockers := s.blockers + SkipBlockers(Elements(skipped[..i]), failed))
      {
        OneMoreSkipBlocker(skipped, i, failed);
        BlockOne(skipped[i], failed, now);
        now := now.(blockers := now.blockers + multiset{Blocker(skipped[i], "skipped: upstream dependency failed", failed)});
      }
      assert skipped[..|skipped|] == skipped;
    }

    /** Skips the transitive dependents of one failed node. */
    method SkipFromFailed(failed: NodeId, ghost s: RunState)
      requires Here(s)
      modifies this, scheduler
      ensures Here(SkipFrom(w, s, failed))
    {
      hide WellFormed, IdSet, DepsOf, NodesById, SkipSet, SkipAll, SkipBlockers, Scheduler.Linked;
      var skipped := scheduler.PropagateSkips(failed);
      assert UniqueIds(w.nodes) by {
        ValidGraph();
        AreUnique(w);
      }
      GatheredUnique(w.nodes);
      SkipAllIds(s.states, Elements(skipped));
      BlockSkipped(skipped, failed, s.(states := SkipAll(s.states, Elements(skipped))));
    }

    method HasFailed(id: NodeId, ghost s: RunState) returns (failed: bool)
      requires Here(s) && id in s.states
      ensures failed == HasStatus(s.states, id, Failed)
    {
      hide WellFormed, IdSet, DepsOf, NodesById, Scheduler.Linked;
      failed := scheduler.states[id].status == Failed;
    }

    method SkipFailedNodes(batch: seq<NodeId>, ghost s: RunState)
      requires Here(s) && forall id :: id in batch ==> id in s.states
      modifies this, scheduler
      ensures Here(SkipFailed(w, s, batch))
    {
      hide Here, SkipFrom, HasStatus;
      ghost var now := s;
      for i := 0 to |batch|
        invariant Here(now) && now.states.Keys == s.states.Keys
        invariant SkipFailed(w, now, batch[i..]) == SkipFailed(w, s, batch)
      {
        var failed := HasFailed(batch[i], now);
        if failed {
          SkipFromFailed(batch[i], now);
          SkipFromKeepsIds(w, now, batch[i]);
          now := SkipFrom(w, now, batch[i]);
        }
      }
    }

    /** The rows of the batch's committed terminal nodes. */
    method BuildRows(batch: seq<NodeId>, ghost s: RunState) returns (rows: seq<Row>)
      requires Here(s)
      ensures rows == RowsOf(w, s, batch)
    {
      hide WellFormed, IdSet, DepsOf, NodesById, Scheduler.Linked;
      rows := [];
      for i := 0 to |batch|
        invariant rows == RowsOf(w, s, batch[..i])
      {
        assert batch[..i + 1][..i] == batch[..i];
        var id := batch[i];
        if id in scheduler.states && id in keys && id in results && scheduler.states[id].status in {Succeeded, Failed} {
          var rt := scheduler.states[id];
          rows := rows + [Row(id, keys[id], w.epoch, rt.status, rt.attempt, rt.remainingRetries, rt.consumed, Some(results[id]))];
        }
      }
      assert batch[..|batch|] == batch;
    }

    /** Journals the barrier, all rows or none. */
    method CheckpointBarrier(batch: seq<NodeId>, ghost s: RunState)
      requires Here(s)
      modifies this, checkpoint
      ensures Here(Journaled(w, s, batch))
    {
      hide WellFormed, IdSet, DepsOf, NodesById, Scheduler.Linked, RowsOf, Malformed, Written;
      if checkpoint != null {
        var rows := BuildRows(batch, s);
        if rows != [] {
          var ok := checkpoint.CommitBarrier(rows);
          if !ok {
            fault := true;
          }
        }
      }
    }

    /** Dispatch, join, skip, journal. */
    method RunBarrier(batch: seq<NodeId>, ghost s: RunState)
      requires Here(s) && forall id :: id in batch ==> id in s.states
      modifies this, scheduler, ledger, checkpoint
      ensures Here(Barrier(w, s, batch))
    {
      hide Here, Engine.ReviewBatch, Engine.Agents, SkipFailed, Journaled, CanBatch;
      var together := CanBatchHere(batch, s);
      ghost var ran := if together then Engine.ReviewBatch(w, s, batch) else Engine.Agents(w, s, batch);
      if together {
        ReviewBatch(batch, s);
      } else {
        Agents(batch, s);
      }
      RanKeepsIds(w, s, batch);
      SkipFailedNodes(batch, ran);
      CheckpointBarrier(batch, SkipFailed(w, ran, batch));
    }

    // ---- the driver ----

    /** The ready nodes of the next barrier, cut to the cap; none when the run is over. */
    method NextBatch(ghost s: RunState) returns (batch: seq<NodeId>)
      requires Here(s)
      ensures batch == if AllTerminal(s.states) then [] else Batch(w, cap, s)
    {
      hide WellFormed, IdSet, DepsOf, NodesById, Scheduler.Linked, ReadySet, AllTerminal;
      batch := [];
      var done := scheduler.IsDone();
      if !done {
        var ready := scheduler.Ready();
        var most := if cap > 1 then cap else 1;
        batch := if |ready| <= most then ready else ready[..most];
      }
    }

    method Over(ghost s: RunState) returns (over: bool)
      requires Here(s)
      ensures over == (s.stopped || s.fault)
    {
      hide WellFormed, IdSet, Scheduler.Linked, DepsOf, NodesById;
      over := stopped || fault;
    }

    /** Drives the graph to its terminal state, barrier by barrier. */
    method Run()
      requires Valid() && Sane(w, State()) && !State().stopped
      modifies this, scheduler, ledger, checkpoint
      ensures Valid() && State() == EngineRun.Run(w, cap, old(State()))
    {
      hide Batch, Barrier, Sane, AllTerminal, WellFormed, EngineRun.Run, PendingCount, Here, State, Valid;
      ghost var s := State();
      StartsHere(s);
      ghost var now := s;
      while true
        invariant Here(now) && Sane(w, now) && !now.stopped && WellFormed(w.nodes)
        invariant EngineRun.Run(w, cap, now) == EngineRun.Run(w, cap, s)
        decreases PendingCount(now)
      {
        RunUnfolds(w, cap, now);
        var batch := NextBatch(now);
        if batch == [] {
          HereIs(now);
          return;
        }
        RunBarrier(batch, now);
        now := Barrier(w, now, batch);
        var over := Over(now);
        if over {
          HereIs(now);
          return;
        }
      }
    }

    lemma StartsHere(s: RunState)
      requires Valid() && State() == s && Sane(w, s)
      ensures Here(s) && WellFormed(w.nodes)
    {
      hide WellFormed, EngineInvariants.Quiet, GoodRows, SaneNode, State;
    }

    lemma HereIs(s: RunState)
      requires Here(s)
      ensures Valid() && State() == s
    {
    }

    lemma ValidGraph()
      requires Valid()
      ensures WellFormed(w.nodes)
    {
    }

    /** The engine object shows the node's local state. */
    lemma RuntimeAt(s: RunState, id: NodeId, l: Local)
      requires At(s, id, l)
      ensures id in scheduler.states && scheduler.states[id] == l.rt && reviewer == l.reviewer && closer == l.closer
      ensures results == s.results && id in keys && keys[id] == KeyOf(s, id)
      ensures Own(ledger.entries, LedgerKeyOf(w, id)) == l.own
    {
      hide Merge, WellFormed, IdSet;
      MergeReads(w, s, id, l);
    }
  }

  /** A reservation on the whole ledger is the reservation of the one entry. */
  lemma ReserveMerges(w: Setup, s: RunState, id: NodeId, l: Local, accounting: Accounting)
    requires l.own.None? ==> LedgerKeyOf(w, id) !in s.entries
    ensures var m, key, node := Merge(w, s, id, l), LedgerKeyOf(w, id), NodeOf(w, id);
            var amount := ReservationAmount(Est(node), w.multiplier, accounting);
            var (admission, r) := ReserveAs(JobOf(w, s, id), l, accounting);
            && admission == AdmitAt(w.limit, m.entries, key, Est(node), l.rt.consumed, amount)
            && Merge(w, s, id, r) == m.(
                 entries := if admission == Admitted then m.entries[key := OpenEntry(Own(m.entries, key), w.epoch.id, amount)] else m.entries,
                 refused := m.refused || admission == GlobalLimit)
  {
    hide Others, Admit, OpenEntry, ReservationAmount, NodesById;
    MergeReads(w, s, id, l);
    MergeOthers(w, s, id, l);
    JobNode(w, s, id);
    var amount := ReservationAmount(Est(NodeOf(w, id)), w.multiplier, accounting);
    MergeEntry(w, s, id, l, OpenEntry(l.own, w.epoch.id, amount));
  }

  lemma ReserveKeepsOwn(job: Job, l: Local, accounting: Accounting)
    ensures l.own.Some? ==> ReserveAs(job, l, accounting).1.own.Some?
    ensures ReserveAs(job, l, accounting).1.own.None? ==> l.own.None?
  {
    hide Admit, OpenEntry, ReservationAmount;
  }

  lemma JobNode(w: Setup, s: RunState, id: NodeId)
    ensures JobOf(w, s, id).node == NodeOf(w, id) && JobOf(w, s, id).w == w && JobOf(w, s, id).key == KeyOf(s, id)
    ensures JobOf(w, s, id).deps == DepResults(NodeOf(w, id), s.results)
    ensures JobOf(w, s, id).others == Some(Others(s.entries, LedgerKeyOf(w, id)))
    ensures NodeOf(w, id).id == id
  {
  }

  lemma AreUnique(w: Setup)
    requires WellFormed(w.nodes)
    ensures UniqueIds(w.nodes)
  {
  }

  lemma NodeHasId(w: Setup, id: NodeId)
    ensures NodeOf(w, id).id == id
  {
  }

  lemma DispatchKeepsIds(w: Setup, s: RunState, id: NodeId)
    requires id in s.states
    ensures Dispatched(w, s, id).states.Keys == s.states.Keys
  {
    hide Dispatching.Dispatch;
  }

  lemma AgentKeepsIds(w: Setup, s: RunState, id: NodeId)
    requires id in s.states
    ensures Engine.Agent(w, s, id).states.Keys == s.states.Keys
  {
    hide Dispatched, CacheHit, Restored, Adopted;
    DispatchKeepsIds(w, Keyed(w, s, id), id);
  }

  lemma ReleaseOneMore(w: Setup, entries: Entries, ids: seq<NodeId>, i: nat)
    requires i < |ids|
    ensures ReleaseMany(w, entries, ids[..i + 1]) == ReleaseAt(ReleaseMany(w, entries, ids[..i]), LedgerKeyOf(w, ids[i]))
  {
    hide ReleaseAt;
    assert ids[..i + 1][..i] == ids[..i];
  }

  lemma PrepareKeepsIds(w: Setup, s: RunState, id: NodeId)
    requires id in s.states
    ensures var r := PrepareOne(w, s, id).1;
            r.states.Keys == s.states.Keys && r.keys.Keys == s.keys.Keys + {id}
  {
    hide Started, Restored, ResolveInputs;
  }

  lemma CommitKeepsIds(w: Setup, s: RunState, envelopes: map<NodeId, Envelope>, id: NodeId)
    requires id in s.states
    ensures var r := CommitOne(w, s, envelopes, id); r.states.Keys == s.states.Keys && r.keys == s.keys
  {
    hide EndedBy, BatchEnvelope;
  }

  lemma {:induction false} PreparedHasKeys(w: Setup, s: RunState, batch: seq<NodeId>, i: nat)
    requires i <= |batch| && (forall id :: id in batch ==> id in s.states) && forall id :: id in batch[..i] ==> id in s.keys
    ensures var (ok, r) := Prepare(w, s, batch, i);
            r.states.Keys == s.states.Keys && (ok ==> forall id :: id in batch ==> id in r.keys)
    decreases |batch| - i
  {
    hide PrepareOne;
    if i == |batch| {
      assert batch[..i] == batch;
    } else {
      PrepareKeepsIds(w, s, batch[i]);
      assert batch[..i + 1] == batch[..i] + [batch[i]];
      PreparedHasKeys(w, PrepareOne(w, s, batch[i]).1, batch, i + 1);
    }
  }

  lemma {:induction false} CommittedKeepsIds(w: Setup, s: RunState, envelopes: map<NodeId, Envelope>, batch: seq<NodeId>)
    requires forall id :: id in batch ==> id in s.states
    ensures CommitMany(w, s, envelopes, batch).states.Keys == s.states.Keys
    decreases |batch|
  {
    hide CommitOne;
    if batch != [] {
      CommitKeepsIds(w, s, envelopes, batch[0]);
      CommittedKeepsIds(w, CommitOne(w, s, envelopes, batch[0]), envelopes, batch[1..]);
    }
  }

  lemma {:induction false} AgentsKeepIds(w: Setup, s: RunState, batch: seq<NodeId>)
    requires forall id :: id in batch ==> id in s.states
    ensures Engine.Agents(w, s, batch).states.Keys == s.states.Keys
    decreases |batch|
  {
    hide Engine.Agent;
    if batch != [] {
      AgentKeepsIds(w, s, batch[0]);
      AgentsKeepIds(w, Engine.Agent(w, s, batch[0]), batch[1..]);
    }
  }

  lemma RanKeepsIds(w: Setup, s: RunState, batch: seq<NodeId>)
    requires forall id :: id in batch ==> id in s.states
    ensures Engine.Agents(w, s, batch).states.Keys == s.states.Keys
    ensures Engine.ReviewBatch(w, s, batch).states.Keys == s.states.Keys
  {
    hide Engine.Agents, Prepare, CommitMany, NodesOf;
    AgentsKeepIds(w, s, batch);
    assert batch[..0] == [];
    PreparedHasKeys(w, s, batch, 0);
    CommittedKeepsIds(w, Prepare(w, s, batch, 0).1, w.runBatch(NodesOf(w, batch)), batch);
  }

  lemma NoSkipBlockers(skipped: seq<NodeId>, failed: NodeId)
    ensures SkipBlockers(Elements(skipped[..0]), failed) == multiset{}
  {
    assert skipped[..0] == [] && Elements([]) == {};
  }

  lemma OneMoreSkipBlocker(skipped: seq<NodeId>, i: nat, failed: NodeId)
    requires Sorting.Distinct(skipped) && i < |skipped|
    ensures SkipBlockers(Elements(skipped[..i + 1]), failed)
         == SkipBlockers(Elements(skipped[..i]), failed) + multiset{Blocker(skipped[i], "skipped: upstream dependency failed", failed)}
  {
    var before := Elements(skipped[..i]);
    var blocker := Blocker(skipped[i], "skipped: upstream dependency failed", failed);
    assert Elements(skipped[..i + 1]) == before + {skipped[i]};
    assert skipped[i] !in before;
    var blockers := set x | x in before :: Blocker(x, "skipped: upstream dependency failed", failed);
    assert (set x | x in before + {skipped[i]} :: Blocker(x, "skipped: upstream dependency failed", failed)) == blockers + {blocker};
    assert blocker !in blockers;
    assert multiset(blockers + {blocker}) == multiset(blockers) + multiset{blocker};
  }

  lemma SkipAllIds(states: States, skipped: set<NodeId>)
    ensures SkipAll(states, skipped).Keys == states.Keys
  {
  }

  lemma SkipFromKeepsIds(w: Setup, s: RunState, failed: NodeId)
    ensures SkipFrom(w, s, failed).states.Keys == s.states.Keys
  {
  }

  lemma AdapterFallbackIs(job: Job, l: Local, fallback: Fallback)
    ensures var (admission, r) := FallbackReserved(job, l, fallback.accounting);
            var env := Stamped(job, Counted(r), fallback.run(job.node, Counted(r).rt.attempt));
            var done := Dispatching.AdapterFallback(job, l, fallback);
            if !fallback.covers(job.node) then
              done.0 == Dispatching.Blocked(l, job.node.id, "fallback misses required capabilities", "fallback_uncovered") && done.1.None?
            else if admission != Admitted then done.0 == r && done.1.None?
            else
              && done.0 == Charged(job, Counted(r).(rt := Counted(r).rt.(errorClass := env.errorClass)), ByFallback, env, fallback.accounting)
              && done.1 == Some(env)
  {
    hide FallbackReserved, Charged, Counted, Stamped;
  }
}
