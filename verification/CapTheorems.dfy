/** What reservations are for: attempts that stay within their node's caps never exceed their reservations, and a run of
    such attempts never exceeds the limit. */
module CapTheorems {
  import opened AgyTypes
  import opened Budget
  import opened Scheduling
  import opened Checkpointing
  import opened Dispatching
  import opened DispatchTheorems
  import opened DispatchTraces
  import opened Engine
  import opened EngineInvariants
  import opened EngineRun
  import opened EngineTheorems
  import opened BudgetTheorems
  import opened OverrunTheorems
  import opened RefusalTheorems
  import opened BatchTraces
  import opened RunTraces

  /** The attempt kept to its node's two token caps and cost no dollars. */
  ghost predicate WithinCaps(node: NodeSpec, env: Envelope) {
    env.output <= node.caps.maxOutputTokens && env.thinking <= node.caps.maxThinkingTokens && env.cost == 0.0
  }

  /** The attempt used and was charged no more than it had reserved. */
  ghost predicate WithinReservation(a: Attempt) {
    && a.actual.tokens <= a.reserved.tokens && a.actual.usd <= a.reserved.usd
    && a.charged.tokens <= a.reserved.tokens && a.charged.usd <= a.reserved.usd
  }

  lemma Multiplied(caps: nat, multiplier: nat)
    requires multiplier >= 1
    ensures caps <= caps * multiplier
  {
    assert caps * multiplier == caps + caps * (multiplier - 1);
  }

  /** A reservation covers every attempt that stays within the caps, whoever makes it. */
  lemma CapsAreReserved(job: Job, l: Local, attempts: seq<Attempt>, i: nat)
    requires i < |attempts| && (MadeByAdapter(job, l, attempts, i) || MadeByFallback(job, l, attempts, i))
    requires job.w.multiplier >= 1 && WithinCaps(job.node, attempts[i].env)
    ensures WithinReservation(attempts[i])
  {
    hide LeftBefore, InCharge, Named;
    Multiplied(job.node.caps.maxOutputTokens + job.node.caps.maxThinkingTokens, job.w.multiplier);
  }

  lemma BatchCapsAreReserved(w: Setup, node: NodeSpec, id: NodeId, env: Envelope, accounting: Accounting)
    requires w.multiplier >= 1 && WithinCaps(node, env)
    ensures WithinReservation(BatchAttempt(id, env, CapTokens(node, w.multiplier, accounting)))
  {
    Multiplied(node.caps.maxOutputTokens + node.caps.maxThinkingTokens, w.multiplier);
  }

  lemma {:induction false} AmongItsOwn(attempts: seq<Attempt>, i: nat) returns (j: nat)
    requires i < |attempts|
    ensures j < |AttemptsOf(attempts, attempts[i].node)| && AttemptsOf(attempts, attempts[i].node)[j] == attempts[i]
  {
    var rest := attempts[..|attempts| - 1];
    if i < |rest| {
      assert rest[i] == attempts[i];
      j := AmongItsOwn(rest, i);
    } else {
      j := |AttemptsOf(rest, attempts[i].node)|;
    }
  }

  /** In a run whose story is told, an attempt within the caps is within its reservation. */
  lemma ToldWithin(w: Setup, journal: Option<Rows>, r: RunState, i: nat)
    requires AllTold(w, journal, r) && i < |r.attempts| && w.multiplier >= 1
    requires WithinCaps(NodeOf(w, r.attempts[i].node), r.attempts[i].env)
    ensures WithinReservation(r.attempts[i])
  {
    hide AttemptsOf, DulyMade, EndedAs, KeyNow, StartsFrom, NodeOf, WithinCaps, WithinReservation, EndedWith, BatchAttempt,
      CapTokens;
    var id := r.attempts[i].node;
    var j := AmongItsOwn(r.attempts, i);
    assert Told(w, journal, r, id);
    if exists job, l, d :: ToldBy(w, r, id, RowAt(journal, id), job, l, d) {
      var job, l, d :| ToldBy(w, r, id, RowAt(journal, id), job, l, d);
      MadeBySomeone(job, l, d.attempts, j);
      CapsAreReserved(job, l, d.attempts, j);
    } else {
      var nodes, accounting :| ToldByBatch(w, r, id, nodes, accounting);
      BatchEnv(id, r.results[id], CapTokens(NodeOf(w, id), w.multiplier, accounting));
      BatchCapsAreReserved(w, NodeOf(w, id), id, r.results[id], accounting);
    }
  }

  lemma BatchEnv(id: NodeId, env: Envelope, tokens: int)
    ensures BatchAttempt(id, env, tokens).env == env
  {
  }

  lemma MadeBySomeone(job: Job, l: Local, attempts: seq<Attempt>, i: nat)
    requires DulyMade(job, l, attempts) && i < |attempts|
    ensures MadeByAdapter(job, l, attempts, i) || MadeByFallback(job, l, attempts, i)
  {
    hide MadeByAdapter, MadeByFallback, RetryDue, FallbackDue;
  }

  lemma {:induction false} NoneOver(attempts: seq<Attempt>)
    requires forall i :: 0 <= i < |attempts| ==> WithinReservation(attempts[i])
    ensures TotalOver(attempts) == 0
  {
    if attempts != [] {
      assert WithinReservation(attempts[|attempts| - 1]);
      NoneOver(attempts[..|attempts| - 1]);
    }
  }

  /** WITHIN THE CAPS, WITHIN THE LIMIT. If every attempt of a run stays within its node's caps and costs no dollars,
      then no attempt exceeds its reservation, and the reported spend is within the limit: from any journal, with any
      cap, and with review roles batched or not. */
  lemma CapsKeepTheLimit(w: Setup, cap: int, reviewer: string, closer: string, journal: Option<Rows>)
    requires WellFormed(w.nodes) && GoodRows(journal) && w.multiplier >= 1
    ensures Sane(w, Initial(w, reviewer, closer, journal))
    ensures var r := Run(w, cap, Initial(w, reviewer, closer, journal));
            (forall i :: 0 <= i < |r.attempts| ==> WithinCaps(NodeOf(w, r.attempts[i].node), r.attempts[i].env)) ==>
              && (forall i :: 0 <= i < |r.attempts| ==> WithinReservation(r.attempts[i]))
              && (r.attempts != [] ==> Spent(r.entries).tokens <= w.limit.tokens)
              && (r.attempts == [] ==> Spent(r.entries) == ZERO)
  {
    hide Run, Sane, AllTold, WellFormed, GoodRows, WithinCaps, WithinReservation, LastAttempts, Spent, TotalOver,
      FairlyCharged, TotalCharged;
    RunIsTold(w, cap, reviewer, closer, journal);
    OverrunByLastBarrier(w, cap, reviewer, closer, journal);
    SpendIsBounded(w, cap, reviewer, closer, journal);
    EmptyIsNothing();
    var s := Initial(w, reviewer, closer, journal);
    var r := Run(w, cap, s);
    if forall i :: 0 <= i < |r.attempts| ==> WithinCaps(NodeOf(w, r.attempts[i].node), r.attempts[i].env) {
      forall i | 0 <= i < |r.attempts| ensures WithinReservation(r.attempts[i]) {
        ToldWithin(w, journal, r, i);
      }
      var last := LastAttempts(w, cap, s, []);
      forall i | 0 <= i < |last| ensures WithinReservation(last[i]) {
        assert last[i] == r.attempts[|r.attempts| - |last| + i];
      }
      NoneOver(last);
    }
  }

  lemma EmptyIsNothing()
    ensures TotalCharged([]) == ZERO
  {
  }
}
