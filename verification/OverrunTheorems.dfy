/** How far a run can spend beyond its limit when a batch of review roles goes through one invocation. */
module OverrunTheorems {
  import opened AgyTypes
  import opened Budget
  import opened Scheduling
  import opened Dag
  import opened Checkpointing
  import opened Dispatching
  import opened DispatchTheorems
  import opened Engine
  import opened EngineInvariants
  import opened EngineRun
  import opened EngineOutcome
  import opened EngineTheorems
  import opened BudgetTheorems
  import opened ConservationTheorems
  import Sorting

  /** By how much an attempt cost more than its reservation. */
  function Over(a: Attempt): nat {
    AtLeastZero(a.charged.tokens - a.reserved.tokens)
  }

  function TotalOver(attempts: seq<Attempt>): nat {
    if attempts == [] then 0 else TotalOver(attempts[..|attempts| - 1]) + Over(attempts[|attempts| - 1])
  }

  lemma {:induction false} TotalOverConcat(a: seq<Attempt>, b: seq<Attempt>)
    ensures TotalOver(a + b) == TotalOver(a) + TotalOver(b)
  {
    if b == [] {
      assert a + b == a;
    } else {
      TotalOverConcat(a, b[..|b| - 1]);
      assert (a + b)[..|a + b| - 1] == a + b[..|b| - 1];
    }
  }

  /** Tokens reserved or spent. */
  ghost function HeldTokens(entries: Entries): int {
    Budget.Reserved(entries).tokens + Spent(entries).tokens
  }

  lemma HeldAt(entries: Entries, key: LedgerKey, e: Entry)
    ensures HeldTokens(entries[key := e]) == Others(entries, key).tokens + e.reserved.tokens + e.committed.tokens
  {
    hide Sum;
    SumsAt(entries, key, e);
  }

  lemma HeldWith(entries: Entries, key: LedgerKey)
    requires key in entries
    ensures HeldTokens(entries) == Others(entries, key).tokens + entries[key].reserved.tokens + entries[key].committed.tokens
  {
    hide Sum;
    SumsWith(entries, key);
  }

  lemma HeldWithout(entries: Entries, key: LedgerKey)
    requires key !in entries
    ensures HeldTokens(entries) == Others(entries, key).tokens
  {
    hide Sum;
    assert entries - {key} == entries;
  }

  lemma QuietHeld(entries: Entries)
    requires Quiet(entries)
    ensures HeldTokens(entries) == Spent(entries).tokens
  {
    hide Sum;
    SumZero(ReservedOf(entries));
  }

  // ---- a batch in one invocation ----

  /** A granted reservation leaves everything reserved or spent within the limit. */
  lemma PrepareOneHolds(w: Setup, s: RunState, id: NodeId, busy: set<NodeId>)
    requires Mid(w, s, busy) && HasStatus(s.states, id, Pending) && id !in busy && s.journal.None?
    ensures var (admission, r) := PrepareOne(w, s, id);
            && r.attempts == s.attempts
            && (admission == Admitted ==> HeldTokens(r.entries) <= w.limit.tokens)
  {
    hide Started, Keyed, Mid, JobOf, OnlyTouched;
    MidKeyed(w, s, id, busy);
    var k := Keyed(w, s, id);
    var job, l := JobOf(w, k, id), LocalOf(w, k, id);
    StartedFacts(job, l);
    JobSees(w, k, id);
    StartedFits(job, l);
    var (admission, d) := Started(job, l);
    assert s.attempts + [] == s.attempts;
    if admission == Admitted {
      HeldAt(s.entries, LedgerKeyOf(w, id), d.own.value);
    }
  }

  lemma JobSees(w: Setup, s: RunState, id: NodeId)
    ensures JobOf(w, s, id).others == Some(Others(s.entries, LedgerKeyOf(w, id))) && JobOf(w, s, id).w == w
  {
  }

  lemma StartedFits(job: Job, l: Local)
    requires Dispatchable(l) && l.own.None? && job.others.Some?
    ensures var (admission, r) := Started(job, l);
            admission == Admitted ==>
              r.own.Some? && job.others.value.tokens + r.own.value.reserved.tokens + r.own.value.committed.tokens <= job.w.limit.tokens
  {
    hide ReserveAs, Remaining;
    var ready := Marked(l, Ready);
    ReserveGrants(job, ready, job.w.reserveAccounting(job.node, ready.rt.attempt + 1, Remaining(job, ready)));
  }

  lemma {:induction false} PrepareHolds(w: Setup, s: RunState, batch: seq<NodeId>, i: nat)
    requires i <= |batch| && Sorting.Distinct(batch) && s.journal.None? && !s.stopped
    requires Mid(w, s, Elements(batch[..i])) && AllPending(s, batch[i..])
    requires i > 0 ==> HeldTokens(s.entries) <= w.limit.tokens
    ensures var (ok, r) := Prepare(w, s, batch, i);
            && r.attempts == s.attempts
            && (ok && batch != [] ==> HeldTokens(r.entries) <= w.limit.tokens)
    decreases |batch| - i
  {
    hide Mid, PrepareOne, Sane, OnlyTouched, HeldTokens;
    if i < |batch| {
      Shorter(batch, i);
      assert batch[i..][0] == batch[i];
      PrepareOneSteps(w, s, batch[i], Elements(batch[..i]));
      PrepareOneHolds(w, s, batch[i], Elements(batch[..i]));
      var (admission, next) := PrepareOne(w, s, batch[i]);
      TailPending(w, s, next, batch, i);
      KeepsJournal(w, s, next, batch[i]);
      if admission == Admitted {
        PrepareHolds(w, next, batch, i + 1);
      }
    }
  }

  /** A commit replaces its reservation by its charge. */
  lemma CommitOneHolds(w: Setup, s: RunState, envelopes: map<NodeId, Envelope>, id: NodeId, busy: set<NodeId>)
    requires Mid(w, s, busy) && id in busy && ConservedAt(w, s, busy, id) && TokenReserved(s.entries)
    ensures var r := CommitOne(w, s, envelopes, id);
            && |r.attempts| == |s.attempts| + 1 && s.attempts <= r.attempts
            && HeldTokens(r.entries) <= HeldTokens(s.entries) + Over(r.attempts[|s.attempts|])
  {
    hide Mid, CommitOne, ConservedAt, HeldTokens, FairlyCharged, Others;
    var d := CommitOneAdds(w, s, envelopes, id, busy);
    var key := LedgerKeyOf(w, id);
    HeldWith(s.entries, key);
    HeldAt(s.entries, key, d.own.value);
  }

  lemma {:induction false} CommitManyHolds(w: Setup, s: RunState, envelopes: map<NodeId, Envelope>, batch: seq<NodeId>)
    requires Sorting.Distinct(batch) && Mid(w, s, Elements(batch)) && Conserving(w, s, Elements(batch)) && TokenReserved(s.entries)
    ensures var r := CommitMany(w, s, envelopes, batch);
            && s.attempts <= r.attempts
            && HeldTokens(r.entries) <= HeldTokens(s.entries) + TotalOver(r.attempts[|s.attempts|..])
    decreases |batch|
  {
    hide Mid, CommitOne, ConservedAt, TokenReserved, OnlyTouched, HeldTokens, Over, Runs;
    if batch != [] {
      var id, rest := batch[0], batch[1..];
      assert batch == [id] + rest;
      assert Elements(batch) == Elements(rest) + {id} && id !in Elements(rest);
      assert Elements(batch) - {id} == Elements(rest);
      MidBusy(w, s, id, Elements(batch));
      RunningIsThere(w, s, id);
      CommitOneSteps(w, s, envelopes, id, Elements(batch));
      CommitOneConserves(w, s, envelopes, id, Elements(batch));
      CommitOneHolds(w, s, envelopes, id, Elements(batch));
      var next := CommitOne(w, s, envelopes, id);
      CommitManyHolds(w, next, envelopes, rest);
      OneThenRest(s.attempts, next.attempts, CommitMany(w, next, envelopes, rest).attempts);
    }
  }

  lemma OneThenRest(a: seq<Attempt>, b: seq<Attempt>, c: seq<Attempt>)
    requires a <= b <= c && |b| == |a| + 1
    ensures TotalOver(c[|a|..]) == Over(b[|a|]) + TotalOver(c[|b|..])
  {
    assert c[|a|..] == [b[|a|]] + c[|b|..];
    TotalOverConcat([b[|a|]], c[|b|..]);
    assert [b[|a|]][..0] == [];
  }

  /** After a batch in one invocation the spend is within the limit plus all the batch's excesses. */
  lemma ReviewBatchHolds(w: Setup, s: RunState, batch: seq<NodeId>)
    requires Sane(w, s) && !s.stopped && s.journal.None? && Sorting.Distinct(batch) && AllPending(s, batch) && batch != []
    requires Conserving(w, s, {}) && Accounted(s)
    ensures WithinOver(w, s, ReviewBatch(w, s, batch))
  {
    hide Prepare, CommitMany, Mid, Advanced, AllPending, Conserving, Accounted, HeldTokens, Sane;
    SaneIsMid(w, s);
    assert Elements(batch[..0]) == {} && batch[0..] == batch;
    QuietTokens(w, s);
    PrepareRuns(w, s, batch, 0);
    PrepareAccounted(w, s, batch, 0);
    PrepareConserves(w, s, batch, 0);
    PrepareHolds(w, s, batch, 0);
    var (ok, prepared) := Prepare(w, s, batch, 0);
    if ok {
      var envelopes := w.runBatch(NodesOf(w, batch));
      CommitManyHolds(w, prepared, envelopes, batch);
      CommitRuns(w, prepared, envelopes, batch);
      SaneQuiet(w, CommitMany(w, prepared, envelopes, batch));
      QuietHeld(CommitMany(w, prepared, envelopes, batch).entries);
    }
  }

  lemma SaneQuiet(w: Setup, s: RunState)
    requires Sane(w, s)
    ensures Quiet(s.entries)
  {
  }

  /** If attempts were made between two states, the spend is within the limit plus their excesses. */
  ghost predicate WithinOver(w: Setup, s: RunState, r: RunState) {
    && s.attempts <= r.attempts
    && (s.attempts != r.attempts ==> Spent(r.entries).tokens <= w.limit.tokens + TotalOver(r.attempts[|s.attempts|..]))
  }

  /** The last attempt's excess is one of the excesses. */
  lemma BoundedIsWithin(w: Setup, s: RunState, r: RunState)
    requires Bounded(w, s, r)
    ensures WithinOver(w, s, r)
  {
    hide Spent;
    if s.attempts != r.attempts {
      var added := r.attempts[|s.attempts|..];
      assert added[|added| - 1] == r.attempts[|r.attempts| - 1];
    }
  }

  lemma BarrierWithin(w: Setup, cap: int, s: RunState)
    requires WellFormed(w.nodes) && Sane(w, s) && !s.stopped && Conserving(w, s, {}) && Accounted(s)
    ensures WithinOver(w, s, Barrier(w, s, Batch(w, cap, s)))
    ensures var r := Barrier(w, s, Batch(w, cap, s)); r.attempts == s.attempts ==> Spent(r.entries) == Spent(s.entries)
  {
    hide Batch, SkipFailed, Journaled, Barrier, Sane, Conserving, ReviewBatch, Agents, BatchRan, Joined, CanBatch, Bounded, TotalCharged,
      FairlyCharged, TotalOver, Spent;
    var batch := Batch(w, cap, s);
    BatchIsReady(w, cap, s);
    JoinedWithin(w, s, batch);
    SameAccounts(w, s, batch);
    BarrierAccounted(w, cap, s);
  }

  lemma JoinedWithin(w: Setup, s: RunState, batch: seq<NodeId>)
    requires Sane(w, s) && !s.stopped && Conserving(w, s, {}) && Accounted(s)
    requires Sorting.Distinct(batch) && AllPending(s, batch)
    ensures WithinOver(w, s, Joined(w, s, batch))
  {
    hide Sane, Conserving, ReviewBatch, Agents, Accounted, Bounded, WithinOver;
    if CanBatch(w, s, batch) {
      ReviewBatchHolds(w, s, batch);
    } else {
      AgentsAccounted(w, s, batch);
      BoundedIsWithin(w, s, Agents(w, s, batch));
    }
  }

  // ---- whole runs ----

  /** The attempts of the last barrier that made any. */
  ghost function LastAttempts(w: Setup, cap: int, s: RunState, sofar: seq<Attempt>): seq<Attempt>
    requires WellFormed(w.nodes) && Sane(w, s) && !s.stopped
    decreases PendingCount(s)
  {
    if AllTerminal(s.states) || Batch(w, cap, s) == [] then sofar
    else
      RunUnfolds(w, cap, s);
      var next := Barrier(w, s, Batch(w, cap, s));
      var made := if |s.attempts| < |next.attempts| then next.attempts[|s.attempts|..] else sofar;
      if next.stopped || next.fault then made else LastAttempts(w, cap, next, made)
  }

  /** The last attempts are the end of the list, and bound the overrun. */
  ghost predicate WithinLast(w: Setup, s: RunState, last: seq<Attempt>) {
    && |last| <= |s.attempts| && s.attempts[|s.attempts| - |last|..] == last && (s.attempts != [] ==> last != [])
    && (s.attempts != [] ==> Spent(s.entries).tokens <= w.limit.tokens + TotalOver(last))
  }

  lemma NextWithinLast(w: Setup, s: RunState, r: RunState, last: seq<Attempt>)
    requires WithinLast(w, s, last) && WithinOver(w, s, r) && (r.attempts == s.attempts ==> Spent(r.entries) == Spent(s.entries))
    ensures WithinLast(w, r, if |s.attempts| < |r.attempts| then r.attempts[|s.attempts|..] else last)
  {
    hide Spent, TotalOver;
  }

  lemma {:induction false} RunWithinLast(w: Setup, cap: int, s: RunState, last: seq<Attempt>)
    requires WellFormed(w.nodes) && Sane(w, s) && !s.stopped && Conserving(w, s, {}) && Accounted(s) && WithinLast(w, s, last)
    ensures WithinLast(w, Run(w, cap, s), LastAttempts(w, cap, s, last))
    decreases PendingCount(s)
  {
    hide Sane, Barrier, Batch, PendingCount, AllTerminal, WellFormed, Accounted, Conserving, WithinLast, WithinOver, Run, Spent;
    RunUnfolds(w, cap, s);
    if !(AllTerminal(s.states) || Batch(w, cap, s) == []) {
      BarrierConserves(w, cap, s);
      BarrierAccounted(w, cap, s);
      BarrierWithin(w, cap, s);
      var next := Barrier(w, s, Batch(w, cap, s));
      NextWithinLast(w, s, next, last);
      if !(next.stopped || next.fault) {
        RunWithinLast(w, cap, next, if |s.attempts| < |next.attempts| then next.attempts[|s.attempts|..] else last);
      }
    }
  }

  /** BOUNDED OVERRUN ON EVERY PATH. Whatever the adapters return, on every graph and with every cap, the spend
      is within the limit plus the excesses of the attempts of one barrier: the last one that made any. */
  lemma OverrunByLastBarrier(w: Setup, cap: int, reviewer: string, closer: string, journal: Option<Rows>)
    requires WellFormed(w.nodes) && GoodRows(journal)
    ensures Sane(w, Initial(w, reviewer, closer, journal))
    ensures var s := Initial(w, reviewer, closer, journal);
            WithinLast(w, Run(w, cap, s), LastAttempts(w, cap, s, []))
  {
    hide Run, Sane, Accounted, Conserving, LastAttempts, WellFormed, GoodRows, IdSet;
    InitialIsSane(w, reviewer, closer, journal);
    var s := Initial(w, reviewer, closer, journal);
    NothingSpent(w, s);
    FreshConserves(w, s);
    RunWithinLast(w, cap, s, []);
  }

  // ---- a run past the single-attempt bound ----

  ghost function Held(entries: Entries): Dims {
    Budget.Reserved(entries).Add(Spent(entries))
  }

  /** A node of the batch is admitted exactly when its reservation fits beside everything held. */
  lemma PrepareOneAdmits(w: Setup, s: RunState, id: NodeId, busy: set<NodeId>)
    requires Mid(w, s, busy) && HasStatus(s.states, id, Pending) && id !in busy && s.journal.None?
    requires forall n, a, d :: w.reserveAccounting(n, a, d) == Exact
    ensures var (admission, r) := PrepareOne(w, s, id);
            var amount := Dims(Est(NodeOf(w, id)), 0.0);
            && (admission == Admitted <==> amount.FitsWithin(w.limit.Sub(Held(s.entries))))
            && (admission == Admitted ==> Held(r.entries) == Held(s.entries).Add(amount))
  {
    hide Keyed, Mid, JobOf, OnlyTouched, Sum, Others, Remaining;
    MidKeyed(w, s, id, busy);
    KeyedIsClean(w, s, id);
    var key := LedgerKeyOf(w, id);
    var k := Keyed(w, s, id);
    var job, l := JobOf(w, k, id), LocalOf(w, k, id);
    JobSees(w, k, id);
    JobNodeIs(w, k, id);
    StartedAdmits(job, l);
    HeldIsOthers(s.entries, key);
    var (admission, d) := Started(job, l);
    if admission == Admitted {
      assert s.entries - {key} == s.entries;
      SumsAt(s.entries, key, d.own.value);
      Moved(d.own.value.reserved, Budget.Reserved(s.entries), Spent(s.entries));
    }
  }

  lemma HeldIsOthers(entries: Entries, key: LedgerKey)
    requires key !in entries
    ensures Others(entries, key) == Held(entries)
  {
    hide Sum;
    assert entries - {key} == entries;
  }

  lemma JobNodeIs(w: Setup, s: RunState, id: NodeId)
    ensures JobOf(w, s, id).node == NodeOf(w, id)
  {
  }

  lemma Moved(a: Dims, b: Dims, c: Dims)
    ensures a.Add(b).Add(ZERO.Add(c)) == b.Add(c).Add(a)
  {
  }

  lemma StartedAdmits(job: Job, l: Local)
    requires Dispatchable(l) && l.own.None? && l.rt.consumed == ZERO && job.others.Some?
    requires forall n, a, d :: job.w.reserveAccounting(n, a, d) == Exact
    ensures var (admission, r) := Started(job, l);
            var amount := Dims(Est(job.node), 0.0);
            && (admission == Admitted <==> amount.FitsWithin(job.w.limit.Sub(job.others.value)))
            && (admission == Admitted ==> r.own.Some? && r.own.value.reserved == amount && r.own.value.committed == ZERO)
  {
    hide Remaining, Times;
  }

  /** Two review nodes ready together, a limit that just holds both reservations, and a batch that uses ten tokens
      for each of them. */
  ghost predicate Pair(w: Setup) {
    && w.nodes == [NodeSpec("a", "reviewer", [], [], Caps(1, 0), 0, [], ""), NodeSpec("b", "closer", [], [], Caps(1, 0), 0, [], "")]
    && w.limit == Dims(2, 0.0) && (forall n, a, d :: w.reserveAccounting(n, a, d) == Exact)
    && (forall nodes :: "a" in w.runBatch(nodes) && ActualOf(w.runBatch(nodes)["a"]).tokens == 10)
    && (forall nodes :: "b" in w.runBatch(nodes) && ActualOf(w.runBatch(nodes)["b"]).tokens == 10)
  }

  function Ten(id: NodeId): Envelope {
    Envelope(id, "", EnvSucceeded, 0, "codex", NoError, None, map[], 10, 0, 0.0)
  }

  lemma PairExists() returns (w: Setup)
    ensures Pair(w)
  {
    var nodes := [NodeSpec("a", "reviewer", [], [], Caps(1, 0), 0, [], ""), NodeSpec("b", "closer", [], [], Caps(1, 0), 0, [], "")];
    w := Setup(nodes, Epoch(0, ""), Dims(2, 0.0), 1, (n: NodeSpec, i) => n.id, (n: NodeSpec, i) => Ten(n.id),
      (batch: seq<NodeSpec>) => map["a" := Ten("a"), "b" := Ten("b")], (n, a, d) => Exact, e => Exact, None,
      (s: set<NodeId>) => AnyOf(s));
  }

  lemma PairShape(w: Setup)
    requires Pair(w)
    ensures WellFormed(w.nodes) && IdSet(w.nodes) == {"a", "b"}
    ensures NodeOf(w, "a") == w.nodes[0] && NodeOf(w, "b") == w.nodes[1]
  {
    assert w.nodes[0] in w.nodes && w.nodes[1] in w.nodes;
    assert UniqueIds(w.nodes);
    assert forall i :: 0 <= i < |w.nodes| ==> w.nodes[i].dependencies == [];
  }

  lemma PairBatch(w: Setup, s: RunState)
    requires Pair(w) && s.states == map["a" := FRESH, "b" := FRESH] && s.journal.None? && s.reviewer == "codex" && s.closer == "codex"
    ensures Batch(w, 2, s) == ["a", "b"] && CanBatch(w, s, ["a", "b"]) && !AllTerminal(s.states)
  {
    hide NodeOf;
    PairShape(w);
    assert IsReady(s.states, w.nodes[0]) && IsReady(s.states, w.nodes[1]);
    assert ReadyUpTo(w.nodes, s.states, 0) == [];
    assert ReadyUpTo(w.nodes, s.states, 1) == ["a"];
    assert ReadyUpTo(w.nodes, s.states, 2) == ["a", "b"];
    assert "a" in s.states && !IsTerminal(s.states["a"].status);
  }

  /** A node with one token of caps is admitted while a token is left. */
  lemma OneTokenAdmits(w: Setup, s: RunState, id: NodeId, busy: set<NodeId>, other: NodeId)
    requires Mid(w, s, busy) && HasStatus(s.states, id, Pending) && id !in busy && s.journal.None?
    requires Est(NodeOf(w, id)) == 1 && w.limit == Dims(2, 0.0) && forall n, a, d :: w.reserveAccounting(n, a, d) == Exact
    requires Held(s.entries).tokens <= 1 && Held(s.entries).usd == 0.0
    ensures var (admission, r) := PrepareOne(w, s, id);
            && admission == Admitted && Mid(w, r, busy + {id}) && Held(r.entries) == Held(s.entries).Add(Dims(1, 0.0))
            && r.journal == s.journal && (other != id && HasStatus(s.states, other, Pending) ==> HasStatus(r.states, other, Pending))
  {
    hide Mid, PrepareOne, Held, Est, NodeOf;
    PrepareOneSteps(w, s, id, busy);
    PrepareOneAdmits(w, s, id, busy);
  }

  lemma FirstAdmitted(w: Setup, s: RunState, a: NodeId, b: NodeId)
    requires Mid(w, s, {}) && HasStatus(s.states, a, Pending) && HasStatus(s.states, b, Pending) && a != b && s.journal.None?
    requires Est(NodeOf(w, a)) == 1 && w.limit == Dims(2, 0.0) && forall n, x, d :: w.reserveAccounting(n, x, d) == Exact
    requires Held(s.entries) == ZERO
    ensures var (admission, m) := PrepareOne(w, s, a);
            && admission == Admitted && Mid(w, m, {a}) && HasStatus(m.states, b, Pending) && m.journal.None?
            && Held(m.entries).tokens == 1 && Held(m.entries).usd == 0.0
  {
    hide Mid, PrepareOne, Held, Est, NodeOf, HasStatus;
    OneTokenAdmits(w, s, a, {}, b);
    assert {} + {a} == {a};
  }

  /** Two of them fit a limit of two. */
  lemma TwoPrepared(w: Setup, s: RunState, a: NodeId, b: NodeId)
    requires Mid(w, s, {}) && HasStatus(s.states, a, Pending) && HasStatus(s.states, b, Pending) && a != b && s.journal.None?
    requires Est(NodeOf(w, a)) == 1 && Est(NodeOf(w, b)) == 1 && w.limit == Dims(2, 0.0)
    requires Held(s.entries) == ZERO && forall n, x, d :: w.reserveAccounting(n, x, d) == Exact
    ensures Prepare(w, s, [a, b], 0).0
  {
    hide Mid, PrepareOne, Held, Est, NodeOf, HasStatus, Prepare;
    FirstAdmitted(w, s, a, b);
    OneTokenAdmits(w, PrepareOne(w, s, a).1, b, {a}, a);
    TwoUnfold(w, s, a, b);
  }

  lemma TwoUnfold(w: Setup, s: RunState, a: NodeId, b: NodeId)
    requires PrepareOne(w, s, a).0 == Admitted && PrepareOne(w, PrepareOne(w, s, a).1, b).0 == Admitted
    ensures Prepare(w, s, [a, b], 0).0
  {
    hide PrepareOne;
    var m := PrepareOne(w, s, a).1;
    var r := PrepareOne(w, m, b).1;
    assert Prepare(w, r, [a, b], 2).0;
    assert Prepare(w, m, [a, b], 1) == Prepare(w, r, [a, b], 2);
  }

  /** Both reservations are granted. */
  lemma PairPrepared(w: Setup, s: RunState)
    requires Pair(w) && Sane(w, s) && !s.stopped && s.states == map["a" := FRESH, "b" := FRESH] && s.entries == map[] && s.journal.None?
    ensures Prepare(w, s, ["a", "b"], 0).0
  {
    hide Mid, Sane, Held, Prepare, Pair;
    PairLimits(w);
    PairShape(w);
    SaneIsMid(w, s);
    NothingHeldYet(s.entries);
    TwoPrepared(w, s, "a", "b");
  }

  lemma PairLimits(w: Setup)
    requires Pair(w)
    ensures w.limit == Dims(2, 0.0) && (forall n, a, d :: w.reserveAccounting(n, a, d) == Exact)
    ensures Est(w.nodes[0]) == 1 && Est(w.nodes[1]) == 1 && |w.nodes| == 2
  {
  }

  lemma NothingHeldYet(entries: Entries)
    requires entries == map[]
    ensures Held(entries) == ZERO
  {
    hide Sum;
    SumZero(ReservedOf(entries));
    SumZero(CommittedOf(entries));
  }

  /** Each node of the pair is charged the ten tokens it used. */
  lemma PairCommitted(w: Setup, s: RunState, nodes: seq<NodeSpec>)
    requires Pair(w) && Mid(w, s, Elements(["a", "b"])) && Conserving(w, s, Elements(["a", "b"])) && TokenReserved(s.entries) && s.attempts == []
    ensures var r := CommitMany(w, s, w.runBatch(nodes), ["a", "b"]);
            && |r.attempts| == 2 && TotalCharged(r.attempts).tokens == 20
            && r.attempts[1].charged.tokens == 10 && r.attempts[1].reserved.tokens >= 0
  {
    hide Mid, CommitOne, ConservedAt, TokenReserved, OnlyTouched, Runs;
    var envelopes := w.runBatch(nodes);
    var batch := ["a", "b"];
    assert Elements(batch) == {"a", "b"};
    PairCommits(w, s, envelopes, "a", {"a", "b"});
    var m := CommitOne(w, s, envelopes, "a");
    assert {"a", "b"} - {"a"} == {"b"};
    PairCommits(w, m, envelopes, "b", {"b"});
    var r := CommitOne(w, m, envelopes, "b");
    assert batch[1..] == ["b"] && ["b"][1..] == [];
    assert CommitMany(w, s, envelopes, batch) == CommitMany(w, m, envelopes, ["b"]) == CommitMany(w, r, envelopes, []) == r;
    TotalOfTwo(r.attempts);
  }

  lemma PairCommits(w: Setup, s: RunState, envelopes: map<NodeId, Envelope>, id: NodeId, busy: set<NodeId>)
    requires Mid(w, s, busy) && id in busy && Conserving(w, s, busy) && TokenReserved(s.entries)
    requires id in envelopes && ActualOf(envelopes[id]).tokens == 10
    ensures var r := CommitOne(w, s, envelopes, id);
            && Mid(w, r, busy - {id}) && Conserving(w, r, busy - {id}) && TokenReserved(r.entries)
            && |r.attempts| == |s.attempts| + 1 && s.attempts <= r.attempts
            && r.attempts[|s.attempts|].charged.tokens == 10 && r.attempts[|s.attempts|].reserved.tokens >= 0
  {
    hide Mid, CommitOne, ConservedAt, TokenReserved, OnlyTouched, Runs;
    MidBusy(w, s, id, busy);
    RunningIsThere(w, s, id);
    CommitOneSteps(w, s, envelopes, id, busy);
    CommitOneConserves(w, s, envelopes, id, busy);
    var d := CommitOneAdds(w, s, envelopes, id, busy);
  }

  lemma TotalOfTwo(attempts: seq<Attempt>)
    requires |attempts| == 2
    ensures TotalCharged(attempts) == ZERO.Add(attempts[0].charged).Add(attempts[1].charged)
  {
    var one := attempts[..1];
    assert one[..0] == [] && TotalCharged(one) == TotalCharged(one[..0]).Add(one[0].charged);
  }

  /** THE SINGLE-ATTEMPT BOUND FAILS ON THE BATCH PATH. Two reviews in one invocation spend 20 tokens of a limit of
      2; the last one exceeds its reservation by at most 10. */
  lemma PairOverruns(w: Setup)
    requires Pair(w)
    ensures WellFormed(w.nodes) && Sane(w, Initial(w, "codex", "codex", None))
    ensures var r := Run(w, 2, Initial(w, "codex", "codex", None));
            Spent(r.entries).tokens == 20 && w.limit.tokens == 2 && !OverrunByLast(w, r)
  {
    hide Run, Sane, Prepare, CommitMany, Mid, Batch, Barrier, Conserving, AllTerminal, Pair, CanBatch, SkipFailed, Journaled, BatchRan,
      Accounted, OverrunByLast, Joined, TotalCharged, WellFormed, TokenReserved, ReviewBatch;
    PairShape(w);
    PairLimits(w);
    InitialIsSane(w, "codex", "codex", None);
    var s := Initial(w, "codex", "codex", None);
    var batch := ["a", "b"];
    assert s.states == map["a" := FRESH, "b" := FRESH];
    PairBatch(w, s);
    RunUnfolds(w, 2, s);
    PairReviewed(w, s);
    PairEnds(w, s);
    var next := Barrier(w, s, batch);
    RunUnfolds(w, 2, next);
    NothingSpent(w, s);
    BarrierAccounted(w, 2, s);
    PairSpends(w, next);
  }

  lemma PairSpends(w: Setup, r: RunState)
    requires Accounted(r) && w.limit.tokens == 2 && |r.attempts| == 2 && TotalCharged(r.attempts).tokens == 20
    requires r.attempts[1].charged.tokens == 10 && r.attempts[1].reserved.tokens >= 0
    ensures Spent(r.entries).tokens == 20 && !OverrunByLast(w, r)
  {
  }

  lemma PairReviewed(w: Setup, s: RunState)
    requires Pair(w) && Sane(w, s) && !s.stopped && s.states == map["a" := FRESH, "b" := FRESH]
    requires s.entries == map[] && s.attempts == [] && s.journal.None?
    ensures var r := ReviewBatch(w, s, ["a", "b"]);
            && !r.stopped && |r.attempts| == 2 && TotalCharged(r.attempts).tokens == 20
            && r.attempts[1].charged.tokens == 10 && r.attempts[1].reserved.tokens >= 0
  {
    hide Sane, Prepare, CommitMany, Mid, Conserving, Pair, Accounted, TotalCharged, TokenReserved, Advanced;
    var batch := ["a", "b"];
    PairPrepared(w, s);
    var prepared := Prepare(w, s, batch, 0).1;
    SaneIsMid(w, s);
    assert Elements(batch[..0]) == {} && batch[0..] == batch;
    NothingSpent(w, s);
    FreshConserves(w, s);
    QuietTokens(w, s);
    PrepareRuns(w, s, batch, 0);
    PrepareAccounted(w, s, batch, 0);
    PrepareConserves(w, s, batch, 0);
    PrepareHolds(w, s, batch, 0);
    var envelopes := w.runBatch(NodesOf(w, batch));
    CommitRuns(w, prepared, envelopes, batch);
    PairCommitted(w, prepared, NodesOf(w, batch));
  }

  /** The barrier of the pair leaves every node terminal. */
  lemma PairEnds(w: Setup, s: RunState)
    requires Pair(w) && Sane(w, s) && !s.stopped && s.states == map["a" := FRESH, "b" := FRESH] && s.journal.None?
    requires CanBatch(w, s, ["a", "b"]) && !ReviewBatch(w, s, ["a", "b"]).stopped
    ensures var r := Barrier(w, s, ["a", "b"]);
            !r.stopped && !r.fault && AllTerminal(r.states) && r.attempts == ReviewBatch(w, s, ["a", "b"]).attempts
  {
    hide Sane, Barrier, SkipFailed, Journaled, ReviewBatch, CanBatch, Pair, BatchRan, Joined, AllTerminal;
    var batch := ["a", "b"];
    JoinedRan(w, s, batch);
    var joined := Joined(w, s, batch);
    BatchEnds(w, s, batch);
    JoinedIsSane(w, s, batch);
    BarrierSane(w, s, batch);
    SameAccounts(w, s, batch);
    SkipFailedSane(w, joined, batch);
    TwoEnded(joined, Barrier(w, s, batch));
  }

  lemma BatchEnds(w: Setup, s: RunState, batch: seq<NodeId>)
    requires CanBatch(w, s, batch) && BatchRan(w, s, Joined(w, s, batch), batch)
    ensures Joined(w, s, batch) == ReviewBatch(w, s, batch) && Joined(w, s, batch).states.Keys == s.states.Keys
    ensures !Joined(w, s, batch).stopped ==> AllEnded(Joined(w, s, batch), batch)
  {
    hide Sane, ReviewBatch, CanBatch;
  }

  lemma TwoEnded(joined: RunState, r: RunState)
    requires AllEnded(joined, ["a", "b"]) && joined.states.Keys == {"a", "b"}
    requires r.states.Keys == joined.states.Keys
    requires forall id :: id in joined.states ==>
      r.states[id] == joined.states[id] || (Skippable(joined.states[id].status) && r.states[id] == joined.states[id].(status := Skipped))
    ensures AllTerminal(r.states)
  {
    var batch := ["a", "b"];
    assert batch[0] in batch && batch[1] in batch;
  }
}
