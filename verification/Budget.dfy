/** The reserve, commit and release protocol of the budget ledger. */
module Budget {
  import opened AgyTypes

  /** The ordering counter of the epoch, never its content id, and the node. */
  type LedgerKey = (int, NodeId)

  datatype EntryStatus = Open | Committed | Released | Overspend

  /** `reserved` is the open reservation, `committed` the charge accumulated over all attempts. */
  datatype Entry = Entry(epochId: string, reserved: Dims, committed: Dims, status: EntryStatus)

  type Entries = map<LedgerKey, Entry>

  datatype Admission = Admitted | NodeCeiling | GlobalLimit

  function Est(node: NodeSpec): nat {
    node.caps.maxOutputTokens + node.caps.maxThinkingTokens
  }

  // ---- derived sums ----

  ghost function Pick(m: map<LedgerKey, Dims>): LedgerKey
    requires m != map[]
    ensures Pick(m) in m
  {
    var k :| k in m;
    k
  }

  ghost function Sum(m: map<LedgerKey, Dims>): Dims {
    if m == map[] then ZERO else m[Pick(m)].Add(Sum(m - {Pick(m)}))
  }

  lemma {:induction false} SumRemove(m: map<LedgerKey, Dims>, k: LedgerKey)
    requires k in m
    ensures Sum(m) == m[k].Add(Sum(m - {k}))
    decreases |m|
  {
    var p := Pick(m);
    if p != k {
      assert |m - {p}| < |m| && |m - {k}| < |m|;
      SumRemove(m - {p}, k);
      SumRemove(m - {k}, p);
      assert m - {p} - {k} == m - {k} - {p};
    }
  }

  lemma SumUpdate(m: map<LedgerKey, Dims>, k: LedgerKey, d: Dims)
    ensures Sum(m[k := d]) == d.Add(Sum(m - {k}))
  {
    SumRemove(m[k := d], k);
    assert m[k := d] - {k} == m - {k};
  }

  function ReservedOf(entries: Entries): map<LedgerKey, Dims> {
    map k | k in entries :: entries[k].reserved
  }

  function CommittedOf(entries: Entries): map<LedgerKey, Dims> {
    map k | k in entries :: entries[k].committed
  }

  ghost function Reserved(entries: Entries): Dims {
    Sum(ReservedOf(entries))
  }

  ghost function Spent(entries: Entries): Dims {
    Sum(CommittedOf(entries))
  }

  ghost function Available(limit: Dims, entries: Entries): Dims {
    limit.Sub(Reserved(entries)).Sub(Spent(entries))
  }

  /** What the other entries hold of the budget. */
  ghost function Others(entries: Entries, key: LedgerKey): Dims {
    Reserved(entries - {key}).Add(Spent(entries - {key}))
  }

  function Held(own: Option<Entry>): Dims {
    if own.Some? then own.value.reserved.Add(own.value.committed) else ZERO
  }

  lemma SameEntry<K, V>(m: map<K, V>, k: K)
    requires k in m
    ensures m[k := m[k]] == m
  {
  }

  function Own(entries: Entries, key: LedgerKey): Option<Entry> {
    if key in entries then Some(entries[key]) else None
  }

  lemma SumsAt(entries: Entries, key: LedgerKey, e: Entry)
    ensures Reserved(entries[key := e]) == e.reserved.Add(Reserved(entries - {key}))
    ensures Spent(entries[key := e]) == e.committed.Add(Spent(entries - {key}))
  {
    SumUpdate(ReservedOf(entries), key, e.reserved);
    SumUpdate(CommittedOf(entries), key, e.committed);
    assert ReservedOf(entries[key := e]) == ReservedOf(entries)[key := e.reserved];
    assert CommittedOf(entries[key := e]) == CommittedOf(entries)[key := e.committed];
    assert ReservedOf(entries - {key}) == ReservedOf(entries) - {key};
    assert CommittedOf(entries - {key}) == CommittedOf(entries) - {key};
  }

  lemma SumsWith(entries: Entries, key: LedgerKey)
    requires key in entries
    ensures Reserved(entries) == entries[key].reserved.Add(Reserved(entries - {key}))
    ensures Spent(entries) == entries[key].committed.Add(Spent(entries - {key}))
  {
    hide Sum;
    SumsAt(entries, key, entries[key]);
    SameEntry(entries, key);
  }

  /** The sums split into one entry's own share and everybody else's. */
  lemma SumsSplit(entries: Entries, key: LedgerKey)
    ensures Reserved(entries).Add(Spent(entries)) == Others(entries, key).Add(Held(Own(entries, key)))
  {
    hide Sum;
    if key in entries {
      SumsWith(entries, key);
      Regroup(entries[key].reserved, Reserved(entries - {key}), entries[key].committed, Spent(entries - {key}));
    } else {
      assert entries - {key} == entries;
      Regroup(ZERO, Reserved(entries), ZERO, Spent(entries));
    }
  }

  lemma Regroup(a: Dims, b: Dims, c: Dims, d: Dims)
    ensures a.Add(b).Add(c.Add(d)) == b.Add(d).Add(a.Add(c))
  {
  }

  /** Availability seen from one entry. */
  lemma AvailableSplit(limit: Dims, entries: Entries, key: LedgerKey)
    ensures Room(limit, Some(Others(entries, key)), Own(entries, key)) == Some(Available(limit, entries))
  {
    hide Sum;
    SumsSplit(entries, key);
    Subtract(limit, Reserved(entries), Spent(entries), Others(entries, key), Held(Own(entries, key)));
  }

  lemma Subtract(limit: Dims, a: Dims, b: Dims, c: Dims, d: Dims)
    requires a.Add(b) == c.Add(d)
    ensures limit.Sub(a).Sub(b) == limit.Sub(c).Sub(d)
  {
  }

  // ---- the protocol on one entry ----

  /** The product of a per-call ceiling and a multiplier. */
  function Times(perCall: nat, multiplier: nat): nat {
    if multiplier == 0 then 0 else perCall + Times(perCall, multiplier - 1)
  }

  lemma {:induction false} TimesIsProduct(perCall: nat, multiplier: nat)
    ensures Times(perCall, multiplier) == perCall * multiplier
  {
    if multiplier > 0 {
      TimesIsProduct(perCall, multiplier - 1);
    }
  }

  /** Reservations are denominated in tokens only. */
  function ReservationAmount(perCall: nat, multiplier: nat, accounting: Accounting): (amount: Dims)
    ensures amount.tokens >= 0 && amount.usd == 0.0
  {
    Dims(if accounting == Opaque then Times(perCall, multiplier) else perCall, 0.0)
  }

  /** What is left for a new reservation, given what everybody else holds; `None` means no global limit. */
  function Room(limit: Dims, others: Option<Dims>, own: Option<Entry>): Option<Dims> {
    if others.None? then None else Some(limit.Sub(others.value).Sub(Held(own)))
  }

  /** The admission tests in order: an open reservation is idempotent, then node ceiling, then global. */
  function Admit(limit: Dims, others: Option<Dims>, own: Option<Entry>, perCall: nat, consumed: Dims, amount: Dims): Admission {
    if own.Some? && own.value.status == Open then Admitted
    else if consumed.tokens + perCall > perCall then NodeCeiling
    else if Room(limit, others, own).Some? && !amount.FitsWithin(Room(limit, others, own).value) then GlobalLimit
    else Admitted
  }

  function OpenEntry(own: Option<Entry>, epochId: string, amount: Dims): Entry {
    if own.Some? && own.value.status == Open then own.value
    else Entry(epochId, amount, if own.Some? then own.value.committed else ZERO, Open)
  }

  /** The charge of an attempt: opaque accounting never charges below the reserved floor, and a
      missing count charges the whole reservation. */
  function Charge(actual: Option<Dims>, accounting: Accounting, reserved: Dims): Dims {
    if actual.None? then reserved
    else if accounting == Opaque then Dims.Max(actual.value, reserved)
    else actual.value
  }

  function CommitEntry(e: Entry, actual: Option<Dims>, accounting: Accounting): Entry {
    Entry(
      e.epochId,
      ZERO,
      e.committed.Add(Charge(actual, accounting, e.reserved)),
      if actual.Some? && actual.value.Exceeds(e.reserved) then Overspend else Committed)
  }

  function ReleaseEntry(e: Entry): Entry {
    if e.status == Open then e.(reserved := ZERO, status := Released) else e
  }

  // ---- the protocol on the ledger ----

  ghost function AdmitAt(limit: Dims, entries: Entries, key: LedgerKey, perCall: nat, consumed: Dims, amount: Dims): Admission {
    Admit(limit, Some(Others(entries, key)), Own(entries, key), perCall, consumed, amount)
  }

  function ReleaseAt(entries: Entries, key: LedgerKey): Entries {
    if key in entries then entries[key := ReleaseEntry(entries[key])] else entries
  }

  function SweepAll(entries: Entries): Entries {
    map k | k in entries :: ReleaseEntry(entries[k])
  }

  predicate IsOpen(entries: Entries, key: LedgerKey) {
    key in entries && entries[key].status == Open
  }

  class BudgetLedger {
    const limit: Dims
    const multiplier: nat
    var entries: Entries
    var concerns: seq<NodeId>

    constructor (limit: Dims, multiplier: nat)
      ensures this.limit == limit && this.multiplier == multiplier && entries == map[] && concerns == []
    {
      this.limit := limit;
      this.multiplier := multiplier;
      entries := map[];
      concerns := [];
    }

    /** Adds up a column of the ledger, entry by entry. */
    static method AddUp(column: map<LedgerKey, Dims>) returns (total: Dims)
      ensures total == Sum(column)
    {
      total := ZERO;
      var rest := column.Keys;
      assert column - rest == map[];
      while rest != {}
        invariant rest <= column.Keys
        invariant total == Sum(column - rest)
        decreases rest
      {
        var k :| k in rest;
        ghost var before := column - rest;
        SumRemove(column - (rest - {k}), k);
        assert column - (rest - {k}) - {k} == before;
        total := total.Add(column[k]);
        rest := rest - {k};
      }
      assert column - {} == column;
    }

    method TotalAvailable() returns (available: Dims)
      ensures available == Available(limit, entries)
    {
      var reserved := AddUp(ReservedOf(entries));
      var spent := AddUp(CommittedOf(entries));
      available := limit.Sub(reserved).Sub(spent);
    }

    /** Admits a reservation or refuses it; a refusal, and a repeat, change nothing. */
    method Reserve(key: LedgerKey, epochId: string, node: NodeSpec, consumed: Dims, accounting: Accounting)
      returns (admission: Admission)
      modifies `entries
      ensures admission ==
        AdmitAt(limit, old(entries), key, Est(node), consumed, ReservationAmount(Est(node), multiplier, accounting))
      ensures entries ==
        if admission == Admitted
        then old(entries)[key := OpenEntry(Own(old(entries), key), epochId, ReservationAmount(Est(node), multiplier, accounting))]
        else old(entries)
      ensures !IsOpen(old(entries), key) ==>
        (admission == Admitted <==>
          && consumed.tokens <= 0
          && CapTokens(node, multiplier, accounting) <= Available(limit, old(entries)).tokens
          && 0.0 <= Available(limit, old(entries)).usd)
    {
      hide Sum, CapTokens;
      CapTokensReserved(node, multiplier, accounting);
      AvailableSplit(limit, entries, key);
      if key in entries && entries[key].status == Open {
        SameEntry(entries, key);
        return Admitted;
      }
      var amount := ReservationAmount(Est(node), multiplier, accounting);
      if consumed.tokens + Est(node) > Est(node) {
        return NodeCeiling;
      }
      var available := TotalAvailable();
      if !amount.FitsWithin(available) {
        return GlobalLimit;
      }
      var carried := if key in entries then entries[key].committed else ZERO;
      entries := entries[key := Entry(epochId, amount, carried, Open)];
      return Admitted;
    }

    /** Replaces an open reservation by its charge; without one the request is an error. */
    method Commit(key: LedgerKey, actual: Option<Dims>, accounting: Accounting) returns (ok: bool)
      modifies this
      ensures ok <==> IsOpen(old(entries), key)
      ensures entries == if ok then old(entries)[key := CommitEntry(old(entries)[key], actual, accounting)] else old(entries)
      ensures concerns == if ok && actual.None? then old(concerns) + [key.1] else old(concerns)
    {
      ok := key in entries && entries[key].status == Open;
      if ok {
        if actual.None? {
          concerns := concerns + [key.1];
        }
        entries := entries[key := CommitEntry(entries[key], actual, accounting)];
      }
    }

    method Release(key: LedgerKey)
      modifies `entries
      ensures entries == ReleaseAt(old(entries), key)
    {
      if key in entries {
        if entries[key].status == Open {
          entries := entries[key := entries[key].(reserved := ZERO, status := Released)];
        } else {
          SameEntry(entries, key);
        }
      }
    }

    /** Releases every open reservation, of any epoch. */
    method SweepOrphans() returns (released: set<LedgerKey>)
      modifies `entries
      ensures entries == SweepAll(old(entries))
      ensures released == set k | k in old(entries) && old(entries)[k].status == Open
    {
      released := {};
      var rest := entries.Keys;
      ghost var was := entries;
      while rest != {}
        invariant rest <= was.Keys && entries.Keys == was.Keys
        invariant forall k :: k in was ==> entries[k] == if k in rest then was[k] else ReleaseEntry(was[k])
        invariant released == set k | k in was && k !in rest && was[k].status == Open
        decreases rest
      {
        var k :| k in rest;
        if entries[k].status == Open {
          entries := entries[k := entries[k].(reserved := ZERO, status := Released)];
          released := released + {k};
        }
        rest := rest - {k};
      }
    }
  }

  // ---- the operations in figures ----

  /** What one attempt may use: both token caps, times the multiplier where they cannot be counted. */
  function CapTokens(node: NodeSpec, multiplier: nat, accounting: Accounting): nat {
    (node.caps.maxOutputTokens + node.caps.maxThinkingTokens) * (if accounting == Opaque then multiplier else 1)
  }

  lemma CapTokensReserved(node: NodeSpec, multiplier: nat, accounting: Accounting)
    ensures ReservationAmount(Est(node), multiplier, accounting) == Dims(CapTokens(node, multiplier, accounting), 0.0)
  {
    TimesIsProduct(Est(node), multiplier);
  }

  /** A node with no reservation open is admitted exactly if it was billed nothing, its two token caps (times the
      multiplier, if opaque) fit in what is available, and no dollars are missing. Then that much is reserved, nothing
      is spent, and what was charged before stays charged. */
  lemma ReserveMoves(limit: Dims, multiplier: nat, entries: Entries, key: LedgerKey, epochId: string, node: NodeSpec, consumed: Dims,
                     accounting: Accounting)
    requires Settled(entries) && !IsOpen(entries, key)
    ensures var tokens := CapTokens(node, multiplier, accounting);
            var amount := ReservationAmount(Est(node), multiplier, accounting);
            var admission := AdmitAt(limit, entries, key, Est(node), consumed, amount);
            var next := entries[key := OpenEntry(Own(entries, key), epochId, amount)];
            && (admission == Admitted <==>
                 consumed.tokens <= 0 && tokens <= Available(limit, entries).tokens && 0.0 <= Available(limit, entries).usd)
            && (admission == NodeCeiling <==> consumed.tokens > 0)
            && Reserved(next) == Reserved(entries).Add(Dims(tokens, 0.0)) && Spent(next) == Spent(entries)
            && next[key].epochId == epochId && IsOpen(next, key)
  {
    hide Sum, Others, Times, CapTokens;
    CapTokensReserved(node, multiplier, accounting);
    AvailableSplit(limit, entries, key);
    var amount := ReservationAmount(Est(node), multiplier, accounting);
    SumsAt(entries, key, OpenEntry(Own(entries, key), epochId, amount));
    if key in entries {
      SumsWith(entries, key);
    } else {
      assert entries - {key} == entries;
    }
  }

  /** A commit takes its reservation back and spends the charge: what was used if accounted exactly, what was reserved
      if nothing was reported, and under opaque accounting never less than either. More than the reservation is an
      overspend. */
  lemma CommitMoves(entries: Entries, key: LedgerKey, actual: Option<Dims>, accounting: Accounting)
    requires IsOpen(entries, key)
    ensures var e := entries[key];
            var next := entries[key := CommitEntry(e, actual, accounting)];
            var charge := Spent(next).Sub(Spent(entries));
            && Reserved(next) == Reserved(entries).Sub(e.reserved)
            && next[key].reserved == ZERO && next[key].epochId == e.epochId && next[key].committed == e.committed.Add(charge)
            && (actual.None? ==> charge == e.reserved)
            && (actual.Some? && accounting == Exact ==> charge == actual.value)
            && (actual.Some? && accounting == Opaque ==>
                 && actual.value.FitsWithin(charge) && e.reserved.FitsWithin(charge)
                 && charge.tokens in {actual.value.tokens, e.reserved.tokens} && charge.usd in {actual.value.usd, e.reserved.usd})
            && (next[key].status == Overspend <==>
                 actual.Some? && (actual.value.tokens > e.reserved.tokens || actual.value.usd > e.reserved.usd))
            && next[key].status in {Overspend, Committed}
  {
    hide Sum;
    SumsWith(entries, key);
    SumsAt(entries, key, CommitEntry(entries[key], actual, accounting));
  }

  /** A release gives an open reservation back, spends nothing and leaves the other entries alone. */
  lemma ReleaseMoves(entries: Entries, key: LedgerKey)
    ensures var next := ReleaseAt(entries, key);
            && next.Keys == entries.Keys && !IsOpen(next, key) && next - {key} == entries - {key}
            && Spent(next) == Spent(entries)
            && Reserved(next) == if IsOpen(entries, key) then Reserved(entries).Sub(entries[key].reserved) else Reserved(entries)
  {
    hide Sum;
    if key in entries {
      SumsWith(entries, key);
      SumsAt(entries, key, ReleaseEntry(entries[key]));
    }
  }

  // ---- safety over every sequence of operations ----

  datatype Op =
    | DoReserve(key: LedgerKey, epochId: string, perCall: nat, consumed: Dims, accounting: Accounting)
    | DoCommit(key: LedgerKey, actual: Option<Dims>, accounting: Accounting)
    | DoRelease(key: LedgerKey)
    | DoSweep

  ghost function Step(limit: Dims, multiplier: nat, entries: Entries, op: Op): Entries {
    match op
    case DoReserve(key, epochId, perCall, consumed, accounting) =>
      var amount := ReservationAmount(perCall, multiplier, accounting);
      if AdmitAt(limit, entries, key, perCall, consumed, amount) == Admitted
      then entries[key := OpenEntry(Own(entries, key), epochId, amount)]
      else entries
    case DoCommit(key, actual, accounting) =>
      if IsOpen(entries, key) then entries[key := CommitEntry(entries[key], actual, accounting)] else entries
    case DoRelease(key) => ReleaseAt(entries, key)
    case DoSweep => SweepAll(entries)
  }

  /** By how many tokens a commit exceeds its reservation. */
  function Excess(entries: Entries, op: Op): nat {
    if op.DoCommit? && IsOpen(entries, op.key) then
      var over := Charge(op.actual, op.accounting, entries[op.key].reserved).tokens - entries[op.key].reserved.tokens;
      if over > 0 then over else 0
    else 0
  }

  ghost function After(limit: Dims, multiplier: nat, ops: seq<Op>): Entries {
    if ops == [] then map[] else Step(limit, multiplier, After(limit, multiplier, ops[..|ops| - 1]), ops[|ops| - 1])
  }

  ghost function TotalExcess(limit: Dims, multiplier: nat, ops: seq<Op>): nat {
    if ops == [] then 0
    else
      var rest := ops[..|ops| - 1];
      TotalExcess(limit, multiplier, rest) + Excess(After(limit, multiplier, rest), ops[|ops| - 1])
  }

  /** Only open entries hold a reservation, and none is negative. */
  ghost predicate Settled(entries: Entries) {
    && (forall k :: k in entries && entries[k].status != Open ==> entries[k].reserved == ZERO)
    && (forall k :: k in entries ==> entries[k].reserved.tokens >= 0)
  }

  function AtLeastZero(x: int): nat {
    if x > 0 then x else 0
  }

  lemma {:induction false} SumAtLeastZero(m: map<LedgerKey, Dims>)
    requires forall k :: k in m ==> m[k].tokens >= 0
    ensures Sum(m).tokens >= 0
    decreases |m|
  {
    if m != map[] {
      assert |m - {Pick(m)}| < |m|;
      SumAtLeastZero(m - {Pick(m)});
    }
  }

  lemma {:induction false} SumZero(m: map<LedgerKey, Dims>)
    requires forall k :: k in m ==> m[k] == ZERO
    ensures Sum(m) == ZERO
    decreases |m|
  {
    if m != map[] {
      assert |m - {Pick(m)}| < |m|;
      SumZero(m - {Pick(m)});
    }
  }

  lemma SweepClears(entries: Entries)
    requires Settled(entries)
    ensures Reserved(SweepAll(entries)) == ZERO && Spent(SweepAll(entries)) == Spent(entries)
    ensures Settled(SweepAll(entries))
  {
    hide Sum;
    SumZero(ReservedOf(SweepAll(entries)));
    assert CommittedOf(SweepAll(entries)) == CommittedOf(entries);
  }

  lemma ReserveBound(limit: Dims, multiplier: nat, entries: Entries, op: Op)
    requires op.DoReserve? && Step(limit, multiplier, entries, op) != entries
    requires Settled(entries)
    ensures var next := Step(limit, multiplier, entries, op);
            Reserved(next).tokens + Spent(next).tokens <= limit.tokens && Settled(next)
  {
    hide Sum;
    var next := Step(limit, multiplier, entries, op);
    var amount := ReservationAmount(op.perCall, multiplier, op.accounting);
    var e := OpenEntry(Own(entries, op.key), op.epochId, amount);
    SumsAt(entries, op.key, e);
    hide Others, Sum, Times, CommitEntry;
    if IsOpen(entries, op.key) {
      SameEntry(entries, op.key);
    }
  }

  lemma CommitBound(limit: Dims, multiplier: nat, entries: Entries, op: Op)
    requires op.DoCommit? && Settled(entries)
    ensures var next := Step(limit, multiplier, entries, op);
            Reserved(next).tokens + Spent(next).tokens <= Reserved(entries).tokens + Spent(entries).tokens + Excess(entries, op) &&
            Settled(next)
  {
    hide Sum;
    if IsOpen(entries, op.key) {
      var e := entries[op.key];
      SumsWith(entries, op.key);
      SumsAt(entries, op.key, CommitEntry(e, op.actual, op.accounting));
    }
  }

  lemma ReleaseBound(entries: Entries, key: LedgerKey)
    requires Settled(entries)
    ensures var next := ReleaseAt(entries, key);
            Reserved(next).tokens <= Reserved(entries).tokens && Spent(next) == Spent(entries) && Settled(next)
  {
    hide Sum;
    if key in entries {
      SumsWith(entries, key);
      SumsAt(entries, key, ReleaseEntry(entries[key]));
    }
  }

  /** Over every sequence of operations from an empty ledger, reserved plus spent tokens stay within
      the limit plus the tokens by which commits exceeded their own reservations. */
  lemma {:induction false} LedgerSafety(limit: Dims, multiplier: nat, ops: seq<Op>)
    ensures Settled(After(limit, multiplier, ops))
    ensures var entries := After(limit, multiplier, ops);
            Reserved(entries).tokens + Spent(entries).tokens <= AtLeastZero(limit.tokens) + TotalExcess(limit, multiplier, ops)
  {
    hide Sum;
    if ops == [] {
      SumZero(ReservedOf(map[]));
      SumZero(CommittedOf(map[]));
    } else {
      var rest, op := ops[..|ops| - 1], ops[|ops| - 1];
      LedgerSafety(limit, multiplier, rest);
      var entries := After(limit, multiplier, rest);
      match op
      case DoReserve(_, _, _, _, _) =>
        if Step(limit, multiplier, entries, op) != entries {
          ReserveBound(limit, multiplier, entries, op);
        }
      case DoCommit(_, _, _) => CommitBound(limit, multiplier, entries, op);
      case DoRelease(key) => ReleaseBound(entries, key);
      case DoSweep =>
        SweepClears(entries);
        SumAtLeastZero(ReservedOf(entries));
    }
  }

  /** A refused reservation, and a commit without an open one, change nothing. */
  lemma RefusalChangesNothing(limit: Dims, multiplier: nat, entries: Entries, op: Op)
    requires op.DoReserve? || op.DoCommit?
    ensures op.DoReserve? &&
      AdmitAt(limit, entries, op.key, op.perCall, op.consumed, ReservationAmount(op.perCall, multiplier, op.accounting)) != Admitted
      ==> Step(limit, multiplier, entries, op) == entries
    ensures op.DoReserve? && IsOpen(entries, op.key) ==> Step(limit, multiplier, entries, op) == entries
    ensures op.DoCommit? && !IsOpen(entries, op.key) ==> Step(limit, multiplier, entries, op) == entries
  {
    hide Others, Sum, Times, CommitEntry;
    if IsOpen(entries, op.key) {
      SameEntry(entries, op.key);
    }
  }
}
