/** The deterministic integer split of a budget across children. */
module Splitting {
  import opened AgyTypes

  datatype Split =
    | Shares(shares: seq<int>)
    | NoChildren
    | WrongWeightCount
    | NegativeWeight
    | ZeroWeights

  function Sum(s: seq<int>): int {
    if s == [] then 0 else s[0] + Sum(s[1..])
  }

  /** The floor shares of `total` for weights adding up to `wsum`. */
  function Floors(total: int, weights: seq<int>, wsum: int): (r: seq<int>)
    requires wsum > 0
    ensures |r| == |weights|
    ensures forall i :: 0 <= i < |r| ==> r[i] == (total * weights[i]) / wsum
  {
    if weights == [] then [] else [(total * weights[0]) / wsum] + Floors(total, weights[1..], wsum)
  }

  /** `floors` with one unit added to each of the first `r` entries. */
  function Bumped(floors: seq<int>, r: nat): seq<int>
    requires r <= |floors|
  {
    seq(|floors|, i requires 0 <= i < |floors| => floors[i] + if i < r then 1 else 0)
  }

  function Ones(n: nat): (r: seq<int>)
    ensures |r| == n && forall i :: 0 <= i < n ==> r[i] == 1
  {
    if n == 0 then [] else [1] + Ones(n - 1)
  }

  lemma {:induction false} SumOnes(n: nat)
    ensures Sum(Ones(n)) == n
  {
    if n > 0 {
      SumOnes(n - 1);
    }
  }

  lemma {:induction false} SumUpdate(s: seq<int>, i: nat, x: int)
    requires i < |s|
    ensures Sum(s[i := x]) == Sum(s) - s[i] + x
  {
    if i > 0 {
      assert s[i := x][1..] == s[1..][i - 1 := x];
      SumUpdate(s[1..], i - 1, x);
    } else {
      assert s[0 := x][1..] == s[1..];
    }
  }

  lemma FloorError(x: int, w: int)
    requires w > 0
    ensures 0 <= x - w * (x / w) <= w - 1
  {
  }

  /** One more share adds its own error. */
  lemma AddError(total: int, w: int, sum: int, wsum: int, f: int, floors: int, n: nat)
    requires wsum > 0 && 0 <= total * w - wsum * f <= wsum - 1
    requires 0 <= total * sum - wsum * floors <= n * (wsum - 1)
    ensures 0 <= total * (w + sum) - wsum * (f + floors) <= (n + 1) * (wsum - 1)
  {
    Distribute(total, w, sum);
    Distribute(wsum, f, floors);
    Distribute(wsum - 1, 1, n);
  }

  /** Scaled up, the floors miss the exact shares by less than one unit a child. */
  lemma {:induction false} FloorsError(total: int, weights: seq<int>, wsum: int)
    requires wsum > 0
    ensures 0 <= total * Sum(weights) - wsum * Sum(Floors(total, weights, wsum)) <= |weights| * (wsum - 1)
  {
    if weights != [] {
      var w, rest := weights[0], weights[1..];
      FloorsError(total, rest, wsum);
      FloorError(total * w, wsum);
      var f := Floors(total, weights, wsum);
      assert f[1..] == Floors(total, rest, wsum);
      AddError(total, w, Sum(rest), wsum, f[0], Sum(f[1..]), |rest|);
    }
  }

  lemma Distribute(a: int, b: int, c: int)
    ensures a * (b + c) == a * b + a * c
  {
  }

  lemma Monotone(w: int, x: int, y: int)
    requires w > 0 && x <= y
    ensures w * x <= w * y
  {
  }

  lemma ScaledBounds(w: int, x: int, n: int)
    requires w > 0 && n > 0 && 0 <= w * x <= n * (w - 1)
    ensures 0 <= x < n
  {
    assert n * (w - 1) == w * n - n;
    if x < 0 {
      Monotone(w, x, -1);
    }
    if x >= n {
      Monotone(w, n, x);
    }
  }

  /** The units left after flooring are at least none and fewer than the children. */
  lemma RemainderInRange(total: int, weights: seq<int>, wsum: int)
    requires wsum > 0 && wsum == Sum(weights) && |weights| > 0
    ensures 0 <= total - Sum(Floors(total, weights, wsum)) < |weights|
  {
    FloorsError(total, weights, wsum);
    Unscale(total, wsum, Sum(Floors(total, weights, wsum)), |weights|);
  }

  lemma Unscale(total: int, w: int, floored: int, n: nat)
    requires w > 0 && n > 0 && 0 <= total * w - w * floored <= n * (w - 1)
    ensures 0 <= total - floored < n
  {
    Distribute(w, total - floored, floored);
    ScaledBounds(w, total - floored, n);
  }

  lemma EqualFloors(total: int, n: nat)
    requires n > 0
    ensures Sum(Ones(n)) == n
    ensures Floors(total, Ones(n), n) == seq(n, i => total / n)
  {
    SumOnes(n);
  }

  lemma BumpNone(floors: seq<int>)
    ensures Bumped(floors, 0) == floors
  {
  }

  lemma BumpOne(floors: seq<int>, i: nat)
    requires i < |floors|
    ensures var s := Bumped(floors, i);
            Bumped(floors, i + 1) == s[i := s[i] + 1] && Sum(Bumped(floors, i + 1)) == Sum(s) + 1
  {
    var s := Bumped(floors, i);
    assert Bumped(floors, i + 1) == s[i := s[i] + 1];
    SumUpdate(s, i, s[i] + 1);
  }

  /** The split is the floor shares with the remainder handed out one unit at a time from the front. */
  method SplitBudget(total: int, n: int, weights: Option<seq<int>>) returns (r: Split)
    ensures r.NoChildren? <==> n <= 0
    ensures r.WrongWeightCount? <==> n > 0 && weights.Some? && |weights.value| != n
    ensures r.NegativeWeight? <==>
      n > 0 && weights.Some? && |weights.value| == n && exists i :: 0 <= i < n && weights.value[i] < 0
    ensures r.ZeroWeights? <==>
      && n > 0 && weights.Some? && |weights.value| == n
      && (forall i :: 0 <= i < n ==> weights.value[i] >= 0) && Sum(weights.value) <= 0
    ensures r.Shares? ==>
      var ws := if weights.Some? then weights.value else Ones(n);
      Sum(ws) > 0 &&
      var floors := Floors(total, ws, Sum(ws));
      && |r.shares| == n
      && Sum(r.shares) == total
      && 0 <= total - Sum(floors) < n
      && r.shares == Bumped(floors, total - Sum(floors))
  {
    hide Floors, Bumped;
    if n <= 0 {
      return NoChildren;
    }
    ghost var ws := if weights.Some? then weights.value else Ones(n);
    var base: seq<int>;
    var remainder: int;
    if weights.None? {
      var share := total / n;
      base := seq(n, i => share);
      remainder := total - share * n;
      EqualFloors(total, n);
      SumConstant(base, share);
    } else {
      if |weights.value| != n {
        return WrongWeightCount;
      }
      if exists i :: 0 <= i < n && weights.value[i] < 0 {
        return NegativeWeight;
      }
      var wsum := Sum(weights.value);
      if wsum <= 0 {
        return ZeroWeights;
      }
      base := Floors(total, weights.value, wsum);
      remainder := total - Sum(base);
    }
    ghost var floors := base;
    BumpNone(floors);
    RemainderInRange(total, ws, Sum(ws));
    for i := 0 to remainder
      invariant |base| == n && base == Bumped(floors, i)
      invariant Sum(base) == Sum(floors) + i
    {
      BumpOne(floors, i);
      base := base[i := base[i] + 1];
    }
    r := Shares(base);
  }

  lemma {:induction false} SumConstant(s: seq<int>, c: int)
    requires forall i :: 0 <= i < |s| ==> s[i] == c
    ensures Sum(s) == c * |s|
  {
    if s != [] {
      SumConstant(s[1..], c);
      Distribute(c, 1, |s| - 1);
    }
  }

  /** An equal split is as even as integers allow: non-increasing, with a spread of at most one. */
  lemma EqualSplitIsEven(total: int, n: nat, r: nat, i: nat, j: nat)
    requires i <= j < n && r < n
    ensures var s := Bumped(Floors(total, Ones(n), n), r); 0 <= s[i] - s[j] <= 1
  {
  }

  /** A weighted share lies within one unit of the exact one. */
  lemma WeightedSplitIsFair(total: int, ws: seq<int>, r: nat, i: nat)
    requires Sum(ws) > 0 && i < |ws| && r < |ws|
    ensures var s := Bumped(Floors(total, ws, Sum(ws)), r);
            (s[i] - 1) * Sum(ws) <= total * ws[i] < (s[i] + 1) * Sum(ws)
  {
    FairShare(total * ws[i], Sum(ws), Bumped(Floors(total, ws, Sum(ws)), r)[i]);
  }

  lemma FairShare(x: int, w: int, s: int)
    requires w > 0 && s in {x / w, x / w + 1}
    ensures (s - 1) * w <= x < (s + 1) * w
  {
    FloorError(x, w);
    Distribute(w, x / w, 1);
    Distribute(w, x / w, -1);
    Distribute(w, x / w, 2);
  }
}
