/** Sorting by a total order, the lexicographic order on tuples, and multisets of mapped sequences.
    Stands for the built-in `sorted` and tuple comparison that several components rely on. */
module Sorting {

  /** `leq` is a total order: total, antisymmetric and transitive. */
  ghost predicate TotalOrder<T(!new)>(leq: (T, T) -> bool) {
    && (forall x, y :: leq(x, y) || leq(y, x))
    && (forall x, y :: leq(x, y) && leq(y, x) ==> x == y)
    && (forall x, y, z :: leq(x, y) && leq(y, z) ==> leq(x, z))
  }

  ghost predicate Sorted<T>(leq: (T, T) -> bool, s: seq<T>) {
    forall i, j :: 0 <= i < j < |s| ==> leq(s[i], s[j])
  }

  function Insert<T>(leq: (T, T) -> bool, x: T, s: seq<T>): (r: seq<T>)
    ensures |r| == |s| + 1
  {
    if s == [] then [x]
    else if leq(x, s[0]) then [x] + s
    else [s[0]] + Insert(leq, x, s[1..])
  }

  function Sort<T>(leq: (T, T) -> bool, s: seq<T>): (r: seq<T>)
    ensures |r| == |s|
  {
    if s == [] then [] else Insert(leq, s[0], Sort(leq, s[1..]))
  }

  lemma {:induction false} InsertPermutes<T>(leq: (T, T) -> bool, x: T, s: seq<T>)
    ensures multiset(Insert(leq, x, s)) == multiset(s) + multiset{x}
  {
    if s != [] && !leq(x, s[0]) {
      InsertPermutes(leq, x, s[1..]);
      assert s == [s[0]] + s[1..];
    }
  }

  /** Everything in a sorted sequence is at least its first element. */
  lemma SortedCons<T>(leq: (T, T) -> bool, x: T, s: seq<T>)
    requires Sorted(leq, s) && forall y :: y in s ==> leq(x, y)
    ensures Sorted(leq, [x] + s)
  {
    forall i, j | 0 <= i < j < |[x] + s| ensures leq(([x] + s)[i], ([x] + s)[j]) {
      if i == 0 {
        assert s[j - 1] in s;
      }
    }
  }

  lemma {:induction false} InsertSorts<T(!new)>(leq: (T, T) -> bool, x: T, s: seq<T>)
    requires TotalOrder(leq) && Sorted(leq, s)
    ensures Sorted(leq, Insert(leq, x, s))
  {
    if s != [] {
      var rest := s[1..];
      HeadIsLeast(leq, s);
      if leq(x, s[0]) {
        forall y | y in s ensures leq(x, y) {
          assert leq(s[0], y);
        }
        SortedCons(leq, x, s);
      } else {
        InsertSorts(leq, x, rest);
        InsertPermutes(leq, x, rest);
        forall y | y in Insert(leq, x, rest) ensures leq(s[0], y) {
          assert y in multiset(Insert(leq, x, rest));
          assert y in rest || y == x;
          assert y in rest ==> y in s;
        }
        SortedCons(leq, s[0], Insert(leq, x, rest));
      }
    }
  }

  lemma HeadIsLeast<T(!new)>(leq: (T, T) -> bool, s: seq<T>)
    requires TotalOrder(leq) && Sorted(leq, s) && s != []
    ensures (forall y :: y in s ==> leq(s[0], y)) && Sorted(leq, s[1..])
  {
  }

  /** Sorting permutes its input into sorted order. */
  lemma {:induction false} SortSorts<T(!new)>(leq: (T, T) -> bool, s: seq<T>)
    requires TotalOrder(leq)
    ensures multiset(Sort(leq, s)) == multiset(s)
    ensures Sorted(leq, Sort(leq, s))
    ensures |Sort(leq, s)| == |s|
  {
    if s != [] {
      hide TotalOrder, Sorted;
      SortSorts(leq, s[1..]);
      InsertPermutes(leq, s[0], Sort(leq, s[1..]));
      InsertSorts(leq, s[0], Sort(leq, s[1..]));
      WithoutHead(s);
    }
  }

  lemma WithoutHead<T>(s: seq<T>)
    requires s != []
    ensures multiset(s[1..]) == multiset(s) - multiset{s[0]} && s == [s[0]] + s[1..]
  {
    assert s == [s[0]] + s[1..];
  }

  lemma {:induction false} SortedUnique<T(!new)>(leq: (T, T) -> bool, a: seq<T>, b: seq<T>)
    requires TotalOrder(leq) && Sorted(leq, a) && Sorted(leq, b)
    requires multiset(a) == multiset(b)
    ensures a == b
  {
    assert |multiset(a)| == |a| && |multiset(b)| == |b|;
    if a != [] {
      SameHead(leq, a, b);
      WithoutHead(a);
      WithoutHead(b);
      HeadIsLeast(leq, a);
      HeadIsLeast(leq, b);
      hide TotalOrder, Sorted;
      SortedUnique(leq, a[1..], b[1..]);
    }
  }

  lemma SameHead<T(!new)>(leq: (T, T) -> bool, a: seq<T>, b: seq<T>)
    requires TotalOrder(leq) && Sorted(leq, a) && Sorted(leq, b) && a != [] && b != [] && multiset(a) == multiset(b)
    ensures a[0] == b[0]
  {
    HeadIsLeast(leq, a);
    HeadIsLeast(leq, b);
    assert a[0] in multiset(b) && b[0] in multiset(a);
  }

  /** A sorted sequence is a canonical form of its multiset. */
  lemma SortCanonical<T(!new)>(leq: (T, T) -> bool, a: seq<T>, b: seq<T>)
    requires TotalOrder(leq)
    ensures Sort(leq, a) == Sort(leq, b) <==> multiset(a) == multiset(b)
  {
    SortSorts(leq, a);
    SortSorts(leq, b);
    if multiset(a) == multiset(b) {
      SortedUnique(leq, Sort(leq, a), Sort(leq, b));
    }
  }

  ghost predicate Distinct<T>(s: seq<T>) {
    forall i, j :: 0 <= i < j < |s| ==> s[i] != s[j]
  }

  lemma {:induction false} DistinctMultiset<T>(s: seq<T>)
    requires Distinct(s)
    ensures multiset(s) == multiset(set x | x in s)
    ensures |set x | x in s| == |s|
  {
    if s != [] {
      var t := s[1..];
      DistinctMultiset(t);
      assert s == [s[0]] + t;
      assert s[0] !in t;
      assert (set x | x in s) == {s[0]} + (set x | x in t);
    }
  }

  lemma MultisetDistinct<T>(s: seq<T>, t: seq<T>)
    requires Distinct(s) && multiset(t) == multiset(s)
    ensures Distinct(t) && |t| == |s|
  {
    assert |multiset(s)| == |multiset(t)|;
    DistinctMultiset(s);
    forall i, j | 0 <= i < j < |t| ensures t[i] != t[j] {
      assert multiset(t)[t[i]] <= 1;
      var before, after := t[..j], t[j..];
      assert t == before + after;
      assert before[i] in multiset(before) && after[0] in multiset(after);
      assert multiset(t)[t[i]] == multiset(before)[t[i]] + multiset(after)[t[i]];
    }
  }

  /** Two distinct sequences with the same elements are permutations of each other. */
  lemma SameElements<T>(s: seq<T>, t: seq<T>)
    requires Distinct(s) && Distinct(t)
    requires forall x :: x in s <==> x in t
    ensures multiset(s) == multiset(t) && |s| == |t|
  {
    DistinctMultiset(s);
    DistinctMultiset(t);
    assert (set x | x in s) == (set x | x in t);
  }

  function Map<A, B>(f: A -> B, s: seq<A>): (r: seq<B>)
    ensures |r| == |s|
    ensures forall i :: 0 <= i < |s| ==> r[i] == f(s[i])
  {
    if s == [] then [] else [f(s[0])] + Map(f, s[1..])
  }

  function Without<T>(s: seq<T>, k: nat): seq<T>
    requires k < |s|
  {
    s[..k] + s[k + 1..]
  }

  lemma WithoutOne<T>(s: seq<T>, k: nat)
    requires k < |s|
    ensures multiset(s) == multiset(Without(s, k)) + multiset([s[k]])
  {
    assert s == s[..k] + [s[k]] + s[k + 1..];
  }

  lemma SameWithoutOne<T>(a: seq<T>, i: nat, b: seq<T>, k: nat)
    requires i < |a| && k < |b| && a[i] == b[k]
    ensures multiset(a) == multiset(b) <==> multiset(Without(a, i)) == multiset(Without(b, k))
  {
    WithoutOne(a, i);
    WithoutOne(b, k);
    assert multiset(Without(a, i)) == multiset(a) - multiset([a[i]]);
    assert multiset(Without(b, k)) == multiset(b) - multiset([b[k]]);
  }

  /** Mapping a function over two permutations of the same elements gives permutations. */
  lemma {:induction false} MapMultiset<A, B>(f: A -> B, a: seq<A>, b: seq<A>)
    requires multiset(a) == multiset(b)
    ensures multiset(Map(f, a)) == multiset(Map(f, b))
    decreases |a|
  {
    assert |multiset(a)| == |a| && |multiset(b)| == |b|;
    if a != [] {
      assert a[0] in multiset(b);
      var k :| 0 <= k < |b| && b[k] == a[0];
      SameWithoutOne(a, 0, b, k);
      MapMultiset(f, Without(a, 0), Without(b, k));
      assert Map(f, Without(a, 0)) == Without(Map(f, a), 0);
      assert Map(f, Without(b, k)) == Without(Map(f, b), k);
      SameWithoutOne(Map(f, a), 0, Map(f, b), k);
    }
  }

  /** `less` is a strict total order. */
  ghost predicate StrictOrder<T(!new)>(less: (T, T) -> bool) {
    && (forall x :: !less(x, x))
    && (forall x, y :: less(x, y) || less(y, x) || x == y)
    && (forall x, y, z :: less(x, y) && less(y, z) ==> less(x, z))
  }

  /** Lexicographic comparison of tuples: a proper prefix is smaller. */
  predicate LexLeq<T(==)>(less: (T, T) -> bool, a: seq<T>, b: seq<T>) {
    a == [] || (b != [] && (less(a[0], b[0]) || (a[0] == b[0] && LexLeq(less, a[1..], b[1..]))))
  }

  lemma {:induction false} LexTotal<T(!new)>(less: (T, T) -> bool, a: seq<T>, b: seq<T>)
    requires StrictOrder(less)
    ensures LexLeq(less, a, b) || LexLeq(less, b, a)
  {
    if a != [] && b != [] && a[0] == b[0] {
      LexTotal(less, a[1..], b[1..]);
    }
  }

  lemma {:induction false} LexAntisymmetric<T(!new)>(less: (T, T) -> bool, a: seq<T>, b: seq<T>)
    requires StrictOrder(less)
    requires LexLeq(less, a, b) && LexLeq(less, b, a)
    ensures a == b
  {
    if a != [] {
      var x, y := a[0], b[0];
      assert !less(x, x);
      assert x == y;
      LexAntisymmetric(less, a[1..], b[1..]);
      assert a == [a[0]] + a[1..] && b == [b[0]] + b[1..];
    }
  }

  lemma {:induction false} LexTransitive<T(!new)>(less: (T, T) -> bool, a: seq<T>, b: seq<T>, c: seq<T>)
    requires StrictOrder(less)
    requires LexLeq(less, a, b) && LexLeq(less, b, c)
    ensures LexLeq(less, a, c)
  {
    if a != [] && !less(a[0], b[0]) && !less(b[0], c[0]) {
      LexTransitive(less, a[1..], b[1..], c[1..]);
    }
  }

  /** Tuple comparison is a total order whenever element comparison is one. */
  lemma LexTotalOrder<T(!new)>(less: (T, T) -> bool)
    requires StrictOrder(less)
    ensures TotalOrder((a: seq<T>, b: seq<T>) => LexLeq(less, a, b))
  {
    var leq := (a: seq<T>, b: seq<T>) => LexLeq(less, a, b);
    forall a: seq<T>, b: seq<T> ensures leq(a, b) || leq(b, a) {
      LexTotal(less, a, b);
    }
    forall a: seq<T>, b: seq<T> | leq(a, b) && leq(b, a) ensures a == b {
      LexAntisymmetric(less, a, b);
    }
    forall a: seq<T>, b: seq<T>, c: seq<T> | leq(a, b) && leq(b, c) ensures leq(a, c) {
      LexTransitive(less, a, b, c);
    }
  }

  /** At position `n` the tuples first differ: `a` is smaller there, or has ended. */
  ghost predicate FirstBelow<T>(less: (T, T) -> bool, a: seq<T>, b: seq<T>, n: nat) {
    n < |b| && n <= |a| && a[..n] == b[..n] && (n == |a| || less(a[n], b[n]))
  }

  /** Lexicographic comparison is decided at the first difference. */
  lemma {:induction false} LexFirstBelow<T(!new)>(less: (T, T) -> bool, a: seq<T>, b: seq<T>) returns (n: nat)
    requires LexLeq(less, a, b) && a != b
    ensures FirstBelow(less, a, b, n)
  {
    if a == [] || less(a[0], b[0]) {
      n := 0;
    } else {
      assert a == [a[0]] + a[1..] && b == [b[0]] + b[1..];
      var m := LexFirstBelow(less, a[1..], b[1..]);
      n := m + 1;
      assert a[..n] == [a[0]] + a[1..][..m] && b[..n] == [b[0]] + b[1..][..m];
    }
  }
}
