/** The canonical signature of a graph: its sorted roles, and the least edge tuple over all assignments of its
    nodes to role slots. It is a complete invariant: equal exactly for isomorphic graphs. */
module GraphSignature {
  import opened AgyTypes
  import opened GraphEquivalence
  import opened IsomorphismSearch
  import Sorting

  datatype Signature = Signature(roles: seq<string>, edges: seq<Edge>)

  // ---- edge tuples ----

  function EdgeBelow(): (Edge, Edge) -> bool {
    (x: Edge, y: Edge) => x.0 < y.0 || (x.0 == y.0 && x.1 < y.1)
  }

  function EdgeOrder(): (Edge, Edge) -> bool {
    (x: Edge, y: Edge) => x.0 < y.0 || (x.0 == y.0 && x.1 <= y.1)
  }

  /** The sorted tuple of a set of edges. */
  ghost predicate IsTuple(t: seq<Edge>, edges: set<Edge>) {
    Sorting.Sorted(EdgeOrder(), t) && Sorting.Distinct(t) && forall e :: e in t <==> e in edges
  }

  lemma EdgeOrdersAreTotal()
    ensures Sorting.TotalOrder(EdgeOrder())
    ensures Sorting.StrictOrder(EdgeBelow())
  {
    var leq := EdgeOrder();
    forall x: Edge, y: Edge | leq(x, y) && leq(y, x) ensures x == y {
      assert x == (x.0, x.1) && y == (y.0, y.1);
    }
    forall x: Edge, y: Edge ensures EdgeBelow()(x, y) || EdgeBelow()(y, x) || x == y {
      assert x == (x.0, x.1) && y == (y.0, y.1);
    }
  }

  /** A tuple stands for exactly one set. */
  lemma TupleExact(t: seq<Edge>, u: seq<Edge>, s: set<Edge>, r: set<Edge>)
    requires IsTuple(t, s) && IsTuple(u, r)
    ensures t == u <==> s == r
  {
    if s == r {
      EdgeOrdersAreTotal();
      Sorting.SameElements(t, u);
      Sorting.SortedUnique(EdgeOrder(), t, u);
    }
    if t == u {
      assert forall e :: e in s <==> e in r;
    }
  }

  /** The edges seen from the slots: slot `i` holds position `q[i]`. */
  function Pull(q: seq<nat>, edges: set<Edge>): set<Edge> {
    set i: nat, j: nat | i < |q| && j < |q| && (q[i], q[j]) in edges :: (i, j)
  }

  /** An isomorphism carries an assignment of one graph to an assignment of the other with the same edges. */
  lemma PullImage(a: Shape, b: Shape, f: seq<nat>, q: seq<nat>)
    requires IsIso(a, b, f) && Proper(a) && forall x :: x in q ==> x < |f|
    ensures Pull(Image(f, q), b.edges) == Pull(q, a.edges)
  {
    var image := Image(f, q);
    forall i: nat, j: nat | i < |q| && j < |q| ensures (q[i], q[j]) in a.edges <==> (image[i], image[j]) in b.edges {
      assert q[i] in q && q[j] in q;
      IsoEdges(a, b, f, q[i], q[j]);
    }
  }

  // ---- permutations and their product ----

  function Prefixed(x: seq<nat>, ts: seq<seq<nat>>): (r: seq<seq<nat>>)
    ensures |r| == |ts| && forall i :: 0 <= i < |ts| ==> r[i] == x + ts[i]
  {
    seq(|ts|, i requires 0 <= i < |ts| => x + ts[i])
  }

  function Permutations(s: seq<nat>): seq<seq<nat>>
    decreases |s|, |s| + 1
  {
    if s == [] then [[]] else PermutationsFrom(s, 0)
  }

  /** The permutations that start with the element at `k` or later. */
  function PermutationsFrom(s: seq<nat>, k: nat): seq<seq<nat>>
    requires k <= |s|
    decreases |s|, |s| - k
  {
    if k == |s| then [] else Prefixed([s[k]], Permutations(Sorting.Without(s, k))) + PermutationsFrom(s, k + 1)
  }

  /** `t` starts with the element of `s` at `i`, followed by a permutation of the others. */
  ghost predicate StartsWith(s: seq<nat>, t: seq<nat>, i: nat) {
    i < |s| && t != [] && t[0] == s[i] && multiset(t[1..]) == multiset(Sorting.Without(s, i))
  }

  lemma StartsPermutation(s: seq<nat>, t: seq<nat>)
    requires s != []
    ensures multiset(t) == multiset(s) <==> exists i :: 0 <= i < |s| && StartsWith(s, t, i)
  {
    if multiset(t) == multiset(s) {
      assert |multiset(t)| == |multiset(s)|;
      assert t[0] in multiset(s);
      var i :| 0 <= i < |s| && s[i] == t[0];
      Sorting.SameWithoutOne(t, 0, s, i);
      assert t[1..] == Sorting.Without(t, 0);
      assert StartsWith(s, t, i);
    }
    if i :| 0 <= i < |s| && StartsWith(s, t, i) {
      Sorting.SameWithoutOne(t, 0, s, i);
      assert t[1..] == Sorting.Without(t, 0);
    }
  }

  lemma {:induction false} PermutationsExact(s: seq<nat>, t: seq<nat>)
    ensures t in Permutations(s) <==> multiset(t) == multiset(s)
    decreases |s|, |s| + 1
  {
    if s == [] {
      assert multiset(t) == multiset(s) ==> |multiset(t)| == 0;
    } else {
      PermutationsFromExact(s, 0, t);
      StartsPermutation(s, t);
    }
  }

  lemma {:induction false} PermutationsFromExact(s: seq<nat>, k: nat, t: seq<nat>)
    requires k <= |s|
    ensures t in PermutationsFrom(s, k) <==> exists i :: k <= i < |s| && StartsWith(s, t, i)
    decreases |s|, |s| - k
  {
    if k < |s| {
      PermutationsFromExact(s, k + 1, t);
      PrefixedPermutation(s, k, t);
      hide StartsWith;
      assert (exists i :: k <= i < |s| && StartsWith(s, t, i)) <==>
        StartsWith(s, t, k) || exists i :: k + 1 <= i < |s| && StartsWith(s, t, i);
    }
  }

  lemma {:induction false} PrefixedPermutation(s: seq<nat>, k: nat, t: seq<nat>)
    requires k < |s|
    ensures t in Prefixed([s[k]], Permutations(Sorting.Without(s, k))) <==> StartsWith(s, t, k)
    decreases |s|, 0
  {
    hide Permutations, Sorting.Without;
    WithoutIsShorter(s, k);
    PrefixedExact([s[k]], Permutations(Sorting.Without(s, k)), t);
    if t != [] {
      assert t[..1] == [t[0]];
      PermutationsExact(Sorting.Without(s, k), t[1..]);
    }
  }

  lemma WithoutIsShorter(s: seq<nat>, k: nat)
    requires k < |s|
    ensures |Sorting.Without(s, k)| < |s|
  {
  }

  lemma PrefixedExact(x: seq<nat>, ts: seq<seq<nat>>, t: seq<nat>)
    ensures t in Prefixed(x, ts) <==> |x| <= |t| && t[..|x|] == x && t[|x|..] in ts
  {
    if t in Prefixed(x, ts) {
      var i :| 0 <= i < |ts| && Prefixed(x, ts)[i] == t;
      assert t[|x|..] == ts[i];
    }
    if |x| <= |t| && t[..|x|] == x && t[|x|..] in ts {
      var i :| 0 <= i < |ts| && ts[i] == t[|x|..];
      assert Prefixed(x, ts)[i] == t;
    }
  }

  /** Every way to permute each group, the groups laid end to end. */
  function Arrangements(groups: seq<seq<nat>>): seq<seq<nat>>
    decreases |groups|
  {
    if groups == [] then [[]] else Product(Permutations(groups[0]), Arrangements(groups[1..]))
  }

  function Product(heads: seq<seq<nat>>, tails: seq<seq<nat>>): seq<seq<nat>> {
    if heads == [] then [] else Prefixed(heads[0], tails) + Product(heads[1..], tails)
  }

  lemma {:induction false} ProductExact(heads: seq<seq<nat>>, tails: seq<seq<nat>>, n: nat, t: seq<nat>)
    requires forall h :: h in heads ==> |h| == n
    ensures t in Product(heads, tails) <==> n <= |t| && t[..n] in heads && t[n..] in tails
  {
    if heads != [] {
      ProductExact(heads[1..], tails, n, t);
      PrefixedExact(heads[0], tails, t);
      assert t in Product(heads, tails) <==> t in Prefixed(heads[0], tails) || t in Product(heads[1..], tails);
      assert heads == [heads[0]] + heads[1..];
    }
  }

  /** `q` permutes each group in its own block of slots. */
  ghost predicate Fills(groups: seq<seq<nat>>, q: seq<nat>)
    decreases |groups|
  {
    if groups == [] then q == []
    else
      var n := |groups[0]|;
      n <= |q| && multiset(q[..n]) == multiset(groups[0]) && Fills(groups[1..], q[n..])
  }

  lemma {:induction false} ArrangementsExact(groups: seq<seq<nat>>, q: seq<nat>)
    ensures q in Arrangements(groups) <==> Fills(groups, q)
    decreases |groups|
  {
    if groups != [] {
      var n := |groups[0]|;
      forall h | h in Permutations(groups[0]) ensures |h| == n {
        PermutationsExact(groups[0], h);
        assert |multiset(h)| == |multiset(groups[0])|;
      }
      ProductExact(Permutations(groups[0]), Arrangements(groups[1..]), n, q);
      if n <= |q| {
        PermutationsExact(groups[0], q[..n]);
        ArrangementsExact(groups[1..], q[n..]);
      }
    }
  }

  function Concat(groups: seq<seq<nat>>): seq<nat>
    decreases |groups|
  {
    if groups == [] then [] else groups[0] + Concat(groups[1..])
  }

  lemma {:induction false} FillsPermutes(groups: seq<seq<nat>>, q: seq<nat>)
    requires Fills(groups, q)
    ensures multiset(q) == multiset(Concat(groups))
    decreases |groups|
  {
    if groups != [] {
      var n := |groups[0]|;
      FillsPermutes(groups[1..], q[n..]);
      assert q == q[..n] + q[n..];
    }
  }

  lemma {:induction false} ConcatFills(groups: seq<seq<nat>>)
    ensures Fills(groups, Concat(groups))
    decreases |groups|
  {
    if groups != [] {
      ConcatFills(groups[1..]);
      var n := |groups[0]|;
      assert Concat(groups)[..n] == groups[0] && Concat(groups)[n..] == Concat(groups[1..]);
    }
  }

  // ---- role groups ----

  /** The positions below `i` with a role, ascending. */
  function GroupUpTo(s: Shape, r: string, i: nat): seq<nat>
    requires i <= |s.roles|
  {
    if i == 0 then [] else GroupUpTo(s, r, i - 1) + if s.roles[i - 1] == r then [i - 1] else []
  }

  function Group(s: Shape, r: string): seq<nat> {
    GroupUpTo(s, r, |s.roles|)
  }

  lemma GroupStep(s: Shape, r: string, i: nat)
    requires i < |s.roles|
    ensures GroupUpTo(s, r, i + 1) == if s.roles[i] == r then GroupUpTo(s, r, i) + [i] else GroupUpTo(s, r, i)
  {
    var before := GroupUpTo(s, r, i);
    assert before + [] == before;
  }

  lemma {:induction false} GroupMembers(s: Shape, r: string, i: nat)
    requires i <= |s.roles|
    ensures forall x: nat :: x in GroupUpTo(s, r, i) <==> x < i && s.roles[x] == r
    ensures Sorting.Distinct(GroupUpTo(s, r, i))
  {
    if i > 0 {
      hide GroupUpTo;
      GroupMembers(s, r, i - 1);
      GroupStep(s, r, i - 1);
    }
  }

  lemma {:induction false} GroupCount(s: Shape, r: string, i: nat)
    requires i <= |s.roles|
    ensures |GroupUpTo(s, r, i)| == multiset(s.roles[..i])[r]
  {
    if i > 0 {
      hide GroupUpTo;
      GroupCount(s, r, i - 1);
      GroupStep(s, r, i - 1);
      assert s.roles[..i] == s.roles[..i - 1] + [s.roles[i - 1]];
    }
  }

  lemma GroupExact(s: Shape, r: string)
    ensures forall x: nat :: x in Group(s, r) <==> x < |s.roles| && s.roles[x] == r
    ensures Sorting.Distinct(Group(s, r))
    ensures |Group(s, r)| == multiset(s.roles)[r]
  {
    GroupMembers(s, r, |s.roles|);
    GroupCount(s, r, |s.roles|);
    assert s.roles[..|s.roles|] == s.roles;
  }

  function GroupsOf(s: Shape, names: seq<string>): (groups: seq<seq<nat>>)
    ensures |groups| == |names|
    ensures forall i :: 0 <= i < |names| ==> groups[i] == Group(s, names[i])
  {
    if names == [] then [] else [Group(s, names[0])] + GroupsOf(s, names[1..])
  }

  /** The distinct roles in order. */
  ghost predicate IsRoleNames(s: Shape, names: seq<string>) {
    Sorting.Sorted(RoleOrder(), names) && Sorting.Distinct(names) && forall r :: r in names <==> r in s.roles
  }

  lemma RoleNamesUnique(a: Shape, b: Shape, m: seq<string>, n: seq<string>)
    requires multiset(a.roles) == multiset(b.roles) && IsRoleNames(a, m) && IsRoleNames(b, n)
    ensures m == n
  {
    forall r ensures r in m <==> r in n {
      assert r in a.roles <==> r in multiset(a.roles);
      assert r in b.roles <==> r in multiset(b.roles);
    }
    Sorting.SameElements(m, n);
    RoleOrderIsTotal();
    Sorting.SortedUnique(RoleOrder(), m, n);
  }

  lemma {:induction false} GroupsCover(s: Shape, names: seq<string>)
    requires Sorting.Distinct(names)
    ensures Sorting.Distinct(Concat(GroupsOf(s, names)))
    ensures forall x: nat :: x in Concat(GroupsOf(s, names)) <==> x < |s.roles| && s.roles[x] in names
  {
    if names != [] {
      GroupsCover(s, names[1..]);
      GroupExact(s, names[0]);
      var head, tail := Group(s, names[0]), Concat(GroupsOf(s, names[1..]));
      assert GroupsOf(s, names)[1..] == GroupsOf(s, names[1..]);
      assert names == [names[0]] + names[1..];
      assert Concat(GroupsOf(s, names)) == head + tail;
      forall i, j | 0 <= i < |head| && 0 <= j < |tail| ensures head[i] != tail[j] {
        assert head[i] in head && tail[j] in tail;
      }
    }
  }

  /** An arrangement of all the role groups is a bijection between slots and positions. */
  lemma FillsIsBijection(s: Shape, names: seq<string>, q: seq<nat>)
    requires IsRoleNames(s, names) && Fills(GroupsOf(s, names), q)
    ensures Bijection(q, |s.roles|)
  {
    var all := Concat(GroupsOf(s, names));
    var positions := Positions(|s.roles|);
    FillsPermutes(GroupsOf(s, names), q);
    GroupsCover(s, names);
    forall x: nat ensures x in all <==> x in positions {
      if x < |s.roles| {
        assert positions[x] == x && s.roles[x] in s.roles;
      }
    }
    Sorting.SameElements(all, positions);
    Sorting.MultisetDistinct(positions, q);
    forall i | 0 <= i < |q| ensures q[i] < |s.roles| {
      assert q[i] in multiset(q);
      assert q[i] in positions;
    }
  }

  // ---- the signature ----

  /** The least tuple over all arrangements. */
  ghost predicate IsLeast(s: Shape, groups: seq<seq<nat>>, best: seq<Edge>) {
    && (exists q :: Fills(groups, q) && IsTuple(best, Pull(q, s.edges)))
    && (forall q, t :: Fills(groups, q) && IsTuple(t, Pull(q, s.edges)) ==> Sorting.LexLeq(EdgeBelow(), best, t))
  }

  ghost predicate IsSignature(s: Shape, sig: Signature) {
    && sig.roles == Sorting.Sort(RoleOrder(), s.roles)
    && exists names :: IsRoleNames(s, names) && IsLeast(s, GroupsOf(s, names), sig.edges)
  }

  /** Isomorphic shapes offer the same edge tuples. */
  lemma {:induction false} FillsImage(a: Shape, b: Shape, f: seq<nat>, names: seq<string>, q: seq<nat>)
    requires IsIso(a, b, f) && Fills(GroupsOf(a, names), q) && forall x :: x in q ==> x < |f|
    ensures Fills(GroupsOf(b, names), Image(f, q))
    decreases |names|
  {
    if names == [] {
      assert Image(f, q) == [];
    } else {
      var groups := GroupsOf(a, names);
      var n := |groups[0]|;
      var head, tail := q[..n], q[n..];
      assert groups[1..] == GroupsOf(a, names[1..]) && GroupsOf(b, names)[1..] == GroupsOf(b, names[1..]);
      forall x | x in head ensures x < |f| {
        assert x in q;
      }
      forall x | x in tail ensures x < |f| {
        assert x in q;
      }
      GroupImage(a, b, f, names[0], head);
      FillsImage(a, b, f, names[1..], tail);
      assert |multiset(Image(f, head))| == |multiset(Group(b, names[0]))|;
      assert Image(f, q)[..n] == Image(f, head) && Image(f, q)[n..] == Image(f, tail);
    }
  }

  lemma GroupImage(a: Shape, b: Shape, f: seq<nat>, r: string, head: seq<nat>)
    requires IsIso(a, b, f) && multiset(head) == multiset(Group(a, r)) && forall x :: x in head ==> x < |f|
    ensures multiset(Image(f, head)) == multiset(Group(b, r))
  {
    GroupExact(a, r);
    GroupExact(b, r);
    Sorting.MultisetDistinct(Group(a, r), head);
    forall x: nat ensures x in head <==> x in Group(a, r) {
      assert x in head <==> x in multiset(head);
    }
    forall y: nat ensures y in Group(b, r) <==> exists x :: x in head && f[x] == y {
      if y in Group(b, r) {
        AllAssigned(f, |a.roles|, y);
        var x :| 0 <= x < |f| && f[x] == y;
        assert x in Group(a, r);
      }
    }
    ImageLists(f, head, Group(b, r));
  }

  lemma LeastBelow(a: Shape, b: Shape, f: seq<nat>, names: seq<string>, s: seq<Edge>, t: seq<Edge>)
    requires IsIso(a, b, f) && Proper(a) && IsRoleNames(a, names)
    requires IsLeast(a, GroupsOf(a, names), s) && IsLeast(b, GroupsOf(b, names), t)
    ensures Sorting.LexLeq(EdgeBelow(), t, s)
  {
    hide IsTuple, IsIso, Proper, Pull;
    var q :| Fills(GroupsOf(a, names), q) && IsTuple(s, Pull(q, a.edges));
    FillsIsBijection(a, names, q);
    IsoLength(a, b, f);
    forall x | x in q ensures x < |f| {
    }
    FillsImage(a, b, f, names, q);
    PullImage(a, b, f, q);
  }

  lemma IsoLength(a: Shape, b: Shape, f: seq<nat>)
    requires IsIso(a, b, f)
    ensures |f| == |a.roles| && |f| == |b.roles|
  {
  }

  function IndexIn(q: seq<nat>, x: nat): (i: nat)
    requires x in q
    ensures i < |q| && q[i] == x
  {
    if q[0] == x then 0 else 1 + IndexIn(q[1..], x)
  }

  /** The map taking `q[i]` to `r[i]`. */
  function Connect(q: seq<nat>, r: seq<nat>): seq<nat>
    requires |q| == |r|
  {
    seq(|q|, x requires 0 <= x < |q| => if x in q then r[IndexIn(q, x)] else 0)
  }

  lemma ConnectAt(q: seq<nat>, r: seq<nat>, n: nat)
    requires Bijection(q, n) && Bijection(r, n)
    ensures forall i :: 0 <= i < n ==> Connect(q, r)[q[i]] == r[i]
    ensures Bijection(Connect(q, r), n)
  {
    var h := Connect(q, r);
    forall i | 0 <= i < n ensures h[q[i]] == r[i] {
      assert q[i] in q && IndexIn(q, q[i]) == i;
    }
    forall x | 0 <= x < n ensures x in q && h[x] == r[IndexIn(q, x)] {
      AllAssigned(q, n, x);
    }
    forall x, y | 0 <= x < y < n ensures h[x] != h[y] {
    }
  }

  /** Two arrangements that agree on roles and edges connect to an isomorphism. */
  lemma ConnectIsIso(a: Shape, b: Shape, q: seq<nat>, r: seq<nat>)
    requires Proper(a) && Proper(b) && |a.roles| == |b.roles| && Bijection(q, |a.roles|) && Bijection(r, |a.roles|)
    requires forall i :: 0 <= i < |q| ==> a.roles[q[i]] == b.roles[r[i]]
    requires Pull(q, a.edges) == Pull(r, b.edges)
    ensures IsIso(a, b, Connect(q, r))
  {
    var h, n := Connect(q, r), |a.roles|;
    ConnectAt(q, r, n);
    forall x | 0 <= x < n ensures b.roles[h[x]] == a.roles[x] {
      AllAssigned(q, n, x);
    }
    forall e | e in a.edges ensures (h[e.0], h[e.1]) in b.edges {
      AllAssigned(q, n, e.0);
      AllAssigned(q, n, e.1);
      assert (IndexIn(q, e.0), IndexIn(q, e.1)) in Pull(q, a.edges);
    }
    forall e | e in b.edges ensures e in Carry(h, a.edges) {
      AllAssigned(r, n, e.0);
      AllAssigned(r, n, e.1);
      var i, j := IndexIn(r, e.0), IndexIn(r, e.1);
      assert (i, j) in Pull(r, b.edges);
      assert (q[i], q[j]) in a.edges && h[q[i]] == e.0 && h[q[j]] == e.1;
    }
  }

  lemma InverseIso(a: Shape, b: Shape, f: seq<nat>)
    requires IsIso(a, b, f) && Proper(a) && Proper(b)
    ensures IsIso(b, a, Connect(f, Positions(|f|)))
  {
    var positions := Positions(|f|);
    forall i: nat, j: nat | i < |f| && j < |f| ensures (f[i], f[j]) in b.edges <==> (positions[i], positions[j]) in a.edges {
      IsoEdges(a, b, f, i, j);
    }
    assert Pull(f, b.edges) == Pull(positions, a.edges);
    ConnectIsIso(b, a, f, positions);
  }

  /** The roles the slots have: they depend only on the names and the sizes of the groups. */
  function SlotRoles(s: Shape, names: seq<string>): seq<string> {
    if names == [] then []
    else seq(multiset(s.roles)[names[0]], i => names[0]) + SlotRoles(s, names[1..])
  }

  lemma {:induction false} FillsSlotRoles(s: Shape, names: seq<string>, q: seq<nat>)
    requires Fills(GroupsOf(s, names), q)
    ensures |q| == |SlotRoles(s, names)|
    ensures forall i :: 0 <= i < |q| ==> q[i] < |s.roles| && s.roles[q[i]] == SlotRoles(s, names)[i]
    decreases |names|
  {
    if names != [] {
      var group := Group(s, names[0]);
      var n := |group|;
      assert GroupsOf(s, names)[1..] == GroupsOf(s, names[1..]);
      GroupExact(s, names[0]);
      FillsSlotRoles(s, names[1..], q[n..]);
      forall i | 0 <= i < n ensures q[i] < |s.roles| && s.roles[q[i]] == names[0] {
        assert q[i] == q[..n][i] && q[i] in multiset(q[..n]);
        assert q[i] in group;
      }
    }
  }

  lemma {:induction false} SameSlotRoles(a: Shape, b: Shape, names: seq<string>)
    requires multiset(a.roles) == multiset(b.roles)
    ensures SlotRoles(a, names) == SlotRoles(b, names)
  {
    if names != [] {
      SameSlotRoles(a, b, names[1..]);
    }
  }

  /** The signature is a complete invariant of the shape. */
  lemma SignatureComplete(a: Shape, b: Shape, s: Signature, t: Signature)
    requires Proper(a) && Proper(b) && IsSignature(a, s) && IsSignature(b, t)
    ensures s == t <==> Isomorphic(a, b)
  {
    hide IsTuple, IsIso, Proper, Pull, Isomorphic, IsRoleNames, IsLeast;
    RoleOrderIsTotal();
    Sorting.SortCanonical(RoleOrder(), a.roles, b.roles);
    if Isomorphic(a, b) {
      IsoKeepsRoleCounts(a, b);
    }
    if multiset(a.roles) == multiset(b.roles) {
      var names, others :| IsRoleNames(a, names) && IsLeast(a, GroupsOf(a, names), s.edges)
        && IsRoleNames(b, others) && IsLeast(b, GroupsOf(b, others), t.edges);
      RoleNamesUnique(a, b, names, others);
      if Isomorphic(a, b) {
        SameLeast(a, b, names, s.edges, t.edges);
      }
      if s.edges == t.edges {
        LeastConnects(a, b, names, s.edges);
      }
    }
  }

  lemma SameLeast(a: Shape, b: Shape, names: seq<string>, s: seq<Edge>, t: seq<Edge>)
    requires Isomorphic(a, b) && Proper(a) && Proper(b) && IsRoleNames(a, names) && IsRoleNames(b, names)
    requires IsLeast(a, GroupsOf(a, names), s) && IsLeast(b, GroupsOf(b, names), t)
    ensures s == t
  {
    hide IsTuple, IsIso, Proper, Pull, IsRoleNames, IsLeast;
    var f :| IsIso(a, b, f);
    LeastBelow(a, b, f, names, s, t);
    InverseIso(a, b, f);
    LeastBelow(b, a, Connect(f, Positions(|f|)), names, t, s);
    EdgeOrdersAreTotal();
    Sorting.LexAntisymmetric(EdgeBelow(), s, t);
  }

  lemma LeastConnects(a: Shape, b: Shape, names: seq<string>, s: seq<Edge>)
    requires Proper(a) && Proper(b) && IsRoleNames(a, names) && IsRoleNames(b, names) && multiset(a.roles) == multiset(b.roles)
    requires IsLeast(a, GroupsOf(a, names), s) && IsLeast(b, GroupsOf(b, names), s)
    ensures Isomorphic(a, b)
  {
    hide IsTuple, IsIso, Proper, Pull, IsRoleNames;
    var q :| Fills(GroupsOf(a, names), q) && IsTuple(s, Pull(q, a.edges));
    var r :| Fills(GroupsOf(b, names), r) && IsTuple(s, Pull(r, b.edges));
    TupleExact(s, s, Pull(q, a.edges), Pull(r, b.edges));
    FillsIsBijection(a, names, q);
    FillsIsBijection(b, names, r);
    FillsSlotRoles(a, names, q);
    FillsSlotRoles(b, names, r);
    SameSlotRoles(a, b, names);
    ConnectIsIso(a, b, q, r);
  }

  // ---- computing it ----

  ghost predicate Grouped(s: Shape, i: nat, groups: map<string, seq<nat>>, found: seq<string>) {
    && i <= |s.roles| && Sorting.Distinct(found)
    && (forall r :: r in found <==> r in s.roles[..i])
    && (forall r :: r in found <==> r in groups)
    && (forall r :: r in groups ==> groups[r] == GroupUpTo(s, r, i))
  }

  lemma GroupNext(s: Shape, i: nat, groups: map<string, seq<nat>>, found: seq<string>)
    requires Grouped(s, i, groups, found) && i < |s.roles|
    ensures var r := s.roles[i];
            if r in groups then Grouped(s, i + 1, groups[r := groups[r] + [i]], found)
            else Grouped(s, i + 1, groups[r := [i]], found + [r])
  {
    var r := s.roles[i];
    assert s.roles[..i + 1] == s.roles[..i] + [r];
    if r in groups {
      GroupsNext(s, i, groups, groups[r := groups[r] + [i]]);
    } else {
      GroupIsNew(s, r, i);
      assert GroupUpTo(s, r, i) + [i] == [i];
      GroupsNext(s, i, groups, groups[r := [i]]);
      DistinctMore(found, r);
    }
  }

  lemma GroupIsNew(s: Shape, r: string, i: nat)
    requires i <= |s.roles| && r !in s.roles[..i]
    ensures GroupUpTo(s, r, i) == []
  {
    GroupCount(s, r, i);
    assert r !in multiset(s.roles[..i]);
  }

  lemma GroupsNext(s: Shape, i: nat, groups: map<string, seq<nat>>, next: map<string, seq<nat>>)
    requires i < |s.roles| && forall r :: r in groups ==> groups[r] == GroupUpTo(s, r, i)
    requires next == groups[s.roles[i] := GroupUpTo(s, s.roles[i], i) + [i]]
    ensures forall r :: r in next ==> next[r] == GroupUpTo(s, r, i + 1)
  {
    hide GroupUpTo;
    forall r | r in next ensures next[r] == GroupUpTo(s, r, i + 1) {
      GroupStep(s, r, i);
    }
  }

  lemma DistinctMore(found: seq<string>, r: string)
    requires Sorting.Distinct(found) && r !in found
    ensures Sorting.Distinct(found + [r])
  {
  }

  /** Groups the positions by role; the names come in order of first appearance. */
  method RoleGroups(s: Shape) returns (groups: map<string, seq<nat>>, found: seq<string>)
    ensures Sorting.Distinct(found) && (forall r :: r in found <==> r in s.roles)
    ensures forall r :: r in found ==> r in groups && groups[r] == Group(s, r)
  {
    hide Sorting.Distinct, GroupUpTo;
    groups, found := map[], [];
    assert Grouped(s, 0, groups, found) by {
      NothingGrouped(s);
    }
    for i := 0 to |s.roles|
      invariant Grouped(s, i, groups, found)
    {
      hide Grouped;
      GroupNext(s, i, groups, found);
      var r := s.roles[i];
      if r in groups {
        groups := groups[r := groups[r] + [i]];
      } else {
        found := found + [r];
        groups := groups[r := [i]];
      }
    }
    assert s.roles[..|s.roles|] == s.roles;
  }

  lemma NothingGrouped(s: Shape)
    ensures Grouped(s, 0, map[], [])
  {
  }

  /** The sorted role names and their groups in that order. */
  method OrderedGroups(s: Shape) returns (names: seq<string>, groups: seq<seq<nat>>)
    ensures IsRoleNames(s, names) && groups == GroupsOf(s, names)
  {
    hide Group, IsRoleNames;
    var byRole, found := RoleGroups(s);
    names := Sorting.Sort(RoleOrder(), found);
    SortedNames(s, found);
    groups := [];
    for i := 0 to |names|
      invariant |groups| == i && forall k :: 0 <= k < i ==> groups[k] == Group(s, names[k])
    {
      assert names[i] in names;
      groups := groups + [byRole[names[i]]];
    }
  }

  lemma SortedNames(s: Shape, found: seq<string>)
    requires Sorting.Distinct(found) && (forall r :: r in found <==> r in s.roles)
    ensures IsRoleNames(s, Sorting.Sort(RoleOrder(), found))
    ensures forall r :: r in Sorting.Sort(RoleOrder(), found) <==> r in found
  {
    var names := Sorting.Sort(RoleOrder(), found);
    RoleOrderIsTotal();
    Sorting.SortSorts(RoleOrder(), found);
    Sorting.MultisetDistinct(found, names);
    forall r ensures r in names <==> r in found {
      assert r in names <==> r in multiset(names);
      assert r in found <==> r in multiset(found);
    }
  }

  /** The slot of each position. */
  method SlotOf(q: seq<nat>) returns (slot: map<nat, nat>)
    requires Sorting.Distinct(q)
    ensures forall i :: 0 <= i < |q| ==> q[i] in slot && slot[q[i]] == i
  {
    slot := map[];
    for i := 0 to |q|
      invariant forall k :: 0 <= k < i ==> q[k] in slot && slot[q[k]] == k
    {
      slot := slot[q[i] := i];
    }
  }

  /** The sorted tuple of the edges as one arrangement sees them. */
  method EdgeTuple(s: Shape, q: seq<nat>) returns (t: seq<Edge>)
    requires Proper(s) && Bijection(q, |s.roles|)
    ensures IsTuple(t, Pull(q, s.edges))
  {
    var slot := SlotOf(q);
    var collected: seq<Edge> := [];
    var rest := s.edges;
    assert Pull(q, s.edges - rest) == {};
    while rest != {}
      invariant rest <= s.edges
      invariant Sorting.Distinct(collected) && forall e :: e in collected <==> e in Pull(q, s.edges - rest)
      decreases rest
    {
      var e :| e in rest;
      AllAssigned(q, |q|, e.0);
      AllAssigned(q, |q|, e.1);
      PullOneMore(q, s.edges - rest, e, IndexIn(q, e.0), IndexIn(q, e.1));
      assert s.edges - (rest - {e}) == s.edges - rest + {e};
      collected := collected + [(slot[e.0], slot[e.1])];
      rest := rest - {e};
    }
    assert s.edges - {} == s.edges;
    t := Sorting.Sort(EdgeOrder(), collected);
    SortedIsTuple(collected, Pull(q, s.edges));
  }

  lemma PullOneMore(q: seq<nat>, edges: set<Edge>, e: Edge, i: nat, j: nat)
    requires Sorting.Distinct(q) && i < |q| && j < |q| && q[i] == e.0 && q[j] == e.1 && e !in edges
    ensures Pull(q, edges + {e}) == Pull(q, edges) + {(i, j)} && (i, j) !in Pull(q, edges)
  {
    assert (q[i], q[j]) == e;
  }

  lemma SortedIsTuple(collected: seq<Edge>, edges: set<Edge>)
    requires Sorting.Distinct(collected) && forall e :: e in collected <==> e in edges
    ensures IsTuple(Sorting.Sort(EdgeOrder(), collected), edges)
  {
    var t := Sorting.Sort(EdgeOrder(), collected);
    EdgeOrdersAreTotal();
    Sorting.SortSorts(EdgeOrder(), collected);
    Sorting.MultisetDistinct(collected, t);
    forall e ensures e in t <==> e in collected {
      assert e in t <==> e in multiset(t);
      assert e in collected <==> e in multiset(collected);
    }
  }

  /** The least tuple over the first `k` arrangements. */
  ghost predicate LeastOf(s: Shape, qs: seq<seq<nat>>, k: nat, best: seq<Edge>) {
    && k <= |qs|
    && (exists i :: 0 <= i < k && IsTuple(best, Pull(qs[i], s.edges)))
    && (forall i, t :: 0 <= i < k && IsTuple(t, Pull(qs[i], s.edges)) ==> Sorting.LexLeq(EdgeBelow(), best, t))
  }

  lemma FirstLeast(s: Shape, qs: seq<seq<nat>>, t: seq<Edge>)
    requires qs != [] && IsTuple(t, Pull(qs[0], s.edges))
    ensures LeastOf(s, qs, 1, t)
  {
    EdgeOrdersAreTotal();
    forall u | IsTuple(u, Pull(qs[0], s.edges)) ensures Sorting.LexLeq(EdgeBelow(), t, u) {
      TupleExact(t, u, Pull(qs[0], s.edges), Pull(qs[0], s.edges));
      Sorting.LexTotal(EdgeBelow(), t, t);
    }
  }

  lemma NextLeast(s: Shape, qs: seq<seq<nat>>, k: nat, best: seq<Edge>, t: seq<Edge>)
    requires k < |qs| && LeastOf(s, qs, k, best) && IsTuple(t, Pull(qs[k], s.edges))
    ensures LeastOf(s, qs, k + 1, if Sorting.LexLeq(EdgeBelow(), best, t) then best else t)
  {
    hide IsTuple, Pull;
    EdgeOrdersAreTotal();
    Sorting.LexTotal(EdgeBelow(), best, t);
    Sorting.LexTotal(EdgeBelow(), t, t);
    var next := if Sorting.LexLeq(EdgeBelow(), best, t) then best else t;
    forall i, u | 0 <= i < k + 1 && IsTuple(u, Pull(qs[i], s.edges)) ensures Sorting.LexLeq(EdgeBelow(), next, u) {
      if i < k {
        if next == t {
          Sorting.LexTransitive(EdgeBelow(), t, best, u);
        }
      } else {
        TupleExact(t, u, Pull(qs[k], s.edges), Pull(qs[k], s.edges));
      }
    }
  }

  lemma LeastAt(s: Shape, qs: seq<seq<nat>>, best: seq<Edge>, k: nat, t: seq<Edge>)
    requires LeastOf(s, qs, |qs|, best) && k < |qs| && IsTuple(t, Pull(qs[k], s.edges))
    ensures Sorting.LexLeq(EdgeBelow(), best, t)
  {
  }

  lemma AllLeast(s: Shape, groups: seq<seq<nat>>, best: seq<Edge>)
    requires LeastOf(s, Arrangements(groups), |Arrangements(groups)|, best)
    ensures IsLeast(s, groups, best)
  {
    hide IsTuple, Pull, Arrangements;
    var qs := Arrangements(groups);
    var i :| 0 <= i < |qs| && IsTuple(best, Pull(qs[i], s.edges));
    ArrangementsExact(groups, qs[i]);
    forall q, t | Fills(groups, q) && IsTuple(t, Pull(q, s.edges)) ensures Sorting.LexLeq(EdgeBelow(), best, t) {
      ArrangementsExact(groups, q);
      var k :| 0 <= k < |qs| && qs[k] == q;
      LeastAt(s, qs, best, k, t);
    }
  }

  method LeastTuple(s: Shape, names: seq<string>, groups: seq<seq<nat>>) returns (best: seq<Edge>)
    requires Proper(s) && IsRoleNames(s, names) && groups == GroupsOf(s, names)
    ensures IsLeast(s, groups, best)
  {
    hide IsTuple, Pull, Arrangements, IsLeast, LeastOf, Concat, Fills, Bijection, IsRoleNames, Proper;
    var qs := Arrangements(groups);
    ConcatFills(groups);
    ArrangementsExact(groups, Concat(groups));
    assert Concat(groups) in qs;
    ArrangementsExact(groups, qs[0]);
    FillsIsBijection(s, names, qs[0]);
    best := EdgeTuple(s, qs[0]);
    FirstLeast(s, qs, best);
    for k := 1 to |qs|
      invariant LeastOf(s, qs, k, best)
    {
      ArrangementsExact(groups, qs[k]);
      FillsIsBijection(s, names, qs[k]);
      var t := EdgeTuple(s, qs[k]);
      NextLeast(s, qs, k, best, t);
      if !Sorting.LexLeq(EdgeBelow(), best, t) {
        best := t;
      }
    }
    AllLeast(s, groups, best);
  }

  /** The signature of a graph; a graph with an unresolved id has none. */
  method ComputeSignature(g: TaskGraph) returns (sig: Option<Signature>)
    ensures sig.Some? <==> g.nodes == [] || Resolves(g)
    ensures Resolves(g) ==> sig.Some? && IsSignature(ShapeOf(g), sig.value)
  {
    hide EffectiveEdges, IsLeast, IsRoleNames, Proper;
    var roles := Sorting.Sort(RoleOrder(), RolesOf(g.nodes));
    if g.nodes == [] {
      if Resolves(g) {
        NoNodes(g);
      }
      return Some(Signature(roles, []));
    }
    var edges := CollectEdges(g);
    if edges.None? {
      return None;
    }
    ShapeIsProper(g);
    var s := Shape(RolesOf(g.nodes), edges.value);
    var names, groups := OrderedGroups(s);
    var best := LeastTuple(s, names, groups);
    sig := Some(Signature(roles, best));
  }

  lemma NoNodes(g: TaskGraph)
    requires g.nodes == [] && Resolves(g)
    ensures IsSignature(ShapeOf(g), Signature(Sorting.Sort(RoleOrder(), RolesOf(g.nodes)), []))
  {
    var s := ShapeOf(g);
    ShapeIsProper(g);
    forall e | e in s.edges ensures false {
    }
    assert s.edges == {};
    assert Pull([], s.edges) == {};
    assert IsRoleNames(s, []) && GroupsOf(s, []) == [];
    assert Fills([], []) && IsTuple([], Pull([], s.edges));
    assert IsLeast(s, [], []);
  }

  /** Two graphs whose ids resolve have equal signatures exactly when they are the same up to their ids. */
  lemma SignatureDecides(left: TaskGraph, right: TaskGraph, s: Signature, t: Signature)
    requires Resolves(left) && Resolves(right)
    requires IsSignature(ShapeOf(left), s) && IsSignature(ShapeOf(right), t)
    ensures s == t <==> Isomorphic(ShapeOf(left), ShapeOf(right))
  {
    hide IsSignature, EffectiveEdges, Isomorphic;
    ShapeIsProper(left);
    ShapeIsProper(right);
    SignatureComplete(ShapeOf(left), ShapeOf(right), s, t);
  }

  /** The planner's comparison of two graphs: the signatures are equal exactly when the search says so. */
  method CompareGraphs(left: TaskGraph, right: TaskGraph)
    returns (first: Option<Signature>, second: Option<Signature>, equivalent: Option<bool>)
    ensures Resolves(left) && Resolves(right) ==>
      first.Some? && second.Some? && equivalent == Some(first == second)
  {
    hide IsSignature, EffectiveEdges, Isomorphic, Resolves;
    first := ComputeSignature(left);
    second := ComputeSignature(right);
    equivalent := EquivalentGraphShape(left, right);
    if Resolves(left) && Resolves(right) {
      SignatureDecides(left, right, first.value, second.value);
    }
  }
}
