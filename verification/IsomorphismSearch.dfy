/** The backtracking search for an isomorphism, with degree-profile candidates and partial-edge pruning. */
module IsomorphismSearch {
  import opened AgyTypes
  import opened GraphEquivalence
  import Sorting

  // ---- adjacency ----

  function Get(m: map<nat, seq<nat>>, p: nat): seq<nat> {
    if p in m then m[p] else []
  }

  ghost predicate ListsSources(edges: set<Edge>, incoming: map<nat, seq<nat>>) {
    forall p :: Lists(Get(incoming, p), Sources(edges, p))
  }

  ghost predicate ListsTargets(edges: set<Edge>, outgoing: map<nat, seq<nat>>) {
    forall p :: Lists(Get(outgoing, p), Targets(edges, p))
  }

  lemma OneMoreSource(edges: set<Edge>, e: Edge, incoming: map<nat, seq<nat>>)
    requires ListsSources(edges, incoming) && e !in edges
    ensures ListsSources(edges + {e}, incoming[e.1 := Get(incoming, e.1) + [e.0]])
  {
    var after := incoming[e.1 := Get(incoming, e.1) + [e.0]];
    forall p ensures Lists(Get(after, p), Sources(edges + {e}, p)) {
      assert Lists(Get(incoming, p), Sources(edges, p));
      if p == e.1 {
        assert Sources(edges + {e}, p) == Sources(edges, p) + {e.0};
        assert e.0 !in Sources(edges, p);
      } else {
        assert Sources(edges + {e}, p) == Sources(edges, p);
      }
    }
  }

  lemma OneMoreTarget(edges: set<Edge>, e: Edge, outgoing: map<nat, seq<nat>>)
    requires ListsTargets(edges, outgoing) && e !in edges
    ensures ListsTargets(edges + {e}, outgoing[e.0 := Get(outgoing, e.0) + [e.1]])
  {
    var after := outgoing[e.0 := Get(outgoing, e.0) + [e.1]];
    forall p ensures Lists(Get(after, p), Targets(edges + {e}, p)) {
      assert Lists(Get(outgoing, p), Targets(edges, p));
      if p == e.0 {
        assert Targets(edges + {e}, p) == Targets(edges, p) + {e.1};
        assert e.1 !in Targets(edges, p);
      } else {
        assert Targets(edges + {e}, p) == Targets(edges, p);
      }
    }
  }

  /** Collects the neighbours of every position, edge by edge. */
  method Adjacency(edges: set<Edge>) returns (incoming: map<nat, seq<nat>>, outgoing: map<nat, seq<nat>>)
    ensures ListsSources(edges, incoming) && ListsTargets(edges, outgoing)
  {
    incoming, outgoing := map[], map[];
    var rest := edges;
    assert edges - rest == {};
    while rest != {}
      invariant rest <= edges
      invariant ListsSources(edges - rest, incoming) && ListsTargets(edges - rest, outgoing)
      decreases rest
    {
      hide ListsSources, ListsTargets;
      var e: Edge :| e in rest;
      OneMoreSource(edges - rest, e, incoming);
      OneMoreTarget(edges - rest, e, outgoing);
      assert edges - (rest - {e}) == edges - rest + {e};
      outgoing := outgoing[e.0 := Get(outgoing, e.0) + [e.1]];
      incoming := incoming[e.1 := Get(incoming, e.1) + [e.0]];
      rest := rest - {e};
    }
    assert edges - {} == edges;
  }

  method DegreeProfile(s: Shape, incoming: map<nat, seq<nat>>, outgoing: map<nat, seq<nat>>, p: nat) returns (r: Profile)
    requires ListsSources(s.edges, incoming) && ListsTargets(s.edges, outgoing)
    ensures IsProfile(s, p, r)
  {
    r := Profile(SortedRoles(s, Get(incoming, p)), SortedRoles(s, Get(outgoing, p)));
    assert Lists(Get(incoming, p), Sources(s.edges, p)) && Lists(Get(outgoing, p), Targets(s.edges, p));
  }

  // ---- candidates ----

  /** The row offers positions of the same role, and the choice of every isomorphism. */
  ghost predicate Offers(a: Shape, b: Shape, p: nat, row: seq<nat>) {
    && (forall r :: r in row ==> r < |b.roles| && Role(b, r) == Role(a, p))
    && (forall f :: IsIso(a, b, f) && p < |f| ==> f[p] in row)
  }

  ghost predicate OffersBelow(a: Shape, b: Shape, p: nat, row: seq<nat>, r: nat) {
    && (forall x :: x in row ==> x < |b.roles| && Role(b, x) == Role(a, p))
    && (forall f :: IsIso(a, b, f) && p < |f| && f[p] < r ==> f[p] in row)
  }

  lemma OfferNext(a: Shape, b: Shape, p: nat, row: seq<nat>, r: nat, pa: Profile, pb: Profile)
    requires Proper(a) && Proper(b) && p < |a.roles| && |a.roles| == |b.roles| && r < |b.roles|
    requires OffersBelow(a, b, p, row, r) && IsProfile(a, p, pa) && IsProfile(b, r, pb)
    ensures OffersBelow(a, b, p, if Role(b, r) == Role(a, p) && pa == pb then row + [r] else row, r + 1)
  {
    hide IsProfile;
    forall f | IsIso(a, b, f) && p < |f| && f[p] == r ensures Role(b, r) == Role(a, p) && pa == pb {
      IsoKeepsProfile(a, b, f, p, pa, pb);
    }
  }

  ghost predicate AdjacencyOf(s: Shape, adj: (map<nat, seq<nat>>, map<nat, seq<nat>>)) {
    ListsSources(s.edges, adj.0) && ListsTargets(s.edges, adj.1)
  }

  method CandidatesFor(a: Shape, b: Shape,
    adjA: (map<nat, seq<nat>>, map<nat, seq<nat>>), adjB: (map<nat, seq<nat>>, map<nat, seq<nat>>), p: nat)
    returns (row: seq<nat>)
    requires Proper(a) && Proper(b) && p < |a.roles| && |a.roles| == |b.roles|
    requires AdjacencyOf(a, adjA) && AdjacencyOf(b, adjB)
    ensures Offers(a, b, p, row)
  {
    hide ListsSources, ListsTargets, IsProfile, IsIso, Proper;
    row := [];
    var pa := DegreeProfile(a, adjA.0, adjA.1, p);
    for r := 0 to |b.roles|
      invariant OffersBelow(a, b, p, row, r)
    {
      var pb := DegreeProfile(b, adjB.0, adjB.1, r);
      OfferNext(a, b, p, row, r, pa, pb);
      if b.roles[r] == a.roles[p] && pa == pb {
        row := row + [r];
      }
    }
    OffersAll(a, b, p, row);
  }

  lemma OffersAll(a: Shape, b: Shape, p: nat, row: seq<nat>)
    requires OffersBelow(a, b, p, row, |b.roles|) && |a.roles| == |b.roles|
    ensures Offers(a, b, p, row)
  {
  }

  ghost predicate Candidates(a: Shape, b: Shape, rows: seq<seq<nat>>) {
    |rows| == |a.roles| && forall p :: 0 <= p < |rows| ==> Offers(a, b, p, rows[p])
  }

  /** All candidate rows; none of them comes out when one would be empty, and then nothing is isomorphic. */
  method AllCandidates(a: Shape, b: Shape) returns (rows: Option<seq<seq<nat>>>)
    requires Proper(a) && Proper(b) && |a.roles| == |b.roles|
    ensures rows.Some? ==> Candidates(a, b, rows.value)
    ensures rows.None? ==> !Isomorphic(a, b)
  {
    hide ListsSources, ListsTargets, Proper;
    var inA, outA := Adjacency(a.edges);
    var inB, outB := Adjacency(b.edges);
    var all: seq<seq<nat>> := [];
    for p := 0 to |a.roles|
      invariant |all| == p && forall q :: 0 <= q < p ==> Offers(a, b, q, all[q])
    {
      var row := CandidatesFor(a, b, (inA, outA), (inB, outB), p);
      if row == [] {
        return None;
      }
      all := all + [row];
    }
    rows := Some(all);
  }

  // ---- the order of assignment ----

  function CountAt(rows: seq<seq<nat>>, p: nat): nat {
    if p < |rows| then |rows[p]| else 0
  }

  /** Fewest candidates first, then by position. */
  function Scarcity(rows: seq<seq<nat>>): (nat, nat) -> bool {
    (p: nat, q: nat) => CountAt(rows, p) < CountAt(rows, q) || (CountAt(rows, p) == CountAt(rows, q) && p <= q)
  }

  function Positions(n: nat): seq<nat> {
    seq(n, i requires 0 <= i < n => i)
  }

  function AssignmentOrder(rows: seq<seq<nat>>): seq<nat> {
    Sorting.Sort(Scarcity(rows), Positions(|rows|))
  }

  lemma OrderIsBijection(rows: seq<seq<nat>>)
    ensures Bijection(AssignmentOrder(rows), |rows|)
  {
    var positions := Positions(|rows|);
    assert Sorting.TotalOrder(Scarcity(rows));
    Sorting.SortSorts(Scarcity(rows), positions);
    Sorting.MultisetDistinct(positions, AssignmentOrder(rows));
    forall i | 0 <= i < |rows| ensures AssignmentOrder(rows)[i] < |rows| {
      assert AssignmentOrder(rows)[i] in multiset(positions);
    }
  }

  // ---- the search ----

  ghost predicate Extends(f: seq<nat>, mapping: map<nat, nat>) {
    forall p :: p in mapping ==> p < |f| && f[p] == mapping[p]
  }

  /** Some isomorphism agrees with the partial map. */
  ghost predicate Extendable(a: Shape, b: Shape, mapping: map<nat, nat>) {
    exists f :: IsIso(a, b, f) && Extends(f, mapping)
  }

  /** Every edge between `p` and the positions already mapped goes to an edge. */
  ghost predicate PartialMatch(a: Shape, b: Shape, p: nat, r: nat, mapping: map<nat, nat>) {
    forall e :: e in a.edges ==> MatchesAt(b, e, p, r, mapping)
  }

  predicate MatchesAt(b: Shape, e: Edge, p: nat, r: nat, mapping: map<nat, nat>) {
    && (e.0 == p && e.1 in mapping ==> (r, mapping[e.1]) in b.edges)
    && (e.1 == p && e.0 in mapping ==> (mapping[e.0], r) in b.edges)
  }

  method PartialEdgesMatch(a: Shape, b: Shape, p: nat, r: nat, mapping: map<nat, nat>) returns (ok: bool)
    ensures ok <==> PartialMatch(a, b, p, r, mapping)
  {
    var rest := a.edges;
    while rest != {}
      invariant rest <= a.edges
      invariant forall e :: e in a.edges - rest ==> MatchesAt(b, e, p, r, mapping)
      decreases rest
    {
      var e :| e in rest;
      if e.0 == p && e.1 in mapping && (r, mapping[e.1]) !in b.edges {
        assert !MatchesAt(b, e, p, r, mapping);
        return false;
      }
      if e.1 == p && e.0 in mapping && (mapping[e.0], r) !in b.edges {
        assert !MatchesAt(b, e, p, r, mapping);
        return false;
      }
      rest := rest - {e};
    }
    ok := true;
  }

  /** The pruning discards no partial map that can be completed. */
  lemma PruningIsSafe(a: Shape, b: Shape, p: nat, r: nat, mapping: map<nat, nat>)
    requires Proper(a) && p !in mapping && Extendable(a, b, mapping[p := r])
    ensures PartialMatch(a, b, p, r, mapping) && r !in mapping.Values
  {
    var f :| IsIso(a, b, f) && Extends(f, mapping[p := r]);
    assert p in mapping[p := r] && f[p] == r;
    forall q | q in mapping ensures q < |f| && f[q] == mapping[q] {
      assert q in mapping[p := r];
    }
    forall e | e in a.edges ensures MatchesAt(b, e, p, r, mapping) {
      IsoEdges(a, b, f, e.0, e.1);
    }
  }

  ghost predicate Covers(mapping: map<nat, nat>, positions: seq<nat>) {
    forall p :: p in mapping <==> p in positions
  }

  ghost predicate Chosen(rows: seq<seq<nat>>, mapping: map<nat, nat>) {
    forall p :: p in mapping ==> p < |rows| && mapping[p] in rows[p]
  }

  /** The partial map assigns the first positions of the order, injectively, to candidates. */
  ghost predicate Partial(order: seq<nat>, rows: seq<seq<nat>>, mapping: map<nat, nat>, used: set<nat>) {
    && |mapping| <= |order|
    && Covers(mapping, order[..|mapping|])
    && used == mapping.Values
    && Injective(mapping)
    && Chosen(rows, mapping)
  }

  ghost predicate Injective(m: map<nat, nat>) {
    forall p, q :: p in m && q in m && m[p] == m[q] ==> p == q
  }

  lemma AddedValue(m: map<nat, nat>, p: nat, r: nat)
    requires p !in m && r !in m.Values && Injective(m)
    ensures m[p := r].Values == m.Values + {r} && Injective(m[p := r]) && |m[p := r]| == |m| + 1
  {
    var next := m[p := r];
    AddedValues(m, p, r);
    AddedInjective(m, p, r);
    assert next.Keys == m.Keys + {p};
    assert |next| == |next.Keys| && |m| == |m.Keys|;
  }

  lemma AddedValues(m: map<nat, nat>, p: nat, r: nat)
    requires p !in m
    ensures m[p := r].Values == m.Values + {r}
  {
    var next := m[p := r];
    assert next[p] == r;
    forall v | v in m.Values ensures v in next.Values {
      var q :| q in m && m[q] == v;
      assert next[q] == v;
    }
  }

  lemma AddedInjective(m: map<nat, nat>, p: nat, r: nat)
    requires p !in m && r !in m.Values && Injective(m)
    ensures Injective(m[p := r])
  {
    var next := m[p := r];
    forall x, y | x in next && y in next && next[x] == next[y] ensures x == y {
      assert x != p ==> m[x] in m.Values;
      assert y != p ==> m[y] in m.Values;
    }
  }

  lemma AssignNext(order: seq<nat>, rows: seq<seq<nat>>, mapping: map<nat, nat>, used: set<nat>, r: nat)
    requires Partial(order, rows, mapping, used) && Bijection(order, |rows|) && |mapping| < |order|
    requires r in rows[order[|mapping|]] && r !in used
    ensures var p := order[|mapping|];
            p !in mapping && |mapping[p := r]| == |mapping| + 1 && Partial(order, rows, mapping[p := r], used + {r})
  {
    hide Injective, Covers, Chosen;
    var p, k := order[|mapping|], |mapping|;
    NextToAssign(order, rows, mapping, used);
    assert order[..k + 1] == order[..k] + [p];
    CoversNext(mapping, order[..k], p, r);
    ChosenNext(rows, mapping, p, r);
    AddedValue(mapping, p, r);
  }

  lemma CoversNext(mapping: map<nat, nat>, positions: seq<nat>, p: nat, r: nat)
    requires Covers(mapping, positions)
    ensures Covers(mapping[p := r], positions + [p])
  {
  }

  lemma ChosenNext(rows: seq<seq<nat>>, mapping: map<nat, nat>, p: nat, r: nat)
    requires Chosen(rows, mapping) && p < |rows| && r in rows[p]
    ensures Chosen(rows, mapping[p := r])
  {
  }

  lemma NextIsFree(order: seq<nat>, k: nat)
    requires Sorting.Distinct(order) && k < |order|
    ensures order[k] !in order[..k]
  {
  }

  function FromMap(mapping: map<nat, nat>, n: nat): seq<nat> {
    seq(n, p requires 0 <= p < n => if p in mapping then mapping[p] else 0)
  }

  function MappedEdges(mapping: map<nat, nat>, edges: set<Edge>): set<Edge> {
    set e | e in edges && e.0 in mapping && e.1 in mapping :: (mapping[e.0], mapping[e.1])
  }

  lemma AllAssigned(order: seq<nat>, n: nat, p: nat)
    requires Bijection(order, n) && p < n
    ensures p in order
  {
    var positions := Positions(n);
    Sorting.DistinctMultiset(order);
    Sorting.DistinctMultiset(positions);
    var elements, all := set x | x in order, set x | x in positions;
    forall x | x in elements ensures x in all {
      assert positions[x] == x;
    }
    assert positions[p] == p;
    SubsetOfSameSize(elements, all);
    assert p in elements;
  }

  lemma SubsetOfSameSize(a: set<nat>, b: set<nat>)
    requires a <= b && |a| == |b|
    ensures a == b
  {
    assert b == a + (b - a);
  }

  /** Once every position is assigned, the map is an isomorphism exactly when it carries the edges. */
  lemma Complete(a: Shape, b: Shape, order: seq<nat>, rows: seq<seq<nat>>, mapping: map<nat, nat>, used: set<nat>)
    requires Proper(a) && |a.roles| == |b.roles| && Candidates(a, b, rows) && Bijection(order, |rows|)
    requires Partial(order, rows, mapping, used) && |mapping| == |order|
    ensures Extendable(a, b, mapping) <==> MappedEdges(mapping, a.edges) == b.edges
    ensures Extendable(a, b, mapping) ==> IsIso(a, b, FromMap(mapping, |a.roles|))
  {
    hide Candidates, Partial, FromMap;
    var f := FromMap(mapping, |a.roles|);
    CompleteIsBijection(a, b, order, rows, mapping, used);
    assert MappedEdges(mapping, a.edges) == Carry(f, a.edges);
    forall g | IsIso(a, b, g) && Extends(g, mapping) ensures g == f {
      SameOnAll(f, g, mapping, |a.roles|);
    }
  }

  lemma SameOnAll(f: seq<nat>, g: seq<nat>, mapping: map<nat, nat>, n: nat)
    requires |f| == n && |g| == n && Extends(f, mapping) && Extends(g, mapping)
    requires forall p: nat :: p in mapping <==> p < n
    ensures f == g
  {
    forall p | 0 <= p < n ensures f[p] == g[p] {
      assert p in mapping;
    }
  }

  lemma CompleteIsBijection(a: Shape, b: Shape, order: seq<nat>, rows: seq<seq<nat>>, mapping: map<nat, nat>, used: set<nat>)
    requires |a.roles| == |b.roles| && Candidates(a, b, rows) && Bijection(order, |rows|)
    requires Partial(order, rows, mapping, used) && |mapping| == |order|
    ensures var f := FromMap(mapping, |a.roles|); Bijection(f, |a.roles|) && KeepsRoles(a, b, f) && Extends(f, mapping)
    ensures forall p: nat :: p in mapping <==> p < |a.roles|
  {
    hide IsIso;
    var n := |a.roles|;
    var f := FromMap(mapping, n);
    assert order[..|mapping|] == order;
    forall p | 0 <= p < n ensures p in mapping && f[p] == mapping[p] {
      AllAssigned(order, n, p);
    }
    forall p | p in mapping ensures mapping[p] < n && Role(b, mapping[p]) == Role(a, p) {
      assert Offers(a, b, p, rows[p]);
    }
  }

  class Search {
    const a: Shape
    const b: Shape
    const order: seq<nat>
    const rows: seq<seq<nat>>
    var mapping: map<nat, nat>
    var used: set<nat>

    ghost predicate Valid()
      reads this
    {
      && Proper(a) && |a.roles| == |b.roles| && Candidates(a, b, rows) && Bijection(order, |rows|)
      && Partial(order, rows, mapping, used)
    }

    constructor (a: Shape, b: Shape, rows: seq<seq<nat>>)
      requires Proper(a) && |a.roles| == |b.roles| && Candidates(a, b, rows)
      ensures Valid() && this.a == a && this.b == b && mapping == map[]
    {
      OrderIsBijection(rows);
      this.a, this.b := a, b;
      this.order, this.rows := AssignmentOrder(rows), rows;
      mapping, used := map[], {};
    }

    /** Finds out whether the partial map extends to an isomorphism; a failed branch leaves no trace. */
    method HasIsomorphism() returns (found: bool)
      requires Valid()
      modifies this
      ensures Valid()
      ensures found <==> Extendable(a, b, old(mapping))
      ensures !found ==> mapping == old(mapping) && used == old(used)
      ensures found ==> IsIso(a, b, FromMap(mapping, |a.roles|))
      decreases |order| - |mapping|, 1
    {
      hide Candidates, Extendable, IsIso, Proper, MappedEdges, FromMap, NoneBelow, Bijection;
      if |mapping| == |order| {
        Complete(a, b, order, rows, mapping, used);
        return MappedEdges(mapping, a.edges) == b.edges;
      }
      var p := order[|mapping|];
      NextToAssign(order, rows, mapping, used);
      ghost var was, wasUsed := mapping, used;
      NoneYet(a, b, p, rows[p], was);
      for i := 0 to |rows[p]|
        invariant mapping == was && used == wasUsed
        invariant NoneBelow(a, b, p, rows[p], was, i)
      {
        var r := rows[p][i];
        var fits := Fits(p, r);
        if fits {
          found := Try(p, r);
          if found {
            return;
          }
        }
        OneFewer(a, b, p, rows[p], was, i);
      }
      NoChoiceLeft(a, b, p, rows, was);
      found := false;
    }

    /** Assigns one candidate and searches on; takes the assignment back if that fails. */
    method Try(p: nat, r: nat) returns (found: bool)
      requires Valid() && |mapping| < |order| && p == order[|mapping|] && r in rows[p] && r !in used
      modifies this
      ensures found <==> Extendable(a, b, old(mapping)[p := r])
      ensures found ==> Valid() && IsIso(a, b, FromMap(mapping, |a.roles|)) && Extendable(a, b, old(mapping))
      ensures !found ==> mapping == old(mapping) && used == old(used)
      decreases |order| - |mapping|, 0
    {
      hide Candidates, Extendable, IsIso, Proper, FromMap, Bijection;
      ghost var was, wasUsed := mapping, used;
      AssignNext(order, rows, mapping, used, r);
      mapping := mapping[p := r];
      used := used + {r};
      found := HasIsomorphism();
      if found {
        ExtendableShrinks(a, b, was, p, r);
      } else {
        Unassign(was, wasUsed, p, r);
        used := used - {r};
        mapping := mapping - {p};
      }
    }

    /** The candidate is free and passes the pruning; every extendable candidate does. */
    method Fits(p: nat, r: nat) returns (fits: bool)
      requires Valid() && p !in mapping
      ensures fits ==> r !in used
      ensures !fits ==> !Extendable(a, b, mapping[p := r])
    {
      hide Candidates, Extendable, IsIso, Bijection;
      if r in used {
        fits := false;
      } else {
        fits := PartialEdgesMatch(a, b, p, r, mapping);
      }
      if !fits && Extendable(a, b, mapping[p := r]) {
        PruningIsSafe(a, b, p, r, mapping);
      }
    }
  }

  ghost predicate NoneBelow(a: Shape, b: Shape, p: nat, row: seq<nat>, mapping: map<nat, nat>, i: nat) {
    forall j :: 0 <= j < i && j < |row| ==> !Extendable(a, b, mapping[p := row[j]])
  }

  lemma NextToAssign(order: seq<nat>, rows: seq<seq<nat>>, mapping: map<nat, nat>, used: set<nat>)
    requires Partial(order, rows, mapping, used) && Bijection(order, |rows|) && |mapping| < |order|
    ensures order[|mapping|] < |rows| && order[|mapping|] !in mapping
  {
    NextIsFree(order, |mapping|);
  }

  lemma NoneYet(a: Shape, b: Shape, p: nat, row: seq<nat>, mapping: map<nat, nat>)
    ensures NoneBelow(a, b, p, row, mapping, 0)
  {
  }

  lemma OneFewer(a: Shape, b: Shape, p: nat, row: seq<nat>, mapping: map<nat, nat>, i: nat)
    requires NoneBelow(a, b, p, row, mapping, i) && i < |row| && !Extendable(a, b, mapping[p := row[i]])
    ensures NoneBelow(a, b, p, row, mapping, i + 1)
  {
    hide Extendable;
  }

  lemma ExtendableShrinks(a: Shape, b: Shape, mapping: map<nat, nat>, p: nat, r: nat)
    requires Extendable(a, b, mapping[p := r]) && p !in mapping
    ensures Extendable(a, b, mapping)
  {
    hide IsIso;
    var f :| IsIso(a, b, f) && Extends(f, mapping[p := r]);
    forall q | q in mapping ensures q < |f| && f[q] == mapping[q] {
      assert q in mapping[p := r];
    }
  }

  lemma Unassign(mapping: map<nat, nat>, used: set<nat>, p: nat, r: nat)
    requires p !in mapping && r !in used
    ensures mapping[p := r] - {p} == mapping && used + {r} - {r} == used
  {
  }

  lemma SomeChoice(a: Shape, b: Shape, p: nat, rows: seq<seq<nat>>, mapping: map<nat, nat>)
    requires Candidates(a, b, rows) && p < |rows| && Extendable(a, b, mapping)
    ensures exists j :: 0 <= j < |rows[p]| && Extendable(a, b, mapping[p := rows[p][j]])
  {
    var f :| IsIso(a, b, f) && Extends(f, mapping);
    assert Offers(a, b, p, rows[p]);
    var j :| 0 <= j < |rows[p]| && rows[p][j] == f[p];
    assert Extends(f, mapping[p := rows[p][j]]);
  }

  lemma NoChoiceLeft(a: Shape, b: Shape, p: nat, rows: seq<seq<nat>>, mapping: map<nat, nat>)
    requires Candidates(a, b, rows) && p < |rows| && NoneBelow(a, b, p, rows[p], mapping, |rows[p]|)
    ensures !Extendable(a, b, mapping)
  {
    hide Candidates, Extendable;
    if Extendable(a, b, mapping) {
      SomeChoice(a, b, p, rows, mapping);
    }
  }

  // ---- equivalence ----

  /** Isomorphic shapes have the same roles, counted. */
  lemma IsoKeepsRoleCounts(a: Shape, b: Shape)
    requires Isomorphic(a, b)
    ensures multiset(a.roles) == multiset(b.roles)
  {
    var f :| IsIso(a, b, f);
    var n := |a.roles|;
    var roleB := (p: nat) => Role(b, p);
    forall x: nat ensures x in f <==> x in Positions(n) {
      if x < n {
        AllAssigned(f, n, x);
        assert Positions(n)[x] == x;
      }
    }
    Sorting.SameElements(f, Positions(n));
    Sorting.MapMultiset(roleB, f, Positions(n));
    assert Sorting.Map(roleB, f) == a.roles;
    assert Sorting.Map(roleB, Positions(n)) == b.roles;
  }

  lemma CarryOneMore(f: seq<nat>, n: nat, edges: set<Edge>, e: Edge)
    requires Bijection(f, n) && (forall e :: e in edges ==> e.0 < n && e.1 < n) && e in edges
    ensures Carry(f, edges) == Carry(f, edges - {e}) + {(f[e.0], f[e.1])}
    ensures (f[e.0], f[e.1]) !in Carry(f, edges - {e})
  {
    forall x | x in Carry(f, edges) ensures x in Carry(f, edges - {e}) + {(f[e.0], f[e.1])} {
      var y :| y in edges && y.0 < |f| && y.1 < |f| && x == (f[y.0], f[y.1]);
    }
  }

  lemma {:induction false} IsoKeepsEdgeCount(f: seq<nat>, n: nat, edges: set<Edge>)
    requires Bijection(f, n) && forall e :: e in edges ==> e.0 < n && e.1 < n
    ensures |Carry(f, edges)| == |edges|
    decreases edges
  {
    if edges == {} {
      assert Carry(f, edges) == {};
    } else {
      hide Carry;
      var e :| e in edges;
      IsoKeepsEdgeCount(f, n, edges - {e});
      CarryOneMore(f, n, edges, e);
      assert |Carry(f, edges - {e}) + {(f[e.0], f[e.1])}| == |Carry(f, edges - {e})| + 1;
      assert |edges - {e}| == |edges| - 1;
    }
  }

  /** True exactly when the graphs are the same up to their ids; `None` is an unresolved id. */
  method EquivalentGraphShape(left: TaskGraph, right: TaskGraph) returns (same: Option<bool>)
    ensures same.None? <==>
      && multiset(RolesOf(left.nodes)) == multiset(RolesOf(right.nodes))
      && !(Resolves(left) && Resolves(right))
    ensures same.Some? ==> (same.value <==> Isomorphic(ShapeOf(left), ShapeOf(right)))
  {
    hide EffectiveEdges, Resolves, Candidates, IsIso, Proper;
    ghost var a, b := ShapeOf(left), ShapeOf(right);
    if Isomorphic(a, b) {
      IsoKeepsRoleCounts(a, b);
      IsoKeepsSizes(a, b);
    }
    assert |multiset(RolesOf(left.nodes))| == |left.nodes| && |multiset(RolesOf(right.nodes))| == |right.nodes|;
    if |left.nodes| != |right.nodes| || multiset(RolesOf(left.nodes)) != multiset(RolesOf(right.nodes)) {
      return Some(false);
    }
    var leftEdges := CollectEdges(left);
    if leftEdges.None? {
      return None;
    }
    var rightEdges := CollectEdges(right);
    if rightEdges.None? {
      return None;
    }
    ShapeIsProper(left);
    ShapeIsProper(right);
    if |leftEdges.value| != |rightEdges.value| {
      IsoKeepsEdgeCounts(a, b);
      return Some(false);
    }
    var found := SearchShapes(Shape(RolesOf(left.nodes), leftEdges.value), Shape(RolesOf(right.nodes), rightEdges.value));
    same := Some(found);
  }

  lemma IsoKeepsSizes(a: Shape, b: Shape)
    requires Isomorphic(a, b)
    ensures |a.roles| == |b.roles|
  {
  }

  lemma IsoKeepsEdgeCounts(a: Shape, b: Shape)
    requires Proper(a)
    ensures Isomorphic(a, b) ==> |a.edges| == |b.edges|
  {
    if Isomorphic(a, b) {
      var f :| IsIso(a, b, f);
      IsoKeepsEdgeCount(f, |a.roles|, a.edges);
    }
  }

  method SearchShapes(a: Shape, b: Shape) returns (found: bool)
    requires Proper(a) && Proper(b) && |a.roles| == |b.roles|
    ensures found <==> Isomorphic(a, b)
  {
    hide Candidates, IsIso, Proper;
    var rows := AllCandidates(a, b);
    if rows.None? {
      return false;
    }
    var search := new Search(a, b, rows.value);
    found := search.HasIsomorphism();
    EveryIsoExtendsNothing(a, b);
  }

  lemma EveryIsoExtendsNothing(a: Shape, b: Shape)
    ensures Extendable(a, b, map[]) <==> Isomorphic(a, b)
  {
    hide IsIso;
    forall f | IsIso(a, b, f) ensures Extends(f, map[]) {
    }
  }
}
