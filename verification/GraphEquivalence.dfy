/** Graph equivalence under renaming of node ids: the shape of a graph, the backtracking search for an
    isomorphism, and the pruning that speeds it up. */
module GraphEquivalence {
  import opened AgyTypes
  import Sorting

  datatype TaskGraph = TaskGraph(nodes: seq<NodeSpec>, edges: seq<(NodeId, NodeId)>)

  /** A directed edge between node positions. */
  type Edge = (nat, nat)

  /** What is left of a graph without its ids: the role of each position, and the effective edges. */
  datatype Shape = Shape(roles: seq<string>, edges: set<Edge>)

  ghost predicate Proper(s: Shape) {
    forall e :: e in s.edges ==> e.0 < |s.roles| && e.1 < |s.roles|
  }

  /** `f` permutes the positions below `n`. */
  ghost predicate Bijection(f: seq<nat>, n: nat) {
    |f| == n && Sorting.Distinct(f) && forall i :: 0 <= i < n ==> f[i] < n
  }

  function Carry(f: seq<nat>, edges: set<Edge>): set<Edge> {
    set e | e in edges && e.0 < |f| && e.1 < |f| :: (f[e.0], f[e.1])
  }

  ghost predicate KeepsRoles(a: Shape, b: Shape, f: seq<nat>) {
    forall i :: 0 <= i < |f| && i < |a.roles| && f[i] < |b.roles| ==> b.roles[f[i]] == a.roles[i]
  }

  /** `f` carries `a` onto `b`: a role-preserving bijection taking one edge set exactly to the other. */
  ghost predicate IsIso(a: Shape, b: Shape, f: seq<nat>) {
    |a.roles| == |b.roles| && Bijection(f, |a.roles|) && KeepsRoles(a, b, f) && Carry(f, a.edges) == b.edges
  }

  ghost predicate Isomorphic(a: Shape, b: Shape) {
    exists f :: IsIso(a, b, f)
  }

  lemma IsoEdges(a: Shape, b: Shape, f: seq<nat>, p: nat, q: nat)
    requires IsIso(a, b, f) && Proper(a) && p < |f| && q < |f|
    ensures (p, q) in a.edges <==> (f[p], f[q]) in b.edges
  {
    if (f[p], f[q]) in b.edges {
      var e :| e in a.edges && e.0 < |f| && e.1 < |f| && (f[e.0], f[e.1]) == (f[p], f[q]);
      assert e == (p, q);
    }
  }

  // ---- the shape of a graph ----

  /** The position of each id; of two nodes with one id the later wins. */
  function IndexUpTo(nodes: seq<NodeSpec>, i: nat): (index: map<NodeId, nat>)
    requires i <= |nodes|
    ensures forall id :: id in index ==> index[id] < |nodes|
  {
    if i == 0 then map[] else IndexUpTo(nodes, i - 1)[nodes[i - 1].id := i - 1]
  }

  function NodeIndex(nodes: seq<NodeSpec>): (index: map<NodeId, nat>)
    ensures forall id :: id in index ==> index[id] < |nodes|
  {
    IndexUpTo(nodes, |nodes|)
  }

  /** Every dependency and every edge names a node. */
  predicate Resolves(g: TaskGraph) {
    && (forall n, d :: n in g.nodes && d in n.dependencies ==> d in NodeIndex(g.nodes))
    && (forall e :: e in g.edges ==> e.0 in NodeIndex(g.nodes) && e.1 in NodeIndex(g.nodes))
  }

  function At(index: map<NodeId, nat>, id: NodeId): nat {
    if id in index then index[id] else 0
  }

  /** Dependencies and explicit edges together, without duplicates. */
  function EffectiveEdges(g: TaskGraph): set<Edge> {
    var index := NodeIndex(g.nodes);
    (set i, d | 0 <= i < |g.nodes| && d in g.nodes[i].dependencies :: (At(index, d), At(index, g.nodes[i].id)))
    + Indexed(g.edges, index)
  }

  function Indexed(edges: seq<(NodeId, NodeId)>, index: map<NodeId, nat>): set<Edge> {
    set e | e in edges :: (At(index, e.0), At(index, e.1))
  }

  function RolesOf(nodes: seq<NodeSpec>): (roles: seq<string>)
    ensures |roles| == |nodes|
  {
    seq(|nodes|, i requires 0 <= i < |nodes| => nodes[i].role)
  }

  function ShapeOf(g: TaskGraph): Shape {
    Shape(RolesOf(g.nodes), EffectiveEdges(g))
  }

  lemma {:induction false} IndexHasIds(nodes: seq<NodeSpec>, i: nat)
    requires i <= |nodes|
    ensures forall k :: 0 <= k < i ==> nodes[k].id in IndexUpTo(nodes, i)
  {
    if i > 0 {
      IndexHasIds(nodes, i - 1);
    }
  }

  lemma ShapeIsProper(g: TaskGraph)
    requires Resolves(g)
    ensures Proper(ShapeOf(g))
  {
    var index := NodeIndex(g.nodes);
    IndexHasIds(g.nodes, |g.nodes|);
    forall i, d | 0 <= i < |g.nodes| && d in g.nodes[i].dependencies
      ensures At(index, d) < |g.nodes| && At(index, g.nodes[i].id) < |g.nodes|
    {
      assert g.nodes[i] in g.nodes;
    }
  }

  /** Collects the effective edges; an id that names no node is an error. */
  method CollectEdges(g: TaskGraph) returns (edges: Option<set<Edge>>)
    ensures edges.Some? <==> Resolves(g)
    ensures edges.Some? ==> edges.value == EffectiveEdges(g)
  {
    var index := NodeIndex(g.nodes);
    IndexHasIds(g.nodes, |g.nodes|);
    var found: set<Edge> := {};
    for i := 0 to |g.nodes|
      invariant forall k, d :: 0 <= k < i && d in g.nodes[k].dependencies ==> d in index
      invariant found == EdgesUpTo(g.nodes, index, i)
    {
      var more := NodeEdges(g.nodes[i], index);
      if more.None? {
        assert g.nodes[i] in g.nodes;
        return None;
      }
      OneMoreNode(g.nodes, index, i);
      found := found + more.value;
    }
    AllNodes(g, index);
    var more := ExplicitEdges(g, index);
    edges := if more.None? then None else Some(found + more.value);
  }

  method NodeEdges(node: NodeSpec, index: map<NodeId, nat>) returns (edges: Option<set<Edge>>)
    requires node.id in index
    ensures edges.Some? <==> forall d :: d in node.dependencies ==> d in index
    ensures edges.Some? ==> edges.value == DepEdges(node.dependencies, index[node.id], index)
  {
    var found: set<Edge> := {};
    for j := 0 to |node.dependencies|
      invariant forall d :: d in node.dependencies[..j] ==> d in index
      invariant found == DepEdges(node.dependencies[..j], index[node.id], index)
    {
      var d := node.dependencies[j];
      assert node.dependencies[..j + 1] == node.dependencies[..j] + [d];
      OneMoreDep(node.dependencies[..j], d, index[node.id], index);
      if d !in index {
        return None;
      }
      found := found + {(index[d], index[node.id])};
    }
    assert node.dependencies[..|node.dependencies|] == node.dependencies;
    edges := Some(found);
  }

  method ExplicitEdges(g: TaskGraph, index: map<NodeId, nat>) returns (edges: Option<set<Edge>>)
    ensures edges.Some? <==> forall e :: e in g.edges ==> e.0 in index && e.1 in index
    ensures edges.Some? ==> edges.value == Indexed(g.edges, index)
  {
    var found: set<Edge> := {};
    for i := 0 to |g.edges|
      invariant forall e :: e in g.edges[..i] ==> e.0 in index && e.1 in index
      invariant found == Indexed(g.edges[..i], index)
    {
      var e := g.edges[i];
      assert g.edges[..i + 1] == g.edges[..i] + [e];
      OneMoreEdge(g.edges[..i], e, index);
      if e.0 !in index || e.1 !in index {
        assert e in g.edges;
        return None;
      }
      found := found + {(index[e.0], index[e.1])};
    }
    assert g.edges[..|g.edges|] == g.edges;
    edges := Some(found);
  }

  function DepEdges(deps: seq<NodeId>, dst: nat, index: map<NodeId, nat>): set<Edge> {
    set d | d in deps :: (At(index, d), dst)
  }

  lemma OneMoreDep(deps: seq<NodeId>, d: NodeId, dst: nat, index: map<NodeId, nat>)
    ensures DepEdges(deps + [d], dst, index) == DepEdges(deps, dst, index) + {(At(index, d), dst)}
  {
    forall x | x in DepEdges(deps, dst, index) + {(At(index, d), dst)} ensures x in DepEdges(deps + [d], dst, index) {
      if x == (At(index, d), dst) {
        assert d in deps + [d];
      } else {
        var y :| y in deps && x == (At(index, y), dst);
        assert y in deps + [d];
      }
    }
  }

  lemma OneMoreEdge(edges: seq<(NodeId, NodeId)>, e: (NodeId, NodeId), index: map<NodeId, nat>)
    ensures Indexed(edges + [e], index) == Indexed(edges, index) + {(At(index, e.0), At(index, e.1))}
  {
    forall x | x in Indexed(edges, index) + {(At(index, e.0), At(index, e.1))} ensures x in Indexed(edges + [e], index) {
      if x == (At(index, e.0), At(index, e.1)) {
        assert e in edges + [e];
      } else {
        var y :| y in edges && x == (At(index, y.0), At(index, y.1));
        assert y in edges + [e];
      }
    }
  }

  function EdgesUpTo(nodes: seq<NodeSpec>, index: map<NodeId, nat>, i: nat): set<Edge>
    requires i <= |nodes|
  {
    set k, d | 0 <= k < i && d in nodes[k].dependencies :: (At(index, d), At(index, nodes[k].id))
  }

  lemma OneMoreNode(nodes: seq<NodeSpec>, index: map<NodeId, nat>, i: nat)
    requires i < |nodes|
    ensures EdgesUpTo(nodes, index, i + 1) ==
      EdgesUpTo(nodes, index, i) + DepEdges(nodes[i].dependencies, At(index, nodes[i].id), index)
  {
  }

  lemma AllNodes(g: TaskGraph, index: map<NodeId, nat>)
    requires index == NodeIndex(g.nodes)
    requires forall k, d :: 0 <= k < |g.nodes| && d in g.nodes[k].dependencies ==> d in index
    ensures forall n, d :: n in g.nodes && d in n.dependencies ==> d in index
  {
  }

  // ---- degree profiles ----

  function CharBelow(): (char, char) -> bool {
    (x: char, y: char) => x < y
  }

  function RoleOrder(): (string, string) -> bool {
    (x: string, y: string) => Sorting.LexLeq(CharBelow(), x, y)
  }

  lemma RoleOrderIsTotal()
    ensures Sorting.TotalOrder(RoleOrder())
  {
    Sorting.LexTotalOrder(CharBelow());
    var lex := (a: string, b: string) => Sorting.LexLeq(CharBelow(), a, b);
    assert forall a: string, b: string :: RoleOrder()(a, b) == lex(a, b);
  }

  /** The sorted roles of some positions, and the profile of one position. */
  datatype Profile = Profile(incoming: seq<string>, outgoing: seq<string>)

  function Role(s: Shape, p: nat): string {
    if p < |s.roles| then s.roles[p] else ""
  }

  function SortedRoles(s: Shape, positions: seq<nat>): seq<string> {
    Sorting.Sort(RoleOrder(), Sorting.Map((p: nat) => Role(s, p), positions))
  }

  function Sources(edges: set<Edge>, p: nat): set<nat> {
    set e | e in edges && e.1 == p :: e.0
  }

  function Targets(edges: set<Edge>, p: nat): set<nat> {
    set e | e in edges && e.0 == p :: e.1
  }

  /** `s` holds the elements of `all`, once each. */
  ghost predicate Lists(s: seq<nat>, all: set<nat>) {
    Sorting.Distinct(s) && forall x :: x in s <==> x in all
  }

  ghost predicate IsProfile(s: Shape, p: nat, r: Profile) {
    exists i, o :: Lists(i, Sources(s.edges, p)) && Lists(o, Targets(s.edges, p)) &&
      r == Profile(SortedRoles(s, i), SortedRoles(s, o))
  }

  function Image(f: seq<nat>, s: seq<nat>): seq<nat>
    requires forall x :: x in s ==> x < |f|
  {
    seq(|s|, i requires 0 <= i < |s| => assert s[i] in s; f[s[i]])
  }

  lemma ImageLists(f: seq<nat>, s: seq<nat>, t: seq<nat>)
    requires Bijection(f, |f|) && Sorting.Distinct(s) && (forall x :: x in s ==> x < |f|)
    requires Sorting.Distinct(t) && (forall y :: y in t <==> exists x :: x in s && f[x] == y)
    ensures multiset(Image(f, s)) == multiset(t)
  {
    var image := Image(f, s);
    forall y ensures y in image <==> y in t {
      if y in t {
        var x :| x in s && f[x] == y;
        var i :| 0 <= i < |s| && s[i] == x;
        assert image[i] == y;
      }
      if y in image {
        var i :| 0 <= i < |s| && image[i] == y;
        assert s[i] in s && f[s[i]] == y;
      }
    }
    forall i, j | 0 <= i < j < |s| ensures image[i] != image[j] {
      assert s[i] in s && s[j] in s;
    }
    Sorting.SameElements(image, t);
  }

  lemma ImageRoles(a: Shape, b: Shape, f: seq<nat>, s: seq<nat>)
    requires Bijection(f, |a.roles|) && |a.roles| == |b.roles| && KeepsRoles(a, b, f)
    requires forall x :: x in s ==> x < |f|
    ensures Sorting.Map((p: nat) => Role(a, p), s) == Sorting.Map((p: nat) => Role(b, p), Image(f, s))
  {
    forall i | 0 <= i < |s| ensures Role(a, s[i]) == Role(b, Image(f, s)[i]) {
      assert s[i] in s;
    }
  }

  /** Listings of two sets, one the image of the other, have the same sorted roles. */
  lemma ImageKeepsRoles(a: Shape, b: Shape, f: seq<nat>, s: seq<nat>, t: seq<nat>)
    requires Bijection(f, |a.roles|) && |a.roles| == |b.roles| && KeepsRoles(a, b, f)
    requires Sorting.Distinct(s) && (forall x :: x in s ==> x < |f|)
    requires Sorting.Distinct(t) && (forall y :: y in t <==> exists x :: x in s && f[x] == y)
    ensures SortedRoles(a, s) == SortedRoles(b, t)
  {
    hide Image, Role;
    ImageLists(f, s, t);
    ImageRoles(a, b, f, s);
    var roleB := (p: nat) => Role(b, p);
    Sorting.MapMultiset(roleB, Image(f, s), t);
    RoleOrderIsTotal();
    Sorting.SortCanonical(RoleOrder(), Sorting.Map(roleB, Image(f, s)), Sorting.Map(roleB, t));
  }

  /** An isomorphism keeps every degree profile, so profiles never rule out its choice. */
  lemma IsoKeepsProfile(a: Shape, b: Shape, f: seq<nat>, p: nat, pa: Profile, pb: Profile)
    requires IsIso(a, b, f) && Proper(a) && Proper(b) && p < |f| && IsProfile(a, p, pa) && IsProfile(b, f[p], pb)
    ensures pa == pb
  {
    hide SortedRoles;
    var i, o :| Lists(i, Sources(a.edges, p)) && Lists(o, Targets(a.edges, p)) && pa == Profile(SortedRoles(a, i), SortedRoles(a, o));
    var i', o' :| Lists(i', Sources(b.edges, f[p])) && Lists(o', Targets(b.edges, f[p])) &&
      pb == Profile(SortedRoles(b, i'), SortedRoles(b, o'));
    IsoSources(a, b, f, p);
    IsoTargets(a, b, f, p);
    ImageKeepsRoles(a, b, f, i, i');
    ImageKeepsRoles(a, b, f, o, o');
  }

  lemma IsoSources(a: Shape, b: Shape, f: seq<nat>, p: nat)
    requires IsIso(a, b, f) && Proper(a) && p < |f|
    ensures forall x :: x in Sources(a.edges, p) ==> x < |f|
    ensures forall y :: y in Sources(b.edges, f[p]) <==> exists x :: x in Sources(a.edges, p) && f[x] == y
  {
    forall y | y in Sources(b.edges, f[p]) ensures exists x :: x in Sources(a.edges, p) && f[x] == y {
      assert (y, f[p]) in b.edges;
      var e :| e in a.edges && e.0 < |f| && e.1 < |f| && (f[e.0], f[e.1]) == (y, f[p]);
      assert e.1 == p && e.0 in Sources(a.edges, p);
    }
    forall x | x in Sources(a.edges, p) ensures f[x] in Sources(b.edges, f[p]) {
      IsoEdges(a, b, f, x, p);
      assert (x, p) in a.edges;
    }
  }

  lemma IsoTargets(a: Shape, b: Shape, f: seq<nat>, p: nat)
    requires IsIso(a, b, f) && Proper(a) && p < |f|
    ensures forall x :: x in Targets(a.edges, p) ==> x < |f|
    ensures forall y :: y in Targets(b.edges, f[p]) <==> exists x :: x in Targets(a.edges, p) && f[x] == y
  {
    forall y | y in Targets(b.edges, f[p]) ensures exists x :: x in Targets(a.edges, p) && f[x] == y {
      assert (f[p], y) in b.edges;
      var e :| e in a.edges && e.0 < |f| && e.1 < |f| && (f[e.0], f[e.1]) == (f[p], y);
      assert e.0 == p && e.1 in Targets(a.edges, p);
    }
    forall x | x in Targets(a.edges, p) ensures f[x] in Targets(b.edges, f[p]) {
      IsoEdges(a, b, f, p, x);
      assert (p, x) in a.edges;
    }
  }
}
