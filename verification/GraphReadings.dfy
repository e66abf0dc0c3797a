/** What the shape of a graph and its isomorphisms mean in terms of its nodes, dependencies and edges. */
module GraphReadings {
  import opened AgyTypes
  import opened GraphEquivalence
  import opened IsomorphismSearch
  import opened GraphSignature
  import Sorting

  // ---- the effective edges ----


  /** Position `p` stands for its id: no later node has the same one. */
  ghost predicate StandsFor(g: TaskGraph, p: nat) {
    p < |g.nodes| && forall q :: p < q < |g.nodes| ==> g.nodes[q].id != g.nodes[p].id
  }

  lemma {:induction false} IndexReads(nodes: seq<NodeSpec>, i: nat, id: NodeId)
    requires i <= |nodes|
    ensures id in IndexUpTo(nodes, i) <==> exists k :: 0 <= k < i && nodes[k].id == id
    ensures id in IndexUpTo(nodes, i) ==>
      var p := IndexUpTo(nodes, i)[id]; p < i && nodes[p].id == id && forall q :: p < q < i ==> nodes[q].id != id
  {
    if i > 0 {
      IndexReads(nodes, i - 1, id);
    }
  }

  /** A node depends on another, or an explicit edge leads there. */
  ghost predicate Joined(g: TaskGraph, src: NodeId, dst: NodeId) {
    (exists n :: n in g.nodes && n.id == dst && src in n.dependencies) || (src, dst) in g.edges
  }

  /** An edge leads from the node at `p` to the node at `q`. */
  ghost predicate EdgeBetween(g: TaskGraph, p: nat, q: nat) {
    StandsFor(g, p) && StandsFor(g, q) && Joined(g, g.nodes[p].id, g.nodes[q].id)
  }

  lemma AtReads(g: TaskGraph, id: NodeId, p: nat)
    requires id in NodeIndex(g.nodes)
    ensures At(NodeIndex(g.nodes), id) == p <==> StandsFor(g, p) && g.nodes[p].id == id
  {
    IndexReads(g.nodes, |g.nodes|, id);
    var at := NodeIndex(g.nodes)[id];
    assert g.nodes[at].id == id;
    assert StandsFor(g, p) && g.nodes[p].id == id ==> p == at;
  }

  lemma IdIsIndexed(g: TaskGraph, i: nat)
    requires i < |g.nodes|
    ensures g.nodes[i].id in NodeIndex(g.nodes)
  {
    IndexHasIds(g.nodes, |g.nodes|);
  }

  lemma EdgeHasSource(g: TaskGraph, p: nat, q: nat)
    requires Resolves(g) && (p, q) in EffectiveEdges(g)
    ensures EdgeBetween(g, p, q)
  {
    hide NodeIndex, At;
    var index := NodeIndex(g.nodes);
    if (p, q) in Indexed(g.edges, index) {
      var e :| e in g.edges && (At(index, e.0), At(index, e.1)) == (p, q);
      AtReads(g, e.0, p);
      AtReads(g, e.1, q);
    } else {
      var i, d :| 0 <= i < |g.nodes| && d in g.nodes[i].dependencies && (At(index, d), At(index, g.nodes[i].id)) == (p, q);
      assert g.nodes[i] in g.nodes;
      IdIsIndexed(g, i);
      AtReads(g, d, p);
      AtReads(g, g.nodes[i].id, q);
    }
  }

  lemma SourceHasEdge(g: TaskGraph, p: nat, q: nat)
    requires Resolves(g) && EdgeBetween(g, p, q)
    ensures (p, q) in EffectiveEdges(g)
  {
    hide NodeIndex, At;
    var index := NodeIndex(g.nodes);
    IdIsIndexed(g, p);
    IdIsIndexed(g, q);
    AtReads(g, g.nodes[p].id, p);
    AtReads(g, g.nodes[q].id, q);
    if (g.nodes[p].id, g.nodes[q].id) in g.edges {
      assert (p, q) in Indexed(g.edges, index);
    } else {
      var n :| n in g.nodes && n.id == g.nodes[q].id && g.nodes[p].id in n.dependencies;
      var i :| 0 <= i < |g.nodes| && g.nodes[i] == n;
      assert (At(index, g.nodes[p].id), At(index, g.nodes[i].id)) == (p, q);
    }
  }

  /** The effective edges of a graph whose ids resolve lead exactly from a node to each node that depends on it and
      along each explicit edge; of nodes with one id, the last stands for all. */
  lemma EffectiveEdgesExact(g: TaskGraph, p: nat, q: nat)
    requires Resolves(g)
    ensures (p, q) in EffectiveEdges(g) <==> EdgeBetween(g, p, q)
  {
    hide EffectiveEdges, EdgeBetween;
    if (p, q) in EffectiveEdges(g) {
      EdgeHasSource(g, p, q);
    }
    if EdgeBetween(g, p, q) {
      SourceHasEdge(g, p, q);
    }
  }

  // ---- isomorphism ----

  /** The renaming of positions keeps roles and edges, both ways. */
  ghost predicate Renames(g: TaskGraph, h: TaskGraph, f: seq<nat>) {
    && |g.nodes| == |h.nodes| && Bijection(f, |g.nodes|)
    && (forall p :: 0 <= p < |f| ==> h.nodes[f[p]].role == g.nodes[p].role)
    && forall p, q :: 0 <= p < |f| && 0 <= q < |f| ==> (EdgeBetween(g, p, q) <==> EdgeBetween(h, f[p], f[q]))
  }

  lemma IsoRenames(g: TaskGraph, h: TaskGraph, f: seq<nat>)
    requires Resolves(g) && Resolves(h) && IsIso(ShapeOf(g), ShapeOf(h), f)
    ensures Renames(g, h, f)
  {
    hide EffectiveEdges, EdgeBetween, Resolves;
    ShapeIsProper(g);
    forall p, q | 0 <= p < |f| && 0 <= q < |f| ensures EdgeBetween(g, p, q) <==> EdgeBetween(h, f[p], f[q]) {
      IsoEdges(ShapeOf(g), ShapeOf(h), f, p, q);
      EffectiveEdgesExact(g, p, q);
      EffectiveEdgesExact(h, f[p], f[q]);
    }
    forall p | 0 <= p < |f| ensures h.nodes[f[p]].role == g.nodes[p].role {
      assert ShapeOf(g).roles[p] == g.nodes[p].role && ShapeOf(h).roles[f[p]] == h.nodes[f[p]].role;
    }
  }

  lemma RenamesIso(g: TaskGraph, h: TaskGraph, f: seq<nat>)
    requires Resolves(g) && Resolves(h) && Renames(g, h, f)
    ensures IsIso(ShapeOf(g), ShapeOf(h), f)
  {
    hide EffectiveEdges, EdgeBetween, Resolves;
    var a, b := ShapeOf(g), ShapeOf(h);
    ShapeIsProper(g);
    ShapeIsProper(h);
    forall e | e in a.edges ensures (f[e.0], f[e.1]) in b.edges {
      EffectiveEdgesExact(g, e.0, e.1);
      EffectiveEdgesExact(h, f[e.0], f[e.1]);
    }
    forall e | e in b.edges ensures e in Carry(f, a.edges) {
      AllAssigned(f, |f|, e.0);
      AllAssigned(f, |f|, e.1);
      var p :| 0 <= p < |f| && f[p] == e.0;
      var q :| 0 <= q < |f| && f[q] == e.1;
      EffectiveEdgesExact(g, p, q);
      EffectiveEdgesExact(h, e.0, e.1);
      assert (p, q) in a.edges;
    }
    assert Carry(f, a.edges) == b.edges;
  }

  /** Two graphs have isomorphic shapes exactly if one can be renamed into the other, node by node, so that roles, direct
      dependencies and explicit edges all agree. */
  lemma IsomorphicMeans(g: TaskGraph, h: TaskGraph)
    requires Resolves(g) && Resolves(h)
    ensures Isomorphic(ShapeOf(g), ShapeOf(h)) <==> exists f :: Renames(g, h, f)
  {
    hide IsIso, Renames, Resolves, ShapeOf;
    if Isomorphic(ShapeOf(g), ShapeOf(h)) {
      var f :| IsIso(ShapeOf(g), ShapeOf(h), f);
      IsoRenames(g, h, f);
    }
    if exists f :: Renames(g, h, f) {
      var f :| Renames(g, h, f);
      RenamesIso(g, h, f);
    }
  }

  // ---- the order inside a signature ----

  /** The texts are equal, or at their first difference `a` has the smaller character or has ended. */
  ghost predicate TextAtMost(a: string, b: string) {
    a == b || exists n: nat :: n < |b| && n <= |a| && a[..n] == b[..n] && (n == |a| || a[n] < b[n])
  }

  ghost predicate EdgeAtMost(x: Edge, y: Edge) {
    x.0 < y.0 || (x.0 == y.0 && x.1 <= y.1)
  }

  /** The tuples are equal, or at their first difference `a` has the smaller edge or has ended. */
  ghost predicate EdgesAtMost(a: seq<Edge>, b: seq<Edge>) {
    a == b || exists n: nat :: n < |b| && n <= |a| && a[..n] == b[..n] && (n == |a| || (EdgeAtMost(a[n], b[n]) && a[n] != b[n]))
  }

  lemma RoleOrderReads(a: string, b: string)
    requires RoleOrder()(a, b)
    ensures TextAtMost(a, b)
  {
    if a != b {
      var n := Sorting.LexFirstBelow(CharBelow(), a, b);
    }
  }

  lemma EdgeTuplesRead(a: seq<Edge>, b: seq<Edge>)
    requires Sorting.LexLeq(EdgeBelow(), a, b)
    ensures EdgesAtMost(a, b)
  {
    if a != b {
      var n := Sorting.LexFirstBelow(EdgeBelow(), a, b);
    }
  }

  ghost predicate RolesInOrder(s: Shape, names: seq<string>) {
    && Sorting.Distinct(names) && (forall r :: r in names <==> r in s.roles)
    && forall i, j :: 0 <= i < j < |names| ==> TextAtMost(names[i], names[j])
  }

  ghost predicate AtMostEvery(s: Shape, names: seq<string>, edges: seq<Edge>) {
    forall q, t :: Fills(GroupsOf(s, names), q) && IsTuple(t, Pull(q, s.edges)) ==> EdgesAtMost(edges, t)
  }

  /** A signature lists the roles in ascending text order, and the edges of the one arrangement, ascending, that comes
      first among all arrangements: role by role in ascending order, the positions of each in any order. */
  lemma SignatureIsLeast(s: Shape, sig: Signature)
    requires IsSignature(s, sig)
    ensures multiset(sig.roles) == multiset(s.roles)
    ensures forall i, j :: 0 <= i < j < |sig.roles| ==> TextAtMost(sig.roles[i], sig.roles[j])
    ensures forall i, j :: 0 <= i < j < |sig.edges| ==> EdgeAtMost(sig.edges[i], sig.edges[j]) && sig.edges[i] != sig.edges[j]
    ensures exists names :: RolesInOrder(s, names) && AtMostEvery(s, names, sig.edges)
  {
    hide TextAtMost, EdgesAtMost, RoleOrder, EdgeBelow, Pull, Fills, GroupsOf;
    RoleOrderIsTotal();
    Sorting.SortSorts(RoleOrder(), s.roles);
    forall i, j | 0 <= i < j < |sig.roles| ensures TextAtMost(sig.roles[i], sig.roles[j]) {
      RoleOrderReads(sig.roles[i], sig.roles[j]);
    }
    var names :| IsRoleNames(s, names) && IsLeast(s, GroupsOf(s, names), sig.edges);
    forall i, j | 0 <= i < j < |names| ensures TextAtMost(names[i], names[j]) {
      RoleOrderReads(names[i], names[j]);
    }
    forall q, t | Fills(GroupsOf(s, names), q) && IsTuple(t, Pull(q, s.edges)) ensures EdgesAtMost(sig.edges, t) {
      EdgeTuplesRead(sig.edges, t);
    }
    assert RolesInOrder(s, names) && AtMostEvery(s, names, sig.edges);
  }
}
