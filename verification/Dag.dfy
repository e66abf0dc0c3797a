/** Dependency relations: walks, cycles and topological orders. */
module Dag {
  import opened AgyTypes
  import Sorting

  /** For every node the ids it depends on, duplicates allowed. */
  type Deps = map<NodeId, seq<NodeId>>

  function DepsOf(nodes: seq<NodeSpec>): (deps: Deps)
    ensures deps.Keys == IdSet(nodes)
  {
    var byId := NodesById(nodes);
    map id | id in byId :: byId[id].dependencies
  }

  /** Every dependency is itself a node. */
  ghost predicate Closed(deps: Deps) {
    forall id, d :: id in deps && d in deps[id] ==> d in deps
  }

  lemma ResolvableIsClosed(nodes: seq<NodeSpec>)
    requires Resolvable(nodes)
    ensures Closed(DepsOf(nodes))
  {
    var byId := NodesById(nodes);
    forall id, d | id in byId && d in byId[id].dependencies ensures d in byId {
      var i :| 0 <= i < |nodes| && nodes[i] == byId[id];
    }
  }

  /** A walk leads from a dependency to its dependents, one edge a step. */
  ghost predicate Walk(deps: Deps, p: seq<NodeId>) {
    && |p| > 0
    && forall i :: 0 < i < |p| ==> p[i] in deps && p[i - 1] in deps[p[i]]
  }

  ghost predicate Cycle(deps: Deps, p: seq<NodeId>) {
    Walk(deps, p) && |p| > 1 && p[0] == p[|p| - 1]
  }

  ghost predicate HasCycle(deps: Deps) {
    exists p :: Cycle(deps, p)
  }

  /** The dependencies of the `i`-th listed node are listed before it. */
  ghost predicate Placed(deps: Deps, order: seq<NodeId>, i: nat) {
    i < |order| && order[i] in deps && forall d :: d in deps[order[i]] ==> d in order[..i]
  }

  /** A prefix of a topological order: every dependency of a listed node is listed before it. */
  ghost predicate Ordered(deps: Deps, order: seq<NodeId>) {
    && Sorting.Distinct(order)
    && forall i :: 0 <= i < |order| ==> Placed(deps, order, i)
  }

  ghost predicate TopologicalOrder(deps: Deps, order: seq<NodeId>) {
    Ordered(deps, order) && forall id :: id in deps ==> id in order
  }

  ghost function Elements(s: seq<NodeId>): set<NodeId> {
    set x | x in s
  }

  lemma {:induction false} WalkAscends(deps: Deps, order: seq<NodeId>, p: seq<NodeId>) returns (first: nat, last: nat)
    requires TopologicalOrder(deps, order) && Walk(deps, p) && p[0] in deps
    ensures first < |order| && last < |order| && order[first] == p[0] && order[last] == p[|p| - 1]
    ensures first + |p| - 1 <= last
  {
    if |p| == 1 {
      first :| 0 <= first < |order| && order[first] == p[0];
      last := first;
    } else {
      var mid;
      first, mid := WalkAscends(deps, order, p[..|p| - 1]);
      last :| 0 <= last < |order| && order[last] == p[|p| - 1];
      assert Placed(deps, order, last);
      assert order[mid] in order[..last];
      var k :| 0 <= k < last && order[..last][k] == order[mid];
      assert k == mid;
    }
  }

  lemma OrderedHasNoCycle(deps: Deps, order: seq<NodeId>)
    requires Closed(deps) && TopologicalOrder(deps, order)
    ensures !HasCycle(deps)
  {
    forall p | Walk(deps, p) && |p| > 1 ensures p[0] != p[|p| - 1] {
      assert p[0] in deps[p[1]];
      var first, last := WalkAscends(deps, order, p);
      assert order[first] != order[last];
    }
  }

  ghost predicate DependsInto(deps: Deps, x: NodeId, targets: set<NodeId>) {
    x in deps && exists d :: d in deps[x] && d in targets
  }

  /** A walk of any length inside a set in which every node has a predecessor. */
  lemma {:induction false} StuckWalk(deps: Deps, stuck: set<NodeId>, n: nat) returns (p: seq<NodeId>)
    requires stuck <= deps.Keys && stuck != {}
    requires forall x :: x in stuck ==> DependsInto(deps, x, stuck)
    ensures |p| == n + 1 && Walk(deps, p) && Elements(p) <= stuck
  {
    if n == 0 {
      var x :| x in stuck;
      p := [x];
    } else {
      var q := StuckWalk(deps, stuck, n - 1);
      assert q[0] in Elements(q);
      assert DependsInto(deps, q[0], stuck);
      var d :| d in deps[q[0]] && d in stuck;
      p := [d] + q;
      forall i | 0 < i < |p| ensures p[i] in deps && p[i - 1] in deps[p[i]] {
        assert p[i] == q[i - 1];
      }
      assert Elements(p) == {d} + Elements(q);
    }
  }

  lemma Repeats(p: seq<NodeId>)
    requires |Elements(p)| < |p|
    ensures exists i, j :: 0 <= i < j < |p| && p[i] == p[j]
  {
    if Sorting.Distinct(p) {
      Sorting.DistinctMultiset(p);
    }
  }

  lemma StuckHasCycle(deps: Deps, stuck: set<NodeId>)
    requires stuck <= deps.Keys && stuck != {}
    requires forall x :: x in stuck ==> DependsInto(deps, x, stuck)
    ensures HasCycle(deps)
  {
    hide DependsInto, Elements;
    var p := StuckWalk(deps, stuck, |stuck|);
    SubsetSize(Elements(p), stuck);
    Repeats(p);
    var i, j :| 0 <= i < j < |p| && p[i] == p[j];
    assert Cycle(deps, p[i..j + 1]);
  }

  lemma {:induction false} SubsetSize<T>(a: set<T>, b: set<T>)
    requires a <= b
    ensures |a| <= |b|
    ensures |a| == |b| ==> a == b
  {
    if a != {} {
      var x :| x in a;
      SubsetSize(a - {x}, b - {x});
    }
  }

  lemma OrderedAppend(deps: Deps, order: seq<NodeId>, x: NodeId)
    requires Ordered(deps, order) && x in deps && x !in order
    requires forall d :: d in deps[x] ==> d in order
    ensures Ordered(deps, order + [x])
  {
    var next := order + [x];
    forall i | 0 <= i < |next| ensures Placed(deps, next, i) {
      if i < |order| {
        assert Placed(deps, order, i);
        assert next[..i] == order[..i];
      } else {
        assert next[..i] == order;
      }
    }
  }

  lemma OrderedIsDownClosed(deps: Deps, order: seq<NodeId>)
    requires Ordered(deps, order)
    ensures Elements(order) <= deps.Keys
    ensures forall x, d :: x in Elements(order) && d in deps[x] ==> d in Elements(order)
  {
    forall i | 0 <= i < |order| ensures order[i] in deps && forall d :: d in deps[order[i]] ==> d in Elements(order) {
      assert Placed(deps, order, i);
      assert order == order[..i] + order[i..];
    }
  }

  /** Sources can be listed first until nothing is left, unless a cycle is in the way. */
  ghost function Unlisted(deps: Deps, order: seq<NodeId>): nat {
    |deps.Keys - Elements(order)|
  }

  lemma OneListed(deps: Deps, order: seq<NodeId>, x: NodeId)
    requires x in deps && x !in order
    ensures Unlisted(deps, order + [x]) < Unlisted(deps, order)
  {
    assert Elements(order + [x]) == Elements(order) + {x};
    assert deps.Keys - Elements(order + [x]) == (deps.Keys - Elements(order)) - {x};
  }

  /** If every unlisted node waits for another unlisted one, there is a cycle. */
  lemma AllWait(deps: Deps, order: seq<NodeId>, y: NodeId)
    requires Closed(deps) && y in deps && y !in order
    requires forall x :: x in deps && x !in order ==> Waits(deps, order, x)
    ensures HasCycle(deps)
  {
    hide HasCycle;
    var rest := deps.Keys - Elements(order);
    assert y in rest;
    forall x | x in rest ensures DependsInto(deps, x, rest) {
      assert Waits(deps, order, x);
      var d :| d in deps[x] && d !in order;
      assert d in rest;
    }
    StuckHasCycle(deps, rest);
  }

  ghost predicate Waits(deps: Deps, order: seq<NodeId>, x: NodeId) {
    x in deps && exists d :: d in deps[x] && d !in order
  }

  /** Either everything is listed, or some node can be listed next. */
  lemma SomeNext(deps: Deps, order: seq<NodeId>, y: NodeId)
    requires Closed(deps) && !HasCycle(deps) && y in deps && y !in order
    ensures exists x :: x in deps && x !in order && !Waits(deps, order, x)
  {
    hide HasCycle, Closed, Waits;
    if forall x :: x in deps && x !in order ==> Waits(deps, order, x) {
      AllWait(deps, order, y);
    }
  }

  lemma {:induction false} ExtendOrder(deps: Deps, order: seq<NodeId>) returns (full: seq<NodeId>)
    requires Closed(deps) && !HasCycle(deps) && Ordered(deps, order)
    ensures TopologicalOrder(deps, full)
    decreases Unlisted(deps, order)
  {
    hide HasCycle, Ordered, Unlisted, Closed;
    full := order;
    if !(forall id :: id in deps ==> id in order) {
      var y :| y in deps && y !in order;
      SomeNext(deps, order, y);
      var x :| x in deps && x !in order && !Waits(deps, order, x);
      OneListed(deps, order, x);
      OrderedAppend(deps, order, x);
      full := ExtendOrder(deps, order + [x]);
    }
  }

  /** A dependency relation is acyclic exactly when its nodes can be put in dependency order. */
  lemma AcyclicIffOrdered(deps: Deps)
    requires Closed(deps)
    ensures !HasCycle(deps) <==> exists order :: TopologicalOrder(deps, order)
  {
    if !HasCycle(deps) {
      var order := ExtendOrder(deps, []);
    } else {
      forall order | TopologicalOrder(deps, order) ensures false {
        OrderedHasNoCycle(deps, order);
      }
    }
  }
}
