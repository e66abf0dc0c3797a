/** The plan-time gate over ids and dependencies, ending in Kahn's cycle check. */
module Validate {
  import opened AgyTypes
  import opened Dag
  import Sorting

  datatype Verdict =
    | Valid
    | DuplicateIds
    | UnknownDependency(node: NodeId, dep: NodeId)
    | DependencyCycle

  /** How many entries of `s` are outside `done`. */
  function Open(s: seq<NodeId>, done: set<NodeId>): nat {
    if s == [] then 0 else (if s[0] in done then 0 else 1) + Open(s[1..], done)
  }

  lemma {:induction false} OpenClosing(s: seq<NodeId>, done: set<NodeId>, x: NodeId)
    requires x !in done
    ensures Open(s, done + {x}) + multiset(s)[x] == Open(s, done)
  {
    if s != [] {
      assert s == [s[0]] + s[1..];
      OpenClosing(s[1..], done, x);
    }
  }

  lemma {:induction false} OpenSome(s: seq<NodeId>, done: set<NodeId>)
    ensures Open(s, done) > 0 <==> exists d :: d in s && d !in done
  {
    if s != [] {
      assert s == [s[0]] + s[1..];
      OpenSome(s[1..], done);
    }
  }

  lemma {:induction false} OpenAll(s: seq<NodeId>)
    ensures Open(s, {}) == |s|
  {
    if s != [] {
      OpenAll(s[1..]);
    }
  }

  /** Reverse adjacency with multiplicity: `adj[d]` lists `x` as often as `x` names `d`. */
  ghost predicate Reverses(deps: Deps, adj: map<NodeId, seq<NodeId>>) {
    && adj.Keys == deps.Keys
    && (forall d, x :: d in adj && x in adj[d] ==> x in deps)
    && (forall d, x :: d in adj && x in deps ==> multiset(adj[d])[x] == multiset(deps[x])[d])
  }

  /** `part` holds the dependency entries read so far: all those of the first `i` nodes. */
  ghost predicate ReadSoFar(nodes: seq<NodeSpec>, i: nat, part: Deps) {
    && part.Keys == IdSet(nodes)
    && forall k :: 0 <= k < |nodes| ==> part[nodes[k].id] == if k < i then nodes[k].dependencies else []
  }

  lemma TakeNext<T>(s: seq<T>, j: nat)
    requires j < |s|
    ensures s[..j + 1] == s[..j] + [s[j]]
  {
  }

  lemma TakeNone<T>(s: seq<T>)
    ensures s[..0] == [] && s[..|s|] == s
  {
  }

  /** In-degrees and reverse adjacency agree with the dependency entries `part`. */
  ghost predicate Built(part: Deps, indeg: map<NodeId, int>, adj: map<NodeId, seq<NodeId>>) {
    Reverses(part, adj) && indeg.Keys == part.Keys && forall x :: x in part ==> indeg[x] == |part[x]|
  }

  lemma AddEdge(part: Deps, indeg: map<NodeId, int>, adj: map<NodeId, seq<NodeId>>, n: NodeId, dep: NodeId)
    requires n in part && dep in part && Built(part, indeg, adj)
    ensures n in indeg && dep in adj
    ensures Built(part[n := part[n] + [dep]], indeg[n := indeg[n] + 1], adj[dep := adj[dep] + [n]])
  {
  }

  lemma ReadNext(nodes: seq<NodeSpec>, i: nat, part: Deps)
    requires UniqueIds(nodes) && i < |nodes| && ReadSoFar(nodes, i, part)
    ensures ReadSoFar(nodes, i + 1, part[nodes[i].id := nodes[i].dependencies])
  {
  }

  lemma ReadAll(nodes: seq<NodeSpec>, part: Deps)
    requires UniqueIds(nodes) && ReadSoFar(nodes, |nodes|, part)
    ensures part == DepsOf(nodes)
  {
    var byId := NodesById(nodes);
    forall id | id in part ensures part[id] == byId[id].dependencies {
      var k :| 0 <= k < |nodes| && nodes[k] == byId[id];
    }
  }

  /** Fills in-degrees and reverse adjacency, one dependency at a time. */
  method BuildAdjacency(nodes: seq<NodeSpec>)
    returns (indeg: map<NodeId, int>, adj: map<NodeId, seq<NodeId>>)
    requires WellFormed(nodes)
    ensures Built(DepsOf(nodes), indeg, adj)
  {
    indeg := map id | id in IdSet(nodes) :: 0;
    adj := map id | id in IdSet(nodes) :: [];
    ghost var part: Deps := map id | id in IdSet(nodes) :: [];
    for i := 0 to |nodes|
      invariant ReadSoFar(nodes, i, part)
      invariant Built(part, indeg, adj)
    {
      indeg, adj := AddDependencies(nodes[i], indeg, adj, part);
      ReadNext(nodes, i, part);
      part := part[nodes[i].id := nodes[i].dependencies];
    }
    ReadAll(nodes, part);
  }

  method AddDependencies(n: NodeSpec, indeg: map<NodeId, int>, adj: map<NodeId, seq<NodeId>>, ghost part: Deps)
    returns (indeg': map<NodeId, int>, adj': map<NodeId, seq<NodeId>>)
    requires Built(part, indeg, adj) && n.id in part && part[n.id] == []
    requires forall d :: d in n.dependencies ==> d in part
    ensures Built(part[n.id := n.dependencies], indeg', adj')
  {
    hide Built;
    indeg', adj' := indeg, adj;
    NothingRead(part, n.id, n.dependencies);
    for j := 0 to |n.dependencies|
      invariant Built(part[n.id := n.dependencies[..j]], indeg', adj')
    {
      var dep := n.dependencies[j];
      ghost var read := part[n.id := n.dependencies[..j]];
      AddEdge(read, indeg', adj', n.id, dep);
      ReadOneMore(part, n.id, n.dependencies, j);
      adj' := adj'[dep := adj'[dep] + [n.id]];
      indeg' := indeg'[n.id := indeg'[n.id] + 1];
    }
  }

  lemma NothingRead(part: Deps, id: NodeId, deps: seq<NodeId>)
    requires id in part && part[id] == []
    ensures part == part[id := deps[..0]] && deps[..|deps|] == deps
  {
  }

  lemma ReadOneMore(part: Deps, id: NodeId, deps: seq<NodeId>, j: nat)
    requires j < |deps|
    ensures var read := part[id := deps[..j]];
            read[id := read[id] + [deps[j]]] == part[id := deps[..j + 1]]
  {
    TakeNext(deps, j);
  }

  /** The loop state of Kahn's algorithm: `order` was dequeued, `taken` of the edges out of the last
      dequeued node have been discounted. */
  ghost predicate Counted(deps: Deps, indeg: map<NodeId, int>, done: set<NodeId>, taken: multiset<NodeId>) {
    indeg.Keys == deps.Keys && forall x :: x in deps ==> indeg[x] == Open(deps[x], done) - taken[x]
  }

  ghost predicate Queued(indeg: map<NodeId, int>, done: set<NodeId>, queue: seq<NodeId>) {
    && Sorting.Distinct(queue)
    && forall x :: x in queue <==> x in indeg && x !in done && indeg[x] == 0
  }

  /** Kahn's algorithm: accepts exactly the graphs without a dependency cycle. */
  method CheckAcyclic(nodes: seq<NodeSpec>) returns (ok: bool)
    requires WellFormed(nodes)
    ensures ok <==> !HasCycle(DepsOf(nodes))
  {
    ghost var deps := DepsOf(nodes);
    ResolvableIsClosed(nodes);
    var indeg, adj := BuildAdjacency(nodes);
    var queue := InitialQueue(nodes, indeg);
    var seen := 0;
    ghost var order: seq<NodeId> := [];
    AllOpen(deps, indeg);
    while queue != []
      invariant Ordered(deps, order) && seen == |order|
      invariant Counted(deps, indeg, Elements(order), multiset{})
      invariant Queued(indeg, Elements(order), queue)
      decreases Unlisted(deps, order)
    {
      var cur := queue[|queue| - 1];
      ghost var done := Elements(order);
      LastQueued(indeg, order, queue);
      queue := DropLast(indeg, done, queue);
      seen := seen + 1;
      Dequeue(deps, indeg, order, cur);
      order := order + [cur];
      indeg, queue := Discharge(deps, indeg, adj, done, cur, queue);
    }
    ok := seen == |nodes|;
    Exhausted(deps, indeg, order);
    AllSeen(nodes, order);
  }

  /** Discounts the edges out of the dequeued node, queueing every node whose count drops to zero. */
  method Discharge(ghost deps: Deps, counts: map<NodeId, int>, adj: map<NodeId, seq<NodeId>>, ghost done: set<NodeId>, cur: NodeId, waiting: seq<NodeId>)
    returns (indeg: map<NodeId, int>, queue: seq<NodeId>)
    requires Reverses(deps, adj) && cur in adj && cur !in done && cur in deps && cur !in deps[cur] && ClosedDown(deps, done)
    requires Counted(deps, counts, done, multiset{}) && Queued(counts, done + {cur}, waiting)
    ensures Counted(deps, indeg, done + {cur}, multiset{}) && Queued(indeg, done + {cur}, queue)
  {
    hide Queued;
    indeg, queue := counts, waiting;
    TakeNone(adj[cur]);
    for k := 0 to |adj[cur]|
      invariant Counted(deps, indeg, done, multiset(adj[cur][..k]))
      invariant Queued(indeg, done + {cur}, queue)
    {
      var nxt := adj[cur][k];
      TakeOne(deps, indeg, adj, done, cur, k);
      Discount(deps, indeg, done, multiset(adj[cur][..k]), nxt);
      Requeue(indeg, done + {cur}, queue, nxt);
      indeg := indeg[nxt := indeg[nxt] - 1];
      if indeg[nxt] == 0 {
        queue := queue + [nxt];
      }
    }
    NodeDone(deps, indeg, adj, done, cur);
  }

  ghost predicate ClosedDown(deps: Deps, done: set<NodeId>) {
    forall x, d :: x in done && x in deps && d in deps[x] ==> d in done
  }

  lemma AllOpen(deps: Deps, indeg: map<NodeId, int>)
    requires indeg.Keys == deps.Keys && forall x :: x in indeg ==> indeg[x] == |deps[x]|
    ensures Counted(deps, indeg, Elements([]), multiset{})
  {
    assert Elements([]) == {};
    forall x | x in deps ensures indeg[x] == Open(deps[x], {}) {
      OpenAll(deps[x]);
    }
  }

  lemma AllSeen(nodes: seq<NodeSpec>, order: seq<NodeId>)
    requires UniqueIds(nodes) && Ordered(DepsOf(nodes), order)
    ensures |order| == |nodes| <==> Elements(order) == DepsOf(nodes).Keys
  {
    OrderedIsDownClosed(DepsOf(nodes), order);
    IdCount(nodes);
    SubsetSize(Elements(order), IdSet(nodes));
    Sorting.DistinctMultiset(order);
    assert Elements(order) == set x | x in order;
  }

  lemma Discount(deps: Deps, indeg: map<NodeId, int>, done: set<NodeId>, taken: multiset<NodeId>, nxt: NodeId)
    requires Counted(deps, indeg, done, taken) && nxt in deps
    ensures Counted(deps, indeg[nxt := indeg[nxt] - 1], done, taken + multiset{nxt})
  {
  }

  lemma Requeue(indeg: map<NodeId, int>, done: set<NodeId>, queue: seq<NodeId>, nxt: NodeId)
    requires Queued(indeg, done, queue) && nxt in indeg && nxt !in done && indeg[nxt] > 0
    ensures Queued(indeg[nxt := indeg[nxt] - 1], done, if indeg[nxt] == 1 then queue + [nxt] else queue)
  {
    assert nxt !in queue;
  }

  /** All edges out of `cur` are discounted: counts are exact again, for the larger listed set. */
  lemma NodeDone(deps: Deps, indeg: map<NodeId, int>, adj: map<NodeId, seq<NodeId>>, done: set<NodeId>, cur: NodeId)
    requires Reverses(deps, adj) && cur in adj && cur !in done
    requires Counted(deps, indeg, done, multiset(adj[cur]))
    ensures Counted(deps, indeg, done + {cur}, multiset{})
  {
    forall x | x in deps ensures indeg[x] == Open(deps[x], done + {cur}) {
      OpenClosing(deps[x], done, cur);
    }
  }

  lemma IdCount(nodes: seq<NodeSpec>)
    requires UniqueIds(nodes)
    ensures |IdSet(nodes)| == |nodes|
  {
    Sorting.DistinctMultiset(Ids(nodes));
    assert IdSet(nodes) == set x | x in Ids(nodes);
  }

  method InitialQueue(nodes: seq<NodeSpec>, indeg: map<NodeId, int>) returns (queue: seq<NodeId>)
    requires UniqueIds(nodes) && indeg.Keys == IdSet(nodes)
    ensures Queued(indeg, {}, queue)
  {
    queue := [];
    for i := 0 to |nodes|
      invariant Sorting.Distinct(queue)
      invariant forall x :: x in queue <==> x in IdSet(nodes[..i]) && indeg[x] == 0
    {
      assert nodes[..i + 1] == nodes[..i] + [nodes[i]];
      assert IdSet(nodes[..i + 1]) == IdSet(nodes[..i]) + {nodes[i].id};
      assert nodes[i].id in IdSet(nodes);
      forall k | 0 <= k < i ensures nodes[..i][k].id != nodes[i].id {
      }
      if indeg[nodes[i].id] == 0 {
        queue := queue + [nodes[i].id];
      }
    }
    assert nodes[..|nodes|] == nodes;
  }

  method DropLast(indeg: map<NodeId, int>, ghost done: set<NodeId>, queue: seq<NodeId>) returns (rest: seq<NodeId>)
    requires queue != [] && Queued(indeg, done, queue)
    ensures Queued(indeg, done + {queue[|queue| - 1]}, rest)
  {
    rest := queue[..|queue| - 1];
    assert queue == rest + [queue[|queue| - 1]];
  }

  lemma LastQueued(indeg: map<NodeId, int>, order: seq<NodeId>, queue: seq<NodeId>)
    requires queue != [] && Queued(indeg, Elements(order), queue)
    ensures var cur := queue[|queue| - 1]; cur in indeg && cur !in order && indeg[cur] == 0
  {
    assert queue[|queue| - 1] in queue;
  }

  lemma Dequeue(deps: Deps, indeg: map<NodeId, int>, order: seq<NodeId>, cur: NodeId)
    requires Ordered(deps, order) && Counted(deps, indeg, Elements(order), multiset{})
    requires cur in deps && cur !in order && indeg[cur] == 0
    ensures Ordered(deps, order + [cur])
    ensures cur !in deps[cur]
    ensures ClosedDown(deps, Elements(order))
    ensures Elements(order + [cur]) == Elements(order) + {cur}
    ensures Unlisted(deps, order + [cur]) < Unlisted(deps, order)
  {
    OpenSome(deps[cur], Elements(order));
    OrderedAppend(deps, order, cur);
    OrderedIsDownClosed(deps, order);
    var rest := deps.Keys - Elements(order);
    assert Elements(order + [cur]) == Elements(order) + {cur};
    assert deps.Keys - Elements(order + [cur]) == rest - {cur};
  }

  lemma PrefixCount(s: seq<NodeId>, k: nat)
    requires k < |s|
    ensures multiset(s)[s[k]] > multiset(s[..k])[s[k]]
    ensures multiset(s[..k + 1]) == multiset(s[..k]) + multiset{s[k]}
  {
    assert s[..k + 1] == s[..k] + [s[k]];
    assert s == s[..k + 1] + s[k + 1..];
  }

  /** The next edge out of `cur` leads to an unlisted node whose count is still positive. */
  lemma TakeOne(deps: Deps, indeg: map<NodeId, int>, adj: map<NodeId, seq<NodeId>>, done: set<NodeId>, cur: NodeId, k: nat)
    requires Reverses(deps, adj) && cur in adj && k < |adj[cur]| && cur !in done && cur !in deps[cur]
    requires ClosedDown(deps, done)
    requires Counted(deps, indeg, done, multiset(adj[cur][..k]))
    ensures adj[cur][k] in deps && adj[cur][k] !in done + {cur} && indeg[adj[cur][k]] > 0
    ensures multiset(adj[cur][..k + 1]) == multiset(adj[cur][..k]) + multiset{adj[cur][k]}
  {
    var nxt := adj[cur][k];
    assert nxt in adj[cur];
    PrefixCount(adj[cur], k);
    assert multiset(deps[nxt])[cur] == multiset(adj[cur])[nxt];
    assert cur in multiset(deps[nxt]);
    OpenClosing(deps[nxt], done, cur);
  }

  lemma Blocked(deps: Deps, indeg: map<NodeId, int>, done: set<NodeId>)
    requires Closed(deps) && Counted(deps, indeg, done, multiset{})
    requires forall x :: x in deps && x !in done ==> indeg[x] != 0
    requires deps.Keys - done != {}
    ensures HasCycle(deps)
  {
    var rest := deps.Keys - done;
    forall x | x in rest ensures DependsInto(deps, x, rest) {
      OpenSome(deps[x], done);
      var d :| d in deps[x] && d !in done;
      assert d in rest;
    }
    StuckHasCycle(deps, rest);
  }

  lemma Exhausted(deps: Deps, indeg: map<NodeId, int>, order: seq<NodeId>)
    requires Closed(deps) && Ordered(deps, order) && Counted(deps, indeg, Elements(order), multiset{})
    requires forall x :: x in deps && x !in Elements(order) ==> indeg[x] != 0
    ensures HasCycle(deps) <==> Elements(order) != deps.Keys
  {
    OrderedIsDownClosed(deps, order);
    if Elements(order) == deps.Keys {
      assert forall id :: id in deps ==> id in Elements(order);
      OrderedHasNoCycle(deps, order);
    } else {
      assert Elements(order) == deps.Keys - (deps.Keys - Elements(order));
      Blocked(deps, indeg, Elements(order));
    }
  }

  /** The id and dependency checks of the gate, in the order they are made. */
  method ValidateOrDie(nodes: seq<NodeSpec>) returns (verdict: Verdict)
    ensures verdict == Valid <==> WellFormed(nodes) && !HasCycle(DepsOf(nodes))
    ensures verdict == DuplicateIds <==> !UniqueIds(nodes)
    ensures verdict == DependencyCycle <==> WellFormed(nodes) && HasCycle(DepsOf(nodes))
    ensures verdict.UnknownDependency? ==>
      exists i :: 0 <= i < |nodes| && nodes[i].id == verdict.node && verdict.dep in nodes[i].dependencies &&
                  verdict.dep !in IdSet(nodes) && Resolvable'(nodes, i)
  {
    var ids := IdSet(nodes);
    UniqueIffCount(nodes);
    if |ids| != |nodes| {
      return DuplicateIds;
    }
    for i := 0 to |nodes|
      invariant Resolvable'(nodes, i)
    {
      for j := 0 to |nodes[i].dependencies|
        invariant forall k :: 0 <= k < j ==> nodes[i].dependencies[k] in ids
      {
        if nodes[i].dependencies[j] !in ids {
          return UnknownDependency(nodes[i].id, nodes[i].dependencies[j]);
        }
      }
    }
    var ok := CheckAcyclic(nodes);
    verdict := if ok then Valid else DependencyCycle;
  }

  /** The first `i` nodes name only known dependencies. */
  ghost predicate Resolvable'(nodes: seq<NodeSpec>, i: nat) {
    forall k, d :: 0 <= k < i && k < |nodes| && d in nodes[k].dependencies ==> d in IdSet(nodes)
  }

  lemma UniqueIffCount(nodes: seq<NodeSpec>)
    ensures UniqueIds(nodes) <==> |IdSet(nodes)| == |nodes|
  {
    if UniqueIds(nodes) {
      IdCount(nodes);
    } else {
      var i, j :| 0 <= i < j < |nodes| && nodes[i].id == nodes[j].id;
      var rest := nodes[..j] + nodes[j + 1..];
      forall id | id in IdSet(nodes) ensures id in IdSet(rest) {
        var k :| 0 <= k < |nodes| && nodes[k].id == id;
        assert k < j ==> rest[k].id == id;
        assert k == j ==> rest[i].id == id;
        assert k > j ==> rest[k - 1].id == id;
      }
      SubsetSize(IdSet(nodes), IdSet(rest));
      IdSetBound(rest);
    }
  }

  lemma {:induction false} IdSetBound(nodes: seq<NodeSpec>)
    ensures |IdSet(nodes)| <= |nodes|
  {
    if nodes != [] {
      var rest := nodes[..|nodes| - 1];
      IdSetBound(rest);
      assert IdSet(nodes) == IdSet(rest) + {nodes[|nodes| - 1].id};
    }
  }
}
