/** The ready set, the guarded node state machine, and skip propagation. */
module Scheduling {
  import opened AgyTypes
  import opened Dag
  import Sorting

  type States = map<NodeId, Runtime>

  /** The nine legal status edges; terminal statuses have none. */
  predicate CanTransition(src: NodeStatus, dst: NodeStatus) {
    match src
    case Pending => dst == Ready
    case Ready => dst in {Reserved, Skipped}
    case Reserved => dst in {Running, Ready, Skipped}
    case Running => dst in {Succeeded, Failed, Ready, Cancelled}
    case _ => false
  }

  /** Running nodes are never skipped: an in-flight sibling is left to finish. */
  predicate Skippable(s: NodeStatus) {
    s in {Pending, Ready, Reserved}
  }

  /** How far a node is: waiting, admitted, reserved, running, over. */
  function Rank(s: NodeStatus): nat {
    match s
    case Pending => 0
    case Ready => 1
    case Reserved => 2
    case Running => 3
    case _ => 4
  }

  /** A node moves one step at a time towards running and from there to an end of its own; it may fall back to ready
      once reserved, and be skipped between ready and running. Every status but the terminal ones has a way on, and
      every status except running and the terminal ones may be skipped. */
  lemma TransitionsExact(src: NodeStatus, dst: NodeStatus)
    ensures CanTransition(src, dst) <==>
      || Rank(dst) == Rank(src) + 1 <= 3
      || (dst == Ready && Rank(src) in {2, 3})
      || (dst == Skipped && Rank(src) in {1, 2})
      || (dst in {Succeeded, Failed, Cancelled} && Rank(src) == 3)
    ensures IsTerminal(src) <==> forall s :: !CanTransition(src, s)
    ensures Skippable(src) <==> src != Running && exists s :: CanTransition(src, s)
  {
    if src.Pending? || src.Running? {
      assert CanTransition(src, Ready);
    } else if src.Ready? {
      assert CanTransition(src, Reserved);
    } else if src.Reserved? {
      assert CanTransition(src, Running);
    }
  }

  predicate HasStatus(states: States, id: NodeId, s: NodeStatus) {
    id in states && states[id].status == s
  }

  predicate IsReady(states: States, n: NodeSpec) {
    && HasStatus(states, n.id, Pending)
    && forall d :: d in n.dependencies ==> HasStatus(states, d, Succeeded)
  }

  /** The ready ids among the first `i` nodes, in graph order. */
  function ReadyUpTo(nodes: seq<NodeSpec>, states: States, i: nat): seq<NodeId>
    requires i <= |nodes|
  {
    if i == 0 then []
    else
      ReadyUpTo(nodes, states, i - 1) + if IsReady(states, nodes[i - 1]) then [nodes[i - 1].id] else []
  }

  function ReadySet(nodes: seq<NodeSpec>, states: States): seq<NodeId> {
    ReadyUpTo(nodes, states, |nodes|)
  }

  lemma {:induction false} ReadyUpToExact(nodes: seq<NodeSpec>, states: States, i: nat)
    requires UniqueIds(nodes) && i <= |nodes|
    ensures Sorting.Distinct(ReadyUpTo(nodes, states, i)) && |ReadyUpTo(nodes, states, i)| <= i
    ensures forall id :: id in ReadyUpTo(nodes, states, i) <==>
      exists k :: 0 <= k < i && nodes[k].id == id && IsReady(states, nodes[k])
  {
    if i > 0 {
      ReadyUpToExact(nodes, states, i - 1);
      var prev := ReadyUpTo(nodes, states, i - 1);
      assert nodes[i - 1].id !in prev;
      assert ReadyUpTo(nodes, states, i) == if IsReady(states, nodes[i - 1]) then prev + [nodes[i - 1].id] else prev;
    }
  }

  /** The ready set holds, once each, exactly the pending nodes whose dependencies all succeeded. */
  lemma ReadySetExact(nodes: seq<NodeSpec>, states: States)
    requires WellFormed(nodes)
    ensures Sorting.Distinct(ReadySet(nodes, states))
    ensures forall id :: id in ReadySet(nodes, states) <==>
      id in IdSet(nodes) && IsReady(states, NodesById(nodes)[id])
  {
    ReadyUpToExact(nodes, states, |nodes|);
    var byId := NodesById(nodes);
    forall k | 0 <= k < |nodes| ensures nodes[k].id in byId && byId[nodes[k].id] == nodes[k] {
      assert nodes[k] in nodes;
    }
    forall id | id in byId ensures exists k :: 0 <= k < |nodes| && nodes[k] == byId[id] {
    }
  }

  predicate AllTerminal(states: States) {
    forall id :: id in states ==> IsTerminal(states[id].status)
  }

  /** A chain of dependents out of `failed` in which every later node may be skipped. */
  ghost predicate SkipWalk(deps: Deps, states: States, failed: NodeId, p: seq<NodeId>) {
    && Walk(deps, p) && |p| > 1 && p[0] == failed
    && forall i :: 0 < i < |p| ==> p[i] in states && Skippable(states[p[i]].status)
  }

  ghost predicate SkipReaches(deps: Deps, states: States, failed: NodeId, x: NodeId) {
    exists p :: SkipWalk(deps, states, failed, p) && p[|p| - 1] == x
  }

  /** The transitive dependents of `failed` that a skip pass reaches. */
  ghost function SkipSet(deps: Deps, states: States, failed: NodeId): set<NodeId> {
    set x | x in states && SkipReaches(deps, states, failed, x)
  }

  function SkipAll(states: States, skipped: set<NodeId>): States {
    map id | id in states :: if id in skipped then states[id].(status := Skipped) else states[id]
  }

  /** Outside `open`, every skippable dependent of a seen node was skipped. */
  ghost predicate Settled(deps: Deps, states: States, seen: set<NodeId>, skipped: set<NodeId>, open: set<NodeId>) {
    forall y, x :: y in seen && y !in open && x in deps && y in deps[x] && x in states && Skippable(states[x].status)
      ==> x in skipped
  }

  lemma ReachStep(deps: Deps, states: States, failed: NodeId, y: NodeId, x: NodeId)
    requires y == failed || SkipReaches(deps, states, failed, y)
    requires x in deps && y in deps[x] && x in states && Skippable(states[x].status)
    ensures SkipReaches(deps, states, failed, x)
  {
    if y == failed {
      assert SkipWalk(deps, states, failed, [failed, x]);
    } else {
      var p :| SkipWalk(deps, states, failed, p) && p[|p| - 1] == y;
      assert SkipWalk(deps, states, failed, p + [x]);
    }
  }

  lemma {:induction false} SettledCoversWalk(deps: Deps, states: States, failed: NodeId, skipped: set<NodeId>, p: seq<NodeId>, i: nat)
    requires Settled(deps, states, skipped + {failed}, skipped, {})
    requires SkipWalk(deps, states, failed, p) && 0 < i < |p|
    ensures p[i] in skipped
  {
    if i > 1 {
      SettledCoversWalk(deps, states, failed, skipped, p, i - 1);
    }
    assert p[i - 1] in deps[p[i]];
  }

  /** Everything the nodes with one id depend on; plan-time validation leaves one node per id. */
  function GatheredUpTo(nodes: seq<NodeSpec>, i: nat): (deps: Deps)
    requires i <= |nodes|
  {
    if i == 0 then map[]
    else
      var rest, n := GatheredUpTo(nodes, i - 1), nodes[i - 1];
      rest[n.id := (if n.id in rest then rest[n.id] else []) + n.dependencies]
  }

  function Gathered(nodes: seq<NodeSpec>): Deps {
    GatheredUpTo(nodes, |nodes|)
  }

  lemma {:induction false} GatheredKeys(nodes: seq<NodeSpec>, i: nat)
    requires i <= |nodes|
    ensures GatheredUpTo(nodes, i).Keys == IdSet(nodes[..i])
  {
    if i > 0 {
      GatheredKeys(nodes, i - 1);
      assert nodes[..i] == nodes[..i - 1] + [nodes[i - 1]];
      assert IdSet(nodes[..i]) == IdSet(nodes[..i - 1]) + {nodes[i - 1].id};
    }
  }

  lemma {:induction false} GatheredAlone(nodes: seq<NodeSpec>, i: nat)
    requires UniqueIds(nodes) && i <= |nodes|
    ensures forall k :: 0 <= k < i ==> nodes[k].id in GatheredUpTo(nodes, i) && GatheredUpTo(nodes, i)[nodes[k].id] == nodes[k].dependencies
  {
    if i > 0 {
      GatheredAlone(nodes, i - 1);
      GatheredKeys(nodes, i - 1);
      var n := nodes[i - 1];
      assert n.id !in IdSet(nodes[..i - 1]);
      assert [] + n.dependencies == n.dependencies;
    }
  }

  /** With unique ids the gathered dependencies are each node's own. */
  lemma GatheredUnique(nodes: seq<NodeSpec>)
    requires UniqueIds(nodes)
    ensures Gathered(nodes) == DepsOf(nodes)
  {
    GatheredAlone(nodes, |nodes|);
    GatheredKeys(nodes, |nodes|);
    assert nodes[..|nodes|] == nodes;
    var byId := NodesById(nodes);
    forall id | id in byId ensures Gathered(nodes)[id] == byId[id].dependencies {
      var k :| 0 <= k < |nodes| && nodes[k] == byId[id];
    }
  }

  function DependentsOf(dependents: map<NodeId, seq<NodeId>>, d: NodeId): seq<NodeId> {
    if d in dependents then dependents[d] else []
  }

  /** `dependents` inverts the dependency lists. */
  ghost predicate LinkedTo(deps: Deps, dependents: map<NodeId, seq<NodeId>>) {
    forall d, x :: x in DependentsOf(dependents, d) <==> x in deps && d in deps[x]
  }

  lemma SkipOne(states: States, skipped: set<NodeId>, x: NodeId)
    requires x in states
    ensures var now := SkipAll(states, skipped);
            now[x := now[x].(status := Skipped)] == SkipAll(states, skipped + {x})
  {
  }

  class Scheduler {
    const nodes: seq<NodeSpec>
    const dependents: map<NodeId, seq<NodeId>>
    var states: States

    /** The reverse adjacency matches the graph and every node has a state. */
    ghost predicate Linked()
      reads this
    {
      && states.Keys == IdSet(nodes)
      && LinkedTo(Gathered(nodes), dependents)
    }

    constructor (nodes: seq<NodeSpec>)
      ensures Linked() && this.nodes == nodes
      ensures states == map id | id in IdSet(nodes) :: FRESH
    {
      var reversed := BuildDependents(nodes);
      this.nodes := nodes;
      this.dependents := reversed;
      this.states := map id | id in IdSet(nodes) :: FRESH;
    }

    static method BuildDependents(nodes: seq<NodeSpec>) returns (reversed: map<NodeId, seq<NodeId>>)
      ensures LinkedTo(Gathered(nodes), reversed)
    {
      reversed := map id | id in IdSet(nodes) :: [];
      for i := 0 to |nodes|
        invariant LinkedTo(GatheredUpTo(nodes, i), reversed)
      {
        reversed := AddDependents(nodes[i], reversed, GatheredUpTo(nodes, i));
      }
    }

    static method AddDependents(n: NodeSpec, reversed: map<NodeId, seq<NodeId>>, ghost deps: Deps)
      returns (r: map<NodeId, seq<NodeId>>)
      requires LinkedTo(deps, reversed)
      ensures LinkedTo(deps[n.id := (if n.id in deps then deps[n.id] else []) + n.dependencies], r)
    {
      r := reversed;
      for j := 0 to |n.dependencies|
        invariant forall d, x :: x in DependentsOf(r, d) <==> x in DependentsOf(reversed, d) || (x == n.id && d in n.dependencies[..j])
      {
        var dep := n.dependencies[j];
        assert n.dependencies[..j + 1] == n.dependencies[..j] + [dep];
        r := r[dep := DependentsOf(r, dep) + [n.id]];
      }
      assert n.dependencies[..|n.dependencies|] == n.dependencies;
    }

    method Ready() returns (ready: seq<NodeId>)
      ensures ready == ReadySet(nodes, states)
    {
      ready := [];
      for i := 0 to |nodes|
        invariant ready == ReadyUpTo(nodes, states, i)
      {
        if IsReady(states, nodes[i]) {
          ready := ready + [nodes[i].id];
        }
      }
    }

    /** Advances a node along a legal edge; an illegal request is refused and changes nothing. */
    method Mark(id: NodeId, status: NodeStatus) returns (ok: bool)
      requires id in states
      modifies this
      ensures old(Linked()) ==> Linked()
      ensures ok <==> CanTransition(old(states)[id].status, status)
      ensures states == if ok then old(states)[id := old(states)[id].(status := status)] else old(states)
    {
      ok := CanTransition(states[id].status, status);
      if ok {
        states := states[id := states[id].(status := status)];
      }
    }

    /** The conductor writes the other runtime fields through the state map it shares. */
    method SetRuntime(id: NodeId, rt: Runtime)
      requires id in states
      modifies this
      ensures old(Linked()) ==> Linked()
      ensures states == old(states)[id := rt]
    {
      states := states[id := rt];
    }

    /** The back-pressure gate: at most `cap - inFlight` ready nodes, the first ones. */
    method SelectDispatch(cap: int, inFlight: int) returns (chosen: seq<NodeId>)
      ensures chosen <= ReadySet(nodes, states)
      ensures |chosen| == Min(|ReadySet(nodes, states)|, if cap > inFlight then cap - inFlight else 0)
    {
      var ready := Ready();
      var slots := if cap > inFlight then cap - inFlight else 0;
      chosen := ready[..Min(|ready|, slots)];
    }

    /** Skips exactly the nodes reachable from `failed` through skippable dependents, once each. */
    method PropagateSkips(failed: NodeId) returns (skipped: seq<NodeId>)
      requires Linked()
      modifies this
      ensures Linked()
      ensures Sorting.Distinct(skipped)
      ensures Elements(skipped) == SkipSet(Gathered(nodes), old(states), failed)
      ensures states == SkipAll(old(states), Elements(skipped))
    {
      skipped := [];
      var frontier := [failed];
      ghost var was := states;
      KeysGathered();
      StartsSound(Gathered(nodes), was, failed);
      while frontier != []
        invariant Working(Gathered(nodes), was, failed, skipped, frontier, states)
        decreases Unskipped(was, skipped), |frontier|
      {
        skipped, frontier := SkipNext(failed, skipped, frontier, was);
      }
      WorkDone(Gathered(nodes), was, failed, skipped, frontier, states);
    }

    lemma KeysGathered()
      ensures Gathered(nodes).Keys == IdSet(nodes)
    {
      GatheredKeys(nodes, |nodes|);
      assert nodes[..|nodes|] == nodes;
    }

    /** Takes one node off the frontier and visits its dependents. */
    method SkipNext(failed: NodeId, skipped: seq<NodeId>, frontier: seq<NodeId>, ghost was: States)
      returns (skipped': seq<NodeId>, frontier': seq<NodeId>)
      requires frontier != [] && was.Keys == Gathered(nodes).Keys
      requires LinkedTo(Gathered(nodes), dependents)
      requires Working(Gathered(nodes), was, failed, skipped, frontier, states)
      modifies this
      ensures Working(Gathered(nodes), was, failed, skipped', frontier', states)
      ensures (skipped' == skipped && |frontier'| < |frontier|) || Smaller(was, skipped', skipped)
    {
      var current := frontier[|frontier| - 1];
      Popped(Gathered(nodes), was, failed, skipped, frontier);
      FollowersOf(Gathered(nodes), was, dependents, current);
      skipped', frontier' := SkipFollowers(failed, current, skipped, frontier[..|frontier| - 1], was);
    }

    /** Visits the dependents of one frontier node, pushing the ones it skips. */
    method SkipFollowers(failed: NodeId, current: NodeId, skipped: seq<NodeId>, frontier: seq<NodeId>, ghost was: States)
      returns (skipped': seq<NodeId>, frontier': seq<NodeId>)
      requires states == SkipAll(was, Elements(skipped))
      requires Followers(Gathered(nodes), was, current, DependentsOf(dependents, current))
      requires Sound(Gathered(nodes), was, failed, skipped, frontier) && current in Elements(skipped) + {failed}
      requires Settled(Gathered(nodes), was, Elements(skipped) + {failed}, Elements(skipped), Elements(frontier) + {current})
      modifies this
      ensures Working(Gathered(nodes), was, failed, skipped', frontier', states)
      ensures (skipped' == skipped && frontier' == frontier) || Smaller(was, skipped', skipped)
    {
      skipped', frontier' := skipped, frontier;
      var followers := DependentsOf(dependents, current);
      ghost var deps := Gathered(nodes);
      for k := 0 to |followers|
        invariant states == SkipAll(was, Elements(skipped'))
        invariant Sound(deps, was, failed, skipped', frontier') && current in Elements(skipped') + {failed}
        invariant Settled(deps, was, Elements(skipped') + {failed}, Elements(skipped'), Elements(frontier') + {current})
        invariant Covered(was, followers, k, skipped')
        invariant (skipped' == skipped && frontier' == frontier) || Smaller(was, skipped', skipped)
      {
        var dependent := followers[k];
        if Skippable(states[dependent].status) {
          SkipStep(deps, was, failed, current, followers, k, skipped', frontier');
          states := states[dependent := states[dependent].(status := Skipped)];
          skipped' := skipped' + [dependent];
          frontier' := frontier' + [dependent];
        } else {
          NothingToSkip(was, followers, k, skipped');
        }
      }
      CurrentSettled(deps, was, failed, skipped', Elements(frontier'), current, followers);
    }

    method IsDone() returns (done: bool)
      ensures done <==> AllTerminal(states)
    {
      done := forall id :: id in states ==> IsTerminal(states[id].status);
    }
  }

  function Min(a: nat, b: nat): nat {
    if a <= b then a else b
  }

  /** Everything skipped so far was reached, and the frontier holds only skipped nodes and the origin. */
  ghost predicate Sound(deps: Deps, states: States, failed: NodeId, skipped: seq<NodeId>, frontier: seq<NodeId>) {
    && Sorting.Distinct(skipped)
    && Elements(skipped) <= SkipSet(deps, states, failed)
    && Elements(frontier) <= Elements(skipped) + {failed}
  }

  /** The state of the worklist: `states` is the entry state with exactly `skipped` skipped. */
  ghost predicate Working(deps: Deps, was: States, failed: NodeId, skipped: seq<NodeId>, frontier: seq<NodeId>, states: States) {
    && states == SkipAll(was, Elements(skipped))
    && Sound(deps, was, failed, skipped, frontier)
    && Settled(deps, was, Elements(skipped) + {failed}, Elements(skipped), Elements(frontier))
  }

  ghost predicate Covered(states: States, followers: seq<NodeId>, k: nat, skipped: seq<NodeId>) {
    forall j :: 0 <= j < k && j < |followers| && followers[j] in states && Skippable(states[followers[j]].status) ==>
      followers[j] in Elements(skipped)
  }

  ghost function Unskipped(states: States, skipped: seq<NodeId>): nat {
    |states.Keys - Elements(skipped)|
  }

  ghost predicate Smaller(states: States, skipped: seq<NodeId>, earlier: seq<NodeId>) {
    Unskipped(states, skipped) < Unskipped(states, earlier)
  }

  lemma StartsSound(deps: Deps, states: States, failed: NodeId)
    ensures Working(deps, states, failed, [], [failed], states)
  {
    assert Elements([]) == {} && Elements([failed]) == {failed};
  }

  lemma WorkDone(deps: Deps, was: States, failed: NodeId, skipped: seq<NodeId>, frontier: seq<NodeId>, states: States)
    requires Working(deps, was, failed, skipped, frontier, states) && frontier == []
    ensures Sorting.Distinct(skipped) && Elements(skipped) == SkipSet(deps, was, failed)
    ensures states == SkipAll(was, Elements(skipped)) && states.Keys == was.Keys
  {
    assert Elements(frontier) == {};
    forall x | SkipReaches(deps, was, failed, x) ensures x in Elements(skipped) {
      var p :| SkipWalk(deps, was, failed, p) && p[|p| - 1] == x;
      SettledCoversWalk(deps, was, failed, Elements(skipped), p, |p| - 1);
    }
  }

  lemma Popped(deps: Deps, states: States, failed: NodeId, skipped: seq<NodeId>, frontier: seq<NodeId>)
    requires frontier != [] && Sound(deps, states, failed, skipped, frontier)
    ensures var current, rest := frontier[|frontier| - 1], frontier[..|frontier| - 1];
            && Elements(frontier) == Elements(rest) + {current}
            && current in Elements(skipped) + {failed}
            && Sound(deps, states, failed, skipped, rest)
  {
    assert frontier == frontier[..|frontier| - 1] + [frontier[|frontier| - 1]];
    assert frontier[|frontier| - 1] in Elements(frontier);
  }

  ghost predicate Followers(deps: Deps, states: States, current: NodeId, followers: seq<NodeId>) {
    && (forall j :: 0 <= j < |followers| ==>
         followers[j] in states && followers[j] in deps && current in deps[followers[j]])
    && forall x :: x in deps && current in deps[x] ==> x in followers
  }

  lemma FollowersOf(deps: Deps, states: States, dependents: map<NodeId, seq<NodeId>>, current: NodeId)
    requires LinkedTo(deps, dependents) && states.Keys == deps.Keys
    ensures Followers(deps, states, current, DependentsOf(dependents, current))
  {
    forall j | 0 <= j < |DependentsOf(dependents, current)| ensures DependentsOf(dependents, current)[j] in DependentsOf(dependents, current) {
    }
  }

  lemma SkipStep(deps: Deps, states: States, failed: NodeId, current: NodeId, followers: seq<NodeId>, k: nat, skipped: seq<NodeId>, frontier: seq<NodeId>)
    requires Sound(deps, states, failed, skipped, frontier) && current in Elements(skipped) + {failed}
    requires Settled(deps, states, Elements(skipped) + {failed}, Elements(skipped), Elements(frontier) + {current})
    requires Covered(states, followers, k, skipped)
    requires k < |followers| && followers[k] in states && followers[k] in deps && current in deps[followers[k]]
    requires Skippable(SkipAll(states, Elements(skipped))[followers[k]].status)
    ensures var x := followers[k];
            var now := SkipAll(states, Elements(skipped));
            && Sound(deps, states, failed, skipped + [x], frontier + [x])
            && now[x := now[x].(status := Skipped)] == SkipAll(states, Elements(skipped + [x]))
            && Settled(deps, states, Elements(skipped + [x]) + {failed}, Elements(skipped + [x]), Elements(frontier + [x]) + {current})
            && Covered(states, followers, k + 1, skipped + [x])
            && Smaller(states, skipped + [x], skipped)
            && current in Elements(skipped + [x]) + {failed}
  {
    hide Sound, Settled, Covered, SkipReaches, Walk;
    var x := followers[k];
    assert x !in Elements(skipped);
    SkipStepSound(deps, states, failed, current, x, skipped, frontier);
    SkipOne(states, Elements(skipped), x);
    SettleMore(deps, states, failed, Elements(skipped), Elements(frontier) + {current}, x);
    assert Elements(frontier + [x]) + {current} == Elements(frontier) + {current} + {x};
    Fewer(states.Keys, Elements(skipped), x);
    CoverMore(states, followers, k, skipped);
  }

  lemma SkipStepSound(deps: Deps, states: States, failed: NodeId, current: NodeId, x: NodeId, skipped: seq<NodeId>, frontier: seq<NodeId>)
    requires Sound(deps, states, failed, skipped, frontier) && current in Elements(skipped) + {failed}
    requires x in deps && current in deps[x] && x in states && x !in Elements(skipped) && Skippable(states[x].status)
    ensures Elements(skipped + [x]) == Elements(skipped) + {x} && Elements(frontier + [x]) == Elements(frontier) + {x}
    ensures Sound(deps, states, failed, skipped + [x], frontier + [x])
  {
    ReachStep(deps, states, failed, current, x);
  }

  lemma SettleMore(deps: Deps, states: States, failed: NodeId, skipped: set<NodeId>, open: set<NodeId>, x: NodeId)
    requires Settled(deps, states, skipped + {failed}, skipped, open)
    ensures Settled(deps, states, skipped + {x} + {failed}, skipped + {x}, open + {x})
  {
  }

  lemma CoverMore(states: States, followers: seq<NodeId>, k: nat, skipped: seq<NodeId>)
    requires Covered(states, followers, k, skipped) && k < |followers|
    ensures Covered(states, followers, k + 1, skipped + [followers[k]])
  {
  }

  lemma Fewer(all: set<NodeId>, skipped: set<NodeId>, x: NodeId)
    requires x in all && x !in skipped
    ensures |all - (skipped + {x})| < |all - skipped|
  {
    assert all - (skipped + {x}) == (all - skipped) - {x};
  }

  lemma NothingToSkip(states: States, followers: seq<NodeId>, k: nat, skipped: seq<NodeId>)
    requires Covered(states, followers, k, skipped) && k < |followers| && followers[k] in states
    requires !Skippable(SkipAll(states, Elements(skipped))[followers[k]].status)
    ensures Covered(states, followers, k + 1, skipped)
  {
  }

  lemma CurrentSettled(deps: Deps, states: States, failed: NodeId, skipped: seq<NodeId>, open: set<NodeId>, current: NodeId, followers: seq<NodeId>)
    requires Settled(deps, states, Elements(skipped) + {failed}, Elements(skipped), open + {current})
    requires Covered(states, followers, |followers|, skipped)
    requires forall x :: x in deps && current in deps[x] ==> x in followers
    ensures Settled(deps, states, Elements(skipped) + {failed}, Elements(skipped), open)
  {
  }
}
