/** The small decisions of the engine, each said in its own terms: where an input comes from, which nodes a barrier
    takes, and which way it runs them. */
module EngineReadings {
  import opened AgyTypes
  import opened Scheduling
  import opened Checkpointing
  import opened Dispatching
  import opened Engine
  import opened EngineRun

  // ---- where an input comes from ----

  /** The dependency at position `i` offers an artifact of that name. */
  ghost predicate Offers(deps: seq<NodeId>, results: map<NodeId, Envelope>, name: string, i: nat) {
    i < |deps| && deps[i] in results && name in results[deps[i]].artifact
  }

  /** The earliest dependency that offers the name. */
  ghost predicate FirstOffer(deps: seq<NodeId>, results: map<NodeId, Envelope>, name: string, i: nat) {
    Offers(deps, results, name, i) && forall j: nat :: j < i ==> !Offers(deps, results, name, j)
  }

  lemma {:induction false} FirstWithReads(name: string, deps: seq<NodeId>, results: map<NodeId, Envelope>)
    ensures FirstWith(name, deps, results).None? ==> forall i: nat :: !Offers(deps, results, name, i)
    ensures FirstWith(name, deps, results).Some? ==>
      exists i: nat :: FirstOffer(deps, results, name, i) && FirstWith(name, deps, results).value == results[deps[i]].artifact[name]
  {
    if deps != [] {
      if Offers(deps, results, name, 0) {
        assert FirstOffer(deps, results, name, 0);
      } else {
        var rest := deps[1..];
        FirstWithReads(name, rest, results);
        forall i: nat ensures Offers(deps, results, name, i) <==> i > 0 && Offers(rest, results, name, i - 1) {
          assert 0 < i < |deps| ==> rest[i - 1] == deps[i];
        }
        if FirstWith(name, rest, results).Some? {
          var i: nat :| FirstOffer(rest, results, name, i)
                     && FirstWith(name, rest, results).value == results[rest[i]].artifact[name];
          assert FirstOffer(deps, results, name, i + 1) && deps[i + 1] == rest[i];
        }
      }
    }
  }

  lemma {:induction false} InputsUpToReads(node: NodeSpec, results: map<NodeId, Envelope>, n: nat, name: string)
    requires n <= |node.inputs|
    ensures var found := FirstWith(name, node.dependencies, results);
            && (name in InputsUpTo(node, results, n) <==> name in node.inputs[..n] && found.Some?)
            && (name in InputsUpTo(node, results, n) ==> found.Some? && InputsUpTo(node, results, n)[name] == found.value)
  {
    hide FirstWith;
    if n > 0 {
      InputsUpToReads(node, results, n - 1, name);
      assert node.inputs[..n] == node.inputs[..n - 1] + [node.inputs[n - 1]];
    }
  }

  /** A node's inputs are exactly the names it declares that some dependency's result offers; each comes from the
      earliest dependency that does. A name nobody offers is left out. */
  lemma InputsComeFromFirstOffer(node: NodeSpec, results: map<NodeId, Envelope>, name: string)
    ensures name in ResolveInputs(node, results) <==>
      name in node.inputs && exists i: nat :: Offers(node.dependencies, results, name, i)
    ensures name in ResolveInputs(node, results) ==>
      exists i: nat :: FirstOffer(node.dependencies, results, name, i)
        && ResolveInputs(node, results)[name] == results[node.dependencies[i]].artifact[name]
  {
    hide InputsUpTo, FirstWith;
    assert node.inputs[..|node.inputs|] == node.inputs;
    InputsUpToReads(node, results, |node.inputs|, name);
    FirstWithReads(name, node.dependencies, results);
  }

  // ---- what the journal serves ----

  predicate IsUnder(row: Row, key: Key, epochId: string) {
    row.key == key && row.epoch.id == epochId
  }

  /** Some row has the key and the epoch. */
  ghost predicate Holds(rows: Rows, key: Key, epochId: string) {
    exists id :: id in rows && IsUnder(rows[id], key, epochId)
  }

  /** A journal row that can be served: under the key, of the epoch, ended, with its envelope. */
  predicate Servable(row: Row, key: Key, epochId: string) {
    && IsUnder(row, key, epochId)
    && (row.status == Succeeded || row.status == Failed) && row.envelope.Some?
  }

  /** Only a servable row of the journal is served; and where there are rows under the key and epoch, one is served
      unless some of them cannot be, whichever the query returns first. */
  lemma OnlyServableIsServed(w: Setup, key: Key, journal: Option<Rows>)
    ensures CacheHit(w, key, journal).Some? ==>
      journal.Some? && exists id ::
        id in journal.value && journal.value[id] == CacheHit(w, key, journal).value && Servable(journal.value[id], key, w.epoch.id)
    ensures CacheHit(w, key, journal).None? && journal.Some? && Holds(journal.value, key, w.epoch.id) ==>
      exists id :: id in journal.value && IsUnder(journal.value[id], key, w.epoch.id) && !Servable(journal.value[id], key, w.epoch.id)
  {
    if journal.Some? {
      var found := Matching(journal.value, key, w.epoch.id);
      if found != {} {
        assert w.select(found) in found;
      } else {
        forall id | id in journal.value ensures !IsUnder(journal.value[id], key, w.epoch.id) {
          assert id !in found;
        }
      }
    }
  }

  // ---- which nodes a barrier takes, and how ----

  /** A barrier takes the first ready nodes in graph order, as many as the cap allows and at least one. */
  lemma BatchIsPrefixOfReady(w: Setup, cap: int, s: RunState)
    ensures var ready, batch := ReadySet(w.nodes, s.states), Batch(w, cap, s);
            && batch <= ready
            && |batch| <= (if cap > 1 then cap else 1)
            && (batch == ready || |batch| == if cap > 1 then cap else 1)
  {
    hide ReadySet;
  }

  /** A batch goes through one invocation exactly if the run keeps no journal, there are at least two nodes, and each is
      a reviewer or a closer whose own adapter is codex, by name or by default. */
  lemma OneInvocationExactly(w: Setup, s: RunState, batch: seq<NodeId>)
    ensures var together :=
              && s.journal.None? && |batch| >= 2
              && forall id :: id in batch ==>
                   || (NodeOf(w, id).role == "reviewer" && (s.reviewer == "codex" || s.reviewer == ""))
                   || (NodeOf(w, id).role == "closer" && (s.closer == "codex" || s.closer == ""));
            Joined(w, s, batch) == if together then ReviewBatch(w, s, batch) else Agents(w, s, batch)
  {
    hide ReviewBatch, Agents, NodeOf;
    assert |"reviewer"| == 8 && |"closer"| == 6;
  }
}
