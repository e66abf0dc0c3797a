/** A batch of review roles in one invocation, read off its results: which envelope ended which node, and how. */
module BatchTraces {
  import opened AgyTypes
  import opened Budget
  import opened Scheduling
  import opened Dag
  import opened Checkpointing
  import opened Dispatching
  import opened DispatchTheorems
  import opened DispatchTraces
  import opened Engine
  import opened EngineInvariants
  import opened RefusalTheorems
  import Sorting

  // ---- how one node of the batch is prepared and ended ----

  /** Started by the batch: on its first attempt, keyed, its reservation open. */
  ghost predicate Prepared(w: Setup, s: RunState, id: NodeId, key: Key, tokens: int) {
    && id in s.states && s.states[id] == Runtime(Running, 1, NodeOf(w, id).maxSchemaRetries, ZERO, NoError)
    && id in s.keys && s.keys[id] == key
    && Own(s.entries, LedgerKeyOf(w, id)) == Some(Entry(w.epoch.id, Dims(tokens, 0.0), ZERO, Open))
  }

  /** The envelope returned for a node, under the node's identity; a missing one is a failed one. */
  function Answer(envelopes: map<NodeId, Envelope>, id: NodeId, key: Key): Envelope {
    if id in envelopes then envelopes[id].(nodeId := id, key := key, attempt := 1)
    else Envelope(id, key, EnvFailed, 1, "scripted", SchemaInvalid, None, map["missing_batch_result" := id], 0, 0, 0.0)
  }

  function Used(env: Envelope): Dims {
    Dims(env.output + env.thinking, env.cost)
  }

  function BatchAttempt(id: NodeId, env: Envelope, tokens: int): Attempt {
    Attempt(id, ByBatch, env, Dims(tokens, 0.0), Used(env), Exact, Used(env))
  }

  /** A node ended by its envelope: succeeded exactly if the envelope did. */
  ghost predicate EndedWith(w: Setup, r: RunState, id: NodeId, env: Envelope, tokens: int) {
    && id in r.results && r.results[id] == env
    && id in r.states && r.states[id] == Runtime(EndStatus(env), 1, NodeOf(w, id).maxSchemaRetries, Used(env), env.errorClass)
    && Own(r.entries, LedgerKeyOf(w, id)) == Some(Entry(w.epoch.id, ZERO, Used(env),
         if Used(env).tokens > tokens || env.cost > 0.0 then Overspend else Committed))
  }

  function FailureOfNode(id: NodeId, env: Envelope): multiset<Blocker> {
    if env.status == EnvSucceeded then multiset{} else multiset{Blocker(id, "node failed", ErrorName(env.errorClass))}
  }

  /** A reviewer that used more than 1000 tokens makes the closer's adapter give way. */
  function GivesWay(node: NodeSpec, env: Envelope, closer: string): string {
    if node.role == "reviewer" && Used(env).tokens > 1000 && closer in {"agy", "codex"} then Successor(closer) else closer
  }

  lemma KeyedReads(w: Setup, s: RunState, id: NodeId)
    requires s.journal.None? && id in s.states && s.states[id] == FRESH
    ensures var k := Keyed(w, s, id);
            && k == s.(keys := s.keys[id := KeyNow(w, s, id)], states := k.states)
            && k.states == s.states[id := Runtime(Pending, 0, NodeOf(w, id).maxSchemaRetries, ZERO, NoError)]
  {
    hide ResolveInputs, NodesById;
  }

  lemma StartedReads(job: Job, l: Local)
    requires l.own.None? && l.rt == Runtime(Pending, 0, job.node.maxSchemaRetries, ZERO, NoError) && !l.fault
    ensures var (admission, r) := Started(job, l);
            var tokens := CapTokens(job.node, job.w.multiplier, job.w.reserveAccounting(job.node, 1, LeftOver(job, ZERO)));
            && (admission == Admitted <==> HasRoom(job, ZERO, tokens))
            && (admission == Admitted ==>
                 r == l.(rt := Runtime(Running, 1, job.node.maxSchemaRetries, ZERO, NoError),
                         own := Some(Entry(job.w.epoch.id, Dims(tokens, 0.0), ZERO, Open))))
            && (admission != Admitted ==>
                 r == l.(rt := l.rt.(status := Ready), refused := r.refused,
                         blockers := l.blockers + [Blocker(job.node.id, "budget exhausted before dispatch", "global")]))
  {
    hide Remaining, ReserveAs, HasRoom, LeftOver;
    var ready := Marked(l, Ready);
    RemainingReads(job, ready);
    ReserveReads(job, ready, job.w.reserveAccounting(job.node, 1, Remaining(job, ready)));
  }

  /** What is left of the limit beside everything held. */
  ghost function Left(w: Setup, s: RunState): Dims {
    Available(w.limit, s.entries)
  }

  /** What preparing one node comes to, given what starting it comes to. */
  lemma PrepareOneIs(w: Setup, s: RunState, id: NodeId, busy: set<NodeId>)
    requires Mid(w, s, busy) && HasStatus(s.states, id, Pending) && id !in busy && s.journal.None?
    ensures var (admission, r) := PrepareOne(w, s, id);
            var node := NodeOf(w, id);
            var tokens := CapTokens(node, w.multiplier, w.reserveAccounting(node, 1, Left(w, s)));
            && (admission == Admitted <==> tokens <= Left(w, s).tokens && 0.0 <= Left(w, s).usd)
            && r == s.(keys := s.keys[id := KeyNow(w, s, id)], states := r.states, entries := r.entries, blockers := r.blockers,
                 refused := r.refused)
            && (admission == Admitted ==>
                 && r.states == s.states[id := Runtime(Running, 1, node.maxSchemaRetries, ZERO, NoError)]
                 && r.entries == s.entries[LedgerKeyOf(w, id) := Entry(w.epoch.id, Dims(tokens, 0.0), ZERO, Open)]
                 && r.blockers == s.blockers && r.refused == s.refused)
            && (admission != Admitted ==>
                 && r.states == s.states[id := Runtime(Ready, 0, node.maxSchemaRetries, ZERO, NoError)]
                 && r.entries == s.entries
                 && r.blockers == s.blockers + multiset{Blocker(id, "budget exhausted before dispatch", "global")})
    ensures LedgerKeyOf(w, id) !in s.entries
  {
    hide Started, Keyed, Mid, KeyNow, Sum, CapTokens, NodeOf, Available, LeftOver, OnlyTouched, Others, DepResults;
    MidKeyed(w, s, id, busy);
    KeyedReads(w, s, id);
    var k := Keyed(w, s, id);
    var job, l := JobOf(w, k, id), LocalOf(w, k, id);
    StartedReads(job, l);
    LeftIsOver(w, s, job, id);
    assert s.attempts + [] == s.attempts;
    NodeNamed(w, id);
  }

  /** One node of the batch is started exactly if its reservation fits beside everything held. */
  lemma PrepareOneReads(w: Setup, s: RunState, id: NodeId, busy: set<NodeId>)
    requires Mid(w, s, busy) && HasStatus(s.states, id, Pending) && id !in busy && s.journal.None?
    ensures var (admission, r) := PrepareOne(w, s, id);
            var tokens := CapTokens(NodeOf(w, id), w.multiplier, w.reserveAccounting(NodeOf(w, id), 1, Left(w, s)));
            && (admission == Admitted <==> tokens <= Left(w, s).tokens && 0.0 <= Left(w, s).usd)
            && r == s.(states := r.states, keys := r.keys, entries := r.entries, blockers := r.blockers, refused := r.refused)
            && (admission == Admitted ==>
                 && Prepared(w, r, id, KeyNow(w, s, id), tokens) && r.blockers == s.blockers && r.refused == s.refused
                 && Left(w, r) == Dims(Left(w, s).tokens - tokens, Left(w, s).usd))
            && (admission != Admitted ==>
                 && r.entries == s.entries && r.blockers == s.blockers + multiset{Blocker(id, "budget exhausted before dispatch", "global")}
                 && InState(r, id, Runtime(Ready, 0, NodeOf(w, id).maxSchemaRetries, ZERO, NoError)))
  {
    hide PrepareOne, Mid, KeyNow, Sum, CapTokens, NodeOf, Available;
    PrepareOneIs(w, s, id, busy);
    var (admission, r) := PrepareOne(w, s, id);
    if admission == Admitted {
      ReservedLeft(w, s.entries, LedgerKeyOf(w, id), r.entries[LedgerKeyOf(w, id)]);
    }
  }

  lemma LeftIsOver(w: Setup, s: RunState, job: Job, id: NodeId)
    requires job.w == w && job.others == Some(Others(s.entries, LedgerKeyOf(w, id))) && LedgerKeyOf(w, id) !in s.entries
    ensures LeftOver(job, ZERO) == Left(w, s)
  {
    hide Sum;
    assert s.entries - {LedgerKeyOf(w, id)} == s.entries;
  }

  lemma ReservedLeft(w: Setup, entries: Entries, key: LedgerKey, e: Entry)
    requires key !in entries && e.committed == ZERO && e.reserved.usd == 0.0
    ensures Available(w.limit, entries[key := e])
         == Dims(Available(w.limit, entries).tokens - e.reserved.tokens, Available(w.limit, entries).usd)
  {
    hide Sum;
    SumsAt(entries, key, e);
    assert entries - {key} == entries;
  }

  // ---- preparing the batch ----

  /** The reservations of a batch, one after the other out of what is left; none if one of them does not fit. */
  ghost function Reservations(w: Setup, nodes: seq<NodeSpec>, left: Dims): (r: Option<seq<int>>)
    ensures r.Some? ==> |r.value| == |nodes|
  {
    if nodes == [] then Some([])
    else
      var tokens := CapTokens(nodes[0], w.multiplier, w.reserveAccounting(nodes[0], 1, left));
      if tokens > left.tokens || left.usd < 0.0 then None
      else
        var rest := Reservations(w, nodes[1..], Dims(left.tokens - tokens, left.usd));
        if rest.None? then None else Some([tokens] + rest.value)
  }

  /** The node's own state, key and ledger entry. */
  ghost predicate SameNode(w: Setup, s: RunState, r: RunState, id: NodeId) {
    && (id in s.states <==> id in r.states) && (id in s.states ==> r.states[id] == s.states[id])
    && (id in s.keys <==> id in r.keys) && (id in s.keys ==> r.keys[id] == s.keys[id])
    && (id in s.results <==> id in r.results) && (id in s.results ==> r.results[id] == s.results[id])
    && Own(r.entries, LedgerKeyOf(w, id)) == Own(s.entries, LedgerKeyOf(w, id))
  }

  ghost predicate OthersSame(w: Setup, s: RunState, r: RunState, ids: seq<NodeId>) {
    forall id :: id !in ids ==> SameNode(w, s, r, id)
  }

  lemma TouchedLeavesOthers(w: Setup, s: RunState, r: RunState, id: NodeId, x: NodeId)
    requires OnlyTouched(w, s, r, id) && x != id
    ensures SameNode(w, s, r, x)
  {
    EntriesKept(w, s, r, id);
    assert LedgerKeyOf(w, x) != LedgerKeyOf(w, id);
  }

  lemma OthersAfterOne(w: Setup, s: RunState, m: RunState, r: RunState, batch: seq<NodeId>, i: nat)
    requires i < |batch| && OnlyTouched(w, s, m, batch[i]) && OthersSame(w, m, r, batch[i + 1..])
    ensures OthersSame(w, s, r, batch[i..])
  {
    hide OnlyTouched;
    assert batch[i..] == [batch[i]] + batch[i + 1..];
    forall id | id !in batch[i..] ensures SameNode(w, s, r, id) {
      assert id != batch[i] && id !in batch[i + 1..];
      TouchedLeavesOthers(w, s, m, batch[i], id);
      assert SameNode(w, m, r, id);
    }
  }

  /** What preparing the rest of a batch leaves. */
  ghost predicate AllPrepared(w: Setup, s: RunState, r: RunState, batch: seq<NodeId>, i: nat, tokens: seq<int>)
    requires i <= |batch|
  {
    && |tokens| == |batch| - i
    && r == s.(states := r.states, keys := r.keys, entries := r.entries)
    && OthersSame(w, s, r, batch[i..])
    && forall j :: i <= j < |batch| ==> Prepared(w, r, batch[j], KeyNow(w, s, batch[j]), tokens[j - i])
  }

  lemma OnePrepared(w: Setup, s: RunState, m: RunState, r: RunState, batch: seq<NodeId>, i: nat, first: int, rest: seq<int>)
    requires i < |batch| && Sorting.Distinct(batch) && OnlyTouched(w, s, m, batch[i])
    requires m == s.(states := m.states, keys := m.keys, entries := m.entries)
    requires Prepared(w, m, batch[i], KeyNow(w, s, batch[i]), first) && AllPrepared(w, m, r, batch, i + 1, rest)
    ensures AllPrepared(w, s, r, batch, i, [first] + rest)
  {
    hide OnlyTouched, KeyNow, Prepared;
    OthersAfterOne(w, s, m, r, batch, i);
    forall j | i <= j < |batch| ensures Prepared(w, r, batch[j], KeyNow(w, s, batch[j]), ([first] + rest)[j - i]) {
      SameKeyNow(w, s, m, batch[j]);
      if j == i {
        assert batch[i] !in batch[i + 1..];
        StillPrepared(w, m, r, batch[i], KeyNow(w, s, batch[i]), first);
      }
    }
  }

  lemma SameKeyNow(w: Setup, s: RunState, r: RunState, id: NodeId)
    requires r.results == s.results
    ensures KeyNow(w, r, id) == KeyNow(w, s, id)
  {
  }

  lemma StillPrepared(w: Setup, s: RunState, r: RunState, id: NodeId, key: Key, tokens: int)
    requires Prepared(w, s, id, key, tokens) && SameNode(w, s, r, id)
    ensures Prepared(w, r, id, key, tokens)
  {
  }

  lemma NothingPrepared(w: Setup, s: RunState, batch: seq<NodeId>)
    ensures AllPrepared(w, s, s, batch, |batch|, [])
  {
  }

  /** The batch was refused at position `k`: the run stops and that node is told why. The nodes started before it, from
      position `i` on, stay running on an attempt that was never made; the nodes after it were not touched. */
  ghost predicate StoppedAt(w: Setup, s: RunState, r: RunState, batch: seq<NodeId>, i: nat, k: nat)
    requires i <= k < |batch|
  {
    && r.stopped && r.results == s.results && r.attempts == s.attempts && r.reviewer == s.reviewer && r.closer == s.closer
    && r.journal == s.journal && r.blockers == s.blockers + multiset{Blocker(batch[k], "budget exhausted before dispatch", "global")}
    && OthersSame(w, s, r, batch[..k + 1])
    && (forall j :: 0 <= j < i ==> SameState(s, r, batch[j]))
    && (forall j :: i <= j < k ==> InState(r, batch[j], Runtime(Running, 1, NodeOf(w, batch[j]).maxSchemaRetries, ZERO, NoError)))
    && InState(r, batch[k], Runtime(Ready, 0, NodeOf(w, batch[k]).maxSchemaRetries, ZERO, NoError))
  }

  ghost predicate InState(s: RunState, id: NodeId, rt: Runtime) {
    id in s.states && s.states[id] == rt
  }

  ghost predicate SameState(s: RunState, r: RunState, id: NodeId) {
    id in s.states ==> InState(r, id, s.states[id])
  }

  ghost predicate NotStarted(w: Setup, s: RunState, r: RunState, batch: seq<NodeId>, i: nat) {
    exists k: nat :: i <= k < |batch| && StoppedAt(w, s, r, batch, i, k)
  }

  /** The reservations of the batch from position `i` on. */
  ghost function Planned(w: Setup, s: RunState, batch: seq<NodeId>, i: nat): Option<seq<int>>
    requires i <= |batch|
  {
    Reservations(w, NodesOf(w, batch[i..]), Left(w, s))
  }

  ghost function NextTokens(w: Setup, s: RunState, id: NodeId): int {
    CapTokens(NodeOf(w, id), w.multiplier, w.reserveAccounting(NodeOf(w, id), 1, Left(w, s)))
  }

  lemma PlannedUnfolds(w: Setup, s: RunState, next: RunState, batch: seq<NodeId>, i: nat)
    requires i < |batch|
    ensures var tokens := NextTokens(w, s, batch[i]);
            var fits := tokens <= Left(w, s).tokens && 0.0 <= Left(w, s).usd;
            && (!fits ==> Planned(w, s, batch, i).None?)
            && (fits && Left(w, next) == Dims(Left(w, s).tokens - tokens, Left(w, s).usd) ==>
                 && (Planned(w, s, batch, i).Some? <==> Planned(w, next, batch, i + 1).Some?)
                 && (Planned(w, s, batch, i).Some? ==> Planned(w, s, batch, i).value == [tokens] + Planned(w, next, batch, i + 1).value))
  {
    hide Left, CapTokens, NodeOf, NodesOf;
    assert batch[i..][0] == batch[i] && batch[i..][1..] == batch[i + 1..];
    NodesOfRest(w, batch[i..]);
    NodesOfMore(w, batch[i..]);
  }

  lemma NodesOfMore(w: Setup, ids: seq<NodeId>)
    ensures |NodesOf(w, ids)| == |ids|
  {
    hide NodeOf;
  }

  lemma NothingPlanned(w: Setup, s: RunState, batch: seq<NodeId>)
    ensures Planned(w, s, batch, |batch|) == Some([])
  {
    hide Left;
    assert batch[|batch|..] == [];
  }

  lemma NotStartedYet(w: Setup, s: RunState, m: RunState, r: RunState, batch: seq<NodeId>, i: nat, key: Key, tokens: int)
    requires i < |batch| && OnlyTouched(w, s, m, batch[i]) && Sorting.Distinct(batch) && Prepared(w, m, batch[i], key, tokens)
    requires m == s.(states := m.states, keys := m.keys, entries := m.entries) && NotStarted(w, m, r, batch, i + 1)
    ensures NotStarted(w, s, r, batch, i)
  {
    hide SameNode, NodeOf, LedgerKeyOf;
    var k: nat :| i + 1 <= k < |batch| && StoppedAt(w, m, r, batch, i + 1, k);
    forall x | x !in batch[..k + 1] ensures SameNode(w, s, r, x) {
      assert batch[i] == batch[..k + 1][i];
      TouchedLeavesOthers(w, s, m, batch[i], x);
      SameThrough(w, s, m, r, x);
    }
    forall j | 0 <= j < i ensures SameState(s, r, batch[j]) {
      assert SameState(m, r, batch[j]);
    }
    assert SameState(m, r, batch[i]);
    assert StoppedAt(w, s, r, batch, i, k);
  }

  lemma NotStartedNow(w: Setup, s: RunState, m: RunState, batch: seq<NodeId>, i: nat)
    requires i < |batch| && OnlyTouched(w, s, m, batch[i]) && Sorting.Distinct(batch)
    requires m == s.(states := m.states, keys := m.keys, entries := m.entries, blockers := m.blockers, refused := m.refused)
    requires m.blockers == s.blockers + multiset{Blocker(batch[i], "budget exhausted before dispatch", "global")}
    requires InState(m, batch[i], Runtime(Ready, 0, NodeOf(w, batch[i]).maxSchemaRetries, ZERO, NoError))
    ensures NotStarted(w, s, m.(entries := ReleaseMany(w, m.entries, batch[..i]), stopped := true), batch, i)
  {
    hide ReleaseMany, NodeOf, SameNode;
    var r := m.(entries := ReleaseMany(w, m.entries, batch[..i]), stopped := true);
    assert batch[..i + 1] == batch[..i] + [batch[i]];
    forall x | x !in batch[..i + 1] ensures SameNode(w, s, r, x) {
      TouchedLeavesOthers(w, s, m, batch[i], x);
      ReleaseLeavesOthers(w, m, batch[..i], x);
      SameThrough(w, s, m, r, x);
    }
    assert StoppedAt(w, s, r, batch, i, i);
  }

  lemma ReleaseLeavesOthers(w: Setup, s: RunState, ids: seq<NodeId>, x: NodeId)
    requires x !in ids
    ensures SameNode(w, s, s.(entries := ReleaseMany(w, s.entries, ids), stopped := true), x)
  {
    ReleasedAll(w, s.entries, ids);
    assert LedgerKeyOf(w, x).1 == x;
  }

  lemma PrepareUnfolds(w: Setup, s: RunState, batch: seq<NodeId>, i: nat)
    requires i < |batch|
    ensures var (admission, next) := PrepareOne(w, s, batch[i]);
            Prepare(w, s, batch, i) ==
              if admission == Admitted then Prepare(w, next, batch, i + 1)
              else (false, next.(entries := ReleaseMany(w, next.entries, batch[..i]), stopped := true))
  {
    hide PrepareOne, ReleaseMany;
  }

  /** A batch is started exactly if its reservations fit one after the other. */
  lemma {:induction false} PrepareReads(w: Setup, s: RunState, batch: seq<NodeId>, i: nat)
    requires i <= |batch| && Sorting.Distinct(batch) && s.journal.None? && !s.stopped
    requires Mid(w, s, Elements(batch[..i])) && AllPending(s, batch[i..])
    ensures var (ok, r) := Prepare(w, s, batch, i);
            && (ok <==> Planned(w, s, batch, i).Some?)
            && (ok ==> AllPrepared(w, s, r, batch, i, Planned(w, s, batch, i).value))
            && (!ok ==> NotStarted(w, s, r, batch, i))
    decreases |batch| - i
  {
    hide Others, Sorting.Distinct, HasStatus, Sum, Available, Reservations, Planned;
    if i == |batch| {
      hide Prepared, Mid, AllPrepared, NotStarted;
      NothingPlanned(w, s, batch);
      NothingPrepared(w, s, batch);
    } else {
      hide Mid, Prepare, PrepareOne, Sane, OnlyTouched, AllPrepared, NotStarted, Left, Prepared, KeyNow, CapTokens,
        ReleaseMany, Elements, NodeOf;
      Shorter(batch, i);
      assert batch[i..][0] == batch[i];
      assert HasStatus(s.states, batch[i], Pending);
      PrepareOneSteps(w, s, batch[i], Elements(batch[..i]));
      PrepareOneReads(w, s, batch[i], Elements(batch[..i]));
      PrepareUnfolds(w, s, batch, i);
      var (admission, next) := PrepareOne(w, s, batch[i]);
      PlannedUnfolds(w, s, next, batch, i);
      if admission == Admitted {
        TailPending(w, s, next, batch, i);
        PrepareReads(w, next, batch, i + 1);
        var (ok, r) := Prepare(w, next, batch, i + 1);
        if ok {
          OnePrepared(w, s, next, r, batch, i, NextTokens(w, s, batch[i]), Planned(w, next, batch, i + 1).value);
        } else {
          NotStartedYet(w, s, next, r, batch, i, KeyNow(w, s, batch[i]), NextTokens(w, s, batch[i]));
        }
      } else {
        NotStartedNow(w, s, next, batch, i);
      }
    }
  }

  lemma NodesOfRest(w: Setup, ids: seq<NodeId>)
    requires ids != []
    ensures NodesOf(w, ids)[0] == NodeOf(w, ids[0]) && NodesOf(w, ids)[1..] == NodesOf(w, ids[1..])
  {
    hide NodeOf;
  }

  // ---- ending the batch ----

  /** What ending one node does, and that it does nothing else. */
  ghost predicate OneEnded(w: Setup, s: RunState, r: RunState, id: NodeId, env: Envelope, tokens: int) {
    && r == s.(states := r.states, results := r.results, entries := r.entries, closer := GivesWay(NodeOf(w, id), env, s.closer),
         attempts := s.attempts + [BatchAttempt(id, env, tokens)], blockers := s.blockers + FailureOfNode(id, env))
    && EndedWith(w, r, id, env, tokens)
    && OthersSame(w, s, r, [id])
  }

  lemma EndedByReads(job: Job, l: Local, env: Envelope, tokens: int)
    requires l.rt == Runtime(Running, 1, job.node.maxSchemaRetries, ZERO, NoError) && !l.fault && l.attempts == [] && l.blockers == []
    requires l.own == Some(Entry(job.w.epoch.id, Dims(tokens, 0.0), ZERO, Open))
    ensures EndedBy(job, l, env) == l.(
              rt := Runtime(EndStatus(env), 1, job.node.maxSchemaRetries, Used(env), env.errorClass),
              own := Some(Entry(job.w.epoch.id, ZERO, Used(env),
                if Used(env).tokens > tokens || env.cost > 0.0 then Overspend else Committed)),
              closer := GivesWay(job.node, env, l.closer),
              attempts := [BatchAttempt(job.node.id, env, tokens)],
              blockers := if env.status == EnvSucceeded then [] else [Blocker(job.node.id, "node failed", ErrorName(env.errorClass))])
  {
    hide Charged, Classify;
    ChargedReads(job, l, ByBatch, env, Exact, tokens);
    ClassifyReads(env);
    var r := Charged(job, l, ByBatch, env, Exact);
    assert r.attempts == [] + [r.attempts[0]];
  }

  lemma AnswerReads(w: Setup, s: RunState, envelopes: map<NodeId, Envelope>, id: NodeId)
    requires id in s.states && s.states[id].attempt == 1 && id in s.keys
    ensures Stamped(JobOf(w, s, id), LocalOf(w, s, id), BatchEnvelope(envelopes, id, KeyOf(s, id))) == Answer(envelopes, id, s.keys[id])
  {
    hide Others, DepResults, NodesById;
    NodeNamed(w, id);
  }

  lemma CommitOneReads(w: Setup, s: RunState, envelopes: map<NodeId, Envelope>, id: NodeId, key: Key, tokens: int)
    requires Prepared(w, s, id, key, tokens) && !s.fault
    ensures OneEnded(w, s, CommitOne(w, s, envelopes, id), id, Answer(envelopes, id, key), tokens)
  {
    hide EndedBy, BatchEnvelope, Answer, JobOf, KeyOf, Stamped, NodesById, NodeOf, GivesWay, Used, EndStatus;
    AnswerReads(w, s, envelopes, id);
    var job, l, env := JobOf(w, s, id), LocalOf(w, s, id), Answer(envelopes, id, key);
    JobIs(w, s, id);
    EndedByReads(job, l, env, tokens);
    var d := EndedBy(job, l, env);
    var r := CommitOne(w, s, envelopes, id);
    RecordedLeavesOthers(w, s, id, d, env);
  }

  lemma JobIs(w: Setup, s: RunState, id: NodeId)
    ensures JobOf(w, s, id).node == NodeOf(w, id) && JobOf(w, s, id).w == w && NodeOf(w, id).id == id
  {
    hide Others, DepResults, NodesById;
    NodeNamed(w, id);
  }

  lemma RecordedLeavesOthers(w: Setup, s: RunState, id: NodeId, l: Local, env: Envelope)
    ensures OthersSame(w, s, Recorded(w, s, id, l, env), [id])
  {
    var r := Recorded(w, s, id, l, env);
    forall x | x !in [id] ensures SameNode(w, s, r, x) {
      assert x != id && LedgerKeyOf(w, x) != LedgerKeyOf(w, id);
    }
  }

  /** Each node's envelope, in batch order. */
  ghost function Answers(w: Setup, s: RunState, envelopes: map<NodeId, Envelope>, batch: seq<NodeId>): (r: seq<Envelope>)
    ensures |r| == |batch|
    ensures forall j :: 0 <= j < |batch| ==> r[j] == Answer(envelopes, batch[j], KeyNow(w, s, batch[j]))
  {
    seq(|batch|, j requires 0 <= j < |batch| => Answer(envelopes, batch[j], KeyNow(w, s, batch[j])))
  }

  /** One blocker for each failed node. */
  function FailuresOf(batch: seq<NodeId>, envs: seq<Envelope>): multiset<Blocker>
    requires |envs| == |batch|
  {
    if batch == [] then multiset{} else FailureOfNode(batch[0], envs[0]) + FailuresOf(batch[1..], envs[1..])
  }

  function ClosersAfter(w: Setup, batch: seq<NodeId>, envs: seq<Envelope>, closer: string): string
    requires |envs| == |batch|
  {
    if batch == [] then closer else ClosersAfter(w, batch[1..], envs[1..], GivesWay(NodeOf(w, batch[0]), envs[0], closer))
  }

  /** What ending a whole batch does. */
  ghost predicate BatchEnded(w: Setup, s: RunState, r: RunState, batch: seq<NodeId>, envs: seq<Envelope>, tokens: seq<int>) {
    && |envs| == |batch| == |tokens|
    && r == s.(states := r.states, results := r.results, entries := r.entries, closer := ClosersAfter(w, batch, envs, s.closer),
         attempts := r.attempts, blockers := s.blockers + FailuresOf(batch, envs))
    && |r.attempts| == |s.attempts| + |batch| && s.attempts <= r.attempts
    && (forall j :: 0 <= j < |batch| ==>
         EndedWith(w, r, batch[j], envs[j], tokens[j]) && r.attempts[|s.attempts| + j] == BatchAttempt(batch[j], envs[j], tokens[j]))
    && OthersSame(w, s, r, batch)
  }

  lemma NothingEnded(w: Setup, s: RunState)
    ensures BatchEnded(w, s, s, [], [], [])
  {
  }

  lemma OneThenRestEnded(w: Setup, s: RunState, m: RunState, r: RunState, batch: seq<NodeId>, envs: seq<Envelope>, tokens: seq<int>)
    requires batch != [] && Sorting.Distinct(batch) && |envs| == |batch| == |tokens|
    requires OneEnded(w, s, m, batch[0], envs[0], tokens[0]) && BatchEnded(w, m, r, batch[1..], envs[1..], tokens[1..])
    ensures BatchEnded(w, s, r, batch, envs, tokens)
  {
    hide SameNode, EndedWith, GivesWay, FailureOfNode, BatchAttempt, NodeOf;
    assert batch == [batch[0]] + batch[1..];
    forall id | id !in batch ensures SameNode(w, s, r, id) {
      assert id !in [batch[0]] && id !in batch[1..];
      SameThrough(w, s, m, r, id);
    }
    forall j | 0 <= j < |batch|
      ensures EndedWith(w, r, batch[j], envs[j], tokens[j]) && r.attempts[|s.attempts| + j] == BatchAttempt(batch[j], envs[j], tokens[j])
    {
      if j == 0 {
        assert batch[0] !in batch[1..];
        StillEnded(w, m, r, batch[0], envs[0], tokens[0]);
        assert r.attempts[|s.attempts|] == m.attempts[|s.attempts|];
      } else {
        assert batch[1..][j - 1] == batch[j] && r.attempts[|m.attempts| + (j - 1)] == BatchAttempt(batch[j], envs[j], tokens[j]);
      }
    }
  }

  lemma SameThrough(w: Setup, s: RunState, m: RunState, r: RunState, id: NodeId)
    requires SameNode(w, s, m, id) && SameNode(w, m, r, id)
    ensures SameNode(w, s, r, id)
  {
  }

  lemma StillEnded(w: Setup, s: RunState, r: RunState, id: NodeId, env: Envelope, tokens: int)
    requires EndedWith(w, s, id, env, tokens) && SameNode(w, s, r, id)
    ensures EndedWith(w, r, id, env, tokens)
  {
  }

  /** Every node of a prepared batch is ended by its own envelope. */
  lemma {:induction false} CommitManyReads(w: Setup, s: RunState, envelopes: map<NodeId, Envelope>, batch: seq<NodeId>,
                                            envs: seq<Envelope>, tokens: seq<int>)
    requires Sorting.Distinct(batch) && |envs| == |batch| == |tokens| && !s.fault
    requires forall j :: 0 <= j < |batch| ==> batch[j] in s.keys && envs[j] == Answer(envelopes, batch[j], s.keys[batch[j]])
    requires forall j :: 0 <= j < |batch| ==> Prepared(w, s, batch[j], s.keys[batch[j]], tokens[j])
    ensures BatchEnded(w, s, CommitMany(w, s, envelopes, batch), batch, envs, tokens)
    decreases |batch|
  {
    hide CommitOne, BatchEnded, OneEnded, Prepared, Answer;
    if batch == [] {
      NothingEnded(w, s);
    } else {
      var m := CommitOne(w, s, envelopes, batch[0]);
      CommitOneReads(w, s, envelopes, batch[0], s.keys[batch[0]], tokens[0]);
      OneEndedKeeps(w, s, m, batch[0], envs[0], tokens[0]);
      forall j | 0 <= j < |batch[1..]| ensures Prepared(w, m, batch[1..][j], m.keys[batch[1..][j]], tokens[1..][j]) {
        assert batch[j + 1] !in [batch[0]];
        assert SameNode(w, s, m, batch[j + 1]);
        StillPrepared(w, s, m, batch[j + 1], s.keys[batch[j + 1]], tokens[j + 1]);
      }
      CommitManyReads(w, m, envelopes, batch[1..], envs[1..], tokens[1..]);
      OneThenRestEnded(w, s, m, CommitMany(w, m, envelopes, batch[1..]), batch, envs, tokens);
    }
  }

  lemma OneEndedKeeps(w: Setup, s: RunState, r: RunState, id: NodeId, env: Envelope, tokens: int)
    requires OneEnded(w, s, r, id, env, tokens)
    ensures r.keys == s.keys && r.fault == s.fault && OthersSame(w, s, r, [id])
  {
  }

  // ---- the batch as a whole ----

  /** What a batch that was started leaves, seen from before it: keys, statuses, results, attempts, blockers. */
  ghost predicate BatchDone(w: Setup, s: RunState, r: RunState, batch: seq<NodeId>, envs: seq<Envelope>, tokens: seq<int>) {
    && |envs| == |batch| == |tokens|
    && r == s.(states := r.states, keys := r.keys, results := r.results, entries := r.entries,
         closer := ClosersAfter(w, batch, envs, s.closer), attempts := r.attempts, blockers := s.blockers + FailuresOf(batch, envs))
    && |r.attempts| == |s.attempts| + |batch| && s.attempts <= r.attempts
    && (forall j :: 0 <= j < |batch| ==>
         && batch[j] in r.keys && r.keys[batch[j]] == KeyNow(w, s, batch[j])
         && EndedWith(w, r, batch[j], envs[j], tokens[j])
         && r.attempts[|s.attempts| + j] == BatchAttempt(batch[j], envs[j], tokens[j]))
    && OthersSame(w, s, r, batch)
  }

  lemma PreparedThenEnded(w: Setup, s: RunState, p: RunState, r: RunState, batch: seq<NodeId>, envs: seq<Envelope>, tokens: seq<int>)
    requires AllPrepared(w, s, p, batch, 0, tokens) && BatchEnded(w, p, r, batch, envs, tokens)
    ensures BatchDone(w, s, r, batch, envs, tokens)
  {
    hide EndedWith, SameNode, ClosersAfter, FailuresOf, BatchAttempt, KeyNow;
    assert batch[0..] == batch;
    forall id | id !in batch ensures SameNode(w, s, r, id) {
      SameThrough(w, s, p, r, id);
    }
  }

  /** WHICH ENVELOPE ENDS WHICH NODE. A batch of review roles starts exactly if its reservations fit one after the
      other. Then the envelope returned for a node, under the node's id, key and first attempt, is its result, and the
      node succeeded exactly if that envelope did; a node without one failed; one blocker names each failed node and no
      other; each node was charged what its own envelope used. */
  lemma ReviewBatchReads(w: Setup, s: RunState, batch: seq<NodeId>)
    requires Sane(w, s) && !s.stopped && s.journal.None? && Sorting.Distinct(batch) && AllPending(s, batch)
    ensures var r, tokens := ReviewBatch(w, s, batch), Planned(w, s, batch, 0);
            && (tokens.Some? ==> BatchDone(w, s, r, batch, Answers(w, s, w.runBatch(NodesOf(w, batch)), batch), tokens.value))
            && (tokens.None? ==> NotStarted(w, s, r, batch, 0))
  {
    hide Prepare, CommitMany, Mid, AllPending, Sane, AllPrepared, NotStarted, Planned, BatchEnded, BatchDone, Answer, KeyNow;
    SaneIsMid(w, s);
    assert Elements(batch[..0]) == {} && batch[0..] == batch;
    PrepareReads(w, s, batch, 0);
    var (ok, p) := Prepare(w, s, batch, 0);
    if ok {
      var envelopes, tokens := w.runBatch(NodesOf(w, batch)), Planned(w, s, batch, 0).value;
      var envs := Answers(w, s, envelopes, batch);
      PreparedKeys(w, s, p, batch, tokens);
      SaneNotFaulty(w, s);
      CommitManyReads(w, p, envelopes, batch, envs, tokens);
      PreparedThenEnded(w, s, p, CommitMany(w, p, envelopes, batch), batch, envs, tokens);
    }
  }

  lemma PreparedKeys(w: Setup, s: RunState, p: RunState, batch: seq<NodeId>, tokens: seq<int>)
    requires AllPrepared(w, s, p, batch, 0, tokens)
    ensures |tokens| == |batch| && p.fault == s.fault
    ensures forall j :: 0 <= j < |batch| ==>
      batch[j] in p.keys && p.keys[batch[j]] == KeyNow(w, s, batch[j]) && Prepared(w, p, batch[j], p.keys[batch[j]], tokens[j])
  {
    hide KeyNow, NodeOf;
    forall j | 0 <= j < |batch| ensures batch[j] in p.keys && p.keys[batch[j]] == KeyNow(w, s, batch[j])
        && Prepared(w, p, batch[j], p.keys[batch[j]], tokens[j]) {
      assert Prepared(w, p, batch[j], KeyNow(w, s, batch[j]), tokens[j]);
    }
  }

  lemma SaneNotFaulty(w: Setup, s: RunState)
    requires Sane(w, s)
    ensures !s.fault
  {
  }
}
