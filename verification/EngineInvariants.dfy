/** What every step of a run keeps: no exception, no open reservation left behind, only the node at hand touched. */
module EngineInvariants {
  import opened AgyTypes
  import opened Budget
  import opened Scheduling
  import opened Dag
  import opened Checkpointing
  import opened Dispatching
  import opened DispatchTheorems
  import opened Engine
  import Sorting

  /** No reservation is open. */
  ghost predicate Quiet(entries: Entries) {
    forall k :: k in entries ==> entries[k].status != Open && entries[k].reserved == ZERO
  }

  /** Journaled nodes never carry a negative running total. */
  ghost predicate GoodRows(journal: Option<Rows>) {
    journal.Some? ==> forall id :: id in journal.value ==> journal.value[id].consumed.tokens >= 0
  }

  ghost predicate SaneNode(w: Setup, s: RunState, id: NodeId) {
    && (HasStatus(s.states, id, Pending) ==> s.states[id] == FRESH && LedgerKeyOf(w, id) !in s.entries)
    && (HasStatus(s.states, id, Succeeded) || HasStatus(s.states, id, Failed) ==>
         id in s.results && id in s.keys && s.states[id].consumed.tokens >= 0)
  }

  ghost predicate Sane(w: Setup, s: RunState) {
    && Shaped(w, s)
    && !s.fault
    && Quiet(s.entries)
    && GoodRows(s.journal)
    && forall id :: id in s.states ==> SaneNode(w, s, id)
  }

  /** Only node `id` was touched. */
  ghost predicate OnlyTouched(w: Setup, s: RunState, r: RunState, id: NodeId) {
    && r.states == s.states[id := StateOf(r, id)]
    && r.journal == s.journal
    && (forall x :: x != id ==> (x in r.results <==> x in s.results) && (x in s.results ==> r.results[x] == s.results[x]))
    && (forall x :: x != id ==> (x in r.keys <==> x in s.keys) && (x in s.keys ==> r.keys[x] == s.keys[x]))
    && r.entries - {LedgerKeyOf(w, id)} == s.entries - {LedgerKeyOf(w, id)}
    && s.attempts <= r.attempts
    && (s.refused ==> r.refused)
  }

  lemma TouchedSane(w: Setup, s: RunState, r: RunState, id: NodeId)
    requires Sane(w, s) && id in s.states && OnlyTouched(w, s, r, id)
    requires !r.fault && Quiet(r.entries) && SaneNode(w, r, id)
    ensures Sane(w, r)
  {
    forall x | x in r.states && x != id ensures SaneNode(w, r, x) {
      assert SaneNode(w, s, x);
      if LedgerKeyOf(w, x) in r.entries {
        assert LedgerKeyOf(w, x) in r.entries - {LedgerKeyOf(w, id)};
        assert LedgerKeyOf(w, x) in s.entries;
      }
    }
  }

  lemma MergeTouches(w: Setup, s: RunState, id: NodeId, l: Local)
    requires id in s.states
    requires l.own.None? ==> LedgerKeyOf(w, id) !in s.entries
    ensures OnlyTouched(w, s, Merge(w, s, id, l), id)
    ensures StateOf(Merge(w, s, id, l), id) == l.rt
    ensures Own(Merge(w, s, id, l).entries, LedgerKeyOf(w, id)) == l.own
  {
    var k := LedgerKeyOf(w, id);
    if l.own.Some? {
      assert s.entries[k := l.own.value] - {k} == s.entries - {k};
    }
  }

  lemma QuietWith(entries: Entries, k: LedgerKey, e: Entry)
    requires Quiet(entries - {k}) && e.status != Open && e.reserved == ZERO
    ensures Quiet(entries[k := e])
  {
    var all := entries[k := e];
    forall x | x in all ensures all[x].status != Open && all[x].reserved == ZERO {
      assert x != k ==> x in entries - {k};
    }
  }

  lemma QuietWithout(entries: Entries, k: LedgerKey)
    requires Quiet(entries)
    ensures Quiet(entries - {k}) && ReleaseAt(entries, k) == entries
  {
    if k in entries {
      SameEntry(entries, k);
    }
  }

  /** A pending node becomes dispatchable once it has its key. */
  lemma KeyedFacts(w: Setup, s: RunState, id: NodeId)
    requires Sane(w, s) && HasStatus(s.states, id, Pending)
    ensures var k := Keyed(w, s, id);
            && OnlyTouched(w, s, k, id) && k.entries == s.entries && k.results == s.results && id in k.keys
            && !k.fault && k.attempts == s.attempts && k.stopped == s.stopped
            && Dispatchable(LocalOf(w, k, id)) && LocalOf(w, k, id).own.None?
            && StateOf(k, id).status == Pending && StateOf(k, id).errorClass == NoError
  {
    assert SaneNode(w, s, id);
  }

  /** One agent step: the node ends succeeded or failed, or the budget stops the run and the node waits
      ready; never an exception, never an open reservation. */
  ghost predicate Stepped(w: Setup, s: RunState, r: RunState, id: NodeId) {
    && OnlyTouched(w, s, r, id)
    && Sane(w, r)
    && (r.stopped ==> HasStatus(r.states, id, Ready))
    && (!r.stopped ==> HasStatus(r.states, id, Succeeded) || HasStatus(r.states, id, Failed))
  }

  lemma DispatchedSteps(w: Setup, s: RunState, k: RunState, id: NodeId)
    requires Sane(w, s) && HasStatus(s.states, id, Pending) && !s.stopped
    requires k == Keyed(w, s, id)
    ensures Stepped(w, s, Dispatched(w, k, id), id)
  {
    hide Dispatch, JobOf, Keyed, Grew, Conserved, OverrunBounded, IdSet;
    KeyedFacts(w, s, id);
    var job, l := JobOf(w, k, id), LocalOf(w, k, id);
    DispatchCompletes(job, l);
    var (d, env) := Dispatch(job, l);
    var r := Dispatched(w, k, id);
    MergeTouches(w, k, id, d);
    TouchedTwice(w, s, k, r, id);
    QuietWithout(k.entries, LedgerKeyOf(w, id));
    if d.own.Some? {
      QuietWith(k.entries, LedgerKeyOf(w, id), d.own.value);
    }
    if env.Some? {
      ConsumedNonNegative(job, l, d, env.value);
    }
    assert SaneNode(w, r, id);
    TouchedSane(w, s, r, id);
  }

  lemma TouchedTwice(w: Setup, s: RunState, k: RunState, r: RunState, id: NodeId)
    requires OnlyTouched(w, s, k, id) && id in s.states
    requires r.states == k.states[id := StateOf(r, id)] && r.journal == k.journal
    requires forall x :: x != id ==> (x in r.results <==> x in k.results) && (x in k.results ==> r.results[x] == k.results[x])
    requires r.keys == k.keys
    requires r.entries - {LedgerKeyOf(w, id)} == k.entries - {LedgerKeyOf(w, id)}
    requires k.attempts <= r.attempts && (k.refused ==> r.refused)
    ensures OnlyTouched(w, s, r, id)
  {
  }

  lemma {:induction false} TotalActualGrows(attempts: seq<Attempt>, n: nat)
    requires n <= |attempts|
    requires forall i :: n <= i < |attempts| ==> attempts[i].actual.tokens >= 0
    ensures TotalActual(attempts[..n]).tokens <= TotalActual(attempts).tokens
  {
    if n == |attempts| {
      assert attempts[..n] == attempts;
    } else {
      var rest := attempts[..|attempts| - 1];
      TotalActualGrows(rest, n);
      assert rest[..n] == attempts[..n];
    }
  }

  lemma ConsumedNonNegative(job: Job, l: Local, d: Local, env: Envelope)
    requires Completed(job, l, d, env, AtLeastZero(l.rt.remainingRetries) + 2) && l.rt.consumed.tokens >= 0
    ensures d.rt.consumed.tokens >= 0
  {
    hide TotalActual, TotalCharged;
    TotalActualGrows(d.attempts, |l.attempts|);
    assert d.attempts[..|l.attempts|] == l.attempts;
  }

  lemma ServedSteps(w: Setup, s: RunState, k: RunState, id: NodeId, row: Row)
    requires Sane(w, s) && HasStatus(s.states, id, Pending) && !s.stopped
    requires k == Keyed(w, s, id) && CacheHit(w, KeyOf(k, id), k.journal) == Some(row)
    ensures Stepped(w, s, Served(w, k, id, row), id)
    ensures Served(w, k, id, row).entries == s.entries && Served(w, k, id, row).attempts == s.attempts
  {
    hide Keyed, IdSet;
    KeyedFacts(w, s, id);
    QuietWithout(s.entries, LedgerKeyOf(w, id));
    var r := Served(w, k, id, row);
    TouchedTwice(w, s, k, r, id);
    var found := Matching(k.journal.value, KeyOf(k, id), w.epoch.id);
    assert w.select(found) in found;
    assert SaneNode(w, r, id);
    TouchedSane(w, s, r, id);
  }

  lemma AgentSteps(w: Setup, s: RunState, id: NodeId)
    requires Sane(w, s) && HasStatus(s.states, id, Pending) && !s.stopped
    ensures Stepped(w, s, Agent(w, s, id), id)
  {
    hide Keyed, Served, Dispatched, CacheHit, Stepped;
    var k := Keyed(w, s, id);
    var hit := CacheHit(w, KeyOf(k, id), k.journal);
    if hit.Some? {
      ServedSteps(w, s, k, id, hit.value);
    } else {
      DispatchedSteps(w, s, k, id);
    }
  }

  // ---- the batch one node at a time ----

  /** Nothing outside the batch was touched. */
  ghost predicate Advanced(s: RunState, r: RunState, batch: seq<NodeId>) {
    && r.states.Keys == s.states.Keys
    && (forall x :: x in s.states && x !in batch ==> r.states[x] == s.states[x])
    && (forall x :: x !in batch ==> (x in r.results <==> x in s.results) && (x in s.results ==> r.results[x] == s.results[x]))
    && (forall x :: x !in batch ==> (x in r.keys <==> x in s.keys) && (x in s.keys ==> r.keys[x] == s.keys[x]))
    && r.journal == s.journal
    && s.attempts <= r.attempts
    && (s.refused ==> r.refused)
  }

  ghost predicate AllPending(s: RunState, batch: seq<NodeId>) {
    forall id :: id in batch ==> HasStatus(s.states, id, Pending)
  }

  ghost predicate Ended(s: RunState, id: NodeId) {
    HasStatus(s.states, id, Succeeded) || HasStatus(s.states, id, Failed)
  }

  ghost predicate AllEnded(s: RunState, batch: seq<NodeId>) {
    forall id :: id in batch ==> Ended(s, id)
  }

  /** A dispatched batch: every node ended, unless the budget stopped the run. */
  ghost predicate BatchRan(w: Setup, s: RunState, r: RunState, batch: seq<NodeId>) {
    && Advanced(s, r, batch) && Sane(w, r)
    && (!r.stopped ==> AllEnded(r, batch))
    && (batch != [] ==> !HasStatus(r.states, batch[0], Pending))
  }

  lemma StepThenRest(w: Setup, s: RunState, m: RunState, r: RunState, batch: seq<NodeId>)
    requires batch != [] && !m.stopped && Stepped(w, s, m, batch[0]) && batch[0] !in batch[1..]
    requires batch[0] in s.states && BatchRan(w, m, r, batch[1..])
    ensures BatchRan(w, s, r, batch)
  {
    hide Sane, SaneNode, OnlyTouched, Advanced;
    assert batch == [batch[0]] + batch[1..];
    KeptByRest(m, r, batch);
    WiderAdvance(m, r, batch);
    TouchedAdvances(w, s, m, r, batch[0], batch);
  }

  lemma KeptByRest(m: RunState, r: RunState, batch: seq<NodeId>)
    requires batch != [] && Advanced(m, r, batch[1..]) && batch[0] !in batch[1..]
    ensures batch[0] in m.states ==> batch[0] in r.states && r.states[batch[0]] == m.states[batch[0]]
  {
  }

  lemma WiderAdvance(m: RunState, r: RunState, batch: seq<NodeId>)
    requires batch != [] && Advanced(m, r, batch[1..])
    ensures Advanced(m, r, batch)
  {
    assert batch == [batch[0]] + batch[1..];
  }

  /** A step that stops the run ends the batch. */
  lemma StepStops(w: Setup, s: RunState, m: RunState, batch: seq<NodeId>)
    requires batch != [] && m.stopped && Stepped(w, s, m, batch[0]) && batch[0] in s.states
    ensures BatchRan(w, s, m, batch)
  {
    hide Sane, SaneNode;
  }

  lemma TailStaysPending(w: Setup, s: RunState, m: RunState, batch: seq<NodeId>)
    requires batch != [] && Sorting.Distinct(batch) && AllPending(s, batch) && Stepped(w, s, m, batch[0])
    ensures Sorting.Distinct(batch[1..]) && AllPending(m, batch[1..]) && batch[0] !in batch[1..] && batch[0] in s.states
    ensures HasStatus(s.states, batch[0], Pending) && Sane(w, m)
  {
    hide Sane;
    assert batch == [batch[0]] + batch[1..] && batch[0] in batch;
    forall id | id in batch[1..] ensures HasStatus(m.states, id, Pending) && id != batch[0] {
      assert id in batch;
    }
  }

  lemma {:induction false} AgentsRun(w: Setup, s: RunState, batch: seq<NodeId>)
    requires Sane(w, s) && !s.stopped && Sorting.Distinct(batch) && AllPending(s, batch)
    ensures BatchRan(w, s, Agents(w, s, batch), batch)
    decreases |batch|
  {
    hide Agent, Sane, Stepped, OnlyTouched;
    if batch != [] {
      hide BatchRan;
      var m := Agent(w, s, batch[0]);
      assert batch[0] in batch;
      AgentSteps(w, s, batch[0]);
      TailStaysPending(w, s, m, batch);
      if m.stopped {
        StepStops(w, s, m, batch);
      } else {
        AgentsRun(w, m, batch[1..]);
        StepThenRest(w, s, m, Agents(w, m, batch[1..]), batch);
      }
    }
  }

  // ---- the batch in one invocation ----

  ghost predicate Runs(w: Setup, s: RunState, id: NodeId) {
    HasStatus(s.states, id, Running) && IsOpen(s.entries, LedgerKeyOf(w, id)) && id in s.keys && s.states[id].consumed.tokens >= 0
  }

  ghost predicate Idle(entries: Entries, k: LedgerKey) {
    k in entries ==> entries[k].status != Open && entries[k].reserved == ZERO
  }

  ghost predicate BusyKey(w: Setup, k: LedgerKey, busy: set<NodeId>) {
    k.0 == w.epoch.seqNo && k.1 in busy
  }

  ghost predicate Basics(w: Setup, s: RunState) {
    Shaped(w, s) && !s.fault && GoodRows(s.journal)
  }

  /** `busy` nodes are running with an open reservation; everything else is as sane as ever. */
  ghost predicate Mid(w: Setup, s: RunState, busy: set<NodeId>) {
    && Basics(w, s)
    && (forall id :: id in busy ==> Runs(w, s, id))
    && (forall k :: k in s.entries && !BusyKey(w, k, busy) ==> Idle(s.entries, k))
    && (forall id :: id in s.states && id !in busy ==> SaneNode(w, s, id))
  }

  lemma SaneIsMid(w: Setup, s: RunState)
    ensures Sane(w, s) <==> Mid(w, s, {})
  {
    if Mid(w, s, {}) {
      forall k | k in s.entries ensures s.entries[k].status != Open && s.entries[k].reserved == ZERO {
        assert Idle(s.entries, k);
      }
    }
  }

  lemma EntriesKept(w: Setup, s: RunState, r: RunState, id: NodeId)
    requires OnlyTouched(w, s, r, id)
    ensures forall k :: k != LedgerKeyOf(w, id) ==>
      (k in r.entries <==> k in s.entries) && (k in s.entries ==> r.entries[k] == s.entries[k])
  {
    var key := LedgerKeyOf(w, id);
    var re, se := r.entries - {key}, s.entries - {key};
    forall k | k != key
      ensures (k in r.entries <==> k in s.entries) && (k in s.entries ==> r.entries[k] == s.entries[k])
    {
      assert k in r.entries <==> k in re;
      assert k in s.entries <==> k in se;
      if k in s.entries {
        assert re[k] == r.entries[k] && se[k] == s.entries[k];
      }
    }
  }

  lemma OthersKept(w: Setup, s: RunState, r: RunState, id: NodeId, x: NodeId)
    requires OnlyTouched(w, s, r, id) && x != id
    ensures Runs(w, s, x) ==> Runs(w, r, x)
    ensures SaneNode(w, s, x) ==> SaneNode(w, r, x)
  {
    EntriesKept(w, s, r, id);
    assert LedgerKeyOf(w, x) != LedgerKeyOf(w, id);
  }

  lemma MidTouched(w: Setup, s: RunState, r: RunState, id: NodeId, busy: set<NodeId>, busy': set<NodeId>)
    requires Mid(w, s, busy) && id in s.states && OnlyTouched(w, s, r, id) && !r.fault
    requires busy' - {id} == busy - {id}
    requires id in busy' ==> Runs(w, r, id)
    requires id !in busy' ==> SaneNode(w, r, id) && Idle(r.entries, LedgerKeyOf(w, id))
    ensures Mid(w, r, busy')
  {
    hide SaneNode, Runs;
    EntriesKept(w, s, r, id);
    forall x ensures x != id ==> (x in busy' <==> x in busy) {
      assert x != id ==> (x in busy' - {id} <==> x in busy - {id});
    }
    forall x | x in r.states && x != id ensures (x in busy' ==> Runs(w, r, x)) && (x !in busy' ==> SaneNode(w, r, x)) {
      OthersKept(w, s, r, id, x);
    }
    forall x | x in busy' ensures Runs(w, r, x) {
      if x != id {
        OthersKept(w, s, r, id, x);
      }
    }
    forall k | k in r.entries && !BusyKey(w, k, busy') ensures Idle(r.entries, k) {
      if k != LedgerKeyOf(w, id) {
        assert Idle(s.entries, k);
      }
    }
  }

  lemma StartedFacts(job: Job, l: Local)
    requires Dispatchable(l) && l.own.None?
    ensures var (admission, r) := Started(job, l);
            && !r.fault && r.attempts == l.attempts && (l.refused ==> r.refused)
            && r.rt.consumed == l.rt.consumed
            && (admission == Admitted ==> r.rt.status == Running && r.own.Some? && r.own.value.status == Open)
            && (admission != Admitted ==> r.rt.status == Ready && r.own.None?)
  {
    hide ReserveAs, Remaining;
    var ready := Marked(l, Ready);
    ReserveGrants(job, ready, job.w.reserveAccounting(job.node, ready.rt.attempt + 1, Remaining(job, ready)));
  }

  /** Preparing a node opens its reservation and starts it, or leaves it ready with nothing reserved. */
  lemma PrepareOneSteps(w: Setup, s: RunState, id: NodeId, busy: set<NodeId>)
    requires Mid(w, s, busy) && HasStatus(s.states, id, Pending) && id !in busy && s.journal.None?
    ensures var (admission, r) := PrepareOne(w, s, id);
            && OnlyTouched(w, s, r, id) && r.stopped == s.stopped && r.results == s.results
            && (admission == Admitted ==> Mid(w, r, busy + {id}))
            && (admission != Admitted ==> Mid(w, r, busy) && HasStatus(r.states, id, Ready))
  {
    hide Started, Keyed, Mid, JobOf;
    MidKeyed(w, s, id, busy);
    var k := Keyed(w, s, id);
    var job, l := JobOf(w, k, id), LocalOf(w, k, id);
    StartedFacts(job, l);
    var (admission, started) := Started(job, l);
    var (_, r) := PrepareOne(w, s, id);
    MergeTouches(w, k, id, started);
    TouchedTwice(w, s, k, r, id);
    MidTouched(w, s, r, id, busy, if admission == Admitted then busy + {id} else busy);
  }

  lemma MidKeyed(w: Setup, s: RunState, id: NodeId, busy: set<NodeId>)
    requires Mid(w, s, busy) && HasStatus(s.states, id, Pending) && id !in busy && s.journal.None?
    ensures var k := Keyed(w, s, id);
            && OnlyTouched(w, s, k, id) && k.entries == s.entries && k.results == s.results && id in k.keys
            && k.keys == s.keys[id := KeyOf(k, id)] && k.blockers == s.blockers
            && k.fault == s.fault && k.attempts == s.attempts && k.stopped == s.stopped && k.journal == s.journal
            && Dispatchable(LocalOf(w, k, id)) && LocalOf(w, k, id).own.None?
            && !s.fault && LedgerKeyOf(w, id) !in s.entries && s.states[id] == FRESH
  {
    hide NodeOf;
    assert SaneNode(w, s, id);
  }

  lemma EndedFacts(job: Job, l: Local, env: Envelope)
    requires l.rt.status == Running && l.own.Some? && l.own.value.status == Open && !l.fault && l.rt.consumed.tokens >= 0
    ensures var r := EndedBy(job, l, env);
            && !r.fault && l.attempts <= r.attempts && r.refused == l.refused && r.rt.consumed.tokens >= 0
            && r.rt.status in {Succeeded, Failed} && r.own.Some? && r.own.value.status != Open && r.own.value.reserved == ZERO
  {
    hide TriagedCloser, Classify;
  }

  lemma CommitOneSteps(w: Setup, s: RunState, envelopes: map<NodeId, Envelope>, id: NodeId, busy: set<NodeId>)
    requires Mid(w, s, busy) && id in busy
    ensures var r := CommitOne(w, s, envelopes, id);
            && OnlyTouched(w, s, r, id) && r.stopped == s.stopped
            && Mid(w, r, busy - {id}) && Ended(r, id)
  {
    hide Mid, EndedBy, JobOf;
    MidBusy(w, s, id, busy);
    var job, l := JobOf(w, s, id), LocalOf(w, s, id);
    var env := Stamped(job, l, BatchEnvelope(envelopes, id, KeyOf(s, id)));
    EndedFacts(job, l, env);
    var r := CommitOne(w, s, envelopes, id);
    MergeTouches(w, s, id, EndedBy(job, l, env));
    EndedTouches(w, s, id, Merge(w, s, id, EndedBy(job, l, env)), env);
    MidTouched(w, s, r, id, busy, busy - {id});
  }

  lemma EndedTouches(w: Setup, s: RunState, id: NodeId, m: RunState, env: Envelope)
    requires OnlyTouched(w, s, m, id)
    ensures OnlyTouched(w, s, m.(results := m.results[id := env]), id)
  {
  }

  lemma MidBusy(w: Setup, s: RunState, id: NodeId, busy: set<NodeId>)
    requires Mid(w, s, busy) && id in busy
    ensures Runs(w, s, id) && !s.fault
  {
  }

  lemma {:induction false} ReleasedAll(w: Setup, entries: Entries, ids: seq<NodeId>)
    ensures var r := ReleaseMany(w, entries, ids);
            && r.Keys == entries.Keys
            && forall k :: k in entries ==>
                 r[k] == if k.0 == w.epoch.seqNo && k.1 in ids then ReleaseEntry(entries[k]) else entries[k]
  {
    if ids != [] {
      ReleasedAll(w, entries, ids[..|ids| - 1]);
      assert ids == ids[..|ids| - 1] + [ids[|ids| - 1]];
    }
  }

  /** Rolling back leaves no reservation open. */
  lemma RolledBack(w: Setup, s: RunState, ids: seq<NodeId>)
    requires Mid(w, s, Elements(ids))
    ensures Sane(w, s.(entries := ReleaseMany(w, s.entries, ids), stopped := true))
  {
    ReleasedAll(w, s.entries, ids);
    var r := s.(entries := ReleaseMany(w, s.entries, ids), stopped := true);
    forall id | id in r.states ensures SaneNode(w, r, id) {
      assert id !in Elements(ids) ==> SaneNode(w, s, id);
      assert id in Elements(ids) ==> Runs(w, s, id);
    }
    forall k | k in r.entries ensures r.entries[k].status != Open && r.entries[k].reserved == ZERO {
      assert BusyKey(w, k, Elements(ids)) <==> k.0 == w.epoch.seqNo && k.1 in ids;
      assert !BusyKey(w, k, Elements(ids)) ==> Idle(s.entries, k);
    }
  }

  lemma TouchedAdvances(w: Setup, s: RunState, m: RunState, r: RunState, id: NodeId, batch: seq<NodeId>)
    requires OnlyTouched(w, s, m, id) && id in batch && id in s.states && Advanced(m, r, batch)
    ensures Advanced(s, r, batch)
  {
  }

  lemma Shorter(batch: seq<NodeId>, i: nat)
    requires i < |batch| && Sorting.Distinct(batch)
    ensures Elements(batch[..i + 1]) == Elements(batch[..i]) + {batch[i]}
    ensures batch[i] !in Elements(batch[..i])
    ensures batch[i] in batch
  {
    assert batch[..i + 1] == batch[..i] + [batch[i]];
  }

  lemma TailPending(w: Setup, s: RunState, r: RunState, batch: seq<NodeId>, i: nat)
    requires i < |batch| && Sorting.Distinct(batch) && AllPending(s, batch[i..]) && OnlyTouched(w, s, r, batch[i])
    ensures AllPending(r, batch[i + 1..]) && HasStatus(s.states, batch[i], Pending)
  {
    assert batch[i..][0] == batch[i];
    forall id | id in batch[i + 1..] ensures HasStatus(r.states, id, Pending) {
      var j :| 0 <= j < |batch[i + 1..]| && batch[i + 1..][j] == id;
      assert batch[i..][j + 1] == id && batch[i + 1 + j] == id;
      assert HasStatus(s.states, id, Pending) && id != batch[i];
    }
  }

  /** Preparing the batch either starts every node, or stops the run with everything rolled back. */
  lemma {:induction false} PrepareRuns(w: Setup, s: RunState, batch: seq<NodeId>, i: nat)
    requires i <= |batch| && Sorting.Distinct(batch) && s.journal.None? && !s.stopped
    requires Mid(w, s, Elements(batch[..i])) && AllPending(s, batch[i..])
    ensures var (ok, r) := Prepare(w, s, batch, i);
            && Advanced(s, r, batch) && r.stopped == !ok
            && (ok ==> Mid(w, r, Elements(batch)))
            && (!ok ==> Sane(w, r))
            && (batch != [] ==> !HasStatus(r.states, batch[0], Pending))
    decreases |batch| - i
  {
    hide Mid, PrepareOne, Sane, OnlyTouched, Advanced;
    if i == |batch| {
      assert batch[..i] == batch;
      NothingAdvances(s, batch);
      FirstRuns(w, s, batch, i);
    } else {
      Shorter(batch, i);
      assert batch[i..][0] == batch[i];
      PrepareOneSteps(w, s, batch[i], Elements(batch[..i]));
      var (admission, next) := PrepareOne(w, s, batch[i]);
      TailPending(w, s, next, batch, i);
      if admission == Admitted {
        KeepsJournal(w, s, next, batch[i]);
        PrepareRuns(w, next, batch, i + 1);
        var (ok, r) := Prepare(w, next, batch, i + 1);
        TouchedAdvances(w, s, next, r, batch[i], batch);
      } else {
        RolledBack(w, next, batch[..i]);
        var r := next.(entries := ReleaseMany(w, next.entries, batch[..i]), stopped := true);
        ReleaseAdvances(next, r, batch);
        TouchedAdvances(w, s, next, r, batch[i], batch);
        FirstRuns(w, next, batch, i);
      }
    }
  }

  lemma KeepsJournal(w: Setup, s: RunState, r: RunState, id: NodeId)
    requires OnlyTouched(w, s, r, id)
    ensures r.journal == s.journal
  {
  }

  lemma NothingAdvances(s: RunState, batch: seq<NodeId>)
    ensures Advanced(s, s, batch)
  {
  }

  lemma ReleaseAdvances(s: RunState, r: RunState, batch: seq<NodeId>)
    requires r == s.(entries := r.entries, stopped := true)
    ensures Advanced(s, r, batch)
  {
  }

  lemma FirstRuns(w: Setup, s: RunState, batch: seq<NodeId>, i: nat)
    requires i <= |batch| && Mid(w, s, Elements(batch[..i]))
    ensures i > 0 ==> !HasStatus(s.states, batch[0], Pending)
  {
    if i > 0 {
      assert batch[..i][0] in Elements(batch[..i]);
      assert Runs(w, s, batch[0]);
    }
  }

  /** Committing the batch closes every reservation and ends every node. */
  lemma {:induction false} CommitRuns(w: Setup, s: RunState, envelopes: map<NodeId, Envelope>, batch: seq<NodeId>)
    requires Sorting.Distinct(batch) && Mid(w, s, Elements(batch))
    ensures var r := CommitMany(w, s, envelopes, batch);
            Advanced(s, r, batch) && Sane(w, r) && AllEnded(r, batch) && r.stopped == s.stopped
    decreases |batch|
  {
    hide Mid, CommitOne, Sane, OnlyTouched, Advanced;
    if batch == [] {
      assert Elements(batch) == {};
      SaneIsMid(w, s);
      NothingAdvances(s, batch);
    } else {
      var id, rest := batch[0], batch[1..];
      assert batch == [id] + rest;
      assert Elements(batch) == Elements(rest) + {id} && id !in Elements(rest);
      assert Elements(batch) - {id} == Elements(rest);
      MidBusy(w, s, id, Elements(batch));
      CommitOneSteps(w, s, envelopes, id, Elements(batch));
      var m := CommitOne(w, s, envelopes, id);
      CommitRuns(w, m, envelopes, rest);
      EndedRest(w, s, m, CommitMany(w, m, envelopes, rest), batch);
    }
  }

  lemma EndedRest(w: Setup, s: RunState, m: RunState, r: RunState, batch: seq<NodeId>)
    requires batch != [] && batch[0] in s.states && batch[0] !in batch[1..]
    requires OnlyTouched(w, s, m, batch[0]) && Ended(m, batch[0])
    requires Advanced(m, r, batch[1..]) && AllEnded(r, batch[1..])
    ensures Advanced(s, r, batch) && AllEnded(r, batch)
  {
    assert batch == [batch[0]] + batch[1..];
  }

  /** One invocation for a whole batch: the same guarantees as one node at a time. */
  lemma ReviewBatchRuns(w: Setup, s: RunState, batch: seq<NodeId>)
    requires Sane(w, s) && !s.stopped && s.journal.None? && Sorting.Distinct(batch) && AllPending(s, batch)
    ensures BatchRan(w, s, ReviewBatch(w, s, batch), batch)
  {
    hide Prepare, CommitMany, Sane, Mid, Advanced, AllPending;
    SaneIsMid(w, s);
    assert Elements(batch[..0]) == {} && batch[0..] == batch;
    PrepareRuns(w, s, batch, 0);
    var (ok, prepared) := Prepare(w, s, batch, 0);
    if ok {
      var envelopes := w.runBatch(NodesOf(w, batch));
      CommitRuns(w, prepared, envelopes, batch);
      AdvancedTwice(s, prepared, CommitMany(w, prepared, envelopes, batch), batch);
      assert batch != [] ==> batch[0] in batch;
    }
  }

  lemma AdvancedTwice(s: RunState, m: RunState, r: RunState, batch: seq<NodeId>)
    requires Advanced(s, m, batch) && Advanced(m, r, batch)
    ensures Advanced(s, r, batch)
  {
  }
}
