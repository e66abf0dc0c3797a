/** When the budget stops a run: exactly when a node is refused, on the global limit or for tokens it was billed
    before the run. */
module RefusalTheorems {
  import opened AgyTypes
  import opened Budget
  import opened Scheduling
  import opened Dag
  import opened Checkpointing
  import opened Dispatching
  import opened DispatchTheorems
  import opened Engine
  import opened EngineInvariants
  import opened EngineRun
  import opened EngineOutcome
  import Sorting

  /** The key a node gets where it is run now. */
  function KeyNow(w: Setup, s: RunState, id: NodeId): Key {
    w.keyOf(NodeOf(w, id), ResolveInputs(NodeOf(w, id), s.results))
  }

  /** The journal, of whatever epoch, has tokens billed to the node under its present key. */
  predicate BilledBefore(w: Setup, s: RunState, id: NodeId) {
    && s.journal.Some? && id in s.journal.value
    && s.journal.value[id].key == KeyNow(w, s, id) && s.journal.value[id].consumed.tokens > 0
  }

  lemma KeyedRestores(w: Setup, s: RunState, id: NodeId)
    ensures var k := Keyed(w, s, id);
            && KeyOf(k, id) == KeyNow(w, s, id) && k.journal == s.journal && k.stopped == s.stopped && k.refused == s.refused
            && (LocalOf(w, k, id).rt.consumed.tokens > 0 <==> BilledBefore(w, s, id))
            && LocalOf(w, k, id).refused == false
  {
    hide ResolveInputs, NodesById;
    NodeNamed(w, id);
  }

  lemma NodeNamed(w: Setup, id: NodeId)
    ensures NodeOf(w, id).id == id
  {
  }

  /** A node stops the run without a global refusal exactly when it misses the cache and its journaled row, of this
      key and any epoch, has billed tokens. Nothing is attempted then. */
  lemma AgentStopsOnBilled(w: Setup, s: RunState, id: NodeId)
    requires Sane(w, s) && HasStatus(s.states, id, Pending) && !s.stopped && !s.refused
    ensures var r := Agent(w, s, id);
            && (r.stopped && !r.refused <==> CacheHit(w, KeyNow(w, s, id), s.journal).None? && BilledBefore(w, s, id))
            && (r.stopped ==> r.attempts == s.attempts && r.results == s.results && HasStatus(r.states, id, Ready))
  {
    hide Keyed, Sane, Dispatch, CacheHit, Others, DepResults, NodesById, KeyNow, BilledBefore, OnlyTouched, OverrunBounded, Conserved, Grew;
    var k := Keyed(w, s, id);
    KeyedFacts(w, s, id);
    KeyedRestores(w, s, id);
    AgentSteps(w, s, id);
    if CacheHit(w, KeyOf(k, id), k.journal).None? {
      DispatchStopsOnBilled(JobOf(w, k, id), LocalOf(w, k, id));
      DispatchCompletes(JobOf(w, k, id), LocalOf(w, k, id));
      assert s.attempts + [] == s.attempts;
    }
  }

  ghost predicate OtherEpochs(w: Setup, rows: Rows) {
    forall id :: id in rows ==> rows[id].epoch.id != w.epoch.id
  }

  lemma OtherEpochsMiss(w: Setup, key: Key, rows: Rows)
    requires OtherEpochs(w, rows)
    ensures CacheHit(w, key, Some(rows)).None?
  {
    assert Matching(rows, key, w.epoch.id) == {};
  }

  lemma AgentsStop(w: Setup, s: RunState, batch: seq<NodeId>)
    requires batch != [] && Agent(w, s, batch[0]).stopped
    ensures Agents(w, s, batch) == Agent(w, s, batch[0])
  {
    hide Agent;
  }

  lemma StoppedBarrier(w: Setup, s: RunState, batch: seq<NodeId>)
    requires Sane(w, s) && !s.stopped && Sorting.Distinct(batch) && AllPending(s, batch) && s.journal.Some?
    requires batch != [] && Agent(w, s, batch[0]).stopped
    ensures var r, joined := Barrier(w, s, batch), Agent(w, s, batch[0]);
            && r.stopped && r.refused == joined.refused && r.attempts == joined.attempts && r.results == joined.results
            && r.entries == joined.entries
  {
    hide Sane, Agent, SkipFailed, Journaled, Barrier, Agents, BatchRan;
    AgentsStop(w, s, batch);
    JoinedRan(w, s, batch);
    var joined := Joined(w, s, batch);
    BarrierParts(w, s, batch);
    JoinedSane(w, s, joined, batch);
    SkipFailedSane(w, joined, batch);
    JournaledFacts(w, SkipFailed(w, joined, batch), batch);
  }

  lemma JoinedSane(w: Setup, s: RunState, joined: RunState, batch: seq<NodeId>)
    requires BatchRan(w, s, joined, batch)
    ensures Sane(w, joined)
  {
  }

  /** AN EPOCH CHANGE CAN END A RUN BEFORE IT STARTS. From a journal of other epochs in which the first ready node
      has billed tokens under its present key, every run stops in its first barrier, with nothing attempted, no
      result and no global refusal, however large the limit. */
  lemma BilledRestartStops(w: Setup, cap: int, reviewer: string, closer: string, rows: Rows)
    requires WellFormed(w.nodes) && GoodRows(Some(rows)) && OtherEpochs(w, rows)
    requires var s := Initial(w, reviewer, closer, Some(rows));
             ReadySet(w.nodes, s.states) != [] && BilledBefore(w, s, ReadySet(w.nodes, s.states)[0])
    ensures Sane(w, Initial(w, reviewer, closer, Some(rows)))
    ensures var r := Run(w, cap, Initial(w, reviewer, closer, Some(rows)));
            r.stopped && !r.refused && r.attempts == [] && r.results == map[]
  {
    hide Run, Sane, Agent, Barrier, BilledBefore, KeyNow, ReadySet, AllTerminal, Tidy, CacheHit, WellFormed, IdSet, OtherEpochs, GoodRows;
    InitialIsSane(w, reviewer, closer, Some(rows));
    var s := Initial(w, reviewer, closer, Some(rows));
    var batch := Batch(w, cap, s);
    BatchIsReady(w, cap, s);
    assert batch[0] == ReadySet(w.nodes, s.states)[0];
    assert HasStatus(s.states, batch[0], Pending);
    PendingIsUnfinished(s.states, batch[0]);
    OtherEpochsMiss(w, KeyNow(w, s, batch[0]), rows);
    AgentStopsOnBilled(w, s, batch[0]);
    StoppedBarrier(w, s, batch);
    RunUnfolds(w, cap, s);
  }

  lemma PendingIsUnfinished(states: States, id: NodeId)
    requires HasStatus(states, id, Pending)
    ensures !AllTerminal(states)
  {
  }
}
