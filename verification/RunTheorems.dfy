/** The main theorems about whole runs. */
module RunTheorems {
  import opened AgyTypes
  import opened Budget
  import opened Scheduling
  import opened Dag
  import opened Checkpointing
  import opened Dispatching
  import opened DispatchLimits
  import opened Engine
  import opened EngineInvariants
  import opened EngineRun
  import opened EngineOutcome
  import opened EngineMeaning
  import opened EngineResume
  import opened EngineTheorems

  /** The journal of a finished run. */
  function MeaningJournal(w: Setup, m: Meaning): Rows {
    map id | id in m && m[id].Reached? :: MeaningRow(w, id, m[id])
  }

  /** The run ended as the meaning says: statuses, runtimes, results, journal; and it attempted exactly the
      nodes that were not already journaled, each with exactly its own attempts. */
  ghost predicate Computes(w: Setup, m: Meaning, r: RunState, cached: set<NodeId>) {
    && r.states.Keys == m.Keys
    && (forall id :: id in m && m[id].Reached? ==> r.states[id] == m[id].rt)
    && (forall id :: id in m && m[id].Avoided? ==> r.states[id].status == Skipped)
    && r.results == Outputs(m)
    && (r.journal.Some? ==> r.journal.value == MeaningJournal(w, m))
    && (forall id :: id in m ==> AttemptsOf(r.attempts, id) == if m[id].Reached? && id !in cached then m[id].attempts else [])
  }

  function CachedIn(journal: Option<Rows>): set<NodeId> {
    if journal.Some? then journal.value.Keys else {}
  }

  lemma SoundIsGood(w: Setup, m: Meaning, journal: Option<Rows>)
    requires Solved(w, m) && SoundJournal(w, m, journal)
    ensures GoodRows(journal)
  {
    hide OwnOutcome, BudgetBlind, IdSet, NodesById;
    if journal.Some? {
      forall id | id in journal.value ensures journal.value[id].consumed.tokens >= 0 {
        OwnOutcomeFacts(w, NodeOf(w, id), Outputs(m));
      }
    }
  }

  lemma InitialBoundary(w: Setup, m: Meaning, reviewer: string, closer: string, journal: Option<Rows>)
    requires Solved(w, m) && SoundJournal(w, m, journal)
    ensures var s := Initial(w, reviewer, closer, journal);
            Boundary(w, m, s, CachedIn(journal)) && Sane(w, s) && !s.stopped && !s.refused
            && Tidy(DepsOf(w.nodes), s.states, {})
  {
    hide Solved, IdSet, Sane, Tidy, SoundJournal;
    SoundIsGood(w, m, journal);
    InitialIsSane(w, reviewer, closer, journal);
    FreshFollows(w, m, Initial(w, reviewer, closer, journal), CachedIn(journal));
  }

  lemma FreshFollows(w: Setup, m: Meaning, s: RunState, cached: set<NodeId>)
    requires Sane(w, s) && !s.stopped && SoundJournal(w, m, s.journal)
    requires s.entries == map[] && s.results == map[] && s.attempts == []
    requires forall id :: id in s.states ==> s.states[id] == FRESH
    ensures Follows(w, m, s, cached) && EndedSet(s) == {}
  {
    hide Sane, SoundJournal;
    forall id | id in s.states ensures !Ended(s, id) && !HasStatus(s.states, id, Skipped) {
    }
  }

  /** At the end of a run the verdict of a node can be read off its status. */
  ghost predicate ReadOff(m: Meaning, r: RunState, id: NodeId) {
    && id in m && id in r.states && (Ended(r, id) <==> m[id].Reached?)
    && (m[id].Avoided? ==> r.states[id].status == Skipped)
    && (m[id].Reached? ==> r.states[id] == m[id].rt && id in r.results && r.results[id] == m[id].env)
  }

  ghost predicate AllReadOff(m: Meaning, r: RunState) {
    r.states.Keys == m.Keys && forall id :: id in m ==> ReadOff(m, r, id)
  }

  lemma VerdictsReadOff(w: Setup, m: Meaning, r: RunState, cached: set<NodeId>)
    requires Solved(w, m) && Follows(w, m, r, cached) && AllTerminal(r.states) && Tidy(DepsOf(w.nodes), r.states, {})
    ensures AllReadOff(m, r)
  {
    hide Sane, Evaluate, Reproducible, WellFormed, IdSet, EntriesFollow, SoundJournal, DepsSucceeded, Justified, Propagated, DepsOf, TracksAt;
    FollowsSane(w, m, r, cached);
    forall id | id in m ensures ReadOff(m, r, id) {
      assert AgreesAt(m, r, id);
      assert r.states[id].status in {Succeeded, Failed, Skipped};
    }
  }

  lemma ResultsReadOff(w: Setup, m: Meaning, r: RunState, cached: set<NodeId>)
    requires AllReadOff(m, r) && Follows(w, m, r, cached)
    ensures r.results == Outputs(m)
  {
    hide Sane, EntriesFollow, SoundJournal, Agrees, TracksAt;
    forall id | id in Outputs(m) ensures id in r.results && r.results[id] == Outputs(m)[id] {
      assert ReadOff(m, r, id);
    }
    forall id | id in r.results ensures id in Outputs(m) {
      assert Ended(r, id) && ReadOff(m, r, id);
    }
  }

  lemma AttemptsReadOff(w: Setup, m: Meaning, r: RunState, cached: set<NodeId>)
    requires AllReadOff(m, r) && Follows(w, m, r, cached)
    ensures forall id :: id in m ==> AttemptsOf(r.attempts, id) == if m[id].Reached? && id !in cached then m[id].attempts else []
  {
    hide Sane, EntriesFollow, SoundJournal, Agrees, AttemptsOf;
    forall id | id in m ensures AttemptsOf(r.attempts, id) == if m[id].Reached? && id !in cached then m[id].attempts else [] {
      assert ReadOff(m, r, id) && TracksAt(m, r, cached, id);
    }
  }

  lemma JournalReadOff(w: Setup, m: Meaning, r: RunState, cached: set<NodeId>)
    requires AllReadOff(m, r) && Boundary(w, m, r, cached) && r.journal.Some?
    requires forall id :: id in cached ==> id in m && m[id].Reached?
    ensures r.journal.value == MeaningJournal(w, m)
  {
    hide MeaningJournal, Boundary, ReadOff;
    var rows, wanted := r.journal.value, MeaningJournal(w, m);
    forall id ensures (id in rows <==> id in wanted) && (id in rows ==> rows[id] == wanted[id]) {
      assert id in m ==> ReadOff(m, r, id);
      JournalReadAt(w, m, r, cached, id);
    }
  }

  lemma JournalReadAt(w: Setup, m: Meaning, r: RunState, cached: set<NodeId>, id: NodeId)
    requires Boundary(w, m, r, cached) && r.journal.Some? && (id in m ==> ReadOff(m, r, id))
    requires forall x :: x in cached ==> x in m && m[x].Reached?
    ensures id in r.journal.value <==> id in MeaningJournal(w, m)
    ensures id in r.journal.value ==> r.journal.value[id] == MeaningJournal(w, m)[id]
  {
    hide Sane, EntriesFollow, TracksAt, DepsOf, IdSet;
  }

  /** What remains to be read off when a run has followed the meaning to the end. */
  lemma FollowedIsComputed(w: Setup, m: Meaning, r: RunState, cached: set<NodeId>)
    requires Solved(w, m) && Boundary(w, m, r, cached) && AllTerminal(r.states)
    requires Tidy(DepsOf(w.nodes), r.states, {})
    requires forall id :: id in cached ==> id in m && m[id].Reached?
    ensures Computes(w, m, r, cached)
  {
    hide Follows, Tidy, Solved, AllTerminal, MeaningJournal, Outputs, DepsOf, IdSet;
    VerdictsReadOff(w, m, r, cached);
    ResultsReadOff(w, m, r, cached);
    AttemptsReadOff(w, m, r, cached);
    if r.journal.Some? {
      JournalReadOff(w, m, r, cached);
    }
    forall id | id in m ensures (m[id].Reached? ==> r.states[id] == m[id].rt) && (m[id].Avoided? ==> r.states[id].status == Skipped) {
      assert ReadOff(m, r, id);
    }
  }

  /** THE RUN REFINES THE MEANING. From the start, or from any journal whose rows are sound, with any cap:
      a run that the global budget does not refuse neither stops nor raises, and computes the meaning,
      without ever attempting a node that was already journaled. */
  lemma RunIsMeaning(w: Setup, m: Meaning, cap: int, reviewer: string, closer: string, journal: Option<Rows>)
    requires Solved(w, m) && !HasCycle(DepsOf(w.nodes)) && SoundJournal(w, m, journal)
    requires "" !in IdSet(w.nodes) || journal.None?
    ensures Sane(w, Initial(w, reviewer, closer, journal))
    ensures var r := Run(w, cap, Initial(w, reviewer, closer, journal));
            !r.refused ==> !r.stopped && !r.fault && Computes(w, m, r, CachedIn(journal))
  {
    InitialBoundary(w, m, reviewer, closer, journal);
    RunFromBoundary(w, m, cap, Initial(w, reviewer, closer, journal), CachedIn(journal));
  }

  lemma RunFromBoundary(w: Setup, m: Meaning, cap: int, s: RunState, cached: set<NodeId>)
    requires Solved(w, m) && !HasCycle(DepsOf(w.nodes)) && Boundary(w, m, s, cached) && Sane(w, s) && !s.stopped
    requires Tidy(DepsOf(w.nodes), s.states, {})
    requires "" !in IdSet(w.nodes) || s.journal.None?
    requires forall id :: id in cached ==> id in m && m[id].Reached?
    ensures var r := Run(w, cap, s);
            !r.refused ==> !r.stopped && !r.fault && Computes(w, m, r, cached)
  {
    hide Run, Boundary, Sane, Tidy, IsMeaning, Reproducible, Computes, Batch, AllTerminal;
    var r := Run(w, cap, s);
    if !r.refused {
      RunFollows(w, m, cap, s, cached);
      RunFinishes(w, cap, s);
      if !AllTerminal(r.states) {
        NoStall(w, cap, r);
      }
      FollowedIsComputed(w, m, r, cached);
    }
  }

  /** Two runs that compute the same meaning agree on everything a report shows. */
  ghost predicate SameOutcome(a: RunState, b: RunState) {
    && a.states.Keys == b.states.Keys
    && (forall id :: id in a.states ==> a.states[id].status == b.states[id].status)
    && a.results == b.results
  }

  /** CAP INDEPENDENCE. Two runs of one graph with different caps, neither refused by the global budget, give
      the same statuses and results and make the same attempts for every node. */
  lemma CapDoesNotMatter(w: Setup, cap: int, cap': int, reviewer: string, closer: string, journal: Option<Rows>)
    requires WellFormed(w.nodes) && !HasCycle(DepsOf(w.nodes)) && Reproducible(w)
    requires forall m :: IsMeaning(w, m) ==> SoundJournal(w, m, journal)
    requires "" !in IdSet(w.nodes) || journal.None?
    ensures Sane(w, Initial(w, reviewer, closer, journal))
    ensures var s := Initial(w, reviewer, closer, journal);
            var a, b := Run(w, cap, s), Run(w, cap', s);
            !a.refused && !b.refused ==>
              && SameOutcome(a, b) && a.journal == b.journal
              && forall id :: id in a.states ==> AttemptsOf(a.attempts, id) == AttemptsOf(b.attempts, id)
  {
    hide Run, IsMeaning, Reproducible, Sane, SoundJournal, WellFormed, IdSet, DepsOf;
    var m := MeaningExists(w);
    RunIsMeaning(w, m, cap, reviewer, closer, journal);
    RunIsMeaning(w, m, cap', reviewer, closer, journal);
    RunKeeps(w, cap, Initial(w, reviewer, closer, journal));
    RunKeeps(w, cap', Initial(w, reviewer, closer, journal));
  }
}
