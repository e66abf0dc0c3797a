/** The staged flow of one item after another, with a cache read and a journal write per stage. */
module Pipelining {
  import opened AgyTypes
  import opened Checkpointing
  import opened Dispatching
  import opened Canonical
  import DispatchTraces

  type Artifact = map<string, string>

  /** Stages are total functions of the item and the previous stage's artifact; `digest` stands for SHA-256. */
  datatype Pipeline<!I> = Pipeline(
    id: string,
    stages: seq<(I, Option<Artifact>) -> Envelope>,
    epoch: Epoch,
    select: Selector,
    digest: string -> Key,
    show: I -> string)

  datatype ItemResult<I> = ItemResult(item: I, succeeded: bool, envelope: Option<Envelope>, completed: nat, blocker: Option<Blocker>)

  /** How far one item has come: `executed` lists the stages that really ran. */
  datatype Progress = Progress(
    journal: Option<Rows>,
    prev: Option<Artifact>,
    final: Option<Envelope>,
    completed: nat,
    executed: seq<nat>,
    failed: bool)

  // ---- names of a stage ----

  function KeyParts(id: string, index: nat, stage: nat, count: nat, epochId: string): Json {
    Arr([Str(id), Int(index), Int(stage), Int(count), Str(epochId)])
  }

  function StageKey<I>(p: Pipeline<I>, index: nat, stage: nat): Key {
    p.digest(Serialize(KeyParts(p.id, index, stage, |p.stages|, p.epoch.id)))
  }

  function StageId<I>(p: Pipeline<I>, index: nat, stage: nat): NodeId {
    p.id + (":" + Decimal(index) + ":" + Decimal(stage))
  }

  lemma KeyPartsExact(id: string, i: nat, s: nat, n: nat, e: string, id': string, i': nat, s': nat, n': nat, e': string)
    requires Serialize(KeyParts(id, i, s, n, e)) == Serialize(KeyParts(id', i', s', n', e'))
    ensures (id, i, s, n, e) == (id', i', s', n', e')
  {
    hide Serialize;
    var v, w := KeyParts(id, i, s, n, e), KeyParts(id', i', s', n', e');
    CanonicalExact(v, w);
    assert SameValue(v.items[0], w.items[0]) && SameValue(v.items[1], w.items[1]) && SameValue(v.items[2], w.items[2]);
    assert SameValue(v.items[3], w.items[3]) && SameValue(v.items[4], w.items[4]);
  }

  /** A key names one stage of one item of one pipeline of one epoch. */
  lemma StageKeysDiffer<I>(p: Pipeline<I>, q: Pipeline<I>, i: nat, s: nat, i': nat, s': nat)
    requires p.digest == q.digest && CollisionFree(p.digest)
    ensures StageKey(p, i, s) == StageKey(q, i', s') <==>
      (p.id, i, s, |p.stages|, p.epoch.id) == (q.id, i', s', |q.stages|, q.epoch.id)
  {
    hide Serialize;
    if StageKey(p, i, s) == StageKey(q, i', s') {
      KeyPartsExact(p.id, i, s, |p.stages|, p.epoch.id, q.id, i', s', |q.stages|, q.epoch.id);
    }
  }

  /** Two numbers after colons can be told apart. */
  lemma NumberedSuffix(i: nat, s: nat, i': nat, s': nat)
    requires ":" + Decimal(i) + ":" + Decimal(s) == ":" + Decimal(i') + ":" + Decimal(s')
    ensures i == i' && s == s'
  {
    hide Decimal;
    var t, u := Decimal(i) + (":" + Decimal(s)), Decimal(i') + (":" + Decimal(s'));
    AfterColon(Decimal(i), Decimal(s));
    AfterColon(Decimal(i'), Decimal(s'));
    NumberRoundTrip(i, ":" + Decimal(s));
    NumberRoundTrip(i', ":" + Decimal(s'));
    assert (":" + Decimal(s))[1..] == Decimal(s) && (":" + Decimal(s'))[1..] == Decimal(s');
    DecimalInjective(s, s');
  }

  lemma AfterColon(a: string, b: string)
    ensures (":" + a + ":" + b)[1..] == a + (":" + b)
  {
  }

  lemma DecimalInjective(m: int, n: int)
    requires Decimal(m) == Decimal(n)
    ensures m == n
  {
    hide Decimal;
    NumberRoundTrip(m, "");
    NumberRoundTrip(n, "");
  }

  lemma StageIdsDiffer<I>(p: Pipeline<I>, i: nat, s: nat, i': nat, s': nat)
    ensures StageId(p, i, s) == StageId(p, i', s') <==> (i, s) == (i', s')
  {
    hide Decimal;
    if StageId(p, i, s) == StageId(p, i', s') {
      var t, u := ":" + Decimal(i) + ":" + Decimal(s), ":" + Decimal(i') + ":" + Decimal(s');
      assert (p.id + t)[|p.id|..] == t && (p.id + u)[|p.id|..] == u;
      NumberedSuffix(i, s, i', s');
    }
  }

  // ---- one item ----

  /** What a stage produces, stamped with its identity. */
  function Stage<I>(p: Pipeline<I>, index: nat, item: I, prev: Option<Artifact>, i: nat): Envelope
    requires i < |p.stages|
  {
    p.stages[i](item, prev).(nodeId := StageId(p, index, i), key := StageKey(p, index, i))
  }

  /** Only a committed success is served. */
  function CachedStage<I>(p: Pipeline<I>, key: Key, journal: Option<Rows>): Option<Envelope> {
    if journal.None? then None
    else
      var hit := LookupIn(p.select, journal.value, key, p.epoch.id);
      if hit.Some? && hit.value.status == Succeeded then hit.value.envelope else None
  }

  /** A journal row that can be served to a stage: under its key, of the epoch, succeeded, with its envelope. */
  predicate CommittedUnder<I>(p: Pipeline<I>, key: Key, row: Row) {
    row.key == key && row.epoch.id == p.epoch.id && row.status == Succeeded && row.envelope.Some?
  }

  /** A row under the key and the epoch that cannot be served. */
  predicate Rivals<I>(p: Pipeline<I>, key: Key, row: Row) {
    row.key == key && row.epoch.id == p.epoch.id && !CommittedUnder(p, key, row)
  }

  /** Only a committed success is served; and one is, unless a row under the same key and epoch cannot be. */
  lemma OnlyCommittedIsServed<I>(p: Pipeline<I>, key: Key, journal: Option<Rows>)
    ensures CachedStage(p, key, journal).Some? ==>
      journal.Some? && exists id ::
        id in journal.value && CommittedUnder(p, key, journal.value[id]) && journal.value[id].envelope == CachedStage(p, key, journal)
    ensures CachedStage(p, key, journal).None? && journal.Some? ==>
      forall id :: id in journal.value && CommittedUnder(p, key, journal.value[id]) ==>
        exists other :: other in journal.value && Rivals(p, key, journal.value[other])
  {
    if journal.Some? {
      var found := Matching(journal.value, key, p.epoch.id);
      if found != {} {
        assert p.select(found) in found;
      } else {
        forall id | id in journal.value ensures !CommittedUnder(p, key, journal.value[id]) {
          assert id !in found;
        }
      }
    }
  }

  function StageRow<I>(p: Pipeline<I>, env: Envelope): Row {
    Row(env.nodeId, env.key, p.epoch, Succeeded, 1, 0, ZERO, Some(env))
  }

  function WithRow<I>(p: Pipeline<I>, journal: Option<Rows>, env: Envelope): Option<Rows> {
    if journal.None? then None else Some(journal.value[env.nodeId := StageRow(p, env)])
  }

  function Advanced(s: Progress, env: Envelope): Progress {
    s.(prev := Some(env.artifact), final := Some(env), completed := s.completed + 1)
  }

  /** One stage: served, or run and journaled, or failed. */
  function Stepped<I>(p: Pipeline<I>, index: nat, item: I, s: Progress, i: nat): Progress
    requires i < |p.stages|
  {
    if s.failed then s
    else
      var cached := CachedStage(p, StageKey(p, index, i), s.journal);
      if cached.Some? then Advanced(s, cached.value)
      else
        var env := Stage(p, index, item, s.prev, i);
        var ran := s.(executed := s.executed + [i]);
        if Classify(env).Some? then ran.(failed := true, final := Some(env))
        else Advanced(ran, env).(journal := WithRow(p, s.journal, env))
  }

  /** The item after its first `i` stages. */
  function After<I>(p: Pipeline<I>, index: nat, item: I, journal: Option<Rows>, i: nat): Progress
    requires i <= |p.stages|
  {
    if i == 0 then Progress(journal, None, None, 0, [], false)
    else Stepped(p, index, item, After(p, index, item, journal, i - 1), i - 1)
  }

  function ResultOf<I>(p: Pipeline<I>, item: I, s: Progress): ItemResult<I> {
    ItemResult(item, !s.failed, s.final, s.completed,
      if s.failed && s.final.Some?
      then Some(Blocker(p.show(item), "pipeline stage " + Decimal(s.completed) + " failed", ErrorName(s.final.value.errorClass)))
      else None)
  }

  /** The item run with no journal at all. */
  function Fresh<I>(p: Pipeline<I>, index: nat, item: I, i: nat): Progress
    requires i <= |p.stages|
  {
    After(p, index, item, None, i)
  }

  lemma {:induction false} CountsStages<I>(p: Pipeline<I>, index: nat, item: I, journal: Option<Rows>, i: nat)
    requires i <= |p.stages|
    ensures var s := After(p, index, item, journal, i);
            && s.completed <= i && (!s.failed <==> s.completed == i) && (s.failed ==> s.final.Some?)
            && (s.journal.Some? <==> journal.Some?)
    decreases i
  {
    hide CachedStage, Stage, Classify, StageKey;
    if i > 0 {
      CountsStages(p, index, item, journal, i - 1);
    }
  }

  lemma {:induction false} StaysFailed<I>(p: Pipeline<I>, index: nat, item: I, journal: Option<Rows>, i: nat, k: nat)
    requires i <= k <= |p.stages| && After(p, index, item, journal, i).failed
    ensures After(p, index, item, journal, k) == After(p, index, item, journal, i)
    decreases k
  {
    if i < k {
      StaysFailed(p, index, item, journal, i, k - 1);
    }
  }

  /** The journal, if there is one, is of the pipeline's epoch. */
  ghost predicate Serves<I>(p: Pipeline<I>, checkpoint: Checkpoint?) {
    checkpoint != null ==> checkpoint.epochId == p.epoch.id && checkpoint.select == p.select
  }

  function JournalOf(checkpoint: Checkpoint?): Option<Rows>
    reads checkpoint
  {
    if checkpoint == null then None else Some(checkpoint.rows)
  }

  method CacheLookup<I>(p: Pipeline<I>, checkpoint: Checkpoint?, key: Key) returns (env: Option<Envelope>)
    requires Serves(p, checkpoint)
    ensures env == CachedStage(p, key, JournalOf(checkpoint))
    ensures env.Some? ==> exists id ::
      id in JournalOf(checkpoint).value && CommittedUnder(p, key, JournalOf(checkpoint).value[id]) &&
      JournalOf(checkpoint).value[id].envelope == env
  {
    OnlyCommittedIsServed(p, key, JournalOf(checkpoint));
    env := None;
    if checkpoint != null {
      var hit := checkpoint.Lookup(key);
      if hit.Some? && hit.value.status == Succeeded {
        env := hit.value.envelope;
      }
    }
  }

  method JournalStage<I>(p: Pipeline<I>, checkpoint: Checkpoint?, env: Envelope)
    requires Serves(p, checkpoint) && env.nodeId != ""
    modifies checkpoint
    ensures JournalOf(checkpoint) == WithRow(p, old(JournalOf(checkpoint)), env)
  {
    if checkpoint != null {
      var entry := StageRow(p, env);
      assert Written(checkpoint.rows, [entry]) == Written(checkpoint.rows, [])[entry.nodeId := entry] by {
        assert [entry][..0] == [];
      }
      var ok := checkpoint.CommitBarrier([entry]);
    }
  }

  /** Runs one item through the stages, stopping at the first failure. */
  method RunItem<I>(p: Pipeline<I>, checkpoint: Checkpoint?, index: nat, item: I) returns (r: ItemResult<I>, ghost executed: seq<nat>)
    requires Serves(p, checkpoint)
    modifies checkpoint
    ensures var s := After(p, index, item, old(JournalOf(checkpoint)), |p.stages|);
            r == ResultOf(p, item, s) && executed == s.executed && JournalOf(checkpoint) == s.journal
    ensures Resumable(p, index, item, old(JournalOf(checkpoint))) ==>
      exists chain :: ItemTold(p, index, item, old(JournalOf(checkpoint)), JournalOf(checkpoint), r, executed, chain)
  {
    hide StageKey, StageId, Stage, CachedStage, WithRow, Classify, Decimal, JournalOf, Serves, ErrorName, After, Resumable,
      ItemTold;
    var prev: Option<Artifact> := None;
    var completed := 0;
    var final: Option<Envelope> := None;
    executed := [];
    ghost var was := JournalOf(checkpoint);
    ResumableIsTold(p, index, item, was);
    AfterNone(p, index, item, was);
    for i := 0 to |p.stages|
      invariant After(p, index, item, was, i) == Progress(JournalOf(checkpoint), prev, final, completed, executed, false)
      invariant completed == i
    {
      AfterNext(p, index, item, was, i);
      var key := StageKey(p, index, i);
      var cached := CacheLookup(p, checkpoint, key);
      if cached.Some? {
        final, prev, completed := cached, Some(cached.value.artifact), completed + 1;
      } else {
        var env := Stage(p, index, item, prev, i);
        executed := executed + [i];
        if Classify(env).Some? {
          r := ItemResult(item, false, Some(env), completed,
            Some(Blocker(p.show(item), "pipeline stage " + Decimal(i) + " failed", ErrorName(env.errorClass))));
          StaysFailed(p, index, item, was, i + 1, |p.stages|);
          return;
        }
        final, prev, completed := Some(env), Some(env.artifact), completed + 1;
        StageNamed(p, index, item, After(p, index, item, was, i).prev, i);
        JournalStage(p, checkpoint, env);
      }
    }
    r := ItemResult(item, true, final, completed, None);
  }

  /** Streams the items through the stages; a failing stage isolates only its item. */
  method RunPipeline<I>(p: Pipeline<I>, checkpoint: Checkpoint?, items: seq<I>) returns (results: seq<ItemResult<I>>)
    requires Serves(p, checkpoint)
    modifies checkpoint
    ensures (results, JournalOf(checkpoint)) == RunAll(p, items, old(JournalOf(checkpoint)), |items|)
    ensures |results| == |items|
    ensures (old(JournalOf(checkpoint)).Some? ==> CollisionFree(p.digest)) && SoundForAll(p, items, old(JournalOf(checkpoint))) ==>
      forall m :: 0 <= m < |items| ==> ItemDone(p, m, items[m], results[m])
  {
    hide After, ResultOf, SoundForAll, ItemDone, CollisionFree;
    PipelineIsTold(p, items, JournalOf(checkpoint));
    results := [];
    for k := 0 to |items|
      invariant (results, JournalOf(checkpoint)) == RunAll(p, items, old(JournalOf(checkpoint)), k)
    {
      var r, _ := RunItem(p, checkpoint, k, items[k]);
      results := results + [r];
    }
  }

  lemma AfterNone<I>(p: Pipeline<I>, index: nat, item: I, journal: Option<Rows>)
    ensures After(p, index, item, journal, 0) == Progress(journal, None, None, 0, [], false)
  {
  }

  lemma AfterNext<I>(p: Pipeline<I>, index: nat, item: I, journal: Option<Rows>, i: nat)
    requires i < |p.stages|
    ensures After(p, index, item, journal, i + 1) == Stepped(p, index, item, After(p, index, item, journal, i), i)
  {
  }

  lemma StageNamed<I>(p: Pipeline<I>, index: nat, item: I, prev: Option<Artifact>, i: nat)
    requires i < |p.stages|
    ensures Stage(p, index, item, prev, i).nodeId != ""
  {
  }

  /** The results of the first `k` items and the journal after them. */
  function RunAll<I>(p: Pipeline<I>, items: seq<I>, journal: Option<Rows>, k: nat): (seq<ItemResult<I>>, Option<Rows>)
    requires k <= |items|
  {
    if k == 0 then ([], journal)
    else
      var (results, before) := RunAll(p, items, journal, k - 1);
      var s := After(p, k - 1, items[k - 1], before, |p.stages|);
      (results + [ResultOf(p, items[k - 1], s)], s.journal)
  }

  // ---- resume ----

  /** The row is one of this epoch for the stage. */
  predicate RowFor<I>(p: Pipeline<I>, index: nat, j: nat, row: Row) {
    row.key == StageKey(p, index, j) && row.epoch.id == p.epoch.id
  }

  /** The row is what the stage journals in a run with no journal. */
  ghost predicate SoundRow<I>(p: Pipeline<I>, index: nat, item: I, j: nat, id: NodeId, row: Row)
    requires j < |p.stages|
  {
    var s := Fresh(p, index, item, j + 1);
    id == StageId(p, index, j) && row.status == Succeeded && !s.failed && s.final.Some? && row.envelope == s.final
  }

  /** The journal holds, for this item, only rows an earlier partial run of the same pipeline and epoch wrote. */
  ghost predicate Sound<I>(p: Pipeline<I>, index: nat, item: I, journal: Option<Rows>) {
    journal.Some? ==> forall id, j :: id in journal.value && 0 <= j < |p.stages| && RowFor(p, index, j, journal.value[id]) ==>
      SoundRow(p, index, item, j, id, journal.value[id])
  }

  predicate CommittedStage<I>(p: Pipeline<I>, index: nat, journal: Option<Rows>, j: nat) {
    journal.Some? && StageId(p, index, j) in journal.value && RowFor(p, index, j, journal.value[StageId(p, index, j)])
  }

  /** The stages below `k` with no committed row. */
  function Uncommitted<I>(p: Pipeline<I>, index: nat, journal: Option<Rows>, k: nat): seq<nat> {
    if k == 0 then []
    else Uncommitted(p, index, journal, k - 1) + if CommittedStage(p, index, journal, k - 1) then [] else [k - 1]
  }

  /** The stages an item comes to: all of them, or up to its first failure. */
  function Reached(s: Progress): nat {
    s.completed + if s.failed then 1 else 0
  }

  /** In a sound journal the cache read finds exactly the committed stage. */
  lemma SoundCache<I>(p: Pipeline<I>, index: nat, item: I, journal: Option<Rows>, j: nat)
    requires Sound(p, index, item, journal) && j < |p.stages|
    ensures var s := Fresh(p, index, item, j + 1);
            CachedStage(p, StageKey(p, index, j), journal) == if CommittedStage(p, index, journal, j) then s.final else None
    ensures var s := Fresh(p, index, item, j + 1);
            CommittedStage(p, index, journal, j) ==> !s.failed && s.final.Some?
  {
    hide After, StageKey, StageId;
    if journal.Some? {
      var found := Matching(journal.value, StageKey(p, index, j), p.epoch.id);
      forall id | id in found ensures SoundRow(p, index, item, j, id, journal.value[id]) {
        assert RowFor(p, index, j, journal.value[id]);
      }
      if CommittedStage(p, index, journal, j) {
        assert StageId(p, index, j) in found;
      }
    }
  }

  /** Journaling one stage of one item keeps the journal sound for that item and for every other. */
  lemma RowKeepsSound<I>(p: Pipeline<I>, index: nat, item: I, journal: Option<Rows>, index': nat, item': I, i: nat, env: Envelope)
    requires (journal.Some? ==> CollisionFree(p.digest)) && Sound(p, index, item, journal) && i < |p.stages|
    requires env.nodeId == StageId(p, index', i) && env.key == StageKey(p, index', i)
    requires index == index' ==> Fresh(p, index, item, i + 1).final == Some(env) && !Fresh(p, index, item, i + 1).failed
    ensures Sound(p, index, item, WithRow(p, journal, env))
  {
    hide After, StageKey, StageId;
    if journal.Some? {
      var rows := WithRow(p, journal, env).value;
      forall id, j | id in rows && 0 <= j < |p.stages| && RowFor(p, index, j, rows[id])
        ensures SoundRow(p, index, item, j, id, rows[id])
      {
        if id == env.nodeId {
          StageKeysDiffer(p, p, index, j, index', i);
        } else {
          assert rows[id] == journal.value[id];
        }
      }
    }
  }

  lemma RowCommits<I>(p: Pipeline<I>, index: nat, journal: Option<Rows>, i: nat, env: Envelope, j: nat)
    requires env.nodeId == StageId(p, index, i) && env.key == StageKey(p, index, i) && journal.Some?
    ensures CommittedStage(p, index, WithRow(p, journal, env), i)
    ensures j != i ==> CommittedStage(p, index, WithRow(p, journal, env), j) == CommittedStage(p, index, journal, j)
  {
    hide StageKey;
    StageIdsDiffer(p, index, i, index, j);
  }

  /** The item got as far as with no journal, ran exactly the stages it reached that had no committed row, and
      left a sound journal with every completed stage in it. */
  ghost predicate InStep<I>(p: Pipeline<I>, index: nat, item: I, journal: Option<Rows>, a: Progress, f: Progress) {
    && a.prev == f.prev && a.final == f.final && a.completed == f.completed && a.failed == f.failed
    && a.executed == Uncommitted(p, index, journal, Reached(f))
    && Sound(p, index, item, a.journal)
    && KeepsCommitted(p, index, journal, a.journal, f.completed)
  }

  /** An item started from a sound journal goes exactly where it goes with no journal. */
  lemma {:induction false} ItemResumes<I>(p: Pipeline<I>, index: nat, item: I, journal: Option<Rows>, i: nat)
    requires (journal.Some? ==> CollisionFree(p.digest)) && Sound(p, index, item, journal) && i <= |p.stages|
    ensures InStep(p, index, item, journal, After(p, index, item, journal, i), Fresh(p, index, item, i))
    decreases i
  {
    if i == 0 {
      NothingCommitted(p, index, journal);
    } else {
      hide InStep, Stepped, Sound;
      ItemResumes(p, index, item, journal, i - 1);
      var a, f := After(p, index, item, journal, i - 1), Fresh(p, index, item, i - 1);
      InStepFails(p, index, item, journal, a, f);
      if f.failed {
        StepOfFailed(p, index, item, a, i - 1);
        StepOfFailed(p, index, item, f, i - 1);
      } else {
        StageResumes(p, index, item, journal, a, i - 1);
      }
    }
  }

  lemma InStepFails<I>(p: Pipeline<I>, index: nat, item: I, journal: Option<Rows>, a: Progress, f: Progress)
    requires InStep(p, index, item, journal, a, f)
    ensures a.failed == f.failed
  {
  }

  lemma StepOfFailed<I>(p: Pipeline<I>, index: nat, item: I, s: Progress, i: nat)
    requires s.failed && i < |p.stages|
    ensures Stepped(p, index, item, s, i) == s
  {
  }

  /** The committed stages are the ones committed before and the ones completed since. */
  ghost predicate KeepsCommitted<I>(p: Pipeline<I>, index: nat, journal: Option<Rows>, after: Option<Rows>, completed: nat) {
    && (journal.Some? <==> after.Some?)
    && (journal.Some? ==> forall j :: 0 <= j < |p.stages| ==>
         (CommittedStage(p, index, after, j) <==> j < completed || CommittedStage(p, index, journal, j)))
  }

  lemma NothingCommitted<I>(p: Pipeline<I>, index: nat, journal: Option<Rows>)
    ensures KeepsCommitted(p, index, journal, journal, 0)
  {
  }

  lemma FreshStep<I>(p: Pipeline<I>, index: nat, item: I, i: nat)
    requires i < |p.stages| && !Fresh(p, index, item, i).failed
    ensures var f, next := Fresh(p, index, item, i), Fresh(p, index, item, i + 1);
            var env := Stage(p, index, item, f.prev, i);
            && f.completed == i && next.final == Some(env) && next.failed == Classify(env).Some?
            && (if next.failed then next.completed == i && next.prev == f.prev
                else next.completed == i + 1 && next.prev == Some(env.artifact))
            && env.nodeId == StageId(p, index, i) && env.key == StageKey(p, index, i)
  {
    hide StageKey, StageId, Classify;
    CountsStages(p, index, item, None, i);
  }

  lemma StageResumes<I>(p: Pipeline<I>, index: nat, item: I, journal: Option<Rows>, a: Progress, i: nat)
    requires (journal.Some? ==> CollisionFree(p.digest)) && i < |p.stages| && !Fresh(p, index, item, i).failed
    requires InStep(p, index, item, journal, a, Fresh(p, index, item, i))
    ensures InStep(p, index, item, journal, Stepped(p, index, item, a, i), Fresh(p, index, item, i + 1))
  {
    hide StageKey, StageId, Sound, CachedStage, CommittedStage, Stage, WithRow, Classify, After, KeepsCommitted;
    FreshStep(p, index, item, i);
    SameKind(p, index, journal, a.journal, i);
    SoundCache(p, index, item, a.journal, i);
    SameAt(p, index, journal, a.journal, i);
    var env := Stage(p, index, item, a.prev, i);
    var before := Uncommitted(p, index, journal, i);
    assert Uncommitted(p, index, journal, i + 1) == if CommittedStage(p, index, journal, i) then before else before + [i];
    if CommittedStage(p, index, journal, i) {
      CommitsOneMore(p, index, journal, a.journal, a.journal, i);
    } else if Classify(env).None? {
      RowKeepsSound(p, index, item, a.journal, index, item, i, env);
      WritesOneMore(p, index, journal, a.journal, i, env);
    }
  }

  lemma SameKind<I>(p: Pipeline<I>, index: nat, journal: Option<Rows>, now: Option<Rows>, i: nat)
    requires KeepsCommitted(p, index, journal, now, i)
    ensures now.Some? <==> journal.Some?
  {
  }

  lemma SameAt<I>(p: Pipeline<I>, index: nat, journal: Option<Rows>, now: Option<Rows>, i: nat)
    requires i < |p.stages| && KeepsCommitted(p, index, journal, now, i)
    ensures CommittedStage(p, index, now, i) == CommittedStage(p, index, journal, i)
  {
    hide StageKey, StageId;
  }

  lemma CommitsOneMore<I>(p: Pipeline<I>, index: nat, journal: Option<Rows>, before: Option<Rows>, after: Option<Rows>, i: nat)
    requires i < |p.stages| && KeepsCommitted(p, index, journal, before, i)
    requires before.Some? <==> after.Some?
    requires before.Some? ==> CommittedStage(p, index, after, i)
    requires forall j :: 0 <= j < |p.stages| && j != i ==> CommittedStage(p, index, after, j) == CommittedStage(p, index, before, j)
    ensures KeepsCommitted(p, index, journal, after, i + 1)
  {
    hide CommittedStage;
  }

  lemma WritesOneMore<I>(p: Pipeline<I>, index: nat, journal: Option<Rows>, now: Option<Rows>, i: nat, env: Envelope)
    requires i < |p.stages| && KeepsCommitted(p, index, journal, now, i)
    requires env.nodeId == StageId(p, index, i) && env.key == StageKey(p, index, i)
    ensures KeepsCommitted(p, index, journal, WithRow(p, now, env), i + 1)
  {
    hide StageKey, StageId, CommittedStage;
    if now.Some? {
      var after := WithRow(p, now, env);
      forall j | 0 <= j < |p.stages| && j != i
        ensures CommittedStage(p, index, after, j) == CommittedStage(p, index, now, j)
      {
        RowCommits(p, index, now, i, env, j);
      }
      RowCommits(p, index, now, i, env, i);
      CommitsOneMore(p, index, journal, now, after, i);
    }
  }

  /** A finished item never runs a stage again. */
  lemma FinishedItemStaysFinished<I>(p: Pipeline<I>, index: nat, item: I, journal: Option<Rows>)
    requires CollisionFree(p.digest) && Sound(p, index, item, journal) && journal.Some?
    ensures var first := After(p, index, item, journal, |p.stages|);
            var again := After(p, index, item, first.journal, |p.stages|);
            && ResultOf(p, item, again) == ResultOf(p, item, first)
            && again.executed == if first.failed then [first.completed] else []
  {
    hide StageKey, StageId, Sound, CommittedStage, After, Fresh;
    var n := |p.stages|;
    var f := Fresh(p, index, item, n);
    var first := After(p, index, item, journal, n);
    ItemResumes(p, index, item, journal, n);
    ItemResumes(p, index, item, first.journal, n);
    CountsFresh(p, index, item, n);
    AllCommitted(p, index, first.journal, f.completed);
    if f.failed {
      FailedNotCommitted(p, index, item, first.journal);
    }
  }

  lemma CountsFresh<I>(p: Pipeline<I>, index: nat, item: I, i: nat)
    requires i <= |p.stages|
    ensures var f := Fresh(p, index, item, i); f.completed <= i && (f.failed <==> f.completed < i)
  {
    hide After;
    CountsStages(p, index, item, None, i);
  }

  lemma {:induction false} AllCommitted<I>(p: Pipeline<I>, index: nat, journal: Option<Rows>, k: nat)
    requires forall j :: 0 <= j < k ==> CommittedStage(p, index, journal, j)
    ensures Uncommitted(p, index, journal, k) == []
  {
    hide CommittedStage;
    if k > 0 {
      AllCommitted(p, index, journal, k - 1);
    }
  }

  /** A sound journal holds no row for the stage an item fails at. */
  lemma FailedNotCommitted<I>(p: Pipeline<I>, index: nat, item: I, journal: Option<Rows>)
    requires Sound(p, index, item, journal) && Fresh(p, index, item, |p.stages|).failed
    ensures var f := Fresh(p, index, item, |p.stages|);
            f.completed < |p.stages| && !CommittedStage(p, index, journal, f.completed)
  {
    hide StageKey, StageId, Sound, CommittedStage;
    var n := |p.stages|;
    CountsFresh(p, index, item, n);
    var c := Fresh(p, index, item, n).completed;
    FailsAfter(p, index, item, n);
    SoundCache(p, index, item, journal, c);
  }

  /** An item that fails, fails at the first stage it does not complete. */
  lemma {:induction false} FailsAfter<I>(p: Pipeline<I>, index: nat, item: I, k: nat)
    requires k <= |p.stages| && Fresh(p, index, item, k).failed
    ensures var c := Fresh(p, index, item, k).completed; c < k && Fresh(p, index, item, c + 1).failed
    decreases k
  {
    hide StageKey, StageId, CachedStage, Stage, Classify;
    CountsStages(p, index, item, None, k);
    var before := Fresh(p, index, item, k - 1);
    if before.failed {
      FailsAfter(p, index, item, k - 1);
    } else {
      CountsStages(p, index, item, None, k - 1);
    }
  }

  // ---- many items ----

  /** Running one item keeps the journal sound for every other item. */
  lemma {:induction false} ItemKeepsOthers<I>(p: Pipeline<I>, index: nat, item: I, other: nat, otherItem: I, journal: Option<Rows>, i: nat)
    requires (journal.Some? ==> CollisionFree(p.digest)) && Sound(p, other, otherItem, journal) && index != other && i <= |p.stages|
    ensures Sound(p, other, otherItem, After(p, index, item, journal, i).journal)
    decreases i
  {
    hide Sound, CollisionFree, After, Stepped;
    AfterNone(p, index, item, journal);
    if i > 0 {
      ItemKeepsOthers(p, index, item, other, otherItem, journal, i - 1);
      AfterNext(p, index, item, journal, i - 1);
      CountsStages(p, index, item, journal, i - 1);
      StepKeepsOthers(p, index, item, other, otherItem, After(p, index, item, journal, i - 1), i - 1);
    }
  }

  lemma StepKeepsOthers<I>(p: Pipeline<I>, index: nat, item: I, other: nat, otherItem: I, a: Progress, i: nat)
    requires (a.journal.Some? ==> CollisionFree(p.digest)) && Sound(p, other, otherItem, a.journal) && index != other && i < |p.stages|
    ensures Sound(p, other, otherItem, Stepped(p, index, item, a, i).journal)
  {
    hide StageKey, StageId, Sound, CachedStage, WithRow, Classify, CollisionFree, Stage;
    NameOfStage(p, index, item, a.prev, i);
    RowKeepsSound(p, other, otherItem, a.journal, index, item, i, Stage(p, index, item, a.prev, i));
  }

  lemma NameOfStage<I>(p: Pipeline<I>, index: nat, item: I, prev: Option<Artifact>, i: nat)
    requires i < |p.stages|
    ensures Stage(p, index, item, prev, i).nodeId == StageId(p, index, i) && Stage(p, index, item, prev, i).key == StageKey(p, index, i)
  {
    hide StageId, StageKey;
  }

  ghost predicate SoundForAll<I>(p: Pipeline<I>, items: seq<I>, journal: Option<Rows>) {
    forall m :: 0 <= m < |items| ==> Sound(p, m, items[m], journal)
  }

  /** Wherever in an item a run is cut off, the journal it leaves is sound for all items. */
  lemma CutOffAnywhere<I>(p: Pipeline<I>, items: seq<I>, journal: Option<Rows>, k: nat, i: nat)
    requires (journal.Some? ==> CollisionFree(p.digest)) && SoundForAll(p, items, journal) && k < |items| && i <= |p.stages|
    ensures SoundForAll(p, items, After(p, k, items[k], journal, i).journal)
  {
    hide Sound, After;
    forall m | 0 <= m < |items| ensures Sound(p, m, items[m], After(p, k, items[k], journal, i).journal) {
      if m == k {
        ItemResumes(p, k, items[k], journal, i);
      } else {
        ItemKeepsOthers(p, k, items[k], m, items[m], journal, i);
      }
    }
  }

  /** From any sound journal every item has the result it has alone and with no journal: failures stay with
      their item, and a resumed pipeline cannot be told from an uninterrupted one. */
  lemma {:induction false} PipelineResumes<I>(p: Pipeline<I>, items: seq<I>, journal: Option<Rows>, k: nat)
    requires (journal.Some? ==> CollisionFree(p.digest)) && SoundForAll(p, items, journal) && k <= |items|
    ensures var (results, after) := RunAll(p, items, journal, k);
            && SoundForAll(p, items, after) && |results| == k && (after.Some? <==> journal.Some?)
            && forall m :: 0 <= m < k ==> results[m] == ResultOf(p, items[m], Fresh(p, m, items[m], |p.stages|))
    decreases k
  {
    hide SoundForAll, After, Fresh;
    if k > 0 {
      PipelineResumes(p, items, journal, k - 1);
      var before := RunAll(p, items, journal, k - 1).1;
      CutOffAnywhere(p, items, before, k - 1, |p.stages|);
      CountsStages(p, k - 1, items[k - 1], before, |p.stages|);
      SoundFor(p, items, before, k - 1);
      ItemResumes(p, k - 1, items[k - 1], before, |p.stages|);
    }
  }

  lemma SoundFor<I>(p: Pipeline<I>, items: seq<I>, journal: Option<Rows>, m: nat)
    requires SoundForAll(p, items, journal) && m < |items|
    ensures Sound(p, m, items[m], journal)
  {
  }

  lemma EmptyIsSound<I>(p: Pipeline<I>, items: seq<I>)
    ensures SoundForAll(p, items, None) && SoundForAll(p, items, Some(map[]))
  {
  }

  // ---- an item read off its envelopes ----

  /** The name and the key of a stage, spelt out. */
  function NameOf<I>(p: Pipeline<I>, index: nat, j: nat): NodeId {
    p.id + (":" + Decimal(index) + ":" + Decimal(j))
  }

  function KeyFor<I>(p: Pipeline<I>, index: nat, j: nat): Key {
    p.digest(Serialize(Arr([Str(p.id), Int(index), Int(j), Int(|p.stages|), Str(p.epoch.id)])))
  }

  /** The envelope is what its stage made of the item and of the artifact before it, under the stage's name and key. */
  ghost predicate LinkAt<I>(p: Pipeline<I>, index: nat, item: I, chain: seq<Envelope>, j: nat)
    requires j < |chain| <= |p.stages|
  {
    chain[j] == p.stages[j](item, if j == 0 then None else Some(chain[j - 1].artifact)).(
                  nodeId := NameOf(p, index, j), key := KeyFor(p, index, j))
  }

  /** Every envelope is a stage's; all but the last succeeded. */
  ghost predicate Chained<I>(p: Pipeline<I>, index: nat, item: I, chain: seq<Envelope>) {
    && |chain| <= |p.stages|
    && (forall j :: 0 <= j < |chain| ==> LinkAt(p, index, item, chain, j))
    && (forall j :: 0 <= j < |chain| - 1 ==> chain[j].status == EnvSucceeded)
  }

  /** The stages ended, or one failed; the result is the last envelope, with the number of stages that succeeded. */
  ghost predicate ChainResult<I>(p: Pipeline<I>, item: I, chain: seq<Envelope>, r: ItemResult<I>) {
    var n := |chain|;
    if n > 0 && chain[n - 1].status != EnvSucceeded
    then r == ItemResult(item, false, Some(chain[n - 1]), n - 1,
           Some(Blocker(p.show(item), "pipeline stage " + Decimal(n - 1) + " failed", ErrorName(chain[n - 1].errorClass))))
    else n == |p.stages| && r == ItemResult(item, true, if n == 0 then None else Some(chain[n - 1]), n, None)
  }

  /** A row of this epoch for the stage was there before. */
  predicate HadRow<I>(p: Pipeline<I>, index: nat, journal: Option<Rows>, j: nat) {
    && journal.Some? && NameOf(p, index, j) in journal.value
    && journal.value[NameOf(p, index, j)].key == KeyFor(p, index, j) && journal.value[NameOf(p, index, j)].epoch.id == p.epoch.id
  }

  ghost predicate Ascending(s: seq<nat>) {
    forall a, b :: 0 <= a < b < |s| ==> s[a] < s[b]
  }

  /** The stages that ran are, in order, those of the chain without a row. */
  ghost predicate RanTheRest<I>(p: Pipeline<I>, index: nat, journal: Option<Rows>, chain: seq<Envelope>, executed: seq<nat>) {
    && (forall j: nat :: j in executed <==> j < |chain| && !HadRow(p, index, journal, j))
    && Ascending(executed)
  }

  /** The stage's row is written: it ran and succeeded. */
  predicate Writes(chain: seq<Envelope>, executed: seq<nat>, j: nat) {
    j in executed && j < |chain| && chain[j].status == EnvSucceeded
  }

  /** Exactly the stages that ran and succeeded have a new row, each with its envelope; no other row changed. */
  ghost predicate Journals<I>(p: Pipeline<I>, index: nat, chain: seq<Envelope>, executed: seq<nat>, before: Option<Rows>,
                              after: Option<Rows>)
  {
    && (before.None? <==> after.None?)
    && (before.Some? ==>
         && (forall j: nat :: Writes(chain, executed, j) ==>
              NameOf(p, index, j) in after.value &&
              after.value[NameOf(p, index, j)] ==
                Row(NameOf(p, index, j), KeyFor(p, index, j), p.epoch, Succeeded, 1, 0, ZERO, Some(chain[j])))
         && (forall id :: (forall j: nat :: Writes(chain, executed, j) ==> id != NameOf(p, index, j)) ==>
              (id in after.value <==> id in before.value) && (id in before.value ==> after.value[id] == before.value[id])))
  }

  /** Everything a run of one item promises. */
  ghost predicate ItemTold<I>(p: Pipeline<I>, index: nat, item: I, before: Option<Rows>, after: Option<Rows>, r: ItemResult<I>,
                              executed: seq<nat>, chain: seq<Envelope>) {
    && Chained(p, index, item, chain) && ChainResult(p, item, chain, r)
    && RanTheRest(p, index, before, chain, executed)
    && Journals(p, index, chain, executed, before, after)
  }

  /** How far the chain of the first `i` stages goes, with no journal. */
  ghost predicate ChainedTo<I>(p: Pipeline<I>, index: nat, item: I, i: nat, chain: seq<Envelope>)
    requires i <= |p.stages|
  {
    var f := Fresh(p, index, item, i);
    && Chained(p, index, item, chain) && f.completed <= |chain| <= i
    && (forall j :: 0 <= j < f.completed ==> chain[j].status == EnvSucceeded)
    && |chain| == f.completed + (if f.failed then 1 else 0) && (!f.failed ==> |chain| == i)
    && (f.failed ==> chain[f.completed].status != EnvSucceeded)
    && f.final == (if chain == [] then None else Some(chain[|chain| - 1]))
    && f.prev == (if f.completed == 0 then None else Some(chain[f.completed - 1].artifact))
  }

  lemma StageIs<I>(p: Pipeline<I>, index: nat, item: I, prev: Option<Artifact>, i: nat)
    requires i < |p.stages|
    ensures Stage(p, index, item, prev, i) == p.stages[i](item, prev).(nodeId := NameOf(p, index, i), key := KeyFor(p, index, i))
    ensures StageId(p, index, i) == NameOf(p, index, i) && StageKey(p, index, i) == KeyFor(p, index, i)
    ensures Classify(Stage(p, index, item, prev, i)).None? <==> Stage(p, index, item, prev, i).status == EnvSucceeded
  {
    hide Classify, Decimal, Serialize;
    DispatchTraces.ClassifyReads(Stage(p, index, item, prev, i));
  }

  lemma ChainGrows<I>(p: Pipeline<I>, index: nat, item: I, i: nat, chain: seq<Envelope>)
    requires i < |p.stages| && ChainedTo(p, index, item, i, chain) && !Fresh(p, index, item, i).failed
    ensures ChainedTo(p, index, item, i + 1, chain + [Stage(p, index, item, Fresh(p, index, item, i).prev, i)])
  {
    hide Fresh, NameOf, KeyFor, StageKey, StageId, Stage, Classify, Decimal;
    FreshStep(p, index, item, i);
    var prev := Fresh(p, index, item, i).prev;
    StageIs(p, index, item, prev, i);
    var next := chain + [Stage(p, index, item, prev, i)];
    assert next[|chain|] == Stage(p, index, item, prev, i) && |chain| == i;
    forall j | 0 <= j < |next| ensures LinkAt(p, index, item, next, j) {
      if j < |chain| {
        assert LinkAt(p, index, item, chain, j);
        assert next[j] == chain[j] && (j > 0 ==> next[j - 1] == chain[j - 1]);
      } else {
        assert j > 0 ==> next[j - 1] == chain[j - 1];
      }
    }
    forall j | 0 <= j < |next| - 1 ensures next[j].status == EnvSucceeded {
      assert next[j] == chain[j];
    }
  }

  /** The envelopes of the first `i` stages. */
  ghost function ChainOf<I>(p: Pipeline<I>, index: nat, item: I, i: nat): seq<Envelope>
    requires i <= |p.stages|
  {
    if i == 0 then []
    else
      var f := Fresh(p, index, item, i - 1);
      ChainOf(p, index, item, i - 1) + if f.failed then [] else [Stage(p, index, item, f.prev, i - 1)]
  }

  lemma {:induction false} ChainOfIsChained<I>(p: Pipeline<I>, index: nat, item: I, i: nat)
    requires i <= |p.stages|
    ensures ChainedTo(p, index, item, i, ChainOf(p, index, item, i))
    decreases i
  {
    hide After, NameOf, KeyFor, StageKey, StageId, Stage, Classify, Decimal, Stepped;
    if i == 0 {
      AfterNone(p, index, item, None);
    } else {
      ChainOfIsChained(p, index, item, i - 1);
      var f := Fresh(p, index, item, i - 1);
      if f.failed {
        AfterNext(p, index, item, None, i - 1);
        StepOfFailed(p, index, item, f, i - 1);
        assert ChainOf(p, index, item, i) == ChainOf(p, index, item, i - 1);
      } else {
        ChainGrows(p, index, item, i - 1, ChainOf(p, index, item, i - 1));
      }
    }
  }

  lemma {:induction false} ChainOfGrows<I>(p: Pipeline<I>, index: nat, item: I, i: nat, k: nat)
    requires i <= k <= |p.stages|
    ensures ChainOf(p, index, item, i) <= ChainOf(p, index, item, k)
    decreases k
  {
    hide Fresh, Stage;
    if i < k {
      ChainOfGrows(p, index, item, i, k - 1);
    }
  }

  /** A stage the item comes to is a link of the whole chain. */
  lemma ReachedIsLinked<I>(p: Pipeline<I>, index: nat, item: I, i: nat)
    requires i < |p.stages| && !Fresh(p, index, item, i).failed
    ensures var chain := ChainOf(p, index, item, |p.stages|);
            i < |chain| && chain[i] == Stage(p, index, item, Fresh(p, index, item, i).prev, i)
  {
    hide Fresh, Stage;
    ChainOfIsChained(p, index, item, i);
    assert |ChainOf(p, index, item, i)| == i;
    ChainOfGrows(p, index, item, i + 1, |p.stages|);
    assert ChainOf(p, index, item, i + 1)[i] == Stage(p, index, item, Fresh(p, index, item, i).prev, i);
  }

  lemma {:induction false} UncommittedIs<I>(p: Pipeline<I>, index: nat, journal: Option<Rows>, k: nat)
    ensures forall j: nat :: j in Uncommitted(p, index, journal, k) <==> j < k && !HadRow(p, index, journal, j)
    ensures Ascending(Uncommitted(p, index, journal, k))
  {
    hide CommittedStage, HadRow;
    if k > 0 {
      UncommittedIs(p, index, journal, k - 1);
      HadRowIs(p, index, journal, k - 1);
      var u := Uncommitted(p, index, journal, k - 1);
      forall a | 0 <= a < |u| ensures u[a] < k - 1 {
        var e: nat := u[a];
        assert e in u;
      }
      assert Ascending(u + [k - 1]);
    }
  }

  lemma HadRowIs<I>(p: Pipeline<I>, index: nat, journal: Option<Rows>, j: nat)
    ensures HadRow(p, index, journal, j) <==> CommittedStage(p, index, journal, j)
    ensures NameOf(p, index, j) == StageId(p, index, j) && KeyFor(p, index, j) == StageKey(p, index, j)
  {
    hide Decimal, Serialize;
  }

  lemma OneMoreWrite(chain: seq<Envelope>, executed: seq<nat>, i: nat)
    requires i < |chain| && i !in executed
    ensures forall j: nat ::
      Writes(chain, executed + [i], j) <==> Writes(chain, executed, j) || (j == i && chain[i].status == EnvSucceeded)
  {
  }

  /** A stage that failed adds no row. */
  lemma NoMoreRow<I>(p: Pipeline<I>, index: nat, chain: seq<Envelope>, executed: seq<nat>, before: Option<Rows>, now: Option<Rows>, i: nat)
    requires Journals(p, index, chain, executed, before, now) && i < |chain| && i !in executed && chain[i].status != EnvSucceeded
    ensures Journals(p, index, chain, executed + [i], before, now)
  {
    hide KeyFor, NameOf, Writes;
    OneMoreWrite(chain, executed, i);
  }

  lemma NamesDiffer<I>(p: Pipeline<I>, index: nat, i: nat, j: nat)
    ensures NameOf(p, index, i) == NameOf(p, index, j) <==> i == j
  {
    hide Decimal;
    HadRowIs(p, index, None, i);
    HadRowIs(p, index, None, j);
    StageIdsDiffer(p, index, i, index, j);
  }

  /** A stage that ran and succeeded adds its row. */
  lemma OneMoreRow<I>(p: Pipeline<I>, index: nat, chain: seq<Envelope>, executed: seq<nat>, before: Option<Rows>, now: Option<Rows>, i: nat)
    requires Journals(p, index, chain, executed, before, now) && i < |chain| && i !in executed && chain[i].status == EnvSucceeded
    requires chain[i].nodeId == NameOf(p, index, i) && chain[i].key == KeyFor(p, index, i)
    ensures Journals(p, index, chain, executed + [i], before, WithRow(p, now, chain[i]))
  {
    hide KeyFor, NameOf;
    OneMoreWrite(chain, executed, i);
    if before.Some? {
      var after := WithRow(p, now, chain[i]).value;
      forall j: nat | Writes(chain, executed + [i], j)
        ensures NameOf(p, index, j) in after && after[NameOf(p, index, j)] ==
          Row(NameOf(p, index, j), KeyFor(p, index, j), p.epoch, Succeeded, 1, 0, ZERO, Some(chain[j]))
      {
        NamesDiffer(p, index, i, j);
      }
      forall id | forall j: nat :: Writes(chain, executed + [i], j) ==> id != NameOf(p, index, j)
        ensures (id in after <==> id in before.value) && (id in before.value ==> after[id] == before.value[id])
      {
        assert Writes(chain, executed + [i], i);
        assert forall j: nat :: Writes(chain, executed, j) ==> Writes(chain, executed + [i], j);
      }
    }
  }

  /** The rows an item has written after its first `i` stages. */
  lemma {:induction false} ItemWrites<I>(p: Pipeline<I>, index: nat, item: I, journal: Option<Rows>, i: nat)
    requires (journal.Some? ==> CollisionFree(p.digest)) && Sound(p, index, item, journal) && i <= |p.stages|
    ensures var a := After(p, index, item, journal, i);
            Journals(p, index, ChainOf(p, index, item, |p.stages|), a.executed, journal, a.journal)
    decreases i
  {
    hide InStep, Stepped, Sound, Journals, After, Uncommitted, ChainOf, Fresh;
    AfterNone(p, index, item, journal);
    if i == 0 {
      NothingWritten(p, index, ChainOf(p, index, item, |p.stages|), journal);
    } else {
      ItemWrites(p, index, item, journal, i - 1);
      ItemResumes(p, index, item, journal, i - 1);
      AfterNext(p, index, item, journal, i - 1);
      var a, f := After(p, index, item, journal, i - 1), Fresh(p, index, item, i - 1);
      InStepFails(p, index, item, journal, a, f);
      if a.failed {
        StepOfFailed(p, index, item, a, i - 1);
      } else {
        StepWrites(p, index, item, journal, a, i - 1);
      }
    }
  }

  lemma NothingWritten<I>(p: Pipeline<I>, index: nat, chain: seq<Envelope>, journal: Option<Rows>)
    ensures Journals(p, index, chain, [], journal, journal)
  {
  }

  lemma StepWrites<I>(p: Pipeline<I>, index: nat, item: I, journal: Option<Rows>, a: Progress, i: nat)
    requires i < |p.stages| && !Fresh(p, index, item, i).failed && InStep(p, index, item, journal, a, Fresh(p, index, item, i))
    requires Journals(p, index, ChainOf(p, index, item, |p.stages|), a.executed, journal, a.journal)
    ensures var b := Stepped(p, index, item, a, i);
            Journals(p, index, ChainOf(p, index, item, |p.stages|), b.executed, journal, b.journal)
  {
    hide Sound, CachedStage, Stage, WithRow, Classify, After, KeepsCommitted, Journals, StageKey, StageId, ChainOf, NameOf,
      KeyFor;
    var env, chain := Stage(p, index, item, a.prev, i), ChainOf(p, index, item, |p.stages|);
    ReachedIsLinked(p, index, item, i);
    StageIs(p, index, item, a.prev, i);
    FreshStep(p, index, item, i);
    UncommittedIs(p, index, journal, i);
    if CachedStage(p, StageKey(p, index, i), a.journal).None? {
      if Classify(env).Some? {
        NoMoreRow(p, index, chain, a.executed, journal, a.journal, i);
      } else {
        OneMoreRow(p, index, chain, a.executed, journal, a.journal, i);
      }
    }
  }

  /** WHAT A RUN OF ONE ITEM DID. With no journal, or a sound one, there is a chain of envelopes: each is what its stage
      made of the item and of the previous one's artifact, all before the last succeeded, and the result is the last.
      The stages without a row ran, in order, and those that succeeded are journaled with their envelope; nothing else
      in the journal changed. */
  lemma ItemIsTold<I>(p: Pipeline<I>, index: nat, item: I, journal: Option<Rows>)
    requires (journal.Some? ==> CollisionFree(p.digest)) && Sound(p, index, item, journal)
    ensures var a := After(p, index, item, journal, |p.stages|);
            ItemTold(p, index, item, journal, a.journal, ResultOf(p, item, a), a.executed, ChainOf(p, index, item, |p.stages|))
  {
    hide Sound, After, Journals, Decimal, CommittedStage, KeepsCommitted, LinkAt, HadRow, Chained, ChainOf, ErrorName;
    var n := |p.stages|;
    ItemResumes(p, index, item, journal, n);
    ItemWrites(p, index, item, journal, n);
    ChainOfIsChained(p, index, item, n);
    CountsFresh(p, index, item, n);
    UncommittedIs(p, index, journal, Reached(Fresh(p, index, item, n)));
    var a, chain := After(p, index, item, journal, n), ChainOf(p, index, item, n);
    assert Chained(p, index, item, chain);
    assert RanTheRest(p, index, journal, chain, a.executed);
    assert ChainResult(p, item, chain, ResultOf(p, item, a));
  }

  /** No journal, or a sound one read by keys that do not collide. */
  ghost predicate Resumable<I>(p: Pipeline<I>, index: nat, item: I, journal: Option<Rows>) {
    (journal.Some? ==> CollisionFree(p.digest)) && Sound(p, index, item, journal)
  }

  lemma ResumableIsTold<I>(p: Pipeline<I>, index: nat, item: I, journal: Option<Rows>)
    ensures var a := After(p, index, item, journal, |p.stages|);
            Resumable(p, index, item, journal) ==>
              exists chain :: ItemTold(p, index, item, journal, a.journal, ResultOf(p, item, a), a.executed, chain)
  {
    hide Sound, After, ItemTold, ResultOf, ChainOf;
    if Resumable(p, index, item, journal) {
      ItemIsTold(p, index, item, journal);
    }
  }

  /** The item's result is that of a chain of envelopes. */
  ghost predicate ItemDone<I>(p: Pipeline<I>, index: nat, item: I, r: ItemResult<I>) {
    exists chain :: Chained(p, index, item, chain) && ChainResult(p, item, chain, r)
  }

  /** Every item of a pipeline is done by a chain of its own, whatever became of the others. */
  lemma PipelineIsTold<I>(p: Pipeline<I>, items: seq<I>, journal: Option<Rows>)
    ensures var results := RunAll(p, items, journal, |items|).0;
            && |results| == |items|
            && ((journal.Some? ==> CollisionFree(p.digest)) && SoundForAll(p, items, journal) ==>
                 forall m :: 0 <= m < |items| ==> ItemDone(p, m, items[m], results[m]))
  {
    hide SoundForAll, RunAll, ResultOf, ItemDone, CollisionFree, ItemTold;
    RunAllCounts(p, items, journal, |items|);
    if (journal.Some? ==> CollisionFree(p.digest)) && SoundForAll(p, items, journal) {
      PipelineResumes(p, items, journal, |items|);
      forall m | 0 <= m < |items| ensures ItemDone(p, m, items[m], RunAll(p, items, journal, |items|).0[m]) {
        FreshIsDone(p, m, items[m]);
      }
    }
  }

  lemma {:induction false} RunAllCounts<I>(p: Pipeline<I>, items: seq<I>, journal: Option<Rows>, k: nat)
    requires k <= |items|
    ensures |RunAll(p, items, journal, k).0| == k
  {
    hide After, ResultOf;
    if k > 0 {
      RunAllCounts(p, items, journal, k - 1);
    }
  }

  lemma FreshIsDone<I>(p: Pipeline<I>, index: nat, item: I)
    ensures ItemDone(p, index, item, ResultOf(p, item, Fresh(p, index, item, |p.stages|)))
  {
    hide After, Journals, RanTheRest, Chained, ChainResult, ChainOf, ResultOf;
    ItemIsTold(p, index, item, None);
  }
}
