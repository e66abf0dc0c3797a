/** The idempotency key of a node: a digest of the canonical form of the fields that are hashed. The key is a
    complete fingerprint of those fields and forgets all others, the node's id and role among them. */
module Keys {
  import opened AgyTypes
  import opened Canonical
  import Sorting

  datatype CallCaps = CallCaps(maxOutputTokens: int, maxThinkingTokens: int, maxToolCalls: int)

  datatype RetryPolicy = RetryPolicy(maxSchemaRetries: int, retryable: seq<string>)

  datatype Reducer = Reducer(kind: string, customId: Option<string>)

  datatype MapSpec = MapSpec(
    collectionInput: string,
    elementArtifact: string,
    maxFanout: int,
    childTemplate: string,
    weights: Option<seq<int>>)

  /** The schema is an object: the fields of a dictionary. */
  datatype ToolEntry = ToolEntry(schema: seq<(string, Json)>, impl: string)

  /** A node's whole contract. */
  datatype Contract = Contract(
    id: NodeId,
    role: string,
    objective: string,
    kind: string,
    promptTemplate: string,
    fanOut: Option<MapSpec>,
    inputs: seq<string>,
    dependencies: seq<NodeId>,
    outputs: seq<string>,
    reducer: Option<Reducer>,
    outputSchema: Json,
    toolAllowlist: seq<string>,
    requiredCapabilities: seq<string>,
    transport: string,
    modelTier: string,
    boundaries: string,
    command: Option<seq<string>>,
    revision: int,
    maxTurns: int,
    caps: CallCaps,
    retry: RetryPolicy,
    timeout: int)

  /** What a key is computed from: the contract, the resolved inputs, the tool registry. */
  datatype Keyed = Keyed(spec: Contract, resolved: map<string, Json>, registry: map<string, ToolEntry>)

  /** Every declared input is resolved and every allowed tool is registered. */
  predicate Complete(k: Keyed) {
    && (forall i :: i in k.spec.inputs ==> i in k.resolved)
    && (forall t :: t in k.spec.toolAllowlist ==> t in k.registry)
  }

  ghost predicate Proper(k: Keyed) {
    && WellKeyed(k.spec.outputSchema)
    && (forall i :: i in k.resolved ==> WellKeyed(k.resolved[i]))
    && (forall t :: t in k.registry ==> WellKeyed(Obj(k.registry[t].schema)))
  }

  // ---- optional fields of an object ----

  /** The object with the first `n` keys, absent values left out. */
  function FieldsUpTo(keys: seq<string>, values: seq<Option<Json>>, n: nat): seq<(string, Json)>
    requires |keys| == |values| && n <= |keys|
  {
    if n == 0 then []
    else if values[n - 1].None? then FieldsUpTo(keys, values, n - 1)
    else FieldsUpTo(keys, values, n - 1) + [(keys[n - 1], values[n - 1].value)]
  }

  function Fields(keys: seq<string>, values: seq<Option<Json>>): seq<(string, Json)>
    requires |keys| == |values|
  {
    FieldsUpTo(keys, values, |keys|)
  }

  ghost predicate Binds(keys: seq<string>, values: seq<Option<Json>>, n: nat, f: (string, Json))
    requires |keys| == |values| && n <= |keys|
  {
    exists i :: 0 <= i < n && values[i].Some? && f == (keys[i], values[i].value)
  }

  lemma {:induction false} FieldsBind(keys: seq<string>, values: seq<Option<Json>>, n: nat)
    requires |keys| == |values| && n <= |keys|
    ensures forall f :: f in FieldsUpTo(keys, values, n) <==> Binds(keys, values, n, f)
  {
    if n > 0 {
      FieldsBind(keys, values, n - 1);
      forall f ensures Binds(keys, values, n, f) <==>
        Binds(keys, values, n - 1, f) || (values[n - 1].Some? && f == (keys[n - 1], values[n - 1].value))
      {
      }
    }
  }

  lemma {:induction false} FieldsDistinctKeys(keys: seq<string>, values: seq<Option<Json>>, n: nat)
    requires |keys| == |values| && n <= |keys| && Sorting.Distinct(keys)
    ensures Sorting.Distinct(KeysOf(FieldsUpTo(keys, values, n)))
  {
    if n > 0 {
      FieldsDistinctKeys(keys, values, n - 1);
      FieldsBind(keys, values, n - 1);
      var rest := FieldsUpTo(keys, values, n - 1);
      forall j | 0 <= j < |rest| ensures KeysOf(rest)[j] != keys[n - 1] {
        assert rest[j] in rest;
      }
    }
  }

  lemma FieldsExact(keys: seq<string>, values: seq<Option<Json>>)
    requires |keys| == |values| && Sorting.Distinct(keys)
    ensures Sorting.Distinct(KeysOf(Fields(keys, values)))
    ensures forall k :: k in KeysOf(Fields(keys, values)) ==> k in keys
    ensures forall f :: f in Fields(keys, values) <==> Binds(keys, values, |keys|, f)
  {
    FieldsBind(keys, values, |keys|);
    FieldsDistinctKeys(keys, values, |keys|);
    var fields := Fields(keys, values);
    forall k | k in KeysOf(fields) ensures k in keys {
      var j :| 0 <= j < |fields| && KeysOf(fields)[j] == k;
      assert fields[j] in fields;
    }
  }

  lemma FieldAt(keys: seq<string>, values: seq<Option<Json>>, i: nat)
    requires |keys| == |values| && Sorting.Distinct(keys) && i < |keys|
    ensures keys[i] in KeysOf(Fields(keys, values)) <==> values[i].Some?
    ensures values[i].Some? ==> Lookup(Fields(keys, values), keys[i]) == values[i].value
  {
    var fields := Fields(keys, values);
    FieldsExact(keys, values);
    if values[i].Some? {
      assert (keys[i], values[i].value) in fields;
      var k :| 0 <= k < |fields| && fields[k] == (keys[i], values[i].value);
      LookupAt(fields, k);
    }
    if keys[i] in KeysOf(fields) {
      var k :| 0 <= k < |fields| && KeysOf(fields)[k] == keys[i];
      assert fields[k] in fields;
    }
  }

  ghost predicate SameOption(a: Option<Json>, b: Option<Json>) {
    (a.None? && b.None?) || (a.Some? && b.Some? && SameValue(a.value, b.value))
  }

  lemma FieldsKeyed(keys: seq<string>, values: seq<Option<Json>>)
    requires |keys| == |values| && Sorting.Distinct(keys)
    requires forall i :: 0 <= i < |values| && values[i].Some? ==> WellKeyed(values[i].value)
    ensures WellKeyed(Obj(Fields(keys, values)))
  {
    FieldsExact(keys, values);
    var fields := Fields(keys, values);
    forall k | 0 <= k < |fields| ensures WellKeyed(fields[k].1) {
      assert fields[k] in fields;
    }
  }

  lemma {:induction false} SameCount(keys: seq<string>, a: seq<Option<Json>>, b: seq<Option<Json>>, n: nat)
    requires |keys| == |a| == |b| && n <= |keys| && forall i :: 0 <= i < n ==> (a[i].None? <==> b[i].None?)
    ensures |FieldsUpTo(keys, a, n)| == |FieldsUpTo(keys, b, n)|
  {
    if n > 0 {
      SameCount(keys, a, b, n - 1);
    }
  }

  /** Two objects over one list of keys are the same exactly when they are the same key by key. */
  lemma FieldsSame(keys: seq<string>, a: seq<Option<Json>>, b: seq<Option<Json>>)
    requires |keys| == |a| == |b| && Sorting.Distinct(keys)
    ensures SameValue(Obj(Fields(keys, a)), Obj(Fields(keys, b))) <==> forall i :: 0 <= i < |keys| ==> SameOption(a[i], b[i])
  {
    hide FieldsUpTo, Lookup;
    var fa, fb := Fields(keys, a), Fields(keys, b);
    FieldsExact(keys, a);
    FieldsExact(keys, b);
    if SameValue(Obj(fa), Obj(fb)) {
      SameKeysBack(fa, fb);
      forall i | 0 <= i < |keys| ensures SameOption(a[i], b[i]) {
        FieldAt(keys, a, i);
        FieldAt(keys, b, i);
        if a[i].Some? {
          var k :| 0 <= k < |fa| && fa[k] == (keys[i], a[i].value);
        }
      }
    }
    if forall i :: 0 <= i < |keys| ==> SameOption(a[i], b[i]) {
      SameCount(keys, a, b, |keys|);
      forall k | 0 <= k < |fa| ensures fa[k].0 in KeysOf(fb) && SameValue(fa[k].1, Lookup(fb, fa[k].0)) {
        assert fa[k] in fa;
        var i :| 0 <= i < |keys| && a[i].Some? && fa[k] == (keys[i], a[i].value);
        assert SameOption(a[i], b[i]);
        FieldAt(keys, b, i);
      }
    }
  }

  lemma SameKeysBack(a: seq<(string, Json)>, b: seq<(string, Json)>)
    requires Sorting.Distinct(KeysOf(a)) && Sorting.Distinct(KeysOf(b)) && SameValue(Obj(a), Obj(b))
    ensures forall k :: k in KeysOf(a) <==> k in KeysOf(b)
  {
    forall k | k in KeysOf(a) ensures k in KeysOf(b) {
      var i :| 0 <= i < |a| && KeysOf(a)[i] == k;
      assert a[i].0 == k;
    }
    SameSizeSameKeys(a, b);
  }

  // ---- field encodings ----

  function Texts(s: seq<string>): Json {
    Arr(seq(|s|, i requires 0 <= i < |s| => Str(s[i])))
  }

  function Numbers(s: seq<int>): Json {
    Arr(seq(|s|, i requires 0 <= i < |s| => Int(s[i])))
  }

  function Record(keys: seq<string>, values: seq<Option<Json>>): Json
    requires |keys| == |values|
  {
    Obj(Fields(keys, values))
  }

  function CapsFields(c: CallCaps): Json {
    Record(["max_output_tokens", "max_thinking_tokens", "max_tool_calls"],
      [Some(Int(c.maxOutputTokens)), Some(Int(c.maxThinkingTokens)), Some(Int(c.maxToolCalls))])
  }

  function RetryFields(r: RetryPolicy): Json {
    Record(["max_schema_retries", "retryable_error_classes"], [Some(Int(r.maxSchemaRetries)), Some(Texts(r.retryable))])
  }

  function ReducerFields(r: Reducer): Json {
    Record(["kind", "custom_id"], [Some(Str(r.kind)), Some(OrNull(r.customId))])
  }

  function MapFields(m: MapSpec): Json {
    Record(["collection_input", "element_artifact", "max_fanout", "child_template", "weights"], MapValues(m))
  }

  function MapValues(m: MapSpec): (values: seq<Option<Json>>)
    ensures |values| == 5
  {
    [Some(Str(m.collectionInput)), Some(Str(m.elementArtifact)), Some(Int(m.maxFanout)), Some(Str(m.childTemplate)),
     Some(WeightsJson(m.weights))]
  }

  lemma TextsExact(a: seq<string>, b: seq<string>)
    ensures WellKeyed(Texts(a))
    ensures SameValue(Texts(a), Texts(b)) <==> a == b
  {
    if SameValue(Texts(a), Texts(b)) {
      forall i | 0 <= i < |a| ensures a[i] == b[i] {
        assert SameValue(Texts(a).items[i], Texts(b).items[i]);
      }
    }
  }

  lemma NumbersExact(a: seq<int>, b: seq<int>)
    ensures WellKeyed(Numbers(a))
    ensures SameValue(Numbers(a), Numbers(b)) <==> a == b
  {
    if SameValue(Numbers(a), Numbers(b)) {
      forall i | 0 <= i < |a| ensures a[i] == b[i] {
        assert SameValue(Numbers(a).items[i], Numbers(b).items[i]);
      }
    }
  }

  lemma RecordExact(keys: seq<string>, a: seq<Option<Json>>, b: seq<Option<Json>>)
    requires |keys| == |a| == |b| && Sorting.Distinct(keys)
    requires forall i :: 0 <= i < |keys| ==> (a[i].Some? ==> WellKeyed(a[i].value)) && (b[i].Some? ==> WellKeyed(b[i].value))
    ensures WellKeyed(Record(keys, a)) && WellKeyed(Record(keys, b))
    ensures SameValue(Record(keys, a), Record(keys, b)) <==> forall i :: 0 <= i < |keys| ==> SameOption(a[i], b[i])
  {
    FieldsKeyed(keys, a);
    FieldsKeyed(keys, b);
    FieldsSame(keys, a, b);
  }

  lemma CapsExact(a: CallCaps, b: CallCaps)
    ensures WellKeyed(CapsFields(a))
    ensures SameValue(CapsFields(a), CapsFields(b)) <==> a == b
  {
    hide Record, SameValue;
    var keys := ["max_output_tokens", "max_thinking_tokens", "max_tool_calls"];
    assert |keys[0]| == 17 && |keys[1]| == 19 && |keys[2]| == 14;
    var va := [Some(Int(a.maxOutputTokens)), Some(Int(a.maxThinkingTokens)), Some(Int(a.maxToolCalls))];
    var vb := [Some(Int(b.maxOutputTokens)), Some(Int(b.maxThinkingTokens)), Some(Int(b.maxToolCalls))];
    RecordExact(keys, va, vb);
    IntsExact();
    assert a == b <==> SameOption(va[0], vb[0]) && SameOption(va[1], vb[1]) && SameOption(va[2], vb[2]);
  }

  lemma IntsExact()
    ensures forall m: int, n: int :: SameValue(Int(m), Int(n)) <==> m == n
    ensures forall s: string, t: string :: SameValue(Str(s), Str(t)) <==> s == t
  {
  }

  lemma RetryExact(a: RetryPolicy, b: RetryPolicy)
    ensures WellKeyed(RetryFields(a))
    ensures SameValue(RetryFields(a), RetryFields(b)) <==> a == b
  {
    hide Record, SameValue, Texts;
    var keys := ["max_schema_retries", "retryable_error_classes"];
    assert |keys[0]| == 18 && |keys[1]| == 23;
    var va := [Some(Int(a.maxSchemaRetries)), Some(Texts(a.retryable))];
    var vb := [Some(Int(b.maxSchemaRetries)), Some(Texts(b.retryable))];
    TextsExact(a.retryable, b.retryable);
    TextsExact(b.retryable, b.retryable);
    RecordExact(keys, va, vb);
    IntsExact();
    assert a == b <==> SameOption(va[0], vb[0]) && SameOption(va[1], vb[1]);
  }

  function OrNull(text: Option<string>): Json {
    if text.None? then Null else Str(text.value)
  }

  lemma ReducerExact(a: Reducer, b: Reducer)
    ensures WellKeyed(ReducerFields(a))
    ensures SameValue(ReducerFields(a), ReducerFields(b)) <==> a == b
  {
    hide Record;
    var keys := ["kind", "custom_id"];
    assert |keys[0]| == 4 && |keys[1]| == 9;
    var va := [Some(Str(a.kind)), Some(OrNull(a.customId))];
    var vb := [Some(Str(b.kind)), Some(OrNull(b.customId))];
    RecordExact(keys, va, vb);
    assert a == b <==> SameOption(va[0], vb[0]) && SameOption(va[1], vb[1]);
  }

  function WeightsJson(weights: Option<seq<int>>): Json {
    if weights.None? then Null else Numbers(weights.value)
  }

  lemma WeightsExact(a: Option<seq<int>>, b: Option<seq<int>>)
    ensures WellKeyed(WeightsJson(a))
    ensures SameValue(WeightsJson(a), WeightsJson(b)) <==> a == b
  {
    if a.Some? {
      NumbersExact(a.value, if b.Some? then b.value else []);
    }
  }

  lemma MapExact(a: MapSpec, b: MapSpec)
    ensures WellKeyed(MapFields(a))
    ensures SameValue(MapFields(a), MapFields(b)) <==> a == b
  {
    hide Record, SameValue, WeightsJson;
    var keys := ["collection_input", "element_artifact", "max_fanout", "child_template", "weights"];
    assert keys[0][0] == 'c' && keys[1][0] == 'e' && |keys[0]| == 16 && |keys[1]| == 16;
    assert |keys[2]| == 10 && |keys[3]| == 14 && |keys[4]| == 7;
    var va := MapValues(a);
    var vb := MapValues(b);
    WeightsExact(a.weights, b.weights);
    WeightsExact(b.weights, b.weights);
    RecordExact(keys, va, vb);
    IntsExact();
    assert a == b <==>
      (SameOption(va[0], vb[0]) && SameOption(va[1], vb[1]) && SameOption(va[2], vb[2])
       && SameOption(va[3], vb[3]) && SameOption(va[4], vb[4]));
  }

  // ---- the key ----

  const PAYLOAD: seq<string> :=
    ["objective", "prompt_template", "kind", "dependencies", "tool_allowlist",
     "required_capabilities", "transport", "model_tier", "boundaries", "revision",
     "max_turns", "caps", "retry_policy", "output_schema_digest", "input_digests",
     "tool_digests", "map", "reducer", "command"]

  /** No two of the keys agree in both length and first character. */
  lemma PayloadKeysDistinct()
    ensures |PAYLOAD| == 19 && Sorting.Distinct(PAYLOAD)
  {
    forall i, j | 0 <= i < j < 19 ensures PAYLOAD[i] != PAYLOAD[j] {
      assert |PAYLOAD[i]| != |PAYLOAD[j]| || PAYLOAD[i][0] != PAYLOAD[j][0];
    }
  }

  /** The digests of the resolved inputs, in the order the inputs are declared. */
  function InputTexts(k: Keyed, digest: string -> Key): (texts: seq<string>)
    requires Complete(k)
    ensures |texts| == |k.spec.inputs|
  {
    var inputs := k.spec.inputs;
    seq(|inputs|, i requires 0 <= i < |inputs| => assert inputs[i] in inputs; digest(Serialize(k.resolved[inputs[i]])))
  }

  /** A tool is its schema's canonical form with the hash of its source appended. */
  function ToolText(t: ToolEntry): string {
    Serialize(Obj(t.schema)) + t.impl
  }

  function ToolTexts(k: Keyed, digest: string -> Key): (texts: seq<string>)
    requires Complete(k)
    ensures |texts| == |k.spec.toolAllowlist|
  {
    var tools := k.spec.toolAllowlist;
    seq(|tools|, i requires 0 <= i < |tools| => assert tools[i] in tools; digest(ToolText(k.registry[tools[i]])))
  }

  function OrAbsent<T>(o: Option<T>, encode: T -> Json): Option<Json> {
    if o.None? then None else Some(encode(o.value))
  }

  function PayloadValues(k: Keyed, digest: string -> Key): (values: seq<Option<Json>>)
    requires Complete(k)
    ensures |values| == 19
  {
    PayloadOf(k.spec, InputTexts(k, digest), ToolTexts(k, digest), digest)
  }

  function PayloadOf(c: Contract, inputs: seq<string>, tools: seq<string>, digest: string -> Key): (values: seq<Option<Json>>)
    ensures |values| == 19
  {
    [Some(Str(c.objective)), Some(Str(c.promptTemplate)), Some(Str(c.kind)), Some(Texts(c.dependencies)),
     Some(Texts(c.toolAllowlist)), Some(Texts(c.requiredCapabilities)), Some(Str(c.transport)), Some(Str(c.modelTier)),
     Some(Str(c.boundaries)), Some(Int(c.revision)), Some(Int(c.maxTurns)), Some(CapsFields(c.caps)), Some(RetryFields(c.retry)),
     Some(Str(digest(Serialize(c.outputSchema)))), Some(Texts(inputs)), Some(Texts(tools)),
     OrAbsent(c.fanOut, MapFields), OrAbsent(c.reducer, ReducerFields), OrAbsent(c.command, Texts)]
  }

  function KeyOf(k: Keyed, digest: string -> Key): Key
    requires Complete(k)
  {
    digest(Serialize(Record(PAYLOAD, PayloadValues(k, digest))))
  }

  /** What the key depends on: everything but the id, the role, the outputs, the timeout and the names of the inputs. */
  ghost predicate SameContent(a: Keyed, b: Keyed)
    requires Complete(a) && Complete(b)
  {
    && a.spec.(id := "", role := "", outputs := [], timeout := 0, inputs := [], outputSchema := Null)
       == b.spec.(id := "", role := "", outputs := [], timeout := 0, inputs := [], outputSchema := Null)
    && SameValue(a.spec.outputSchema, b.spec.outputSchema)
    && |a.spec.inputs| == |b.spec.inputs|
    && (forall i :: 0 <= i < |a.spec.inputs| ==> SameInput(a, b, i))
    && (forall i :: 0 <= i < |a.spec.toolAllowlist| ==> SameTool(a, b, i))
  }

  ghost predicate SameInput(a: Keyed, b: Keyed, i: nat)
    requires Complete(a) && Complete(b) && i < |a.spec.inputs| && i < |b.spec.inputs|
  {
    assert a.spec.inputs[i] in a.spec.inputs && b.spec.inputs[i] in b.spec.inputs;
    SameValue(a.resolved[a.spec.inputs[i]], b.resolved[b.spec.inputs[i]])
  }

  ghost predicate SameTool(a: Keyed, b: Keyed, i: nat)
    requires Complete(a) && Complete(b) && i < |a.spec.toolAllowlist| && a.spec.toolAllowlist == b.spec.toolAllowlist
  {
    assert a.spec.toolAllowlist[i] in a.spec.toolAllowlist;
    var s, t := a.registry[a.spec.toolAllowlist[i]], b.registry[a.spec.toolAllowlist[i]];
    s.impl == t.impl && SameValue(Obj(s.schema), Obj(t.schema))
  }

  /** The schema and the source hash cannot run into each other. */
  lemma ToolTextExact(s: ToolEntry, t: ToolEntry)
    requires WellKeyed(Obj(s.schema)) && WellKeyed(Obj(t.schema))
    ensures ToolText(s) == ToolText(t) <==> s.impl == t.impl && SameValue(Obj(s.schema), Obj(t.schema))
  {
    ObjectRoundTrip(s.schema, s.impl);
    ObjectRoundTrip(t.schema, t.impl);
    CanonicalExact(Obj(s.schema), Obj(t.schema));
    NormalizeExact(Obj(s.schema), Obj(t.schema));
  }

  lemma InputDigestsExact(a: Keyed, b: Keyed, digest: string -> Key)
    requires Complete(a) && Complete(b) && Proper(a) && Proper(b) && CollisionFree(digest)
    ensures WellKeyed(Texts(InputTexts(a, digest)))
    ensures SameValue(Texts(InputTexts(a, digest)), Texts(InputTexts(b, digest))) <==>
      |a.spec.inputs| == |b.spec.inputs| && forall i :: 0 <= i < |a.spec.inputs| ==> SameInput(a, b, i)
  {
    hide Serialize, SameValue, WellKeyed;
    var x, y := InputTexts(a, digest), InputTexts(b, digest);
    TextsExact(x, y);
    if |x| == |y| {
      forall i | 0 <= i < |x| ensures x[i] == y[i] <==> SameInput(a, b, i) {
        assert a.spec.inputs[i] in a.spec.inputs && b.spec.inputs[i] in b.spec.inputs;
        CanonicalExact(a.resolved[a.spec.inputs[i]], b.resolved[b.spec.inputs[i]]);
      }
    }
  }

  lemma ToolDigestsExact(a: Keyed, b: Keyed, digest: string -> Key)
    requires Complete(a) && Complete(b) && Proper(a) && Proper(b) && CollisionFree(digest)
    requires a.spec.toolAllowlist == b.spec.toolAllowlist
    ensures SameValue(Texts(ToolTexts(a, digest)), Texts(ToolTexts(b, digest))) <==>
      forall i :: 0 <= i < |a.spec.toolAllowlist| ==> SameTool(a, b, i)
  {
    hide Serialize, SameValue, WellKeyed, ToolText;
    var x, y := ToolTexts(a, digest), ToolTexts(b, digest);
    TextsExact(x, y);
    forall i | 0 <= i < |x| ensures x[i] == y[i] <==> SameTool(a, b, i) {
      var tools := a.spec.toolAllowlist;
      assert tools[i] in tools;
      ToolTextExact(a.registry[tools[i]], b.registry[tools[i]]);
    }
  }

  lemma OptionsExact(a: Contract, b: Contract)
    ensures SameOption(OrAbsent(a.fanOut, MapFields), OrAbsent(b.fanOut, MapFields)) <==> a.fanOut == b.fanOut
    ensures SameOption(OrAbsent(a.reducer, ReducerFields), OrAbsent(b.reducer, ReducerFields)) <==> a.reducer == b.reducer
    ensures SameOption(OrAbsent(a.command, Texts), OrAbsent(b.command, Texts)) <==> a.command == b.command
  {
    hide SameValue, MapFields, ReducerFields, Texts;
    if a.fanOut.Some? && b.fanOut.Some? {
      MapExact(a.fanOut.value, b.fanOut.value);
    }
    if a.reducer.Some? && b.reducer.Some? {
      ReducerExact(a.reducer.value, b.reducer.value);
    }
    if a.command.Some? && b.command.Some? {
      TextsExact(a.command.value, b.command.value);
    }
  }

  lemma PayloadKeyed(k: Keyed, digest: string -> Key)
    requires Complete(k)
    ensures forall i :: 0 <= i < 19 && PayloadValues(k, digest)[i].Some? ==> WellKeyed(PayloadValues(k, digest)[i].value)
  {
    hide WellKeyed, MapFields, ReducerFields, CapsFields, RetryFields, Texts;
    var c := k.spec;
    TextsExact(c.dependencies, []);
    TextsExact(c.toolAllowlist, []);
    TextsExact(c.requiredCapabilities, []);
    TextsExact(InputTexts(k, digest), []);
    TextsExact(ToolTexts(k, digest), []);
    CapsExact(c.caps, c.caps);
    RetryExact(c.retry, c.retry);
    AtomsKeyed();
    if c.fanOut.Some? {
      MapExact(c.fanOut.value, c.fanOut.value);
    }
    if c.reducer.Some? {
      ReducerExact(c.reducer.value, c.reducer.value);
    }
    if c.command.Some? {
      TextsExact(c.command.value, []);
    }
  }

  lemma AtomsKeyed()
    ensures forall n: int :: WellKeyed(Int(n))
    ensures forall s: string :: WellKeyed(Str(s))
  {
  }

  lemma ListsExact(a: Contract, b: Contract)
    ensures SameValue(Texts(a.dependencies), Texts(b.dependencies)) <==> a.dependencies == b.dependencies
    ensures SameValue(Texts(a.toolAllowlist), Texts(b.toolAllowlist)) <==> a.toolAllowlist == b.toolAllowlist
    ensures SameValue(Texts(a.requiredCapabilities), Texts(b.requiredCapabilities)) <==> a.requiredCapabilities == b.requiredCapabilities
    ensures SameValue(CapsFields(a.caps), CapsFields(b.caps)) <==> a.caps == b.caps
    ensures SameValue(RetryFields(a.retry), RetryFields(b.retry)) <==> a.retry == b.retry
  {
    hide SameValue, CapsFields, RetryFields, Texts;
    TextsExact(a.dependencies, b.dependencies);
    TextsExact(a.toolAllowlist, b.toolAllowlist);
    TextsExact(a.requiredCapabilities, b.requiredCapabilities);
    CapsExact(a.caps, b.caps);
    RetryExact(a.retry, b.retry);
  }

  /** The payloads agree entry by entry. */
  ghost predicate SamePayload(a: Keyed, b: Keyed, digest: string -> Key)
    requires Complete(a) && Complete(b)
  {
    forall i :: 0 <= i < 19 ==> SameOption(PayloadValues(a, digest)[i], PayloadValues(b, digest)[i])
  }

  lemma PayloadToContent(a: Keyed, b: Keyed, digest: string -> Key)
    requires Complete(a) && Complete(b) && Proper(a) && Proper(b) && CollisionFree(digest) && SamePayload(a, b, digest)
    ensures SameContent(a, b)
  {
    hide SameValue, CapsFields, RetryFields, Texts, MapFields, ReducerFields, Complete, CollisionFree, InputTexts, ToolTexts,
      Serialize, OrAbsent, SameInput, SameTool, Proper;
    var va, vb := PayloadValues(a, digest), PayloadValues(b, digest);
    OptionsExact(a.spec, b.spec);
    ListsExact(a.spec, b.spec);
    IntsExact();
    InputDigestsExact(a, b, digest);
    SchemaExact(a, b, digest);
    assert SameOption(va[0], vb[0]) && SameOption(va[1], vb[1]) && SameOption(va[2], vb[2]) && SameOption(va[3], vb[3]);
    assert SameOption(va[4], vb[4]) && SameOption(va[5], vb[5]) && SameOption(va[6], vb[6]) && SameOption(va[7], vb[7]);
    assert SameOption(va[8], vb[8]) && SameOption(va[9], vb[9]) && SameOption(va[10], vb[10]) && SameOption(va[11], vb[11]);
    assert SameOption(va[12], vb[12]) && SameOption(va[13], vb[13]) && SameOption(va[14], vb[14]) && SameOption(va[15], vb[15]);
    assert SameOption(va[16], vb[16]) && SameOption(va[17], vb[17]) && SameOption(va[18], vb[18]);
    ToolDigestsExact(a, b, digest);
  }

  lemma ContentToPayload(a: Keyed, b: Keyed, digest: string -> Key)
    requires Complete(a) && Complete(b) && Proper(a) && Proper(b) && CollisionFree(digest) && SameContent(a, b)
    ensures SamePayload(a, b, digest)
  {
    hide SameValue, CapsFields, RetryFields, Texts, MapFields, ReducerFields, Complete, CollisionFree, InputTexts, ToolTexts,
      Serialize, OrAbsent, SameInput, SameTool, Proper;
    OptionsExact(a.spec, b.spec);
    ListsExact(a.spec, b.spec);
    IntsExact();
    InputDigestsExact(a, b, digest);
    SchemaExact(a, b, digest);
    ToolDigestsExact(a, b, digest);
  }

  lemma SchemaExact(a: Keyed, b: Keyed, digest: string -> Key)
    requires Proper(a) && Proper(b) && CollisionFree(digest)
    ensures digest(Serialize(a.spec.outputSchema)) == digest(Serialize(b.spec.outputSchema))
      <==> SameValue(a.spec.outputSchema, b.spec.outputSchema)
  {
    CanonicalExact(a.spec.outputSchema, b.spec.outputSchema);
  }

  /** Two keys are equal exactly when the hashed content is the same. */
  lemma KeyExact(a: Keyed, b: Keyed, digest: string -> Key)
    requires Complete(a) && Complete(b) && Proper(a) && Proper(b) && CollisionFree(digest)
    ensures KeyOf(a, digest) == KeyOf(b, digest) <==> SameContent(a, b)
  {
    hide Serialize, SameValue, WellKeyed, PayloadValues, Record, SameContent, Proper, Complete, SameOption, PAYLOAD;
    var va, vb := PayloadValues(a, digest), PayloadValues(b, digest);
    PayloadKeysDistinct();
    PayloadKeyed(a, digest);
    PayloadKeyed(b, digest);
    RecordExact(PAYLOAD, va, vb);
    CanonicalExact(Record(PAYLOAD, va), Record(PAYLOAD, vb));
    if SameContent(a, b) {
      ContentToPayload(a, b, digest);
    }
    if SamePayload(a, b, digest) {
      PayloadToContent(a, b, digest);
    }
  }

  /** The key forgets the id and the role: nodes that differ only there collide, as do renamed inputs. */
  lemma KeyForgetsIdentity(k: Keyed, id: NodeId, role: string, digest: string -> Key)
    requires Complete(k)
    ensures Complete(k.(spec := k.spec.(id := id, role := role)))
    ensures KeyOf(k.(spec := k.spec.(id := id, role := role)), digest) == KeyOf(k, digest)
  {
    hide Serialize, Record;
    var other := k.(spec := k.spec.(id := id, role := role));
    assert InputTexts(other, digest) == InputTexts(k, digest);
    assert ToolTexts(other, digest) == ToolTexts(k, digest);
  }

  // ---- computing it ----

  method DigestInputs(k: Keyed, digest: string -> Key) returns (texts: Option<seq<string>>)
    ensures texts.Some? <==> forall i :: i in k.spec.inputs ==> i in k.resolved
    ensures texts.Some? && Complete(k) ==> texts.value == InputTexts(k, digest)
  {
    var found: seq<string> := [];
    for i := 0 to |k.spec.inputs|
      invariant |found| == i
      invariant forall j :: 0 <= j < i ==>
        k.spec.inputs[j] in k.resolved && found[j] == digest(Serialize(k.resolved[k.spec.inputs[j]]))
    {
      var name := k.spec.inputs[i];
      if name !in k.resolved {
        assert name in k.spec.inputs;
        return None;
      }
      found := found + [digest(Serialize(k.resolved[name]))];
    }
    texts := Some(found);
  }

  method DigestTools(k: Keyed, digest: string -> Key) returns (texts: Option<seq<string>>)
    ensures texts.Some? <==> forall t :: t in k.spec.toolAllowlist ==> t in k.registry
    ensures texts.Some? && Complete(k) ==> texts.value == ToolTexts(k, digest)
  {
    var found: seq<string> := [];
    for i := 0 to |k.spec.toolAllowlist|
      invariant |found| == i
      invariant forall j :: 0 <= j < i ==>
        k.spec.toolAllowlist[j] in k.registry && found[j] == digest(ToolText(k.registry[k.spec.toolAllowlist[j]]))
    {
      var name := k.spec.toolAllowlist[i];
      if name !in k.registry {
        assert name in k.spec.toolAllowlist;
        return None;
      }
      found := found + [digest(ToolText(k.registry[name]))];
    }
    texts := Some(found);
  }

  lemma LastKeys()
    ensures |PAYLOAD| == 19 && PAYLOAD[16] == "map" && PAYLOAD[17] == "reducer" && PAYLOAD[18] == "command"
  {
  }

  /** Fills the payload, with three entries only where the node has them; an unresolved input or an
      unregistered tool is an error. */
  method ComputeIdempotencyKey(k: Keyed, digest: string -> Key) returns (key: Option<Key>)
    ensures key.Some? <==> Complete(k)
    ensures key.Some? ==> key.value == KeyOf(k, digest)
  {
    hide Serialize, MapFields, ReducerFields, Texts, PAYLOAD, CapsFields, RetryFields;
    var inputs := DigestInputs(k, digest);
    if inputs.None? {
      return None;
    }
    var tools := DigestTools(k, digest);
    if tools.None? {
      return None;
    }
    var values := PayloadOf(k.spec, inputs.value, tools.value, digest);
    PayloadKeysDistinct();
    LastKeys();
    var payload := FieldsUpTo(PAYLOAD, values, 16);
    if k.spec.fanOut.Some? {
      payload := payload + [("map", MapFields(k.spec.fanOut.value))];
    }
    assert payload == FieldsUpTo(PAYLOAD, values, 17);
    if k.spec.reducer.Some? {
      payload := payload + [("reducer", ReducerFields(k.spec.reducer.value))];
    }
    assert payload == FieldsUpTo(PAYLOAD, values, 18);
    if k.spec.command.Some? {
      payload := payload + [("command", Texts(k.spec.command.value))];
    }
    assert payload == FieldsUpTo(PAYLOAD, values, 19);
    key := Some(digest(Serialize(Obj(payload))));
  }

  // ---- the payload read by name ----

  /** The object whose canonical text is digested. */
  function PayloadObject(k: Keyed, digest: string -> Key): seq<(string, Json)>
    requires Complete(k)
  {
    Fields(PAYLOAD, PayloadValues(k, digest))
  }

  /** The payload has the value under the name; `None` means it has no such member. */
  ghost predicate Holds(k: Keyed, digest: string -> Key, name: string, value: Option<Json>)
    requires Complete(k)
  {
    var fields := PayloadObject(k, digest);
    (name in KeysOf(fields) <==> value.Some?) && (value.Some? ==> Lookup(fields, name) == value.value)
  }

  lemma HoldsAt(k: Keyed, digest: string -> Key, i: nat)
    requires Complete(k) && i < 19
    ensures |PAYLOAD| == 19 && Holds(k, digest, PAYLOAD[i], PayloadValues(k, digest)[i])
  {
    hide PAYLOAD, PayloadValues, Fields;
    PayloadKeysDistinct();
    FieldAt(PAYLOAD, PayloadValues(k, digest), i);
  }

  /** The members that are always there, by their names. */
  lemma PayloadReads(k: Keyed, digest: string -> Key)
    requires Complete(k)
    ensures var c := k.spec;
            && Holds(k, digest, "objective", Some(Str(c.objective))) && Holds(k, digest, "prompt_template", Some(Str(c.promptTemplate)))
            && Holds(k, digest, "kind", Some(Str(c.kind))) && Holds(k, digest, "dependencies", Some(Texts(c.dependencies)))
            && Holds(k, digest, "tool_allowlist", Some(Texts(c.toolAllowlist)))
            && Holds(k, digest, "required_capabilities", Some(Texts(c.requiredCapabilities)))
            && Holds(k, digest, "transport", Some(Str(c.transport))) && Holds(k, digest, "model_tier", Some(Str(c.modelTier)))
            && Holds(k, digest, "boundaries", Some(Str(c.boundaries))) && Holds(k, digest, "revision", Some(Int(c.revision)))
            && Holds(k, digest, "max_turns", Some(Int(c.maxTurns))) && Holds(k, digest, "caps", Some(CapsFields(c.caps)))
            && Holds(k, digest, "retry_policy", Some(RetryFields(c.retry)))
            && Holds(k, digest, "output_schema_digest", Some(Str(digest(Serialize(c.outputSchema)))))
            && Holds(k, digest, "input_digests", Some(Texts(InputTexts(k, digest))))
            && Holds(k, digest, "tool_digests", Some(Texts(ToolTexts(k, digest))))
  {
    hide Holds, Serialize, Texts, CapsFields, RetryFields, PAYLOAD, PayloadValues, InputTexts, ToolTexts;
    NamesInOrder();
    ValuesInOrder(k, digest);
    MoreValuesInOrder(k, digest);
    HoldsAt(k, digest, 0);
    HoldsAt(k, digest, 1);
    HoldsAt(k, digest, 2);
    HoldsAt(k, digest, 3);
    HoldsAt(k, digest, 4);
    HoldsAt(k, digest, 5);
    HoldsAt(k, digest, 6);
    HoldsAt(k, digest, 7);
    HoldsAt(k, digest, 8);
    HoldsAt(k, digest, 9);
    HoldsAt(k, digest, 10);
    HoldsAt(k, digest, 11);
    HoldsAt(k, digest, 12);
    HoldsAt(k, digest, 13);
    HoldsAt(k, digest, 14);
    HoldsAt(k, digest, 15);
  }

  /** The members that are there only where the node has them. */
  lemma PayloadOptions(k: Keyed, digest: string -> Key)
    requires Complete(k)
    ensures var c := k.spec;
            && Holds(k, digest, "map", if c.fanOut.Some? then Some(MapFields(c.fanOut.value)) else None)
            && Holds(k, digest, "reducer", if c.reducer.Some? then Some(ReducerFields(c.reducer.value)) else None)
            && Holds(k, digest, "command", if c.command.Some? then Some(Texts(c.command.value)) else None)
  {
    hide Holds, Texts, PAYLOAD, MapFields, ReducerFields, InputTexts, ToolTexts;
    NamesInOrder();
    HoldsAt(k, digest, 16);
    HoldsAt(k, digest, 17);
    HoldsAt(k, digest, 18);
  }

  lemma NamesInOrder()
    ensures |PAYLOAD| == 19
    ensures PAYLOAD[0] == "objective"
    ensures PAYLOAD[1] == "prompt_template"
    ensures PAYLOAD[2] == "kind"
    ensures PAYLOAD[3] == "dependencies"
    ensures PAYLOAD[4] == "tool_allowlist"
    ensures PAYLOAD[5] == "required_capabilities"
    ensures PAYLOAD[6] == "transport"
    ensures PAYLOAD[7] == "model_tier"
    ensures PAYLOAD[8] == "boundaries"
    ensures PAYLOAD[9] == "revision"
    ensures PAYLOAD[10] == "max_turns"
    ensures PAYLOAD[11] == "caps"
    ensures PAYLOAD[12] == "retry_policy"
    ensures PAYLOAD[13] == "output_schema_digest"
    ensures PAYLOAD[14] == "input_digests"
    ensures PAYLOAD[15] == "tool_digests"
    ensures PAYLOAD[16] == "map"
    ensures PAYLOAD[17] == "reducer"
    ensures PAYLOAD[18] == "command"
  {
  }

  lemma ValuesInOrder(k: Keyed, digest: string -> Key)
    requires Complete(k)
    ensures var c, v := k.spec, PayloadValues(k, digest);
            && v[0] == Some(Str(c.objective)) && v[1] == Some(Str(c.promptTemplate)) && v[2] == Some(Str(c.kind))
            && v[3] == Some(Texts(c.dependencies)) && v[4] == Some(Texts(c.toolAllowlist)) && v[5] == Some(Texts(c.requiredCapabilities))
            && v[6] == Some(Str(c.transport)) && v[7] == Some(Str(c.modelTier)) && v[8] == Some(Str(c.boundaries))
  {
    hide Serialize, Texts, CapsFields, RetryFields, MapFields, ReducerFields, InputTexts, ToolTexts, OrAbsent;
  }

  lemma MoreValuesInOrder(k: Keyed, digest: string -> Key)
    requires Complete(k)
    ensures var c, v := k.spec, PayloadValues(k, digest);
            && v[9] == Some(Int(c.revision)) && v[10] == Some(Int(c.maxTurns)) && v[11] == Some(CapsFields(c.caps))
            && v[12] == Some(RetryFields(c.retry)) && v[13] == Some(Str(digest(Serialize(c.outputSchema))))
            && v[14] == Some(Texts(InputTexts(k, digest))) && v[15] == Some(Texts(ToolTexts(k, digest)))
  {
    hide Serialize, Texts, CapsFields, RetryFields, MapFields, ReducerFields, InputTexts, ToolTexts, OrAbsent;
  }

  /** The object has exactly the named members, with these values. */
  ghost predicate Members(v: Json, names: seq<string>, values: seq<Json>)
    requires |names| == |values|
  {
    v.Obj? && (forall n :: n in KeysOf(v.fields) <==> n in names)
    && forall i :: 0 <= i < |names| ==> names[i] in KeysOf(v.fields) && Lookup(v.fields, names[i]) == values[i]
  }

  lemma {:induction false} AllPresent(names: seq<string>, values: seq<Option<Json>>, plain: seq<Json>)
    requires |names| == |values| == |plain| && Sorting.Distinct(names)
    requires forall i :: 0 <= i < |names| ==> values[i] == Some(plain[i])
    ensures Members(Record(names, values), names, plain)
  {
    hide Lookup, Fields;
    FieldsExact(names, values);
    forall i | 0 <= i < |names| ensures names[i] in KeysOf(Fields(names, values)) && Lookup(Fields(names, values), names[i]) == plain[i] {
      FieldAt(names, values, i);
    }
  }

  /** The nested objects of the payload, member by member. */
  lemma CapsAndRetriesRead(c: CallCaps, r: RetryPolicy)
    ensures Members(CapsFields(c), ["max_output_tokens", "max_thinking_tokens", "max_tool_calls"],
              [Int(c.maxOutputTokens), Int(c.maxThinkingTokens), Int(c.maxToolCalls)])
    ensures Members(RetryFields(r), ["max_schema_retries", "retryable_error_classes"], [Int(r.maxSchemaRetries), Texts(r.retryable)])
  {
    hide Members, Record, Texts;
    var names := ["max_output_tokens", "max_thinking_tokens", "max_tool_calls"];
    assert |names[0]| == 17 && |names[1]| == 19 && |names[2]| == 14;
    AllPresent(names, [Some(Int(c.maxOutputTokens)), Some(Int(c.maxThinkingTokens)), Some(Int(c.maxToolCalls))],
      [Int(c.maxOutputTokens), Int(c.maxThinkingTokens), Int(c.maxToolCalls)]);
    var others := ["max_schema_retries", "retryable_error_classes"];
    assert |others[0]| == 18 && |others[1]| == 23;
    AllPresent(others, [Some(Int(r.maxSchemaRetries)), Some(Texts(r.retryable))], [Int(r.maxSchemaRetries), Texts(r.retryable)]);
  }

  lemma MapAndReducerRead(m: MapSpec, r: Reducer)
    ensures Members(MapFields(m), ["collection_input", "element_artifact", "max_fanout", "child_template", "weights"],
              [Str(m.collectionInput), Str(m.elementArtifact), Int(m.maxFanout), Str(m.childTemplate),
               if m.weights.None? then Null else Numbers(m.weights.value)])
    ensures Members(ReducerFields(r), ["kind", "custom_id"], [Str(r.kind), if r.customId.None? then Null else Str(r.customId.value)])
  {
    hide Members, Record, Numbers;
    var names := ["collection_input", "element_artifact", "max_fanout", "child_template", "weights"];
    assert |names[0]| == 16 && |names[1]| == 16 && |names[2]| == 10 && |names[3]| == 14 && |names[4]| == 7;
    assert names[0][0] == 'c' && names[1][0] == 'e';
    AllPresent(names, MapValues(m),
      [Str(m.collectionInput), Str(m.elementArtifact), Int(m.maxFanout), Str(m.childTemplate), WeightsJson(m.weights)]);
    var others := ["kind", "custom_id"];
    assert |others[0]| == 4 && |others[1]| == 9;
    AllPresent(others, [Some(Str(r.kind)), Some(OrNull(r.customId))], [Str(r.kind), OrNull(r.customId)]);
  }

  /** The digest of each input is that of its canonical value, in the order the inputs are declared. */
  lemma InputDigestsRead(k: Keyed, digest: string -> Key, i: nat)
    requires Complete(k) && i < |k.spec.inputs|
    ensures k.spec.inputs[i] in k.resolved
    ensures Texts(InputTexts(k, digest)).items[i] == Str(digest(Serialize(k.resolved[k.spec.inputs[i]])))
  {
    hide Serialize;
    assert k.spec.inputs[i] in k.spec.inputs;
  }

  /** The digest of each tool is that of its canonical schema followed by the hash of its source. */
  lemma ToolDigestsRead(k: Keyed, digest: string -> Key, i: nat)
    requires Complete(k) && i < |k.spec.toolAllowlist|
    ensures k.spec.toolAllowlist[i] in k.registry
    ensures var tool := k.registry[k.spec.toolAllowlist[i]];
            Texts(ToolTexts(k, digest)).items[i] == Str(digest(Serialize(Obj(tool.schema)) + tool.impl))
  {
    hide Serialize;
    assert k.spec.toolAllowlist[i] in k.spec.toolAllowlist;
    var tool := k.registry[k.spec.toolAllowlist[i]];
    assert ToolText(tool) == Serialize(Obj(tool.schema)) + tool.impl;
    assert ToolTexts(k, digest)[i] == digest(ToolText(tool));
  }
}
