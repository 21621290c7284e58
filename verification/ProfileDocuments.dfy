/** The JSON form of a workflow profile: the one document that says what a given profile is. */
module ProfileDocuments {
  import opened Common
  import opened WorkflowOverlay

  // ---------- stable keys ----------

  predicate Alphanumeric(s: string) { s != "" && forall i :: 0 <= i < |s| ==> Lower(s[i]) || Digit(s[i]) }

  /** Segments joined by single underscores. */
  function Joined(parts: seq<string>): string
    requires parts != []
  {
    if |parts| == 1 then parts[0] else parts[0] + "_" + Joined(parts[1..])
  }

  predicate Segments(parts: seq<string>) { parts != [] && forall i :: 0 <= i < |parts| ==> Alphanumeric(parts[i]) }

  /** A stable key, except that it may begin with a digit. */
  predicate KeyTail(s: string) {
    && s != "" && s[0] != '_' && s[|s| - 1] != '_'
    && (forall i :: 0 <= i < |s| ==> Lower(s[i]) || Digit(s[i]) || s[i] == '_')
    && (forall i :: 0 <= i < |s| - 1 ==> s[i] == '_' ==> s[i + 1] != '_')
  }

  lemma {:induction false} SplitTail(s: string) returns (parts: seq<string>)
    requires KeyTail(s)
    ensures Segments(parts) && Joined(parts) == s
    decreases |s|
  {
    if i :| 0 <= i < |s| && s[i] == '_' && forall j :: 0 <= j < i ==> s[j] != '_' {
      var rest := s[i + 1..];
      TailAfter(s, i, rest);
      var others := SplitTail(rest);
      parts := [s[..i]] + others;
      assert parts[1..] == others;
      assert s == s[..i] + "_" + rest;
    } else {
      NoUnderscore(s);
      parts := [s];
    }
  }

  lemma TailAfter(s: string, i: nat, rest: string)
    requires KeyTail(s) && i < |s| && s[i] == '_' && rest == s[i + 1..]
    requires forall j :: 0 <= j < i ==> s[j] != '_'
    ensures KeyTail(rest) && Alphanumeric(s[..i])
  {
    assert forall j :: 0 <= j < |rest| ==> rest[j] == s[i + 1 + j];
  }

  lemma {:induction false} NoUnderscore(s: string)
    requires !exists i :: 0 <= i < |s| && s[i] == '_' && forall j :: 0 <= j < i ==> s[j] != '_'
    ensures forall i :: 0 <= i < |s| ==> s[i] != '_'
  {
    NoneBefore(s, |s|);
  }

  lemma {:induction false} NoneBefore(s: string, n: nat)
    requires n <= |s|
    requires !exists i :: 0 <= i < |s| && s[i] == '_' && forall j :: 0 <= j < i ==> s[j] != '_'
    ensures forall i :: 0 <= i < n ==> s[i] != '_'
  {
    if n > 0 { NoneBefore(s, n - 1); }
  }

  lemma {:induction false} JoinedIsTail(parts: seq<string>)
    requires Segments(parts)
    ensures KeyTail(Joined(parts)) && Joined(parts)[0] == parts[0][0]
    decreases |parts|
  {
    if |parts| > 1 {
      JoinedIsTail(parts[1..]);
      TailJoins(parts[0], Joined(parts[1..]), Joined(parts));
    }
  }

  lemma TailJoins(a: string, b: string, s: string)
    requires Alphanumeric(a) && KeyTail(b) && s == a + "_" + b
    ensures KeyTail(s) && s[0] == a[0]
  {
    assert forall i :: 0 <= i < |a| ==> s[i] == a[i];
    assert s[|a|] == '_';
    assert forall i :: 0 <= i < |b| ==> s[|a| + 1 + i] == b[i];
  }

  /** The accepted keys are those put together from a letter, letters, digits and single underscores between
      segments, as the regular expression says. */
  lemma StableKeyIsGrammar(s: string)
    ensures StableKey(s) <==> exists parts :: Segments(parts) && Lower(parts[0][0]) && s == Joined(parts)
  {
    if StableKey(s) {
      var parts := SplitTail(s);
      JoinedIsTail(parts);
    }
    forall parts | Segments(parts) && Lower(parts[0][0]) && s == Joined(parts) ensures StableKey(s) {
      JoinedIsTail(parts);
    }
  }

  // ---------- documents ----------

  function TypeName(t: ValueType): string {
    match t
    case StringType => "string"
    case IntegerType => "integer"
    case FloatType => "float"
    case BooleanType => "boolean"
  }

  function MappingDocument(t: Target, typeName: string): Json {
    Obj(map["node_id" := Str(t.node), "input_name" := Str(t.input), "value_type" := Str(typeName)])
  }

  function SlotDocument(s: Slot): Json {
    Obj(map["key" := Str(s.key), "label" := Str(s.title),
            "node_id" := Str(s.target.node), "input_name" := Str(s.target.input)])
  }

  function ParameterDocument(x: Parameter): Json {
    Obj(map["key" := Str(x.key), "label" := Str(x.title), "node_id" := Str(x.target.node),
            "input_name" := Str(x.target.input), "value_type" := Str(TypeName(x.valueType))])
  }

  function MappingsDocument(p: Profile): Json {
    Obj(map["prompt" := MappingDocument(p.prompt, "string"), "seed" := MappingDocument(p.seed, "integer"),
            "output_prefix" := MappingDocument(p.outputPrefix, "string")])
  }

  predicate Proper(key: string, title: string, t: Target) { StableKey(key) && Nonblank(title) && ProperTarget(t) }

  predicate ProperTarget(t: Target) { t.node != "" && t.input != "" }

  lemma SlotReading(v: Json, s: Slot)
    ensures WellFormedSlot(v) && SlotOf(v) == s <==> Proper(s.key, s.title, s.target) && v == SlotDocument(s)
  {
    hide StableKey, Nonblank;
    if WellFormedSlot(v) && SlotOf(v) == s {
      assert v.fields == SlotDocument(s).fields;
    }
  }

  lemma ParameterReading(v: Json, x: Parameter)
    ensures WellFormedParameter(v) && ParameterOf(v) == x
      <==> Proper(x.key, x.title, x.target) && v == ParameterDocument(x)
  {
    hide StableKey, Nonblank;
    if WellFormedParameter(v) && ParameterOf(v) == x {
      assert v.fields == ParameterDocument(x).fields;
    }
  }

  lemma MappingReading(v: Json, t: Target, typeName: string)
    ensures WellFormedMapping(v, typeName) && TargetOf(v) == t
      <==> ProperTarget(t) && v == MappingDocument(t, typeName)
  {
    if WellFormedMapping(v, typeName) && TargetOf(v) == t {
      assert v.fields == MappingDocument(t, typeName).fields;
    }
  }

  /** The array holds exactly these slots. */
  ghost predicate SlotArray(profile: Document, slots: seq<Slot>) {
    && "image_inputs" in profile && profile["image_inputs"].List?
    && var items := profile["image_inputs"].items;
    && |items| == |slots|
    && forall i :: 0 <= i < |slots| ==> items[i] == SlotDocument(slots[i])
  }

  ghost predicate ParameterArray(profile: Document, parameters: seq<Parameter>) {
    && "parameters" in profile && profile["parameters"].List?
    && var items := profile["parameters"].items;
    && |items| == |parameters|
    && forall i :: 0 <= i < |parameters| ==> items[i] == ParameterDocument(parameters[i])
  }

  ghost predicate ProperProfile(p: Profile) {
    && ProperTarget(p.prompt) && ProperTarget(p.seed) && ProperTarget(p.outputPrefix)
    && (forall x :: x in p.slots ==> Proper(x.key, x.title, x.target))
    && (forall x :: x in p.parameters ==> Proper(x.key, x.title, x.target))
    && (forall i, j :: 0 <= i < j < |p.slots| ==> p.slots[i].key != p.slots[j].key)
    && (forall i, j :: 0 <= i < j < |p.parameters| ==> p.parameters[i].key != p.parameters[j].key)
  }

  lemma SlotsReading(profile: Document, slots: seq<Slot>)
    ensures RawList(profile, "image_inputs").Ok? && SlotsRead(RawList(profile, "image_inputs").value, slots)
      <==>
      && SlotArray(profile, slots)
      && (forall x :: x in slots ==> Proper(x.key, x.title, x.target))
      && (forall i, j :: 0 <= i < j < |slots| ==> slots[i].key != slots[j].key)
  {
    if "image_inputs" in profile && profile["image_inputs"].List? && |profile["image_inputs"].items| == |slots| {
      var items := profile["image_inputs"].items;
      forall i | 0 <= i < |slots|
        ensures WellFormedSlot(items[i]) && slots[i] == SlotOf(items[i])
          <==> Proper(slots[i].key, slots[i].title, slots[i].target) && items[i] == SlotDocument(slots[i])
      {
        SlotReading(items[i], slots[i]);
      }
      hide WellFormedSlot, SlotOf, SlotDocument, Proper;
    }
  }

  lemma ParametersReading(profile: Document, parameters: seq<Parameter>)
    ensures RawList(profile, "parameters").Ok? && ParametersRead(RawList(profile, "parameters").value, parameters)
      <==>
      && ParameterArray(profile, parameters)
      && (forall x :: x in parameters ==> Proper(x.key, x.title, x.target))
      && (forall i, j :: 0 <= i < j < |parameters| ==> parameters[i].key != parameters[j].key)
  {
    if "parameters" in profile && profile["parameters"].List? && |profile["parameters"].items| == |parameters| {
      var items := profile["parameters"].items;
      forall i | 0 <= i < |parameters|
        ensures WellFormedParameter(items[i]) && parameters[i] == ParameterOf(items[i])
          <==> Proper(parameters[i].key, parameters[i].title, parameters[i].target)
               && items[i] == ParameterDocument(parameters[i])
      {
        ParameterReading(items[i], parameters[i]);
      }
      hide WellFormedParameter, ParameterOf, ParameterDocument, Proper;
    }
  }

  lemma MappingsReading(profile: Document, p: Profile)
    ensures
      && WellFormedMappings(profile)
      && p.prompt == MappingTarget(profile, "prompt") && p.seed == MappingTarget(profile, "seed")
      && p.outputPrefix == MappingTarget(profile, "output_prefix")
      <==>
      && ProperTarget(p.prompt) && ProperTarget(p.seed) && ProperTarget(p.outputPrefix)
      && "mappings" in profile && profile["mappings"] == MappingsDocument(p)
  {
    if "mappings" in profile && profile["mappings"].Obj? {
      var fields := profile["mappings"].fields;
      if fields.Keys == {"prompt", "seed", "output_prefix"} {
        MappingReading(fields["prompt"], p.prompt, "string");
        MappingReading(fields["seed"], p.seed, "integer");
        MappingReading(fields["output_prefix"], p.outputPrefix, "string");
        hide WellFormedMapping, ProperTarget, MappingDocument, TargetOf;
        if WellFormedMappings(profile) && p.prompt == MappingTarget(profile, "prompt")
           && p.seed == MappingTarget(profile, "seed") && p.outputPrefix == MappingTarget(profile, "output_prefix") {
          assert fields == MappingsDocument(p).fields;
        }
      }
    }
  }

  /** A document reads as a profile exactly when it is that profile's document: the three mappings, the image
      inputs and the parameters in order, with proper and unique keys and nothing else in any of them. */
  lemma ProfileReading(profile: Document, p: Profile)
    ensures Reads(profile, p) <==>
      && ProperProfile(p)
      && "mappings" in profile && profile["mappings"] == MappingsDocument(p)
      && SlotArray(profile, p.slots) && ParameterArray(profile, p.parameters)
  {
    MappingsReading(profile, p);
    SlotsReading(profile, p.slots);
    ParametersReading(profile, p.parameters);
    hide WellFormedMappings, MappingTarget, MappingsDocument, SlotArray, ParameterArray, SlotsRead, ParametersRead;
    hide Proper, RawList, ProperTarget;
  }
}
