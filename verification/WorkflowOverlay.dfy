/** Workflow profiles and the preparation of a workflow: writing run values into a copy of a node graph. */
module WorkflowOverlay {
  import opened Common

  /** Decoded JSON. A finite float is the number it denotes. */
  datatype Json =
    | Null
    | Bool(b: bool)
    | Int(n: int)
    | Float(x: real)
    | NotFinite
    | Str(s: string)
    | List(items: seq<Json>)
    | Obj(fields: map<string, Json>)

  type Document = map<string, Json>

  /** Either a value or a WorkflowPreparationError. */
  datatype Result<+T> = Ok(value: T) | PreparationError


  datatype Target = Target(node: string, input: string)

  datatype Slot = Slot(key: string, title: string, target: Target)

  datatype Parameter = Parameter(key: string, title: string, target: Target, valueType: ValueType)

  // ---------- the node graph ----------

  predicate NonemptyString(v: Json) { v.Str? && v.s != "" }

  predicate HasString(fields: Document, name: string) { name in fields && NonemptyString(fields[name]) }

  predicate ValidNode(node: Json) {
    && node.Obj?
    && HasString(node.fields, "class_type")
    && "inputs" in node.fields
    && node.fields["inputs"].Obj?
  }

  ghost predicate ValidWorkflow(workflow: Document) {
    && workflow != map[]
    && forall id :: id in workflow ==> id != "" && ValidNode(workflow[id])
  }

  /** validate_workflow */
  method ValidateWorkflow(workflow: Document) returns (r: Result<()>)
    ensures r.Ok? <==> ValidWorkflow(workflow)
  {
    if workflow == map[] {
      return PreparationError;
    }
    var pending := workflow.Keys;
    while pending != {}
      invariant pending <= workflow.Keys
      invariant forall id :: id in workflow && id !in pending ==> id != "" && ValidNode(workflow[id])
    {
      var id :| id in pending;
      if id == "" || !ValidNode(workflow[id]) {
        return PreparationError;
      }
      pending := pending - {id};
    }
    return Ok(());
  }

  /** The inputs of a node; none where the node is missing or malformed. */
  function Inputs(workflow: Document, id: string): Document {
    if id in workflow && workflow[id].Obj? && "inputs" in workflow[id].fields && workflow[id].fields["inputs"].Obj?
    then workflow[id].fields["inputs"].fields
    else map[]
  }

  predicate HasInput(workflow: Document, t: Target) { t.input in Inputs(workflow, t.node) }

  function InputAt(workflow: Document, t: Target): Json
    requires HasInput(workflow, t)
  {
    Inputs(workflow, t.node)[t.input]
  }

  /** A link to another node's output: its id and an output index. */
  predicate IsConnection(v: Json) {
    v.List? && |v.items| == 2 && NonemptyString(v.items[0]) && v.items[1].Int? && v.items[1].n >= 0
  }

  predicate HasLiteral(workflow: Document, t: Target) { HasInput(workflow, t) && !IsConnection(InputAt(workflow, t)) }

  datatype Edge = Edge(from: string, output: int, to: Target)

  /** The wiring of the graph. */
  ghost function Edges(workflow: Document): iset<Edge> {
    iset t: Target | HasInput(workflow, t) && IsConnection(InputAt(workflow, t)) ::
      Edge(InputAt(workflow, t).items[0].s, InputAt(workflow, t).items[1].n, t)
  }

  // ---------- reading a profile ----------

  predicate Lower(c: char) { 'a' <= c <= 'z' }

  predicate Digit(c: char) { '0' <= c <= '9' }

  /** [a-z][a-z0-9]*(_[a-z0-9]+)* */
  predicate StableKey(s: string) {
    && s != "" && Lower(s[0])
    && (forall i :: 0 <= i < |s| ==> Lower(s[i]) || Digit(s[i]) || s[i] == '_')
    && s[|s| - 1] != '_'
    && (forall i :: 0 <= i < |s| - 1 ==> s[i] == '_' ==> s[i + 1] != '_')
  }

  /** What str.strip() removes. */
  predicate White(c: char) {
    || '\t' <= c <= '\r' || 0x1C as char <= c <= ' ' || c == 0x85 as char || c == 0xA0 as char || c == 0x1680 as char
    || 0x2000 as char <= c <= 0x200A as char || c == 0x2028 as char || c == 0x2029 as char || c == 0x202F as char
    || c == 0x205F as char || c == 0x3000 as char
  }

  predicate Nonblank(s: string) { exists i :: 0 <= i < |s| && !White(s[i]) }

  predicate WellFormedSlot(v: Json) {
    && v.Obj?
    && v.fields.Keys == {"key", "label", "node_id", "input_name"}
    && v.fields["key"].Str? && StableKey(v.fields["key"].s)
    && v.fields["label"].Str? && Nonblank(v.fields["label"].s)
    && HasString(v.fields, "node_id")
    && HasString(v.fields, "input_name")
  }

  function SlotOf(v: Json): Slot
    requires WellFormedSlot(v)
  {
    Slot(v.fields["key"].s, v.fields["label"].s, Target(v.fields["node_id"].s, v.fields["input_name"].s))
  }

  function TypeNamed(s: string): Result<ValueType> {
    if s == "string" then Ok(StringType)
    else if s == "integer" then Ok(IntegerType)
    else if s == "float" then Ok(FloatType)
    else if s == "boolean" then Ok(BooleanType)
    else PreparationError
  }

  predicate WellFormedParameter(v: Json) {
    && v.Obj?
    && v.fields.Keys == {"key", "label", "node_id", "input_name", "value_type"}
    && v.fields["key"].Str? && StableKey(v.fields["key"].s)
    && v.fields["value_type"].Str? && TypeNamed(v.fields["value_type"].s).Ok?
    && v.fields["label"].Str? && Nonblank(v.fields["label"].s)
    && HasString(v.fields, "node_id")
    && HasString(v.fields, "input_name")
  }

  function ParameterOf(v: Json): Parameter
    requires WellFormedParameter(v)
  {
    Parameter(v.fields["key"].s, v.fields["label"].s, Target(v.fields["node_id"].s, v.fields["input_name"].s),
              TypeNamed(v.fields["value_type"].s).value)
  }

  function RawList(profile: Document, name: string): Result<seq<Json>> {
    if name in profile && profile[name].List? then Ok(profile[name].items) else PreparationError
  }

  /** slots is what the array holds, in order, under unique keys. */
  ghost predicate SlotsRead(raw: seq<Json>, slots: seq<Slot>) {
    && |slots| == |raw|
    && (forall i :: 0 <= i < |raw| ==> WellFormedSlot(raw[i]) && slots[i] == SlotOf(raw[i]))
    && (forall i, j :: 0 <= i < j < |slots| ==> slots[i].key != slots[j].key)
  }

  ghost predicate ParametersRead(raw: seq<Json>, parameters: seq<Parameter>) {
    && |parameters| == |raw|
    && (forall i :: 0 <= i < |raw| ==> WellFormedParameter(raw[i]) && parameters[i] == ParameterOf(raw[i]))
    && (forall i, j :: 0 <= i < j < |parameters| ==> parameters[i].key != parameters[j].key)
  }

  /** workflow_profile_image_inputs */
  method ReadSlots(profile: Document) returns (r: Result<seq<Slot>>)
    ensures r.Ok? ==> RawList(profile, "image_inputs").Ok? && SlotsRead(RawList(profile, "image_inputs").value, r.value)
    ensures r.PreparationError? && RawList(profile, "image_inputs").Ok? ==>
      forall slots :: !SlotsRead(RawList(profile, "image_inputs").value, slots)
  {
    var raw := RawList(profile, "image_inputs");
    if raw.PreparationError? {
      return PreparationError;
    }
    var slots: seq<Slot> := [];
    var keys: set<string> := {};
    for i := 0 to |raw.value|
      invariant SlotsRead(raw.value[..i], slots)
      invariant keys == set j | 0 <= j < i :: slots[j].key
    {
      var value := raw.value[i];
      if !WellFormedSlot(value) {
        return PreparationError;
      }
      var slot := SlotOf(value);
      if slot.key in keys {
        var j :| 0 <= j < i && slots[j].key == slot.key;
        assert raw.value[..i][j] == raw.value[j];
        return PreparationError;
      }
      keys := keys + {slot.key};
      slots := slots + [slot];
      assert raw.value[..i + 1] == raw.value[..i] + [value];
    }
    assert raw.value[..|raw.value|] == raw.value;
    return Ok(slots);
  }

  /** workflow_profile_parameters */
  method ReadParameters(profile: Document) returns (r: Result<seq<Parameter>>)
    ensures
      r.Ok? ==> RawList(profile, "parameters").Ok? && ParametersRead(RawList(profile, "parameters").value, r.value)
    ensures r.PreparationError? && RawList(profile, "parameters").Ok? ==>
      forall parameters :: !ParametersRead(RawList(profile, "parameters").value, parameters)
  {
    var raw := RawList(profile, "parameters");
    if raw.PreparationError? {
      return PreparationError;
    }
    var parameters: seq<Parameter> := [];
    var keys: set<string> := {};
    for i := 0 to |raw.value|
      invariant ParametersRead(raw.value[..i], parameters)
      invariant keys == set j | 0 <= j < i :: parameters[j].key
    {
      var value := raw.value[i];
      if !WellFormedParameter(value) {
        return PreparationError;
      }
      var parameter := ParameterOf(value);
      if parameter.key in keys {
        var j :| 0 <= j < i && parameters[j].key == parameter.key;
        assert raw.value[..i][j] == raw.value[j];
        return PreparationError;
      }
      keys := keys + {parameter.key};
      parameters := parameters + [parameter];
      assert raw.value[..i + 1] == raw.value[..i] + [value];
    }
    assert raw.value[..|raw.value|] == raw.value;
    return Ok(parameters);
  }

  datatype Profile = Profile(prompt: Target, seed: Target, outputPrefix: Target, slots: seq<Slot>,
                             parameters: seq<Parameter>)

  predicate WellFormedMapping(v: Json, valueType: string) {
    && v.Obj?
    && v.fields.Keys == {"node_id", "input_name", "value_type"}
    && HasString(v.fields, "node_id")
    && HasString(v.fields, "input_name")
    && v.fields["value_type"] == Str(valueType)
  }

  function TargetOf(mapping: Json): Target
    requires mapping.Obj? && HasString(mapping.fields, "node_id") && HasString(mapping.fields, "input_name")
  {
    Target(mapping.fields["node_id"].s, mapping.fields["input_name"].s)
  }

  /** The three required mappings and no other, each for a value of its own type. */
  predicate WellFormedMappings(profile: Document) {
    && "mappings" in profile
    && profile["mappings"].Obj?
    && var mappings := profile["mappings"].fields;
    && mappings.Keys == {"prompt", "seed", "output_prefix"}
    && WellFormedMapping(mappings["prompt"], "string")
    && WellFormedMapping(mappings["seed"], "integer")
    && WellFormedMapping(mappings["output_prefix"], "string")
  }

  function MappingTarget(profile: Document, name: string): Target
    requires WellFormedMappings(profile) && name in {"prompt", "seed", "output_prefix"}
  {
    TargetOf(profile["mappings"].fields[name])
  }

  /** p is what the profile document says. */
  ghost predicate Reads(profile: Document, p: Profile) {
    && WellFormedMappings(profile)
    && p.prompt == MappingTarget(profile, "prompt")
    && p.seed == MappingTarget(profile, "seed")
    && p.outputPrefix == MappingTarget(profile, "output_prefix")
    && RawList(profile, "image_inputs").Ok?
    && SlotsRead(RawList(profile, "image_inputs").value, p.slots)
    && RawList(profile, "parameters").Ok?
    && ParametersRead(RawList(profile, "parameters").value, p.parameters)
  }

  lemma ReadingIsUnique(profile: Document, p: Profile, q: Profile)
    requires Reads(profile, p) && Reads(profile, q)
    ensures p == q
  {
    assert p.slots == q.slots;
    assert p.parameters == q.parameters;
  }

  method ReadProfile(profile: Document) returns (r: Result<Profile>)
    ensures r.Ok? ==> Reads(profile, r.value)
    ensures r.PreparationError? ==> forall p :: !Reads(profile, p)
  {
    if !WellFormedMappings(profile) {
      return PreparationError;
    }
    var slots := ReadSlots(profile);
    if slots.PreparationError? {
      return PreparationError;
    }
    var parameters := ReadParameters(profile);
    if parameters.PreparationError? {
      return PreparationError;
    }
    return Ok(Profile(MappingTarget(profile, "prompt"), MappingTarget(profile, "seed"),
                      MappingTarget(profile, "output_prefix"),
                      slots.value, parameters.value));
  }

  // ---------- a profile that fits a workflow ----------

  /** A JSON scalar of the parameter's type; integers within the safe range. */
  predicate ScalarMatches(t: ValueType, v: Json) {
    && (v.Int? ==> -MAX_SAFE_INTEGER <= v.n <= MAX_SAFE_INTEGER)
    && match t
       case StringType => v.Str?
       case IntegerType => v.Int?
       case FloatType => v.Int? || v.Float?
       case BooleanType => v.Bool?
  }

  function SlotTargets(slots: seq<Slot>): (targets: seq<Target>)
    ensures |targets| == |slots| && forall i :: 0 <= i < |slots| ==> targets[i] == slots[i].target
  {
    seq(|slots|, i requires 0 <= i < |slots| => slots[i].target)
  }

  function ParameterTargets(parameters: seq<Parameter>): (targets: seq<Target>)
    ensures |targets| == |parameters| && forall i :: 0 <= i < |parameters| ==> targets[i] == parameters[i].target
  {
    seq(|parameters|, i requires 0 <= i < |parameters| => parameters[i].target)
  }

  function Friendly(p: Profile): seq<Target> { [p.prompt, p.seed, p.outputPrefix] }

  /** Every target of the three sections. */
  function Targets(p: Profile): seq<Target> { Friendly(p) + SlotTargets(p.slots) + ParameterTargets(p.parameters) }

  ghost predicate Claimable(workflow: Document, targets: seq<Target>) {
    && (forall i, j :: 0 <= i < j < |targets| ==> targets[i] != targets[j])
    && (forall i :: 0 <= i < |targets| ==> HasLiteral(workflow, targets[i]))
  }

  ghost predicate BaseMatches(workflow: Document, parameters: seq<Parameter>) {
    forall i :: 0 <= i < |parameters| ==>
      HasInput(workflow, parameters[i].target) && ScalarMatches(parameters[i].valueType,
                                                                InputAt(workflow, parameters[i].target))
  }

  /** No two sections write one input; every target is a literal input; parameters start out typed. */
  ghost predicate Fits(workflow: Document, p: Profile) {
    Claimable(workflow, Targets(p)) && BaseMatches(workflow, p.parameters)
  }

  ghost predicate ValidProfile(workflow: Document, profile: Document) {
    ValidWorkflow(workflow) && exists p :: Reads(profile, p) && Fits(workflow, p)
  }

  /** used holds the targets claimed so far; one more is refused when it is taken or not a literal. */
  method Claim(workflow: Document, ghost targets: seq<Target>, used: set<Target>, target: Target)
    returns (r: Result<set<Target>>)
    requires Claimable(workflow, targets) && used == set t | t in targets
    ensures r.Ok? <==> Claimable(workflow, targets + [target])
    ensures r.Ok? ==> r.value == set t | t in targets + [target]
  {
    assert forall i :: 0 <= i < |targets| ==> (targets + [target])[i] == targets[i];
    assert (targets + [target])[|targets|] == target;
    if target in used {
      ghost var i :| 0 <= i < |targets| && targets[i] == target;
      assert (targets + [target])[i] == target;
      return PreparationError;
    }
    if !HasLiteral(workflow, target) {
      return PreparationError;
    }
    return Ok(used + {target});
  }

  lemma PrefixClaimable(workflow: Document, targets: seq<Target>, k: nat)
    requires k <= |targets|
    ensures Claimable(workflow, targets) ==> Claimable(workflow, targets[..k])
  {
  }

  /** The loops over the three sections, as one pass over a section's targets. */
  method ClaimAll(workflow: Document, ghost earlier: seq<Target>, used: set<Target>, section: seq<Target>)
    returns (r: Result<set<Target>>)
    requires Claimable(workflow, earlier) && used == set t | t in earlier
    ensures r.Ok? <==> Claimable(workflow, earlier + section)
    ensures r.Ok? ==> r.value == set t | t in earlier + section
  {
    var claimed := used;
    assert earlier + section[..0] == earlier;
    for i := 0 to |section|
      invariant Claimable(workflow, earlier + section[..i])
      invariant claimed == set t | t in earlier + section[..i]
    {
      assert earlier + section[..i + 1] == (earlier + section[..i]) + [section[i]];
      assert (earlier + section)[..|earlier| + i + 1] == earlier + section[..i + 1];
      PrefixClaimable(workflow, earlier + section, |earlier| + i + 1);
      var next := Claim(workflow, earlier + section[..i], claimed, section[i]);
      if next.PreparationError? {
        return PreparationError;
      }
      claimed := next.value;
    }
    assert section[..|section|] == section;
    return Ok(claimed);
  }

  method CheckBaseValues(workflow: Document, parameters: seq<Parameter>) returns (r: Result<()>)
    ensures r.Ok? <==> BaseMatches(workflow, parameters)
  {
    for i := 0 to |parameters|
      invariant BaseMatches(workflow, parameters[..i])
    {
      if !HasInput(workflow, parameters[i].target) || !ScalarMatches(parameters[i].valueType,
                                                                     InputAt(workflow, parameters[i].target)) {
        return PreparationError;
      }
    }
    assert parameters[..|parameters|] == parameters;
    return Ok(());
  }

  /** validate_workflow_profile */
  method ValidateProfile(workflow: Document, profile: Document) returns (r: Result<()>)
    ensures r.Ok? <==> ValidProfile(workflow, profile)
  {
    var graph := ValidateWorkflow(workflow);
    if graph.PreparationError? {
      return PreparationError;
    }
    var read := ReadProfile(profile);
    if read.PreparationError? {
      return PreparationError;
    }
    var p := read.value;
    forall q | Reads(profile, q) ensures q == p { ReadingIsUnique(profile, p, q); }
    ghost var all := Targets(p);
    assert all[..3] == Friendly(p) && all[..3 + |p.slots|] == Friendly(p) + SlotTargets(p.slots);
    PrefixClaimable(workflow, all, 3);
    PrefixClaimable(workflow, all, 3 + |p.slots|);
    assert [] + Friendly(p) == Friendly(p);
    var used := ClaimAll(workflow, [], {}, Friendly(p));
    if used.PreparationError? {
      return PreparationError;
    }
    used := ClaimAll(workflow, Friendly(p), used.value, SlotTargets(p.slots));
    if used.PreparationError? {
      return PreparationError;
    }
    used := ClaimAll(workflow, Friendly(p) + SlotTargets(p.slots), used.value, ParameterTargets(p.parameters));
    if used.PreparationError? {
      return PreparationError;
    }
    var values := CheckBaseValues(workflow, p.parameters);
    return values;
  }

  // ---------- preparation ----------

  /** What one Job supplies; every part but the two texts is checked when used. */
  datatype Values = Values(prompt: string, images: Document, seed: Json, outputPrefix: string, parameters: Document)

  predicate Doubled(s: string, c: char) { exists i :: 0 <= i < |s| - 1 && s[i] == c && s[i + 1] == c }

  ghost predicate ValuesUsable(values: Values) {
    && !Doubled(values.prompt, '{') && !Doubled(values.prompt, '}')
    && (forall key :: key in values.images ==> StableKey(key) && NonemptyString(values.images[key]))
    && values.seed.Int?
    && values.outputPrefix != ""
  }

  /** The image keys name slots, the parameter keys name parameters, and the overrides are typed. */
  ghost predicate ValuesKnown(p: Profile, values: Values) {
    && (forall key :: key in values.images ==> exists i :: 0 <= i < |p.slots| && p.slots[i].key == key)
    && (forall key :: key in values.parameters ==> exists i :: 0 <= i < |p.parameters| && p.parameters[i].key == key)
    && (forall i :: 0 <= i < |p.parameters| && p.parameters[i].key in values.parameters ==>
          ScalarMatches(p.parameters[i].valueType, values.parameters[p.parameters[i].key]))
  }

  ghost predicate Preparable(base: Document, profile: Document, values: Values) {
    && ValuesUsable(values)
    && ValidProfile(base, profile)
    && forall p :: Reads(profile, p) ==> ValuesKnown(p, values)
  }

  ghost predicate SameNode(a: Json, b: Json) {
    && a.Obj? && b.Obj?
    && a.fields.Keys == b.fields.Keys
    && (forall f :: f in a.fields && f != "inputs" ==> a.fields[f] == b.fields[f])
    && "inputs" in a.fields && a.fields["inputs"].Obj? && b.fields["inputs"].Obj?
    && a.fields["inputs"].fields.Keys == b.fields["inputs"].fields.Keys
  }

  /** The same nodes, the same data about each, and the same input names. */
  ghost predicate SameShape(base: Document, out: Document) {
    base.Keys == out.Keys && forall id :: id in base ==> SameNode(base[id], out[id])
  }

  /** The inputs the values write: the three friendly ones, and the slots and parameters supplied. */
  ghost function Supplied(p: Profile, values: Values, slots: nat, parameters: nat): set<Target>
    requires slots <= |p.slots| && parameters <= |p.parameters|
  {
    {p.prompt, p.seed, p.outputPrefix}
    + (set i | 0 <= i < slots && p.slots[i].key in values.images :: p.slots[i].target)
    + (set i | 0 <= i < parameters && p.parameters[i].key in values.parameters :: p.parameters[i].target)
  }

  ghost predicate Holds(out: Document, t: Target, v: Json) { HasInput(out, t) && InputAt(out, t) == v }

  /** out is base with exactly the supplied values written, each at its own target. */
  ghost predicate Prepared(base: Document, p: Profile, values: Values, out: Document) {
    && SameShape(base, out)
    && Holds(out, p.prompt, Str(values.prompt))
    && Holds(out, p.seed, values.seed)
    && Holds(out, p.outputPrefix, Str(values.outputPrefix))
    && (forall i :: 0 <= i < |p.slots| && p.slots[i].key in values.images ==>
          Holds(out, p.slots[i].target, values.images[p.slots[i].key]))
    && (forall i :: 0 <= i < |p.parameters| && p.parameters[i].key in values.parameters ==>
          Holds(out, p.parameters[i].target, values.parameters[p.parameters[i].key]))
    && (forall t :: HasInput(base, t) && t !in Supplied(p, values, |p.slots|, |p.parameters|) ==>
          Holds(out, t, InputAt(base, t)))
  }

  function Put(workflow: Document, t: Target, v: Json): Document
    requires HasInput(workflow, t)
  {
    workflow[t.node := Obj(workflow[t.node].fields["inputs" := Obj(Inputs(workflow, t.node)[t.input := v])])]
  }

  /** out is base with those inputs replaced. */
  ghost predicate Overlaid(base: Document, out: Document, writes: map<Target, Json>) {
    && SameShape(base, out)
    && forall t :: HasInput(base, t) ==> Holds(out, t, if t in writes then writes[t] else InputAt(base, t))
  }

  lemma ShapeInputs(base: Document, out: Document, t: Target)
    requires SameShape(base, out)
    ensures HasInput(base, t) <==> HasInput(out, t)
  {
  }

  lemma PutInput(workflow: Document, t: Target, v: Json, u: Target)
    requires HasInput(workflow, t)
    ensures HasInput(Put(workflow, t, v), u) <==> HasInput(workflow, u)
    ensures HasInput(workflow, u) ==> InputAt(Put(workflow, t, v), u) == if u == t then v else InputAt(workflow, u)
  {
  }

  lemma PutShape(base: Document, workflow: Document, t: Target, v: Json)
    requires SameShape(base, workflow) && HasInput(workflow, t)
    ensures SameShape(base, Put(workflow, t, v))
  {
    assert SameNode(workflow[t.node], Put(workflow, t, v)[t.node]);
  }

  lemma PutOverlaid(base: Document, workflow: Document, writes: map<Target, Json>, t: Target, v: Json)
    requires Overlaid(base, workflow, writes) && HasInput(base, t)
    ensures HasInput(workflow, t) && Overlaid(base, Put(workflow, t, v), writes[t := v])
  {
    ShapeInputs(base, workflow, t);
    PutShape(base, workflow, t, v);
    forall u | HasInput(base, u)
      ensures Holds(Put(workflow, t, v), u, if u in writes[t := v] then writes[t := v][u] else InputAt(base, u))
    {
      ShapeInputs(base, workflow, u);
      PutInput(workflow, t, v, u);
      assert Holds(workflow, u, if u in writes then writes[u] else InputAt(base, u));
    }
  }

  /** Writes to different inputs commute. */
  lemma WritesCommute(workflow: Document, t: Target, v: Json, u: Target, w: Json)
    requires HasInput(workflow, t) && HasInput(workflow, u) && t != u
    ensures HasInput(Put(workflow, t, v), u) && HasInput(Put(workflow, u, w), t)
    ensures Put(Put(workflow, t, v), u, w) == Put(Put(workflow, u, w), t, v)
  {
    if t.node == u.node {
      var inputs := Inputs(workflow, t.node);
      assert inputs[t.input := v][u.input := w] == inputs[u.input := w][t.input := v];
    }
    var a, b := Put(Put(workflow, t, v), u, w), Put(Put(workflow, u, w), t, v);
    assert a[t.node].fields == b[t.node].fields;
    assert a[u.node].fields == b[u.node].fields;
  }

  /** What has been written after so many slots and parameters. */
  ghost predicate WrittenSoFar(p: Profile, values: Values, slots: nat, parameters: nat, writes: map<Target, Json>)
    requires slots <= |p.slots| && parameters <= |p.parameters|
  {
    && writes.Keys == Supplied(p, values, slots, parameters)
    && writes[p.prompt] == Str(values.prompt)
    && writes[p.seed] == values.seed
    && writes[p.outputPrefix] == Str(values.outputPrefix)
    && (forall i :: 0 <= i < slots && p.slots[i].key in values.images ==>
          p.slots[i].target in writes && writes[p.slots[i].target] == values.images[p.slots[i].key])
    && (forall i :: 0 <= i < parameters && p.parameters[i].key in values.parameters ==>
          p.parameters[i].target in writes && writes[p.parameters[i].target] == values.parameters[p.parameters[i].key])
  }

  /** Targets of different sections, or of different entries of one, are different. */
  ghost predicate Apart(p: Profile) {
    && p.prompt != p.seed && p.prompt != p.outputPrefix && p.seed != p.outputPrefix
    && (forall i :: 0 <= i < |p.slots| ==>
          p.slots[i].target != p.prompt && p.slots[i].target != p.seed && p.slots[i].target != p.outputPrefix)
    && (forall i :: 0 <= i < |p.parameters| ==>
          p.parameters[i].target != p.prompt
          && p.parameters[i].target != p.seed && p.parameters[i].target != p.outputPrefix)
    && (forall i, j :: 0 <= i < j < |p.slots| ==> p.slots[i].target != p.slots[j].target)
    && (forall i, j :: 0 <= i < j < |p.parameters| ==> p.parameters[i].target != p.parameters[j].target)
    && (forall i, j :: 0 <= i < |p.slots| && 0 <= j < |p.parameters| ==> p.slots[i].target != p.parameters[j].target)
  }

  lemma TargetsApart(base: Document, p: Profile)
    requires Fits(base, p)
    ensures Apart(p)
  {
    var all := Targets(p);
    assert all[0] == p.prompt && all[1] == p.seed && all[2] == p.outputPrefix;
    forall i | 0 <= i < |p.slots| ensures all[3 + i] == p.slots[i].target {}
    forall i | 0 <= i < |p.parameters| ensures all[3 + |p.slots| + i] == p.parameters[i].target {}
  }

  ghost predicate LiteralTargets(base: Document, p: Profile) {
    && HasLiteral(base, p.prompt) && HasLiteral(base, p.seed) && HasLiteral(base, p.outputPrefix)
    && (forall i :: 0 <= i < |p.slots| ==> HasLiteral(base, p.slots[i].target))
    && (forall i :: 0 <= i < |p.parameters| ==> HasLiteral(base, p.parameters[i].target))
  }

  lemma TargetsLiteral(base: Document, p: Profile)
    requires Fits(base, p)
    ensures LiteralTargets(base, p)
  {
    var all := Targets(p);
    assert all[0] == p.prompt && all[1] == p.seed && all[2] == p.outputPrefix;
    forall i | 0 <= i < |p.slots| ensures HasLiteral(base, p.slots[i].target) {
      assert all[3 + i] == p.slots[i].target;
    }
    forall i | 0 <= i < |p.parameters| ensures HasLiteral(base, p.parameters[i].target) {
      assert all[3 + |p.slots| + i] == p.parameters[i].target;
    }
  }

  /** The checks made before the workflow is looked at. */
  method CheckValues(values: Values) returns (r: Result<()>)
    ensures r.Ok? <==> ValuesUsable(values)
  {
    if Doubled(values.prompt, '{') || Doubled(values.prompt, '}') {
      return PreparationError;
    }
    var pending := values.images.Keys;
    while pending != {}
      invariant pending <= values.images.Keys
      invariant
        forall key :: key in values.images && key !in pending ==> StableKey(key) && NonemptyString(values.images[key])
    {
      var key :| key in pending;
      if !StableKey(key) || !NonemptyString(values.images[key]) {
        return PreparationError;
      }
      pending := pending - {key};
    }
    if !values.seed.Int? || values.outputPrefix == "" {
      return PreparationError;
    }
    return Ok(());
  }

  /** Unknown slot keys, unknown parameter keys, then each override against its parameter's type. */
  method CheckKnown(p: Profile, values: Values) returns (r: Result<()>)
    requires forall i, j :: 0 <= i < j < |p.parameters| ==> p.parameters[i].key != p.parameters[j].key
    ensures r.Ok? <==> ValuesKnown(p, values)
  {
    var slotKeys := set i | 0 <= i < |p.slots| :: p.slots[i].key;
    if values.images.Keys - slotKeys != {} {
      var key :| key in values.images.Keys - slotKeys;
      return PreparationError;
    }
    forall key | key in values.images ensures exists i :: 0 <= i < |p.slots| && p.slots[i].key == key {
      assert key !in values.images.Keys - slotKeys;
    }
    var parameterKeys := set i | 0 <= i < |p.parameters| :: p.parameters[i].key;
    if values.parameters.Keys - parameterKeys != {} {
      var key :| key in values.parameters.Keys - parameterKeys;
      return PreparationError;
    }
    forall key | key in values.parameters ensures exists i :: 0 <= i < |p.parameters| && p.parameters[i].key == key {
      assert key !in values.parameters.Keys - parameterKeys;
    }
    var pending := values.parameters.Keys;
    while pending != {}
      invariant pending <= values.parameters.Keys
      invariant forall i ::
        0 <= i < |p.parameters| && p.parameters[i].key in values.parameters && p.parameters[i].key !in pending ==>
        ScalarMatches(p.parameters[i].valueType, values.parameters[p.parameters[i].key])
    {
      var key :| key in pending;
      var i :| 0 <= i < |p.parameters| && p.parameters[i].key == key;
      if !ScalarMatches(p.parameters[i].valueType, values.parameters[key]) {
        return PreparationError;
      }
      pending := pending - {key};
    }
    return Ok(());
  }

  // ---------- the writes, section by section ----------

  const NO_WRITES: map<Target, Json> := map[]

  ghost function FriendlyWrites(p: Profile, values: Values): map<Target, Json> {
    NO_WRITES[p.prompt := Str(values.prompt)][p.seed := values.seed][p.outputPrefix := Str(values.outputPrefix)]
  }

  ghost function AfterSlot(slot: Slot, values: Values, writes: map<Target, Json>): map<Target, Json> {
    if slot.key in values.images then writes[slot.target := values.images[slot.key]] else writes
  }

  ghost function AfterParameter(parameter: Parameter, values: Values, writes: map<Target, Json>): map<Target, Json> {
    if parameter.key in values.parameters then writes[parameter.target := values.parameters[parameter.key]] else writes
  }

  ghost function SlotWrites(p: Profile, values: Values, k: nat): map<Target, Json>
    requires k <= |p.slots|
  {
    if k == 0 then FriendlyWrites(p, values)
    else AfterSlot(p.slots[k - 1], values, SlotWrites(p, values, k - 1))
  }

  ghost function ParameterWrites(p: Profile, values: Values, k: nat): map<Target, Json>
    requires k <= |p.parameters|
  {
    if k == 0 then SlotWrites(p, values, |p.slots|)
    else AfterParameter(p.parameters[k - 1], values, ParameterWrites(p, values, k - 1))
  }

  ghost function Writes(p: Profile, values: Values): map<Target, Json> { ParameterWrites(p, values, |p.parameters|) }

  lemma FriendlyWritten(p: Profile, values: Values)
    requires Apart(p)
    ensures WrittenSoFar(p, values, 0, 0, FriendlyWrites(p, values))
  {
  }

  lemma SlotWritten(p: Profile, values: Values, k: nat, writes: map<Target, Json>, next: map<Target, Json>)
    requires Apart(p) && k < |p.slots| && WrittenSoFar(p, values, k, 0, writes)
    requires next == AfterSlot(p.slots[k], values, writes)
    ensures WrittenSoFar(p, values, k + 1, 0, next)
  {
  }

  lemma ParameterWritten(p: Profile, values: Values, k: nat, writes: map<Target, Json>, next: map<Target, Json>)
    requires Apart(p) && k < |p.parameters| && WrittenSoFar(p, values, |p.slots|, k, writes)
    requires next == AfterParameter(p.parameters[k], values, writes)
    ensures WrittenSoFar(p, values, |p.slots|, k + 1, next)
  {
  }

  lemma {:induction false} SlotsWritten(p: Profile, values: Values, k: nat)
    requires Apart(p) && k <= |p.slots|
    ensures WrittenSoFar(p, values, k, 0, SlotWrites(p, values, k))
  {
    if k == 0 {
      FriendlyWritten(p, values);
    } else {
      SlotsWritten(p, values, k - 1);
      SlotWritten(p, values, k - 1, SlotWrites(p, values, k - 1), SlotWrites(p, values, k));
    }
  }

  lemma {:induction false} ParametersWritten(p: Profile, values: Values, k: nat)
    requires Apart(p) && k <= |p.parameters|
    ensures WrittenSoFar(p, values, |p.slots|, k, ParameterWrites(p, values, k))
  {
    if k == 0 {
      SlotsWritten(p, values, |p.slots|);
    } else {
      ParametersWritten(p, values, k - 1);
      ParameterWritten(p, values, k - 1, ParameterWrites(p, values, k - 1), ParameterWrites(p, values, k));
    }
  }

  /** Prepared says the same as overlaying the accumulated writes: no write hides another. */
  lemma PreparedIsOverlay(base: Document, p: Profile, values: Values, out: Document)
    requires Fits(base, p)
    ensures Prepared(base, p, values, out) <==> Overlaid(base, out, Writes(p, values))
  {
    var writes := Writes(p, values);
    TargetsApart(base, p);
    TargetsLiteral(base, p);
    ParametersWritten(p, values, |p.parameters|);
    if Overlaid(base, out, writes) {
      WrittenIsPrepared(base, p, values, out, writes);
    }
    if Prepared(base, p, values, out) {
      forall t | HasInput(base, t) ensures Holds(out, t, if t in writes then writes[t] else InputAt(base, t)) {
        if t in writes {
          SuppliedHolds(base, p, values, out, writes, t);
        }
      }
    }
  }

  lemma WrittenIsPrepared(base: Document, p: Profile, values: Values, out: Document, writes: map<Target, Json>)
    requires LiteralTargets(base, p) && Overlaid(base, out, writes)
    requires WrittenSoFar(p, values, |p.slots|, |p.parameters|, writes)
    ensures Prepared(base, p, values, out)
  {
  }

  lemma SuppliedHolds(base: Document, p: Profile, values: Values, out: Document, writes: map<Target, Json>, t: Target)
    requires Prepared(base, p, values, out) && WrittenSoFar(p, values, |p.slots|, |p.parameters|, writes)
    requires t in writes
    ensures Holds(out, t, writes[t])
  {
  }

  /** Every write goes to a literal input, and writes no connection. */
  ghost predicate LiteralWrites(base: Document, writes: map<Target, Json>) {
    forall t :: t in writes ==> HasLiteral(base, t) && !IsConnection(writes[t])
  }

  lemma {:induction false} SlotWritesLiteral(base: Document, p: Profile, values: Values, k: nat)
    requires LiteralTargets(base, p) && ValuesUsable(values) && k <= |p.slots|
    ensures LiteralWrites(base, SlotWrites(p, values, k))
  {
    if k == 0 {
    } else {
      SlotWritesLiteral(base, p, values, k - 1);
    }
  }

  lemma {:induction false} ParameterWritesLiteral(base: Document, p: Profile, values: Values, k: nat)
    requires LiteralTargets(base, p) && ValuesUsable(values) && ValuesKnown(p, values) && k <= |p.parameters|
    ensures LiteralWrites(base, ParameterWrites(p, values, k))
  {
    if k == 0 {
      SlotWritesLiteral(base, p, values, |p.slots|);
    } else {
      ParameterWritesLiteral(base, p, values, k - 1);
    }
  }

  /** The three loops of writes, section by section. */
  method WriteValues(base: Document, p: Profile, values: Values) returns (workflow: Document)
    requires ValidWorkflow(base) && Fits(base, p)
    ensures Prepared(base, p, values, workflow)
  {
    TargetsLiteral(base, p);
    workflow := WriteFriendly(base, p, values);
    workflow := WriteSlots(base, workflow, p, values);
    workflow := WriteParameters(base, workflow, p, values);
    PreparedIsOverlay(base, p, values, workflow);
  }

  /** workflow[node]["inputs"][input] = value */
  method Write(ghost base: Document, written: Document, ghost writes: map<Target, Json>, t: Target, v: Json)
    returns (workflow: Document)
    requires Overlaid(base, written, writes) && HasInput(base, t)
    ensures Overlaid(base, workflow, writes[t := v])
  {
    PutOverlaid(base, written, writes, t, v);
    workflow := Put(written, t, v);
  }

  method WriteSlot(ghost base: Document, written: Document, p: Profile, values: Values, k: nat)
    returns (workflow: Document)
    requires k < |p.slots| && HasInput(base, p.slots[k].target) && Overlaid(base, written, SlotWrites(p, values, k))
    ensures Overlaid(base, workflow, SlotWrites(p, values, k + 1))
  {
    var slot := p.slots[k];
    workflow := written;
    if slot.key in values.images {
      workflow := Write(base, workflow, SlotWrites(p, values, k), slot.target, values.images[slot.key]);
    }
  }

  method WriteSlots(ghost base: Document, written: Document, p: Profile, values: Values) returns (workflow: Document)
    requires forall i :: 0 <= i < |p.slots| ==> HasInput(base, p.slots[i].target)
    requires Overlaid(base, written, SlotWrites(p, values, 0))
    ensures Overlaid(base, workflow, SlotWrites(p, values, |p.slots|))
  {
    workflow := written;
    for k := 0 to |p.slots|
      invariant Overlaid(base, workflow, SlotWrites(p, values, k))
    {
      workflow := WriteSlot(base, workflow, p, values, k);
    }
  }

  method WriteParameter(ghost base: Document, written: Document, p: Profile, values: Values, k: nat)
    returns (workflow: Document)
    requires k < |p.parameters| && HasInput(base, p.parameters[k].target)
    requires Overlaid(base, written, ParameterWrites(p, values, k))
    ensures Overlaid(base, workflow, ParameterWrites(p, values, k + 1))
  {
    var parameter := p.parameters[k];
    workflow := written;
    if parameter.key in values.parameters {
      workflow := Write(base, workflow, ParameterWrites(p, values, k), parameter.target,
                        values.parameters[parameter.key]);
    }
  }

  method WriteParameters(ghost base: Document, written: Document, p: Profile, values: Values)
    returns (workflow: Document)
    requires forall i :: 0 <= i < |p.parameters| ==> HasInput(base, p.parameters[i].target)
    requires Overlaid(base, written, ParameterWrites(p, values, 0))
    ensures Overlaid(base, workflow, ParameterWrites(p, values, |p.parameters|))
  {
    workflow := written;
    for k := 0 to |p.parameters|
      invariant Overlaid(base, workflow, ParameterWrites(p, values, k))
    {
      workflow := WriteParameter(base, workflow, p, values, k);
    }
  }

  method WriteFriendly(base: Document, p: Profile, values: Values) returns (workflow: Document)
    requires ValidWorkflow(base) && LiteralTargets(base, p)
    ensures Overlaid(base, workflow, FriendlyWrites(p, values))
  {
    BaseOverlaid(base);
    workflow := Write(base, base, NO_WRITES, p.prompt, Str(values.prompt));
    workflow := Write(base, workflow, NO_WRITES[p.prompt := Str(values.prompt)], p.seed, values.seed);
    workflow := Write(base, workflow, NO_WRITES[p.prompt := Str(values.prompt)][p.seed := values.seed], p.outputPrefix,
                      Str(values.outputPrefix));
  }

  lemma BaseOverlaid(base: Document)
    requires ValidWorkflow(base)
    ensures Overlaid(base, base, NO_WRITES)
  {
    forall id | id in base ensures SameNode(base[id], base[id]) { assert ValidNode(base[id]); }
  }

  /** prepare_workflow */
  method Prepare(base: Document, profile: Document, values: Values) returns (r: Result<Document>)
    ensures r.Ok? <==> Preparable(base, profile, values)
    ensures r.Ok? ==> forall p :: Reads(profile, p) ==> Prepared(base, p, values, r.value)
  {
    var usable := CheckValues(values);
    if usable.PreparationError? {
      return PreparationError;
    }
    var valid := ValidateProfile(base, profile);
    if valid.PreparationError? {
      return PreparationError;
    }
    var read := ReadProfile(profile);
    assert read.Ok?;
    var p := read.value;
    forall q | Reads(profile, q) ensures q == p { ReadingIsUnique(profile, p, q); }
    var known := CheckKnown(p, values);
    if known.PreparationError? {
      return PreparationError;
    }
    var workflow := WriteValues(base, p, values);
    return Ok(workflow);
  }

  // ---------- what preparation keeps ----------

  /** Prepared leaves no freedom: base, profile and values determine the workflow, so the order in
      which the sections are written does not matter. */
  lemma PreparedIsUnique(base: Document, p: Profile, values: Values, a: Document, b: Document)
    requires Fits(base, p)
    requires Prepared(base, p, values, a) && Prepared(base, p, values, b)
    ensures a == b
  {
    PreparedIsOverlay(base, p, values, a);
    PreparedIsOverlay(base, p, values, b);
    SameOverlay(base, a, b, Writes(p, values));
  }

  lemma SameOverlay(base: Document, a: Document, b: Document, writes: map<Target, Json>)
    requires Overlaid(base, a, writes) && Overlaid(base, b, writes)
    ensures a == b
  {
    forall id | id in base ensures a[id] == b[id] {
      SameNodeOverlay(base, a, b, writes, id);
    }
  }

  lemma SameNodeOverlay(base: Document, a: Document, b: Document, writes: map<Target, Json>, id: string)
    requires Overlaid(base, a, writes) && Overlaid(base, b, writes) && id in base
    ensures a[id] == b[id]
  {
    assert SameNode(base[id], a[id]) && SameNode(base[id], b[id]);
    forall name | name in Inputs(a, id) ensures Inputs(a, id)[name] == Inputs(b, id)[name] {
      var t := Target(id, name);
      assert HasInput(base, t);
      var v := if t in writes then writes[t] else InputAt(base, t);
      assert Holds(a, t, v) && Holds(b, t, v);
    }
    assert Inputs(a, id) == Inputs(b, id);
    assert a[id].fields["inputs"] == b[id].fields["inputs"];
    assert a[id].fields == b[id].fields;
  }

  lemma ConnectionKept(base: Document, out: Document, writes: map<Target, Json>, t: Target)
    requires Overlaid(base, out, writes) && LiteralWrites(base, writes)
    ensures HasInput(base, t) <==> HasInput(out, t)
    ensures HasInput(base, t) ==> (IsConnection(InputAt(base, t)) <==> IsConnection(InputAt(out, t)))
    ensures HasInput(base, t) && IsConnection(InputAt(base, t)) ==> InputAt(base, t) == InputAt(out, t)
  {
    ShapeInputs(base, out, t);
    if HasInput(base, t) {
      assert Holds(out, t, if t in writes then writes[t] else InputAt(base, t));
    }
  }

  /** Preparation never touches the wiring. */
  lemma WiringUnchanged(base: Document, p: Profile, values: Values, out: Document)
    requires Fits(base, p) && ValuesUsable(values) && ValuesKnown(p, values) && Prepared(base, p, values, out)
    ensures Edges(out) == Edges(base)
  {
    PreparedIsOverlay(base, p, values, out);
    TargetsLiteral(base, p);
    ParameterWritesLiteral(base, p, values, |p.parameters|);
    forall e ensures e in Edges(out) <==> e in Edges(base) {
      ConnectionKept(base, out, Writes(p, values), e.to);
    }
  }

  lemma ValidWorkflowKept(base: Document, out: Document)
    requires ValidWorkflow(base) && SameShape(base, out)
    ensures ValidWorkflow(out)
  {
    assert out != map[] by {
      var id :| id in base;
      assert id in out;
    }
    forall id | id in out ensures id != "" && ValidNode(out[id]) {
      assert SameNode(base[id], out[id]) && ValidNode(base[id]);
    }
  }

  lemma FitsKept(base: Document, p: Profile, values: Values, out: Document)
    requires Fits(base, p) && ValuesUsable(values) && ValuesKnown(p, values) && Prepared(base, p, values, out)
    ensures Fits(out, p)
  {
    PreparedIsOverlay(base, p, values, out);
    TargetsLiteral(base, p);
    ParameterWritesLiteral(base, p, values, |p.parameters|);
    forall i | 0 <= i < |Targets(p)| ensures HasLiteral(out, Targets(p)[i]) {
      assert HasLiteral(base, Targets(p)[i]);
      ConnectionKept(base, out, Writes(p, values), Targets(p)[i]);
    }
    forall i | 0 <= i < |p.parameters|
      ensures HasInput(out, p.parameters[i].target)
      ensures ScalarMatches(p.parameters[i].valueType, InputAt(out, p.parameters[i].target))
    {
      ParameterStaysTyped(base, p, values, out, i);
    }
  }

  lemma ParameterStaysTyped(base: Document, p: Profile, values: Values, out: Document, i: nat)
    requires Fits(base, p) && ValuesKnown(p, values) && Prepared(base, p, values, out) && i < |p.parameters|
    ensures HasInput(out, p.parameters[i].target)
    ensures ScalarMatches(p.parameters[i].valueType, InputAt(out, p.parameters[i].target))
  {
    var t := p.parameters[i].target;
    if p.parameters[i].key in values.parameters {
      assert Holds(out, t, values.parameters[p.parameters[i].key]);
    } else {
      TargetsApart(base, p);
      NotSupplied(p, values, i);
      assert Holds(out, t, InputAt(base, t));
    }
  }

  lemma NotSupplied(p: Profile, values: Values, i: nat)
    requires Apart(p) && i < |p.parameters| && p.parameters[i].key !in values.parameters
    ensures p.parameters[i].target !in Supplied(p, values, |p.slots|, |p.parameters|)
  {
  }

  /** What was prepared validates against the same profile. */
  lemma PreparedIsValid(base: Document, profile: Document, values: Values, p: Profile, out: Document)
    requires Preparable(base, profile, values) && Reads(profile, p) && Prepared(base, p, values, out)
    ensures ValidProfile(out, profile)
  {
    FitsOf(base, profile, p);
    ValidWorkflowKept(base, out);
    FitsKept(base, p, values, out);
  }

  lemma FitsOf(base: Document, profile: Document, p: Profile)
    requires ValidProfile(base, profile) && Reads(profile, p)
    ensures Fits(base, p)
  {
    var q :| Reads(profile, q) && Fits(base, q);
    ReadingIsUnique(profile, p, q);
  }

  // ---------- preparing what was prepared ----------

  /** The later values, over those of the earlier ones they leave out. */
  function Merged(earlier: Values, later: Values): Values {
    later.(images := earlier.images + later.images, parameters := earlier.parameters + later.parameters)
  }

  lemma OverlayTwice(base: Document, middle: Document, out: Document, first: map<Target, Json>,
                     second: map<Target, Json>)
    requires Overlaid(base, middle, first) && Overlaid(middle, out, second)
    ensures Overlaid(base, out, first + second)
  {
    ShapeTransitive(base, middle, out);
    forall t | HasInput(base, t)
      ensures Holds(out, t, if t in first + second then (first + second)[t] else InputAt(base, t))
    {
      assert Holds(middle, t, if t in first then first[t] else InputAt(base, t));
      assert Holds(out, t, if t in second then second[t] else InputAt(middle, t));
    }
  }

  lemma ShapeTransitive(a: Document, b: Document, c: Document)
    requires SameShape(a, b) && SameShape(b, c)
    ensures SameShape(a, c)
  {
    forall id | id in a ensures SameNode(a[id], c[id]) {
      assert SameNode(a[id], b[id]) && SameNode(b[id], c[id]);
    }
  }

  lemma MergedWrites(p: Profile, earlier: Values, later: Values)
    requires Apart(p)
    ensures Writes(p, Merged(earlier, later)) == Writes(p, earlier) + Writes(p, later)
  {
    WritesKeys(p, earlier);
    WritesKeys(p, later);
    WritesKeys(p, Merged(earlier, later));
    MergedKeys(p, earlier, later);
    forall t | t in Supplied(p, Merged(earlier, later), |p.slots|, |p.parameters|)
      ensures Writes(p, Merged(earlier, later))[t] == (Writes(p, earlier) + Writes(p, later))[t]
    {
      MergedAt(p, earlier, later, t);
    }
  }

  lemma WritesKeys(p: Profile, values: Values)
    requires Apart(p)
    ensures Writes(p, values).Keys == Supplied(p, values, |p.slots|, |p.parameters|)
  {
    ParametersWritten(p, values, |p.parameters|);
  }

  lemma MergedKeys(p: Profile, earlier: Values, later: Values)
    ensures Supplied(p, Merged(earlier, later), |p.slots|, |p.parameters|)
         == Supplied(p, earlier, |p.slots|, |p.parameters|) + Supplied(p, later, |p.slots|, |p.parameters|)
  {
  }

  lemma SuppliedCases(p: Profile, values: Values, t: Target)
    requires t in Supplied(p, values, |p.slots|, |p.parameters|)
    ensures || t == p.prompt || t == p.seed || t == p.outputPrefix
            || (exists i :: 0 <= i < |p.slots| && p.slots[i].key in values.images && p.slots[i].target == t)
            || (exists j ::
                  0 <= j < |p.parameters| && p.parameters[j].key in values.parameters && p.parameters[j].target == t)
  {
  }

  lemma MergedAtFriendly(p: Profile, earlier: Values, later: Values, first: map<Target, Json>,
                         second: map<Target, Json>, merged: map<Target, Json>, t: Target)
    requires WrittenSoFar(p, later, |p.slots|, |p.parameters|, second)
    requires WrittenSoFar(p, Merged(earlier, later), |p.slots|, |p.parameters|, merged)
    requires t == p.prompt || t == p.seed || t == p.outputPrefix
    ensures t in merged && t in first + second && merged[t] == (first + second)[t]
  {
  }

  lemma MergedAt(p: Profile, earlier: Values, later: Values, t: Target)
    requires Apart(p) && t in Supplied(p, Merged(earlier, later), |p.slots|, |p.parameters|)
    ensures t in Writes(p, Merged(earlier, later)) && t in Writes(p, earlier) + Writes(p, later)
    ensures Writes(p, Merged(earlier, later))[t] == (Writes(p, earlier) + Writes(p, later))[t]
  {
    var first, second, merged := Writes(p, earlier), Writes(p, later), Writes(p, Merged(earlier, later));
    ParametersWritten(p, earlier, |p.parameters|);
    ParametersWritten(p, later, |p.parameters|);
    ParametersWritten(p, Merged(earlier, later), |p.parameters|);
    SuppliedCases(p, Merged(earlier, later), t);
    if t == p.prompt || t == p.seed || t == p.outputPrefix {
      MergedAtFriendly(p, earlier, later, first, second, merged, t);
    } else if i :| 0 <= i < |p.slots| && p.slots[i].key in Merged(earlier, later).images && p.slots[i].target == t {
      MergedAtSlot(p, earlier, later, first, second, merged, i);
    } else {
      var j :| 0 <= j < |p.parameters| && p.parameters[j].key in Merged(earlier, later).parameters
               && p.parameters[j].target == t;
      MergedAtParameter(p, earlier, later, first, second, merged, j);
    }
  }

  lemma MergedAtSlot(p: Profile, earlier: Values, later: Values, first: map<Target, Json>, second: map<Target, Json>,
                     merged: map<Target, Json>, i: nat)
    requires Apart(p) && i < |p.slots| && p.slots[i].key in Merged(earlier, later).images
    requires WrittenSoFar(p, earlier, |p.slots|, |p.parameters|, first)
    requires WrittenSoFar(p, later, |p.slots|, |p.parameters|, second)
    requires WrittenSoFar(p, Merged(earlier, later), |p.slots|, |p.parameters|, merged)
    ensures p.slots[i].target in merged && p.slots[i].target in first + second
    ensures merged[p.slots[i].target] == (first + second)[p.slots[i].target]
  {
    if p.slots[i].key !in later.images { SlotNotSupplied(p, later, i); }
  }

  lemma MergedAtParameter(p: Profile, earlier: Values, later: Values, first: map<Target, Json>,
                          second: map<Target, Json>, merged: map<Target, Json>, j: nat)
    requires Apart(p) && j < |p.parameters| && p.parameters[j].key in Merged(earlier, later).parameters
    requires WrittenSoFar(p, earlier, |p.slots|, |p.parameters|, first)
    requires WrittenSoFar(p, later, |p.slots|, |p.parameters|, second)
    requires WrittenSoFar(p, Merged(earlier, later), |p.slots|, |p.parameters|, merged)
    ensures p.parameters[j].target in merged && p.parameters[j].target in first + second
    ensures merged[p.parameters[j].target] == (first + second)[p.parameters[j].target]
  {
    if p.parameters[j].key !in later.parameters { NotSupplied(p, later, j); }
  }

  lemma SlotNotSupplied(p: Profile, values: Values, i: nat)
    requires Apart(p) && i < |p.slots| && p.slots[i].key !in values.images
    ensures p.slots[i].target !in Supplied(p, values, |p.slots|, |p.parameters|)
  {
  }

  /** Preparing twice is preparing the base once with the merged values. */
  lemma PrepareTwice(base: Document, p: Profile, earlier: Values, middle: Document, later: Values, out: Document)
    requires Fits(base, p) && Fits(middle, p) && Prepared(base, p, earlier, middle) && Prepared(middle, p, later, out)
    ensures Prepared(base, p, Merged(earlier, later), out)
  {
    PreparedIsOverlay(base, p, earlier, middle);
    PreparedIsOverlay(middle, p, later, out);
    OverlayTwice(base, middle, out, Writes(p, earlier), Writes(p, later));
    TargetsApart(base, p);
    MergedWrites(p, earlier, later);
    PreparedIsOverlay(base, p, Merged(earlier, later), out);
  }

  /** So values that override everything supplied before give what preparing the base gives. */
  lemma OverridingForgets(base: Document, p: Profile, earlier: Values, middle: Document, later: Values, out: Document,
                          direct: Document)
    requires Fits(base, p) && ValuesUsable(earlier) && ValuesKnown(p, earlier)
    requires Prepared(base, p, earlier, middle) && Prepared(middle, p, later, out) && Prepared(base, p, later, direct)
    requires earlier.images.Keys <= later.images.Keys && earlier.parameters.Keys <= later.parameters.Keys
    ensures out == direct
  {
    FitsKept(base, p, earlier, middle);
    PrepareTwice(base, p, earlier, middle, later, out);
    MergedCovered(earlier, later);
    PreparedIsUnique(base, p, later, out, direct);
  }

  lemma MergedCovered(earlier: Values, later: Values)
    requires earlier.images.Keys <= later.images.Keys && earlier.parameters.Keys <= later.parameters.Keys
    ensures Merged(earlier, later) == later
  {
    assert earlier.images + later.images == later.images;
    assert earlier.parameters + later.parameters == later.parameters;
  }
}
