/** Materialising parameter intents and preparing a workflow check values separately. Here: they agree. */
module MaterializedValues {
  import opened Common
  import P = Parameters
  import W = WorkflowOverlay

  /** The JSON value that overrides a workflow's own; Base overrides nothing. */
  function JsonOf(v: P.Scalar): W.Json
    requires v != P.Base
  {
    match v
    case Text(s) => W.Str(s)
    case Whole(n) => W.Int(n)
    case Float(x) => W.Float(x)
    case NotFinite => W.NotFinite
    case Flag(b) => W.Bool(b)
  }

  /** A value is accepted as an alternative of a parameter exactly when preparation accepts it there. */
  lemma SameTypeCheck(t: ValueType, v: P.Scalar)
    requires v != P.Base
    ensures P.Matches(t, v) && P.Safe(v) <==> W.ScalarMatches(t, JsonOf(v))
  {
  }

  function ParametersOf(p: W.Profile): (parameters: seq<P.WorkflowParameter>)
    ensures |parameters| == |p.parameters|
    ensures forall i :: 0 <= i < |p.parameters| ==>
      parameters[i] == P.WorkflowParameter(p.parameters[i].key, p.parameters[i].valueType)
  {
    seq(|p.parameters|,
        i requires 0 <= i < |p.parameters| => P.WorkflowParameter(p.parameters[i].key, p.parameters[i].valueType))
  }

  /** Under unique keys the dict holds each parameter's type, and nothing else. */
  lemma {:induction false} DefinitionsHold(parameters: seq<P.WorkflowParameter>)
    requires forall i, j :: 0 <= i < j < |parameters| ==> parameters[i].key != parameters[j].key
    ensures
      forall key :: key in P.Definitions(parameters) <==> exists i :: 0 <= i < |parameters| && parameters[i].key == key
    ensures forall i :: 0 <= i < |parameters| ==>
      parameters[i].key in P.Definitions(parameters)
      && P.Definitions(parameters)[parameters[i].key] == parameters[i].valueType
    decreases |parameters|
  {
    if parameters != [] {
      var init := parameters[..|parameters| - 1];
      DefinitionsHold(init);
      forall i | 0 <= i < |parameters|
        ensures parameters[i].key in P.Definitions(parameters)
        ensures P.Definitions(parameters)[parameters[i].key] == parameters[i].valueType
      {
        if i < |init| { assert init[i] == parameters[i]; }
      }
      forall key | key in P.Definitions(parameters)
        ensures exists i :: 0 <= i < |parameters| && parameters[i].key == key
      {
        if key in P.Definitions(init) {
          var i :| 0 <= i < |init| && init[i].key == key;
          assert parameters[i].key == key;
        } else {
          assert parameters[|parameters| - 1].key == key;
        }
      }
    }
  }

  /** Each parameter value of a Job is one of its binding's alternatives. */
  ghost predicate Drawn(bindings: seq<P.Binding>, parameters: W.Document) {
    forall key :: key in parameters ==> exists i, v :: Draws(bindings, parameters, key, i, v)
  }

  ghost predicate Draws(bindings: seq<P.Binding>, parameters: W.Document, key: string, i: int, v: P.Scalar)
    requires key in parameters
  {
    && 0 <= i < |bindings| && bindings[i].key == key
    && v in bindings[i].values && v != P.Base && parameters[key] == JsonOf(v)
  }

  lemma AlternativeTyped(t: ValueType, intent: P.Intent, binding: P.Binding, v: P.Scalar)
    requires P.Countable(t, intent) && P.MaterializedAs(t, intent, binding) && v in binding.values
    ensures P.Matches(t, v) && P.Safe(v)
  {
    var k :| 0 <= k < |binding.values| && binding.values[k] == v;
    if intent.RangeIntent? {
      var m := P.RangeMeta(t, intent.range).value;
      assert t.IntegerType? || t.FloatType?;
      if !intent.includeBase || k > 0 {
        assert v == P.Point(t, m, k - if intent.includeBase then 1 else 0);
      }
    }
  }

  /** So whatever alternatives a Job draws, preparation finds every key known and every value typed. */
  lemma DrawnIsKnown(p: W.Profile, intents: seq<P.Intent>, bindings: seq<P.Binding>, parameters: W.Document)
    requires forall i, j :: 0 <= i < j < |p.parameters| ==> p.parameters[i].key != p.parameters[j].key
    requires P.AllCountable(P.Definitions(ParametersOf(p)), intents)
    requires P.Materialized(P.Definitions(ParametersOf(p)), intents, bindings) && Drawn(bindings, parameters)
    ensures forall key :: key in parameters ==> exists i :: 0 <= i < |p.parameters| && p.parameters[i].key == key
    ensures forall i :: 0 <= i < |p.parameters| && p.parameters[i].key in parameters ==>
      W.ScalarMatches(p.parameters[i].valueType, parameters[p.parameters[i].key])
  {
    DefinitionsHold(ParametersOf(p));
    forall key | key in parameters
      ensures key in P.Definitions(ParametersOf(p))
      ensures W.ScalarMatches(P.Definitions(ParametersOf(p))[key], parameters[key])
    {
      var i, v :| Draws(bindings, parameters, key, i, v);
      DrawnTyped(P.Definitions(ParametersOf(p)), intents, bindings, i, v);
    }
    hide P.Definitions, P.AllCountable, P.Materialized, W.ScalarMatches, Drawn;
    forall key | key in parameters ensures exists i :: 0 <= i < |p.parameters| && p.parameters[i].key == key {
      var i :| 0 <= i < |ParametersOf(p)| && ParametersOf(p)[i].key == key;
      assert p.parameters[i].key == key;
    }
    forall i | 0 <= i < |p.parameters| && p.parameters[i].key in parameters
      ensures W.ScalarMatches(p.parameters[i].valueType, parameters[p.parameters[i].key])
    {
      assert ParametersOf(p)[i].key in P.Definitions(ParametersOf(p));
    }
  }

  lemma DrawnTyped(definitions: map<string, ValueType>, intents: seq<P.Intent>, bindings: seq<P.Binding>, i: nat,
                   v: P.Scalar)
    requires P.AllCountable(definitions, intents) && P.Materialized(definitions, intents, bindings)
    requires i < |bindings| && v in bindings[i].values && v != P.Base
    ensures bindings[i].key in definitions && W.ScalarMatches(definitions[bindings[i].key], JsonOf(v))
  {
    hide P.Countable, P.MaterializedAs;
    assert P.MaterializedAs(definitions[intents[i].key], intents[i], bindings[i]);
    BindingKey(definitions[intents[i].key], intents[i], bindings[i]);
    AlternativeTyped(definitions[intents[i].key], intents[i], bindings[i], v);
    SameTypeCheck(definitions[intents[i].key], v);
  }

  lemma BindingKey(t: ValueType, intent: P.Intent, binding: P.Binding)
    requires P.Countable(t, intent) && P.MaterializedAs(t, intent, binding)
    ensures binding.key == intent.key
  {
  }
}
