/** Putting the independent parameter bindings of a definition into the profile's own order. */
module BindingOrder {
  import P = Parameters

  /** {binding.parameter_key: binding for binding in bindings}: the last one wins. */
  function ByKey(bindings: seq<P.Intent>): (m: map<string, P.Intent>)
    ensures forall key :: key in m ==> m[key] in bindings && m[key].key == key
    ensures forall i :: 0 <= i < |bindings| ==> bindings[i].key in m
  {
    if bindings == [] then map[]
    else
      var last := bindings[|bindings| - 1];
      ByKey(bindings[..|bindings| - 1])[last.key := last]
  }

  /** The profile's keys without the linked ones. */
  function Independent(keys: seq<string>, linked: set<string>): (r: seq<string>)
    ensures forall key :: key in r <==> key in keys && key !in linked
  {
    if keys == [] then []
    else Independent(keys[..|keys| - 1], linked) + if keys[|keys| - 1] in linked then [] else [keys[|keys| - 1]]
  }

  function Keys(bindings: seq<P.Intent>): (keys: seq<string>)
    ensures |keys| == |bindings| && forall i :: 0 <= i < |bindings| ==> keys[i] == bindings[i].key
  {
    seq(|bindings|, i requires 0 <= i < |bindings| => bindings[i].key)
  }

  function KeySet(keys: seq<string>): set<string> { set i | 0 <= i < |keys| :: keys[i] }

  ghost predicate Distinct(keys: seq<string>) { forall i, j :: 0 <= i < j < |keys| ==> keys[i] != keys[j] }

  /** _normalize_parameter_bindings; a list that is no arrangement of the independent keys stays as it is. */
  function Normalized(keys: seq<string>, linked: set<string>, bindings: seq<P.Intent>): seq<P.Intent> {
    var byKey, independent := ByKey(bindings), Independent(keys, linked);
    if |byKey| != |bindings| || byKey.Keys != KeySet(independent) then bindings
    else seq(|independent|, i requires 0 <= i < |independent| => byKey[independent[i]])
  }

  lemma {:induction false} KeySetSize(keys: seq<string>)
    ensures |KeySet(keys)| <= |keys| && (|KeySet(keys)| == |keys| <==> Distinct(keys))
  {
    if keys != [] {
      var init, last := keys[..|keys| - 1], keys[|keys| - 1];
      KeySetSize(init);
      KeySetStep(init, last);
      assert keys == init + [last];
      if last in KeySet(init) {
        var i :| 0 <= i < |init| && init[i] == last;
        assert keys[i] == keys[|init|];
      } else {
        DistinctStep(init, last);
      }
    }
  }

  lemma KeySetStep(init: seq<string>, last: string)
    ensures KeySet(init + [last]) == KeySet(init) + {last}
  {
    var keys := init + [last];
    forall key | key in KeySet(init) ensures key in KeySet(keys) {
      var i :| 0 <= i < |init| && init[i] == key;
      assert keys[i] == key;
    }
    assert keys[|init|] == last;
  }

  lemma DistinctStep(init: seq<string>, last: string)
    requires last !in KeySet(init)
    ensures Distinct(init + [last]) <==> Distinct(init)
  {
    var keys := init + [last];
    assert forall i :: 0 <= i < |init| ==> keys[i] == init[i];
    if Distinct(keys) {
      forall i, j | 0 <= i < j < |init| ensures init[i] != init[j] { assert keys[i] != keys[j]; }
    }
  }

  lemma ByKeySize(bindings: seq<P.Intent>)
    ensures ByKey(bindings).Keys == KeySet(Keys(bindings))
    ensures |ByKey(bindings)| == |bindings| <==> Distinct(Keys(bindings))
  {
    hide ByKey;
    KeySetSize(Keys(bindings));
    forall key | key in ByKey(bindings) ensures key in KeySet(Keys(bindings)) {
      var i :| 0 <= i < |bindings| && bindings[i] == ByKey(bindings)[key];
      assert Keys(bindings)[i] == key;
    }
    assert |ByKey(bindings)| == |ByKey(bindings).Keys|;
  }

  lemma {:induction false} IndependentDistinct(keys: seq<string>, linked: set<string>)
    requires Distinct(keys)
    ensures Distinct(Independent(keys, linked))
  {
    if keys != [] { IndependentDistinct(keys[..|keys| - 1], linked); }
  }

  /** The bindings are an arrangement of the profile's independent parameters. */
  ghost predicate Arrangement(keys: seq<string>, linked: set<string>, bindings: seq<P.Intent>) {
    Distinct(Keys(bindings)) && KeySet(Keys(bindings)) == KeySet(Independent(keys, linked))
  }

  /** What the later check asks for, bindings in exactly the order of the independent parameters, holds of
      the normalised list if and only if the given list was an arrangement of them. */
  lemma NormalizedIsOrdered(keys: seq<string>, linked: set<string>, bindings: seq<P.Intent>)
    requires Distinct(keys)
    ensures
      Keys(Normalized(keys, linked, bindings)) == Independent(keys, linked) <==> Arrangement(keys, linked, bindings)
  {
    var independent := Independent(keys, linked);
    ByKeySize(bindings);
    IndependentDistinct(keys, linked);
    if Arrangement(keys, linked, bindings) {
      forall i | 0 <= i < |independent| ensures Keys(Normalized(keys, linked, bindings))[i] == independent[i] {
        assert independent[i] in KeySet(independent);
      }
    }
  }

  lemma LengthKept(keys: seq<string>, linked: set<string>, bindings: seq<P.Intent>)
    requires Distinct(keys)
    ensures |Normalized(keys, linked, bindings)| == |bindings|
  {
    hide ByKey;
    IndependentDistinct(keys, linked);
    KeySetSize(Independent(keys, linked));
    assert |ByKey(bindings)| == |ByKey(bindings).Keys|;
  }

  lemma NothingNew(keys: seq<string>, linked: set<string>, bindings: seq<P.Intent>, i: nat)
    requires i < |Normalized(keys, linked, bindings)|
    ensures Normalized(keys, linked, bindings)[i] in bindings
  {
    hide ByKey, Independent;
    var independent := Independent(keys, linked);
    if i < |independent| { assert independent[i] in KeySet(independent); }
  }

  /** Normalising only rearranges: the same bindings, as many as before. */
  lemma NormalizedRearranges(keys: seq<string>, linked: set<string>, bindings: seq<P.Intent>)
    requires Distinct(keys)
    ensures |Normalized(keys, linked, bindings)| == |bindings|
    ensures forall b :: b in Normalized(keys, linked, bindings) <==> b in bindings
  {
    hide ByKey, Independent;
    LengthKept(keys, linked, bindings);
    ByKeySize(bindings);
    forall i | 0 <= i < |Normalized(keys, linked, bindings)| ensures Normalized(keys, linked, bindings)[i] in bindings {
      NothingNew(keys, linked, bindings, i);
    }
    if |ByKey(bindings)| == |bindings| && ByKey(bindings).Keys == KeySet(Independent(keys, linked)) {
      forall b | b in bindings ensures b in Normalized(keys, linked, bindings) {
        StillThere(keys, linked, bindings, b);
      }
    }
  }

  lemma StillThere(keys: seq<string>, linked: set<string>, bindings: seq<P.Intent>, b: P.Intent)
    requires Distinct(Keys(bindings)) && ByKey(bindings).Keys == KeySet(Independent(keys, linked)) && b in bindings
    requires |ByKey(bindings)| == |bindings|
    ensures b in Normalized(keys, linked, bindings)
  {
    hide ByKey, Independent;
    OnlyOne(bindings, b);
    var independent := Independent(keys, linked);
    var i :| 0 <= i < |independent| && independent[i] == b.key;
    assert Normalized(keys, linked, bindings)[i] == b;
  }

  lemma OnlyOne(bindings: seq<P.Intent>, b: P.Intent)
    requires Distinct(Keys(bindings)) && b in bindings
    ensures b.key in ByKey(bindings) && ByKey(bindings)[b.key] == b
  {
    hide ByKey;
    var i :| 0 <= i < |bindings| && bindings[i] == b;
    var found := ByKey(bindings)[b.key];
    var j :| 0 <= j < |bindings| && bindings[j] == found;
    assert Keys(bindings)[i] == Keys(bindings)[j];
  }

  /** Normalising a normalised list changes nothing. */
  lemma NormalizedTwice(keys: seq<string>, linked: set<string>, bindings: seq<P.Intent>)
    requires Distinct(keys)
    ensures Normalized(keys, linked, Normalized(keys, linked, bindings)) == Normalized(keys, linked, bindings)
  {
    var once := Normalized(keys, linked, bindings);
    var independent := Independent(keys, linked);
    NormalizedIsOrdered(keys, linked, bindings);
    ByKeySize(bindings);
    if Arrangement(keys, linked, bindings) {
      IndependentDistinct(keys, linked);
      ByKeySize(once);
      forall i | 0 <= i < |independent| ensures ByKey(once)[independent[i]] == once[i] {
        assert Keys(once)[i] == independent[i];
        OnlyOne(once, once[i]);
      }
    }
  }
}
