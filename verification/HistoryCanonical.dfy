/** The canonical order of the clauses in a filter object, which the cursor binding covers. */
module HistoryCanonical {
  import opened Common
  import K = Keyset
  import opened HistoryTables
  import F = HistoryFilters
  import Q = HistoryQuery

  /** sorted(items, key=dump), stable; dump is json.dumps(item, sort_keys=True). */
  function Sorted<T>(items: seq<T>, dump: T -> string): seq<T> {
    if items == [] then [] else Placed(Sorted(items[..|items| - 1], dump), items[|items| - 1], dump)
  }

  function Placed<T>(items: seq<T>, x: T, dump: T -> string): seq<T> {
    if items == [] || !K.TextLess(dump(x), dump(items[|items| - 1])) then items + [x]
    else Placed(items[..|items| - 1], x, dump) + [items[|items| - 1]]
  }

  /** Different items are written differently. */
  ghost predicate Injective<T(!new)>(dump: T -> string) { forall x, y :: dump(x) == dump(y) ==> x == y }

  ghost predicate InOrder<T>(items: seq<T>, dump: T -> string) {
    forall i, j :: 0 <= i < j < |items| ==> !K.TextLess(dump(items[j]), dump(items[i]))
  }

  lemma {:induction false} PlacedMembers<T>(items: seq<T>, x: T, dump: T -> string)
    ensures multiset(Placed(items, x, dump)) == multiset(items) + multiset{x}
  {
    if items != [] && K.TextLess(dump(x), dump(items[|items| - 1])) {
      PlacedMembers(items[..|items| - 1], x, dump);
      assert items == items[..|items| - 1] + [items[|items| - 1]];
    }
  }

  /** Sorting loses no clause and adds none. */
  lemma {:induction false} SortedMembers<T>(items: seq<T>, dump: T -> string)
    ensures multiset(Sorted(items, dump)) == multiset(items)
  {
    if items != [] {
      SortedMembers(items[..|items| - 1], dump);
      PlacedMembers(Sorted(items[..|items| - 1], dump), items[|items| - 1], dump);
      assert items == items[..|items| - 1] + [items[|items| - 1]];
    }
  }

  lemma NotLessTransitive(a: string, b: string, c: string)
    requires !K.TextLess(b, a) && !K.TextLess(c, b)
    ensures !K.TextLess(c, a)
  {
    K.TextOrder(a, b);
    K.TextOrder(b, c);
    if K.TextLess(c, a) {
      if K.TextLess(a, b) { K.TextTransitive(c, a, b); }
    }
  }

  lemma {:induction false} PlacedInOrder<T>(items: seq<T>, x: T, dump: T -> string)
    requires InOrder(items, dump)
    ensures InOrder(Placed(items, x, dump), dump)
  {
    var placed := Placed(items, x, dump);
    if items == [] {
    } else {
      var init, last := items[..|items| - 1], items[|items| - 1];
      if K.TextLess(dump(x), dump(last)) {
        PlacedInOrder(init, x, dump);
        PlacedMembers(init, x, dump);
        K.TextOrder(dump(x), dump(last));
        forall y | y in Placed(init, x, dump) ensures !K.TextLess(dump(last), dump(y)) {
          assert y in multiset(Placed(init, x, dump));
          if y != x {
            assert y in multiset(init);
            var i :| 0 <= i < |init| && init[i] == y;
            assert items[i] == y;
          }
        }
      } else {
        forall i | 0 <= i < |items| ensures !K.TextLess(dump(x), dump(items[i])) {
          if i < |items| - 1 { NotLessTransitive(dump(items[i]), dump(last), dump(x)); }
        }
      }
    }
  }

  lemma {:induction false} SortedInOrder<T>(items: seq<T>, dump: T -> string)
    ensures InOrder(Sorted(items, dump), dump)
  {
    if items != [] {
      SortedInOrder(items[..|items| - 1], dump);
      PlacedInOrder(Sorted(items[..|items| - 1], dump), items[|items| - 1], dump);
    }
  }

  /** Two ordered lists of the same items are the same list. */
  lemma {:induction false} OrderedUnique<T(!new)>(a: seq<T>, b: seq<T>, dump: T -> string)
    requires Injective(dump) && InOrder(a, dump) && InOrder(b, dump) && multiset(a) == multiset(b)
    ensures a == b
  {
    SameLength(a, b);
    if a != [] {
      LastIsLast(a, b, dump);
      var n := |a| - 1;
      SameInit(a, b);
      OrderedUnique(a[..n], b[..n], dump);
      assert a == a[..n] + [a[n]] && b == b[..n] + [b[n]];
    }
  }

  lemma SameInit<T>(a: seq<T>, b: seq<T>)
    requires multiset(a) == multiset(b) && |a| == |b| > 0 && a[|a| - 1] == b[|b| - 1]
    ensures multiset(a[..|a| - 1]) == multiset(b[..|b| - 1])
  {
    var n := |a| - 1;
    assert a == a[..n] + [a[n]] && b == b[..n] + [b[n]];
    assert multiset(a[..n]) == multiset(a) - multiset{a[n]} && multiset(b[..n]) == multiset(b) - multiset{b[n]};
  }

  lemma SameLength<T>(a: seq<T>, b: seq<T>)
    requires multiset(a) == multiset(b)
    ensures |a| == |b|
  {
    assert |multiset(a)| == |a| && |multiset(b)| == |b|;
  }

  lemma LastIsLast<T(!new)>(a: seq<T>, b: seq<T>, dump: T -> string)
    requires Injective(dump) && InOrder(a, dump) && InOrder(b, dump) && multiset(a) == multiset(b) && |a| == |b| > 0
    ensures a[|a| - 1] == b[|b| - 1]
  {
    var x, y := a[|a| - 1], b[|b| - 1];
    assert x in multiset(b) && y in multiset(a);
    var i :| 0 <= i < |b| && b[i] == x;
    var j :| 0 <= j < |a| && a[j] == y;
    K.TextOrder(dump(x), dump(y));
  }

  /** parse_filters' last step on a filter object: both clause lists in canonical order. */
  function Canonical(f: Filters, dumpParameter: ParameterFilter -> string, dumpImage: ImageFilter -> string): Filters {
    f.(parameters := Sorted(f.parameters, dumpParameter), imageInputs := Sorted(f.imageInputs, dumpImage))
  }

  lemma SameHolds<T>(a: seq<T>, b: seq<T>, holds: T -> bool)
    requires multiset(a) == multiset(b)
    ensures (forall i :: 0 <= i < |a| ==> holds(a[i])) ==> (forall i :: 0 <= i < |b| ==> holds(b[i]))
  {
    forall i | 0 <= i < |b| ensures b[i] in a { assert b[i] in multiset(a); }
  }

  /** The order of the clauses does not change which jobs satisfy them. */
  lemma CanonicalJob(f: Filters, dumpParameter: ParameterFilter -> string, dumpImage: ImageFilter -> string,
                     tables: Tables, job: JobRow)
    ensures JobSatisfies(Canonical(f, dumpParameter, dumpImage), tables, job) <==> JobSatisfies(f, tables, job)
  {
    var g := Canonical(f, dumpParameter, dumpImage);
    SortedMembers(f.parameters, dumpParameter);
    SortedMembers(f.imageInputs, dumpImage);
    var byParameter, byImage :=
      (p: ParameterFilter) => ParameterHolds(p, tables, job), (p: ImageFilter) => ImageHolds(p, tables, job);
    SameHolds(f.parameters, g.parameters, byParameter);
    SameHolds(g.parameters, f.parameters, byParameter);
    SameHolds(f.imageInputs, g.imageInputs, byImage);
    SameHolds(g.imageInputs, f.imageInputs, byImage);
    assert forall i ::
        0 <= i < |f.parameters| ==> byParameter(f.parameters[i]) == ParameterHolds(f.parameters[i], tables, job);
    assert forall i ::
        0 <= i < |g.parameters| ==> byParameter(g.parameters[i]) == ParameterHolds(g.parameters[i], tables, job);
    assert forall i :: 0 <= i < |f.imageInputs| ==>
      byImage(f.imageInputs[i]) == ImageHolds(f.imageInputs[i], tables, job);
    assert forall i :: 0 <= i < |g.imageInputs| ==>
      byImage(g.imageInputs[i]) == ImageHolds(g.imageInputs[i], tables, job);
  }

  lemma SameEmptiness<T>(items: seq<T>, dump: T -> string)
    ensures Sorted(items, dump) == [] <==> items == []
  {
    SortedMembers(items, dump);
    SameLength(Sorted(items, dump), items);
  }

  /** Canonicalisation keeps the meaning of a filter object, in both views. */
  lemma CanonicalMeaning(f: Filters, dumpParameter: ParameterFilter -> string, dumpImage: ImageFilter -> string,
                         tables: Tables, c: Candidate, results: bool)
    ensures
      FilterHolds(Canonical(f, dumpParameter, dumpImage), tables, c, results) <==> FilterHolds(f, tables, c, results)
  {
    hide JobSatisfies, Sorted;
    var g := Canonical(f, dumpParameter, dumpImage);
    SameEmptiness(f.parameters, dumpParameter);
    SameEmptiness(f.imageInputs, dumpImage);
    forall job ensures JobSatisfies(g, tables, job) <==> JobSatisfies(f, tables, job) {
      CanonicalJob(f, dumpParameter, dumpImage, tables, job);
    }
    assert SomeJobSatisfies(g, tables, c, results) <==> SomeJobSatisfies(f, tables, c, results);
  }

  /** Writing the same clauses in another order gives the same canonical filters, so a cursor obtained
      with one order is accepted with the other. */
  lemma ReorderedClausesShareCursor(projectId: string, kind: F.Kind, query: Q.Query, other: Filters,
                                    generation: Option<string>, dumpParameter: ParameterFilter -> string,
                                    dumpImage: ImageFilter -> string)
    requires Injective(dumpParameter) && Injective(dumpImage)
    requires multiset(query.filters.parameters) == multiset(other.parameters)
    requires multiset(query.filters.imageInputs) == multiset(other.imageInputs)
    requires other == query.filters.(parameters := other.parameters, imageInputs := other.imageInputs)
    ensures
      Q.BindingOf(projectId, kind, query.(filters := Canonical(query.filters, dumpParameter, dumpImage)), generation)
         == Q.BindingOf(projectId, kind, query.(filters := Canonical(other, dumpParameter, dumpImage)), generation)
  {
    CanonicalOrder(query.filters.parameters, other.parameters, dumpParameter);
    CanonicalOrder(query.filters.imageInputs, other.imageInputs, dumpImage);
  }

  lemma CanonicalOrder<T(!new)>(a: seq<T>, b: seq<T>, dump: T -> string)
    requires Injective(dump) && multiset(a) == multiset(b)
    ensures Sorted(a, dump) == Sorted(b, dump)
  {
    SortedMembers(a, dump);
    SortedMembers(b, dump);
    SortedInOrder(a, dump);
    SortedInOrder(b, dump);
    OrderedUnique(Sorted(a, dump), Sorted(b, dump), dump);
  }
}
