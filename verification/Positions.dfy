/** Positions of rows: one-based and contiguous, or listed in ascending order. */
module Positions {
  import opened Common

  /** range(1, n + 1) */
  function UpTo(n: nat): (positions: set<int>)
    ensures |positions| == n && forall p :: p in positions <==> 1 <= p <= n
  {
    if n == 0 then {} else UpTo(n - 1) + {n}
  }

  /** sorted(set(positions)) == list(range(1, len(...) + 1)) */
  predicate Contiguous(positions: set<int>) { positions == UpTo(|positions|) }

  ghost predicate Rising(a: seq<int>) { forall i, j :: 0 <= i < j < |a| ==> a[i] < a[j] }

  lemma {:induction false} RisingCount(a: seq<int>)
    requires Rising(a)
    ensures |set x | x in a| == |a|
  {
    if a != [] {
      var init, last := a[..|a| - 1], a[|a| - 1];
      RisingCount(init);
      assert (set x | x in a) == (set x | x in init) + {last};
      assert last !in init;
    }
  }

  lemma {:induction false} RisingFrom(a: seq<int>, j: nat)
    requires Rising(a) && j < |a|
    ensures a[j] >= a[0] + j && a[j] <= a[|a| - 1] - (|a| - 1 - j)
  {
    RisingBelow(a, j);
    RisingAbove(a, j);
  }

  lemma {:induction false} RisingBelow(a: seq<int>, j: nat)
    requires Rising(a) && j < |a|
    ensures a[j] >= a[0] + j
  {
    if j > 0 { RisingBelow(a, j - 1); }
  }

  lemma {:induction false} RisingAbove(a: seq<int>, j: nat)
    requires Rising(a) && j < |a|
    ensures a[j] <= a[|a| - 1] - (|a| - 1 - j)
    decreases |a| - j
  {
    if j < |a| - 1 { RisingAbove(a, j + 1); }
  }

  /** Rising positions are contiguous from one exactly when the j-th one is j + 1. */
  lemma RisingContiguous(a: seq<int>)
    requires Rising(a)
    ensures Contiguous(set x | x in a) <==> forall j :: 0 <= j < |a| ==> a[j] == j + 1
  {
    var positions := set x | x in a;
    RisingCount(a);
    if Contiguous(positions) && a != [] {
      assert a[0] in positions && a[|a| - 1] in positions;
      forall j | 0 <= j < |a| ensures a[j] == j + 1 { RisingFrom(a, j); }
    }
    if forall j :: 0 <= j < |a| ==> a[j] == j + 1 {
      forall p | 1 <= p <= |a| ensures p in positions { assert a[p - 1] == p; }
      assert positions == UpTo(|a|);
    }
  }

  // ---------- a set of positions as a list ----------

  lemma {:induction false} HasMaximum(s: set<int>, y: int)
    requires y in s
    ensures exists m :: m in s && forall x :: x in s ==> x <= m
    decreases |s|
  {
    var t := s - {y};
    assert forall x :: x in s ==> x == y || x in t;
    if z :| z in t {
      HasMaximum(t, z);
      var m :| m in t && forall x :: x in t ==> x <= m;
      var top := if m < y then y else m;
      assert top in s && forall x :: x in s ==> x <= top;
    }
  }

  /** a has the members of s in ascending order. */
  ghost predicate Lists(a: seq<int>, s: set<int>) { Rising(a) && forall x :: x in a <==> x in s }

  ghost function Listed(s: set<int>): (a: seq<int>)
    ensures Lists(a, s)
    decreases |s|
  {
    if !exists y :: y in s then []
    else
      var y :| y in s;
      HasMaximum(s, y);
      var m :| m in s && forall x :: x in s ==> x <= m;
      Listed(s - {m}) + [m]
  }

  /** Positions 1..n in ascending order. */
  lemma {:induction false} ListedUpTo(s: set<int>, n: nat)
    requires forall x :: x in s <==> 1 <= x <= n
    ensures |Listed(s)| == n && forall i :: 0 <= i < n ==> Listed(s)[i] == i + 1
  {
    if n > 0 {
      assert n in s;
      ListedUpTo(s - {n}, n - 1);
      ListedLast(s, n);
    }
  }

  lemma ListedLast(s: set<int>, m: int)
    requires m in s && forall x :: x in s ==> x <= m
    ensures Listed(s) == Listed(s - {m}) + [m]
  {
  }

  // ---------- tables by owner and position, and the order of a query ----------

  /** The second components of the keys that start with `owner`. */
  function Under<V>(table: map<(int, int), V>, owner: int): (positions: set<int>)
    ensures forall p :: p in positions <==> (owner, p) in table
  {
    set key | key in table && key.0 == owner :: key.1
  }

  lemma NoneUnder<V>(table: map<(int, int), V>, owner: int)
    ensures Listed(Under(table, owner)) == [] <==> forall key :: key in table ==> key.0 != owner
  {
    var positions := Listed(Under(table, owner));
    forall key | key in table ensures key.0 == owner ==> key.1 in positions { assert (key.0, key.1) == key; }
    if positions != [] {
      assert positions[0] in positions;
      assert (owner, positions[0]) in table;
    }
  }

  /** NULL sorts first. */
  predicate Less(a: Option<int>, b: Option<int>) { b.Some? && (a.None? || a.value < b.value) }

  lemma SameMap<K, V>(a: map<K, V>, b: map<K, V>)
    requires forall key :: key in a <==> key in b
    requires forall key :: key in a ==> a[key] == b[key]
    ensures a == b
  {
  }

  ghost predicate Strictly<X>(rows: seq<X>, before: (X, X) -> bool) {
    forall i, j :: 0 <= i < j < |rows| ==> before(rows[i], rows[j])
  }

  /** Only one list has these members in this order. */
  lemma {:induction false} OneStrictList<X>(a: seq<X>, b: seq<X>, before: (X, X) -> bool)
    requires Strictly(a, before) && Strictly(b, before) && forall x :: x in a <==> x in b
    requires forall x, y :: x in a && y in a ==> !(before(x, y) && before(y, x))
    ensures a == b
  {
    assert a != [] ==> a[0] in b;
    assert b != [] ==> b[0] in a;
    if a != [] {
      var x, y := a[|a| - 1], b[|b| - 1];
      assert x in a && y in b;
      assert x == y by {
        var i :| 0 <= i < |b| && b[i] == x;
        var j :| 0 <= j < |a| && a[j] == y;
      }
      var c, d := a[..|a| - 1], b[..|b| - 1];
      NotAgain(a, before);
      NotAgain(b, before);
      forall z ensures z in c <==> z in d {
        assert a == c + [x] && b == d + [y];
        assert z in a <==> z in c || z == x;
        assert z in b <==> z in d || z == y;
      }
      OneStrictList(c, d, before);
      assert a == c + [x] && b == d + [y];
    }
  }

  lemma NotAgain<X>(rows: seq<X>, before: (X, X) -> bool)
    requires Strictly(rows, before) && rows != []
    requires forall x, y :: x in rows && y in rows ==> !(before(x, y) && before(y, x))
    ensures rows[|rows| - 1] !in rows[..|rows| - 1]
  {
  }
}
