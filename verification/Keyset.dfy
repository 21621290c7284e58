/** Keyset paging: the part shared by the history browser and the global catalog.

    A page is `SELECT ... WHERE key > after ORDER BY key LIMIT limit + 1`, cut back to `limit`
    rows; the key of the last kept row is where the next page starts. */
module Keyset {
  import opened Common

  // ---------- the order on keys ----------

  /** One column of a sort key. SQLite sorts every number before every text. */
  datatype Atom = Num(n: int) | Text(s: string)

  /** A row value `(k1, ..., kn)`. */
  type Key = seq<Atom>

  /** BINARY collation: code points, first difference decides. */
  predicate TextLess(a: string, b: string) {
    b != [] && (a == [] || a[0] < b[0] || (a[0] == b[0] && TextLess(a[1..], b[1..])))
  }

  predicate AtomLess(a: Atom, b: Atom) {
    match (a, b)
    case (Num(m), Num(n)) => m < n
    case (Num(_), Text(_)) => true
    case (Text(_), Num(_)) => false
    case (Text(s), Text(t)) => TextLess(s, t)
  }

  predicate KeyLess(a: Key, b: Key) {
    b != [] && (a == [] || AtomLess(a[0], b[0]) || (a[0] == b[0] && KeyLess(a[1..], b[1..])))
  }

  lemma {:induction false} TextOrder(a: string, b: string)
    ensures !TextLess(a, a)
    ensures TextLess(a, b) ==> !TextLess(b, a)
    ensures TextLess(a, b) || a == b || TextLess(b, a)
  {
    TextIrreflexive(a);
    if a != [] && b != [] {
      TextOrder(a[1..], b[1..]);
      assert a == [a[0]] + a[1..] && b == [b[0]] + b[1..];
    }
  }

  lemma {:induction false} TextIrreflexive(a: string)
    ensures !TextLess(a, a)
  {
    if a != [] { TextIrreflexive(a[1..]); }
  }

  lemma {:induction false} TextTransitive(a: string, b: string, c: string)
    requires TextLess(a, b) && TextLess(b, c)
    ensures TextLess(a, c)
  {
    if a != [] && a[0] == b[0] == c[0] { TextTransitive(a[1..], b[1..], c[1..]); }
  }

  lemma AtomOrder(a: Atom, b: Atom)
    ensures !AtomLess(a, a)
    ensures AtomLess(a, b) ==> !AtomLess(b, a)
    ensures AtomLess(a, b) || a == b || AtomLess(b, a)
  {
    if a.Text? { TextIrreflexive(a.s); if b.Text? { TextOrder(a.s, b.s); } }
  }

  lemma AtomTransitive(a: Atom, b: Atom, c: Atom)
    requires AtomLess(a, b) && AtomLess(b, c)
    ensures AtomLess(a, c)
  {
    if a.Text? && b.Text? && c.Text? { TextTransitive(a.s, b.s, c.s); }
  }

  /** Row-value comparison is a strict total order. */
  lemma {:induction false} KeyOrder(a: Key, b: Key)
    ensures !KeyLess(a, a)
    ensures KeyLess(a, b) ==> !KeyLess(b, a)
    ensures KeyLess(a, b) || a == b || KeyLess(b, a)
  {
    KeyIrreflexive(a);
    if a != [] && b != [] {
      AtomOrder(a[0], b[0]);
      KeyOrder(a[1..], b[1..]);
      assert a == [a[0]] + a[1..] && b == [b[0]] + b[1..];
    }
  }

  lemma {:induction false} KeyIrreflexive(a: Key)
    ensures !KeyLess(a, a)
  {
    if a != [] { AtomOrder(a[0], a[0]); KeyIrreflexive(a[1..]); }
  }

  lemma {:induction false} KeyTransitive(a: Key, b: Key, c: Key)
    requires KeyLess(a, b) && KeyLess(b, c)
    ensures KeyLess(a, c)
  {
    if a != [] {
      AtomOrder(a[0], a[0]);
      if a[0] == b[0] == c[0] {
        KeyTransitive(a[1..], b[1..], c[1..]);
      } else if AtomLess(a[0], b[0]) && AtomLess(b[0], c[0]) {
        AtomTransitive(a[0], b[0], c[0]);
      }
    }
  }

  // ---------- ordered selection ----------

  /** A selected row: its sort key and the identity of the table row (a rowid, or a text id). */
  datatype Row = Row(key: Key, item: Atom)

  /** `key > (?, ..., ?)`; the first page has no bookmark. */
  predicate After(after: Option<Key>, key: Key) {
    after.None? || KeyLess(after.value, key)
  }

  /** No two rows of the table have the same key. */
  ghost predicate UniqueKeys(rows: seq<Row>) {
    forall i, j :: 0 <= i < j < |rows| ==> rows[i].key != rows[j].key
  }

  ghost predicate Ascending(rows: seq<Row>) {
    forall i, j :: 0 <= i < j < |rows| ==> KeyLess(rows[i].key, rows[j].key)
  }

  /** The WHERE clause on the bookmark. */
  function Beyond(rows: seq<Row>, after: Option<Key>): (r: seq<Row>)
  {
    if rows == [] then []
    else (if After(after, rows[0].key) then [rows[0]] else []) + Beyond(rows[1..], after)
  }

  /** ORDER BY key. */
  function Ordered(rows: seq<Row>): (r: seq<Row>)
  {
    if rows == [] then [] else Insert(rows[0], Ordered(rows[1..]))
  }

  function Insert(x: Row, rows: seq<Row>): (r: seq<Row>)
  {
    if rows == [] || KeyLess(x.key, rows[0].key) then [x] + rows
    else [rows[0]] + Insert(x, rows[1..])
  }

  lemma {:induction false} BeyondMembers(rows: seq<Row>, after: Option<Key>)
    ensures forall x :: x in Beyond(rows, after) <==> x in rows && After(after, x.key)
    ensures |Beyond(rows, after)| <= |rows|
    ensures UniqueKeys(rows) ==> UniqueKeys(Beyond(rows, after))
  {
    hide After;
    if rows != [] {
      var tail := rows[1..];
      var rest := Beyond(tail, after);
      BeyondMembers(tail, after);
      assert rows == [rows[0]] + tail;
      if UniqueKeys(rows) {
        assert UniqueKeys(tail);
        forall i, j | 0 <= i < j < |Beyond(rows, after)|
          ensures Beyond(rows, after)[i].key != Beyond(rows, after)[j].key
        {
          if After(after, rows[0].key) && i == 0 {
            assert Beyond(rows, after)[j] == rest[j - 1] && rest[j - 1] in rest;
            assert rest[j - 1] in tail;
            var k :| 0 <= k < |tail| && tail[k] == rest[j - 1];
            assert rows[k + 1] == rest[j - 1];
          }
        }
      }
    }
  }

  lemma {:induction false} InsertSorted(x: Row, rows: seq<Row>)
    requires Ascending(rows)
    requires forall y :: y in rows ==> y.key != x.key
    ensures Ascending(Insert(x, rows))
    ensures |Insert(x, rows)| == |rows| + 1
    ensures forall y :: y in Insert(x, rows) <==> y == x || y in rows
  {
    if rows == [] {
    } else if KeyLess(x.key, rows[0].key) {
      forall j | 0 < j < |rows| ensures KeyLess(x.key, rows[j].key) {
        KeyTransitive(x.key, rows[0].key, rows[j].key);
      }
    } else {
      var rest := rows[1..];
      assert forall y :: y in rest ==> y in rows;
      InsertSorted(x, rest);
      KeyOrder(x.key, rows[0].key);
      var r := Insert(x, rest);
      forall j | 0 <= j < |r| ensures KeyLess(rows[0].key, r[j].key) {
        assert r[j] in r;
        if r[j] != x {
          assert r[j] in rest;
          var k :| 0 <= k < |rest| && rest[k] == r[j];
          assert rows[k + 1] == r[j];
        }
      }
      assert rows == [rows[0]] + rest;
    }
  }

  /** ORDER BY keeps exactly the selected rows and puts them in strictly ascending key order. */
  lemma {:induction false} OrderedSorted(rows: seq<Row>)
    requires UniqueKeys(rows)
    ensures Ascending(Ordered(rows)) && |Ordered(rows)| == |rows|
    ensures forall x :: x in Ordered(rows) <==> x in rows
  {
    if rows != [] {
      var rest := rows[1..];
      assert rows == [rows[0]] + rest;
      assert UniqueKeys(rest) by {
        forall i, j | 0 <= i < j < |rest| ensures rest[i].key != rest[j].key {
          assert rows[i + 1] == rest[i] && rows[j + 1] == rest[j];
        }
      }
      OrderedSorted(rest);
      forall y | y in Ordered(rest) ensures y.key != rows[0].key {
        assert y in rest;
        var j :| 0 <= j < |rest| && rest[j] == y;
        assert rows[j + 1] == y;
      }
      InsertSorted(rows[0], Ordered(rest));
    }
  }

  /** Two ascending sequences with the same members are the same sequence. */
  lemma {:induction false} AscendingUnique(a: seq<Row>, b: seq<Row>)
    requires Ascending(a) && Ascending(b)
    requires forall x :: x in a <==> x in b
    ensures a == b
  {
    if a != [] && b != [] {
      SameHead(a, b);
      forall x | x in a[1..] ensures x in b[1..] {
        SameHeadTail(a, b, x);
      }
      forall x | x in b[1..] ensures x in a[1..] {
        SameHeadTail(b, a, x);
      }
      AscendingUnique(a[1..], b[1..]);
      assert a == [a[0]] + a[1..] && b == [b[0]] + b[1..];
    } else if a != [] {
      HeadIsMember(a);
    } else if b != [] {
      HeadIsMember(b);
    }
  }

  lemma HeadIsMember(a: seq<Row>)
    requires a != []
    ensures a[0] in a
  {
  }

  lemma SameHead(a: seq<Row>, b: seq<Row>)
    requires a != [] && b != [] && Ascending(a) && Ascending(b)
    requires forall x :: x in a <==> x in b
    ensures a[0] == b[0]
  {
    assert a[0] in b && b[0] in a;
    var i :| 0 <= i < |a| && a[i] == b[0];
    var j :| 0 <= j < |b| && b[j] == a[0];
    KeyOrder(a[0].key, b[0].key);
  }

  lemma SameHeadTail(a: seq<Row>, b: seq<Row>, x: Row)
    requires a != [] && b != [] && Ascending(a) && a[0] == b[0]
    requires x in a[1..] && x in b
    ensures x in b[1..]
  {
    var k :| 1 <= k < |a| && a[k] == x;
    KeyIrreflexive(x.key);
    var m :| 0 <= m < |b| && b[m] == x;
    assert b[1..][m - 1] == x;
  }

  // ---------- pages ----------

  datatype Page = Page(items: seq<Row>, next: Option<Key>)

  /** limit + 1 rows are fetched; the extra one only says that there is another page. */
  function Fetch(rows: seq<Row>, after: Option<Key>, limit: nat): (page: Page)
    requires limit >= 1
  {
    var found := Ordered(Beyond(rows, after));
    if |found| > limit then Page(found[..limit], Some(found[limit - 1].key))
    else Page(found, None)
  }

  /** What a page promises about one table state: rows beyond the bookmark in ascending order,
      at most `limit`, and a continuation exactly when rows were left out, all of them after it. */
  ghost predicate PageOf(page: Page, rows: seq<Row>, after: Option<Key>, limit: nat) {
    && Ascending(page.items)
    && |page.items| <= limit
    && (forall x :: x in page.items ==> x in rows && After(after, x.key))
    && (forall x :: x in rows && After(after, x.key) ==> x in page.items || LeftOut(page, x))
    && (page.next.Some? ==> 1 <= |page.items| == limit && page.next.value == page.items[limit - 1].key)
  }

  predicate LeftOut(page: Page, x: Row) {
    page.next.Some? && KeyLess(page.next.value, x.key)
  }

  lemma FetchMeaning(rows: seq<Row>, after: Option<Key>, limit: nat)
    requires limit >= 1 && UniqueKeys(rows)
    ensures PageOf(Fetch(rows, after, limit), rows, after, limit)
    ensures Fetch(rows, after, limit).next.Some? <==> |Beyond(rows, after)| > limit
  {
    BeyondMembers(rows, after);
    OrderedSorted(Beyond(rows, after));
    var found := Ordered(Beyond(rows, after));
    var page := Fetch(rows, after, limit);
    forall x | x in rows && After(after, x.key) ensures x in page.items || LeftOut(page, x) {
      assert x in found;
      if |found| > limit { CutLosesOnlyLarger(found, limit, x); }
    }
  }

  lemma CutLosesOnlyLarger(found: seq<Row>, limit: nat, x: Row)
    requires limit >= 1 && Ascending(found) && x in found && |found| > limit
    ensures x in found[..limit] || KeyLess(found[limit - 1].key, x.key)
  {
    var i :| 0 <= i < |found| && found[i] == x;
    if i < limit { assert found[..limit][i] == x; }
  }

  // ---------- traversals ----------

  /** One request of a traversal: the matching rows at that moment, and the page size asked for. */
  datatype Request = Request(rows: seq<Row>, limit: nat)

  datatype Walk = Walk(items: seq<Row>, finished: bool, used: nat)

  /** Follow the continuation until there is none, or until the requests run out. */
  function Traverse(requests: seq<Request>, after: Option<Key>): (w: Walk)
    requires forall q :: q in requests ==> q.limit >= 1
    ensures w.used <= |requests|
  {
    if requests == [] then Walk([], false, 0)
    else
      var page := Fetch(requests[0].rows, after, requests[0].limit);
      if page.next.None? then Walk(page.items, true, 1)
      else
        var rest := Traverse(requests[1..], page.next);
        Walk(page.items + rest.items, rest.finished, rest.used + 1)
  }

  ghost predicate WellFormed(requests: seq<Request>) {
    forall q :: q in requests ==> q.limit >= 1 && UniqueKeys(q.rows)
  }

  lemma AscendingJoin(a: seq<Row>, b: seq<Row>, pivot: Key)
    requires Ascending(a) && Ascending(b) && a != [] && a[|a| - 1].key == pivot
    requires forall x :: x in b ==> KeyLess(pivot, x.key)
    ensures Ascending(a + b)
  {
    hide KeyLess;
    forall i, j | 0 <= i < j < |a + b| ensures KeyLess((a + b)[i].key, (a + b)[j].key) {
      if i < |a| <= j {
        assert b[j - |a|] in b;
        if i < |a| - 1 { KeyTransitive((a + b)[i].key, pivot, (a + b)[j].key); }
      }
    }
  }

  /** What a page has to do with the order. */
  lemma FetchAscends(rows: seq<Row>, after: Option<Key>, limit: nat)
    requires limit >= 1 && UniqueKeys(rows)
    ensures var page := Fetch(rows, after, limit);
      && Ascending(page.items) && (forall x :: x in page.items ==> After(after, x.key))
      && (page.next.Some? ==> page.items != [] && page.items[|page.items| - 1].key == page.next.value
                              && After(after, page.next.value))
  {
    hide KeyLess;
    FetchMeaning(rows, after, limit);
  }

  /** What lies beyond the end of a page lies beyond its start. */
  lemma AfterNext(after: Option<Key>, next: Option<Key>, page: seq<Row>, rest: seq<Row>)
    requires next.Some? && After(after, next.value)
    requires (forall x :: x in page ==> After(after, x.key)) && forall x :: x in rest ==> After(next, x.key)
    ensures forall x :: x in page + rest ==> After(after, x.key)
  {
    hide KeyLess;
    if after.Some? {
      forall x | x in rest ensures After(after, x.key) { KeyTransitive(after.value, next.value, x.key); }
    }
  }

  lemma AfterIsLess(next: Option<Key>, rest: seq<Row>)
    requires next.Some? && forall x :: x in rest ==> After(next, x.key)
    ensures forall x :: x in rest ==> KeyLess(next.value, x.key)
  {
    hide KeyLess;
  }

  /** However the table changes between pages, no key is returned twice and keys only go up. */
  lemma {:induction false} TraversalAscends(requests: seq<Request>, after: Option<Key>)
    requires WellFormed(requests)
    ensures var w := Traverse(requests, after);
      Ascending(w.items) && forall x :: x in w.items ==> After(after, x.key)
  {
    if requests != [] {
      var q := requests[0];
      FetchAscends(q.rows, after, q.limit);
      hide Fetch, After, KeyLess, UniqueKeys, Ascending;
      var page := Fetch(q.rows, after, q.limit);
      if page.next.Some? {
        TraversalAscends(requests[1..], page.next);
        var rest := Traverse(requests[1..], page.next).items;
        AfterNext(after, page.next, page.items, rest);
        AfterIsLess(page.next, rest);
        AscendingJoin(page.items, rest, page.next.value);
      }
    }
  }

  /** A row that matches at every page of a finished traversal is returned, whatever is inserted,
      removed or edited around it between the pages; with TraversalAscends, exactly once. */
  lemma {:induction false} StableRowReturned(requests: seq<Request>, after: Option<Key>, row: Row)
    requires WellFormed(requests)
    requires After(after, row.key)
    requires Traverse(requests, after).finished
    requires forall p :: 0 <= p < Traverse(requests, after).used ==> row in requests[p].rows
    ensures row in Traverse(requests, after).items
  {
    var q := requests[0];
    FetchMeaning(q.rows, after, q.limit);
    var page := Fetch(q.rows, after, q.limit);
    assert row in requests[0].rows;
    if page.next.Some? && row !in page.items {
      forall p | 0 <= p < Traverse(requests[1..], page.next).used ensures row in requests[1..][p].rows {
        assert row in requests[p + 1].rows;
      }
      StableRowReturned(requests[1..], page.next, row);
    }
  }

  /** Over an unchanging table a finished traversal is the whole ordered listing, for any page sizes. */
  lemma ImmutableTraversal(requests: seq<Request>, rows: seq<Row>, after: Option<Key>)
    requires WellFormed(requests) && UniqueKeys(rows)
    requires forall q :: q in requests ==> q.rows == rows
    requires Traverse(requests, after).finished
    ensures Traverse(requests, after).items == Ordered(Beyond(rows, after))
  {
    var w := Traverse(requests, after);
    TraversalAscends(requests, after);
    BeyondMembers(rows, after);
    OrderedSorted(Beyond(rows, after));
    TraversalFromTables(requests, after);
    forall x | x in Ordered(Beyond(rows, after)) ensures x in w.items {
      StableRowReturned(requests, after, x);
    }
    AscendingUnique(w.items, Ordered(Beyond(rows, after)));
  }

  lemma {:induction false} TraversalFromTables(requests: seq<Request>, after: Option<Key>)
    requires WellFormed(requests)
    ensures forall x :: x in Traverse(requests, after).items ==> exists q :: q in requests && x in q.rows
  {
    if requests != [] {
      var q := requests[0];
      FetchMeaning(q.rows, after, q.limit);
      var page := Fetch(q.rows, after, q.limit);
      assert q in requests;
      if page.next.Some? { TraversalFromTables(requests[1..], page.next); }
    }
  }

  /** Every page that offers a continuation leaves strictly fewer rows, so as many requests as
      there are remaining rows, plus one, finish the traversal. */
  lemma {:induction false} TraversalTerminates(requests: seq<Request>, rows: seq<Row>, after: Option<Key>)
    requires WellFormed(requests) && UniqueKeys(rows)
    requires forall q :: q in requests ==> q.rows == rows
    requires |requests| > |Beyond(rows, after)|
    ensures Traverse(requests, after).finished
  {
    var q := requests[0];
    assert q in requests;
    FetchMeaning(rows, after, q.limit);
    var page := Fetch(rows, after, q.limit);
    if page.next.Some? {
      RemainingShrinks(rows, after, page.next.value);
      TraversalTerminates(requests[1..], rows, page.next);
    }
  }

  lemma RemainingShrinks(rows: seq<Row>, after: Option<Key>, next: Key)
    requires UniqueKeys(rows) && After(after, next)
    requires exists x :: x in rows && x.key == next
    ensures |Beyond(rows, Some(next))| < |Beyond(rows, after)|
  {
    var x :| x in rows && x.key == next;
    ShrinkStep(rows, after, x);
  }

  lemma {:induction false} ShrinkStep(rows: seq<Row>, after: Option<Key>, x: Row)
    requires After(after, x.key)
    ensures |Beyond(rows, Some(x.key))| <= |Beyond(rows, after)|
    ensures x in rows ==> |Beyond(rows, Some(x.key))| < |Beyond(rows, after)|
  {
    if rows != [] {
      ShrinkStep(rows[1..], after, x);
      var k := rows[0].key;
      if KeyLess(x.key, k) && after.Some? { KeyTransitive(after.value, x.key, k); }
      KeyIrreflexive(x.key);
      assert rows == [rows[0]] + rows[1..];
    }
  }
}
