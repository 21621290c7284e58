/** Browsing the library while it keeps changing: pages of families and of versions in creation order. */
module Catalog {
  import opened Common
  import opened Results
  import K = Keyset
  import F = HistoryFilters
  import opened GlobalLibrary

  /** What is listed; every parameter is bound into the cursor, and so is the page size. */
  datatype View =
    | Families(q: string, includeArchived: bool)
    | CopyableProfiles(version: Id, q: string, includeArchived: bool)
    | FamilyVersions(owner: Id, target: Option<Id>, includeArchived: bool, q: string)
    | FamilyProfiles(owner: Id, target: Option<Id>, includeArchived: bool, q: string)
    | ProfileVersions(owner: Id, target: Option<Id>, includeArchived: bool, q: string)

  datatype Binding = Binding(view: View, limit: int)

  datatype Cursor = Cursor(binding: Binding, createdAt: string, id: Id)

  datatype Page = Page(items: seq<K.Row>, next: Option<Cursor>)

  /** instr(lower(column), lower(q)) > 0 */
  predicate Mentions(column: string, q: string) { F.Contains(F.Lower(column), F.Lower(q)) }

  /** The same over coalesce(column, ''). */
  predicate MaybeMentions(column: Option<string>, q: string) { Mentions(if column.Some? then column.value else "", q) }

  /** The WHERE clause without its bookmark. */
  predicate Matches(t: Tables, view: View, id: Id) {
    match view
    case Families(q, includeArchived) =>
      && id in t.workflows
      && var w := t.workflows[id];
        (includeArchived || w.archivedAt.None?) && (Mentions(w.name, q) || MaybeMentions(w.description, q))
    case CopyableProfiles(version, q, _) =>
      && id in t.profileVersions
      && var v := t.profileVersions[id];
        v.version == version && v.archivedAt.None? && v.profile in t.profiles && t.profiles[v.profile].archivedAt.None?
        && Mentions(t.profiles[v.profile].name, q)
    case FamilyVersions(owner, _, includeArchived, q) =>
      && id in t.versions
      && var v := t.versions[id];
        v.workflow == owner && (includeArchived || v.archivedAt.None?)
        && (Mentions(v.nameSnapshot, q) || MaybeMentions(v.note, q))
    case FamilyProfiles(owner, _, includeArchived, q) =>
      && id in t.profiles
      && var p := t.profiles[id];
        p.workflow == owner && (includeArchived || p.archivedAt.None?)
        && (Mentions(p.name, q) || MaybeMentions(p.description, q))
    case ProfileVersions(owner, target, includeArchived, q) =>
      && id in t.profileVersions
      && var v := t.profileVersions[id];
        v.profile == owner && (includeArchived || v.archivedAt.None?) && (target.Some? ==> v.version == target.value)
        && (Mentions(v.nameSnapshot, q) || MaybeMentions(v.note, q))
  }

  /** The ids of the table a view reads. */
  function Ids(t: Tables, view: View): set<Id> {
    match view
    case Families(_, _) => t.workflows.Keys
    case CopyableProfiles(_, _, _) => t.profileVersions.Keys
    case FamilyVersions(_, _, _, _) => t.versions.Keys
    case FamilyProfiles(_, _, _, _) => t.profiles.Keys
    case ProfileVersions(_, _, _, _) => t.profileVersions.Keys
  }

  function CreatedAt(t: Tables, view: View, id: Id): string
    requires id in Ids(t, view)
  {
    match view
    case Families(_, _) => t.workflows[id].createdAt
    case CopyableProfiles(_, _, _) => t.profileVersions[id].createdAt
    case FamilyVersions(_, _, _, _) => t.versions[id].createdAt
    case FamilyProfiles(_, _, _, _) => t.profiles[id].createdAt
    case ProfileVersions(_, _, _, _) => t.profileVersions[id].createdAt
  }

  function KeyOf(createdAt: string, id: Id): K.Key { [K.Text(createdAt), K.Text(id)] }

  /** (created_at, id) and the row itself. */
  function RowOf(t: Tables, view: View, id: Id): K.Row
    requires id in Ids(t, view)
  {
    K.Row(KeyOf(CreatedAt(t, view, id), id), K.Text(id))
  }

  lemma MatchesAreRows(t: Tables, view: View, id: Id)
    ensures Matches(t, view, id) ==> id in Ids(t, view)
  {
  }

  /** rows are the matching rows, each once. */
  ghost predicate Lists(rows: seq<K.Row>, t: Tables, view: View) {
    && K.UniqueKeys(rows)
    && (forall x :: x in rows ==> exists id :: id in Ids(t, view) && Matches(t, view, id) && x == RowOf(t, view, id))
    && (forall id :: id in Ids(t, view) && Matches(t, view, id) ==> RowOf(t, view, id) in rows)
  }

  /** A scan of the table, in whatever order it comes. */
  method Scan(t: Tables, view: View) returns (rows: seq<K.Row>)
    ensures Lists(rows, t, view)
  {
    rows := [];
    var pending := Ids(t, view);
    while pending != {}
      invariant pending <= Ids(t, view)
      invariant K.UniqueKeys(rows)
      invariant forall x :: x in rows ==>
        exists id :: id in Ids(t, view) && id !in pending && Matches(t, view, id) && x == RowOf(t, view, id)
      invariant forall id :: id in Ids(t, view) && id !in pending && Matches(t, view, id) ==> RowOf(t, view, id) in rows
    {
      var id :| id in pending;
      if Matches(t, view, id) {
        var row := RowOf(t, view, id);
        forall i | 0 <= i < |rows| ensures rows[i].key != row.key {
          assert rows[i] in rows;
          var other :| other in Ids(t, view) && other !in pending
                       && Matches(t, view, other) && rows[i] == RowOf(t, view, other);
          assert rows[i].key[1] == K.Text(other);
        }
        rows := rows + [row];
      }
      pending := pending - {id};
    }
  }

  /** The rows of the given ids, in some order. */
  ghost function ListFrom(t: Tables, view: View, ids: set<Id>): seq<K.Row>
    requires ids <= Ids(t, view)
  {
    if ids == {} then []
    else
      var id :| id in ids;
      (if Matches(t, view, id) then [RowOf(t, view, id)] else []) + ListFrom(t, view, ids - {id})
  }

  lemma {:induction false} ListFromMembers(t: Tables, view: View, ids: set<Id>)
    requires ids <= Ids(t, view)
    ensures forall x ::
      x in ListFrom(t, view, ids) <==> exists id :: id in ids && Matches(t, view, id) && x == RowOf(t, view, id)
    ensures K.UniqueKeys(ListFrom(t, view, ids))
  {
    hide Matches;
    if ids != {} {
      var rows := ListFrom(t, view, ids);
      var id :| id in ids
                && rows == (if Matches(t, view, id) then [RowOf(t, view, id)] else []) + ListFrom(t, view, ids - {id});
      var rest := ListFrom(t, view, ids - {id});
      ListFromMembers(t, view, ids - {id});
      forall x | x in rest ensures x.key != RowOf(t, view, id).key {
        var other :| other in ids - {id} && Matches(t, view, other) && x == RowOf(t, view, other);
        assert x.key[1] == K.Text(other);
      }
      if Matches(t, view, id) { FrontUnique(RowOf(t, view, id), rest); } else { assert rows == rest; }
    }
  }

  lemma FrontUnique(row: K.Row, rest: seq<K.Row>)
    requires K.UniqueKeys(rest) && forall x :: x in rest ==> x.key != row.key
    ensures K.UniqueKeys([row] + rest)
  {
    var rows := [row] + rest;
    forall i, j | 0 <= i < j < |rows| ensures rows[i].key != rows[j].key {
      assert rows[j] == rest[j - 1] && rest[j - 1] in rest;
      if i > 0 { assert rows[i] == rest[i - 1]; }
    }
  }

  /** The matching rows, each once. */
  ghost function Listing(t: Tables, view: View): (rows: seq<K.Row>)
    ensures Lists(rows, t, view)
  {
    ListFromMembers(t, view, Ids(t, view));
    ListFrom(t, view, Ids(t, view))
  }

  /** The first key handed to the query. */
  const START: K.Key := KeyOf("", "")

  /** START is below every row but one created at "" with the id "". */
  lemma StartIsBelow(createdAt: string, id: Id)
    ensures K.KeyLess(START, KeyOf(createdAt, id)) <==> createdAt != "" || id != ""
  {
    var a, b := START, KeyOf(createdAt, id);
    assert a[1..] == [K.Text("")] && b[1..] == [K.Text(id)];
    assert a[1..][1..] == [] && b[1..][1..] == [];
    assert K.AtomLess(a[0], b[0]) <==> createdAt != "";
    assert K.AtomLess(a[1..][0], b[1..][0]) <==> id != "";
  }

  // ---------- one page ----------

  /** Why a view cannot be listed, if so: its owner or target is unknown, or of another family. */
  function ViewProblem(t: Tables, view: View): Option<Error> {
    match view
    case Families(_, _) => None
    case CopyableProfiles(version, _, _) => if version in t.versions then None else Some(NotFound)
    case FamilyVersions(owner, target, _, _) =>
      if owner in t.workflows then TargetProblemIn(t, owner, target) else Some(NotFound)
    case FamilyProfiles(owner, target, _, _) =>
      if owner in t.workflows then TargetProblemIn(t, owner, target) else Some(NotFound)
    case ProfileVersions(owner, target, _, _) =>
      if owner in t.profiles then TargetProblemIn(t, t.profiles[owner].workflow, target) else Some(NotFound)
  }

  function TargetProblemIn(t: Tables, family: Id, target: Option<Id>): Option<Error> {
    if target.None? then None
    else if target.value !in t.versions then Some(NotFound)
    else if t.versions[target.value].workflow != family then Some(Invalid)
    else None
  }

  predicate ProperOwner(view: View) {
    match view
    case Families(_, _) => true
    case CopyableProfiles(_, _, _) => true
    case _ => ProperText(view.owner, 200) && OptionalText(view.target, 200)
  }

  predicate ProperQuery(view: View, limit: int) { |view.q| <= 200 && 1 <= limit <= 50 && ProperOwner(view) }

  /** _cursor_after */
  function CursorAfter(cursor: Option<Cursor>, binding: Binding): Result<K.Key> {
    if cursor.None? then Ok(START)
    else if cursor.value.binding != binding then Err(Invalid)
    else Ok(KeyOf(cursor.value.createdAt, cursor.value.id))
  }

  ghost predicate Continues(next: Option<Cursor>, key: Option<K.Key>, binding: Binding) {
    && (next.Some? <==> key.Some?)
    && (next.Some? ==> next.value.binding == binding && key.value == KeyOf(next.value.createdAt, next.value.id))
  }

  /** page is the fetched one, and its cursor holds the key of the last row. */
  ghost predicate IsPage(page: Page, fetched: K.Page, binding: Binding) {
    page.items == fetched.items && Continues(page.next, fetched.next, binding)
  }

  /** The fetched page does not depend on the order in which the table was scanned. */
  lemma ScanOrderIrrelevant(a: seq<K.Row>, b: seq<K.Row>, t: Tables, view: View, after: Option<K.Key>, limit: nat)
    requires Lists(a, t, view) && Lists(b, t, view) && limit >= 1
    ensures K.Fetch(a, after, limit) == K.Fetch(b, after, limit)
  {
    SameRows(a, b, t, view);
    SameRows(b, a, t, view);
    K.BeyondMembers(a, after);
    K.BeyondMembers(b, after);
    K.OrderedSorted(K.Beyond(a, after));
    K.OrderedSorted(K.Beyond(b, after));
    K.AscendingUnique(K.Ordered(K.Beyond(a, after)), K.Ordered(K.Beyond(b, after)));
  }

  lemma SameRows(a: seq<K.Row>, b: seq<K.Row>, t: Tables, view: View)
    requires Lists(a, t, view) && Lists(b, t, view)
    ensures forall x :: x in a ==> x in b
  {
    hide Matches;
  }

  /** browse and history: check, decode the cursor, fetch limit + 1 rows, cut, encode the next one. */
  method Browse(t: Tables, view: View, limit: int, cursor: Option<Cursor>) returns (r: Result<Page>)
    ensures
      r.Ok? <==> ProperQuery(view, limit) && CursorAfter(cursor, Binding(view, limit)).Ok? && ViewProblem(t, view).None?
    ensures !(ProperQuery(view, limit) && CursorAfter(cursor, Binding(view, limit)).Ok?) ==> r == Err(Invalid)
    ensures ProperQuery(view, limit) && CursorAfter(cursor, Binding(view, limit)).Ok? && ViewProblem(t, view).Some? ==>
      r == Err(ViewProblem(t, view).value)
    ensures r.Ok? ==>
      IsPage(r.value, K.Fetch(Listing(t, view), Some(CursorAfter(cursor, Binding(view, limit)).value), limit),
             Binding(view, limit))
  {
    hide Matches;
    if !ProperQuery(view, limit) {
      return Err(Invalid);
    }
    var binding := Binding(view, limit);
    var after := CursorAfter(cursor, binding);
    if after.Err? {
      return Err(after.error);
    }
    var problem := ViewProblem(t, view);
    if problem.Some? {
      return Err(problem.value);
    }
    var rows := Scan(t, view);
    ScanOrderIrrelevant(rows, Listing(t, view), t, view, Some(after.value), limit);
    var found := K.Ordered(K.Beyond(rows, Some(after.value)));
    var items := if |found| > limit then found[..limit] else found;
    var next: Option<Cursor> := None;
    if |found| > limit {
      LastRow(rows, t, view, Some(after.value), limit);
      var last := items[limit - 1].key;
      next := Some(Cursor(binding, last[0].s, last[1].s));
    }
    return Ok(Page(items, next));
  }

  lemma LastRow(rows: seq<K.Row>, t: Tables, view: View, after: Option<K.Key>, limit: nat)
    requires Lists(rows, t, view) && limit >= 1 && |K.Ordered(K.Beyond(rows, after))| > limit
    ensures var key := K.Ordered(K.Beyond(rows, after))[limit - 1].key;
      |key| == 2 && key[0].Text? && key[1].Text? && key == KeyOf(key[0].s, key[1].s)
  {
    hide Matches;
    var found := K.Ordered(K.Beyond(rows, after));
    K.BeyondMembers(rows, after);
    K.OrderedSorted(K.Beyond(rows, after));
    var x := found[limit - 1];
    assert x in found;
    assert x in rows;
    var id :| id in Ids(t, view) && Matches(t, view, id) && x == RowOf(t, view, id);
  }

  // ---------- a whole traversal, with other calls in between ----------

  /** The library at each page: nothing is removed and no key changes from one to the next. */
  ghost predicate Chain(libraries: seq<Tables>) {
    forall i, j :: 0 <= i <= j < |libraries| ==> Evolves(libraries[i], libraries[j])
  }

  /** A view that can be listed stays so. */
  lemma ViewStays(t: Tables, u: Tables, view: View)
    requires Evolves(t, u) && ViewProblem(t, view).None?
    ensures ViewProblem(u, view).None?
  {
    match view
    case Families(_, _) =>
    case CopyableProfiles(version, _, _) => assert version in u.versions;
    case FamilyVersions(owner, target, _, _) => TargetStays(t, u, owner, target);
    case FamilyProfiles(owner, target, _, _) => TargetStays(t, u, owner, target);
    case ProfileVersions(owner, target, _, _) => TargetStays(t, u, t.profiles[owner].workflow, target);
      assert SameProfileIdentity(t.profiles[owner], u.profiles[owner]);
  }

  lemma TargetStays(t: Tables, u: Tables, family: Id, target: Option<Id>)
    requires Evolves(t, u) && TargetProblemIn(t, family, target).None?
    ensures TargetProblemIn(u, family, target).None?
  {
    if target.Some? { assert SameVersion(t.versions[target.value], u.versions[target.value]); }
  }

  /** No operation moves a row in the listing. */
  lemma KeyStays(t: Tables, u: Tables, view: View, id: Id)
    requires Evolves(t, u) && id in Ids(t, view)
    ensures id in Ids(u, view) && RowOf(u, view, id) == RowOf(t, view, id)
  {
    match view
    case Families(_, _) => assert SameWorkflowIdentity(t.workflows[id], u.workflows[id]);
    case CopyableProfiles(_, _, _) => assert SameProfileVersion(t.profileVersions[id], u.profileVersions[id]);
    case FamilyVersions(_, _, _, _) => assert SameVersion(t.versions[id], u.versions[id]);
    case FamilyProfiles(_, _, _, _) => assert SameProfileIdentity(t.profiles[id], u.profiles[id]);
    case ProfileVersions(_, _, _, _) => assert SameProfileVersion(t.profileVersions[id], u.profileVersions[id]);
  }

  /** One request per library. */
  ghost function Requests(libraries: seq<Tables>, view: View, limit: nat): (requests: seq<K.Request>)
    ensures |requests| == |libraries|
    ensures forall p :: 0 <= p < |libraries| ==> requests[p] == K.Request(Listing(libraries[p], view), limit)
  {
    seq(|libraries|, p requires 0 <= p < |libraries| => K.Request(Listing(libraries[p], view), limit))
  }

  lemma RequestsWellFormed(libraries: seq<Tables>, view: View, limit: nat)
    requires limit >= 1
    ensures K.WellFormed(Requests(libraries, view, limit))
  {
    hide Listing, Matches;
  }

  ghost function Traversal(libraries: seq<Tables>, view: View, limit: nat, after: K.Key): K.Walk
    requires limit >= 1
  {
    RequestsWellFormed(libraries, view, limit);
    K.Traverse(Requests(libraries, view, limit), Some(after))
  }

  /** A client that follows next_cursor until there is none, or until it stops asking. */
  method Follow(libraries: seq<Tables>, view: View, limit: nat, cursor: Option<Cursor>)
    returns (items: seq<K.Row>, finished: bool)
    requires ProperQuery(view, limit) && CursorAfter(cursor, Binding(view, limit)).Ok?
    requires forall i :: 0 <= i < |libraries| ==> ViewProblem(libraries[i], view).None?
    ensures items == Traversal(libraries, view, limit, CursorAfter(cursor, Binding(view, limit)).value).items
    ensures finished == Traversal(libraries, view, limit, CursorAfter(cursor, Binding(view, limit)).value).finished
    decreases |libraries|
  {
    hide Matches, ViewProblem, K.Fetch, Listing;
    if libraries == [] {
      return [], false;
    }
    var page := Browse(libraries[0], view, limit, cursor);
    assert Requests(libraries, view, limit)[1..] == Requests(libraries[1..], view, limit);
    if page.value.next.None? {
      return page.value.items, true;
    }
    var rest, done := Follow(libraries[1..], view, limit, page.value.next);
    return page.value.items + rest, done;
  }

  /** Everything returned is a row that matched when its page was read, in ascending order and never
      the same one twice. */
  lemma NothingTwice(libraries: seq<Tables>, view: View, limit: nat, after: K.Key, i: nat, j: nat)
    requires limit >= 1 && Chain(libraries)
    requires i < j < |Traversal(libraries, view, limit, after).items|
    ensures var items := Traversal(libraries, view, limit, after).items;
      K.KeyLess(items[i].key, items[j].key) && items[i].item != items[j].item
  {
    hide Matches, Evolves, Listing;
    RequestsWellFormed(libraries, view, limit);
    K.TraversalAscends(Requests(libraries, view, limit), Some(after));
    var x, y := Traversal(libraries, view, limit, after).items[i], Traversal(libraries, view, limit, after).items[j];
    if x.item == y.item {
      var p, a := Origin(libraries, view, limit, after, x);
      var q, b := Origin(libraries, view, limit, after, y);
      assert K.Text(a) == x.item == y.item == K.Text(b);
      if p <= q {
        KeyStays(libraries[p], libraries[q], view, a);
      } else {
        KeyStays(libraries[q], libraries[p], view, a);
      }
      K.KeyIrreflexive(x.key);
      assert false;
    }
  }

  lemma Origin(libraries: seq<Tables>, view: View, limit: nat, after: K.Key, x: K.Row) returns (p: nat, id: Id)
    requires limit >= 1 && x in Traversal(libraries, view, limit, after).items
    ensures p < |libraries| && id in Ids(libraries[p], view) && Matches(libraries[p], view, id)
    ensures x == RowOf(libraries[p], view, id)
  {
    hide Matches;
    var requests := Requests(libraries, view, limit);
    RequestsWellFormed(libraries, view, limit);
    K.TraversalFromTables(requests, Some(after));
    var q :| q in requests && x in q.rows;
    p :| 0 <= p < |requests| && requests[p] == q;
    id :| id in Ids(libraries[p], view) && Matches(libraries[p], view, id) && x == RowOf(libraries[p], view, id);
  }

  /** A row that keeps matching while a traversal runs is returned exactly once, whatever is inserted,
      renamed, archived or appended between the pages. */
  lemma StableRowOnce(libraries: seq<Tables>, view: View, limit: nat, id: Id)
    requires limit >= 1 && Chain(libraries) && id != ""
    requires Traversal(libraries, view, limit, START).finished
    requires forall p :: 0 <= p < Traversal(libraries, view, limit, START).used ==> Matches(libraries[p], view, id)
    ensures var items := Traversal(libraries, view, limit, START).items;
      exists k :: 0 <= k < |items| && items[k].item == K.Text(id)
        && forall m :: 0 <= m < |items| && items[m].item == K.Text(id) ==> m == k
  {
    hide Evolves, Listing;
    var requests := Requests(libraries, view, limit);
    var items := Traversal(libraries, view, limit, START).items;
    RequestsWellFormed(libraries, view, limit);
    MatchesAreRows(libraries[0], view, id);
    var row := RowOf(libraries[0], view, id);
    StartIsBelow(CreatedAt(libraries[0], view, id), id);
    forall p | 0 <= p < Traversal(libraries, view, limit, START).used ensures row in requests[p].rows {
      RowListed(libraries, view, id, p);
    }
    K.StableRowReturned(requests, Some(START), row);
    var k :| 0 <= k < |items| && items[k] == row;
    forall m | 0 <= m < |items| && items[m].item == K.Text(id) ensures m == k {
      if m < k { NothingTwice(libraries, view, limit, START, m, k); }
      if k < m { NothingTwice(libraries, view, limit, START, k, m); }
    }
  }

  lemma RowListed(libraries: seq<Tables>, view: View, id: Id, p: nat)
    requires Chain(libraries) && p < |libraries|
    requires id in Ids(libraries[0], view) && Matches(libraries[p], view, id)
    ensures RowOf(libraries[0], view, id) in Listing(libraries[p], view)
  {
    hide Matches, Evolves;
    KeyStays(libraries[0], libraries[p], view, id);
  }

  // ---------- libraries between pages ----------

  /** The libraries seen when a page is read before each batch of calls. */
  ghost function Libraries(s: State, batches: seq<seq<Call>>): seq<Tables>
    requires AllCallable(batches)
    decreases |batches|
  {
    if batches == [] then [s.library] else [s.library] + Libraries(Run(s, batches[0]), batches[1..])
  }

  ghost predicate AllCallable(batches: seq<seq<Call>>) {
    forall i, j :: 0 <= i < |batches| && 0 <= j < |batches[i]| ==> Callable(batches[i][j])
  }

  /** Any calls between the pages keep the chain. */
  lemma {:induction false} LibrariesChain(s: State, batches: seq<seq<Call>>)
    requires AllCallable(batches) && Consistent(s.library) && Unscoped(s.library)
    ensures Chain(Libraries(s, batches)) && |Libraries(s, batches)| == |batches| + 1
    ensures Libraries(s, batches)[0] == s.library
    decreases |batches|
  {
    hide Evolves, Consistent, Unscoped, Run;
    EvolvesReflexive(s.library);
    if batches != [] {
      var next := Run(s, batches[0]);
      RunKeeps(s, batches[0]);
      LibrariesChain(next, batches[1..]);
      var all, rest := Libraries(s, batches), Libraries(next, batches[1..]);
      forall i, j | 0 <= i <= j < |all| ensures Evolves(all[i], all[j]) {
        if i > 0 {
          assert all[i] == rest[i - 1] && all[j] == rest[j - 1];
        } else if j > 0 {
          assert all[j] == rest[j - 1] && Evolves(rest[0], rest[j - 1]);
          EvolvesTransitive(s.library, next.library, all[j]);
        }
      }
    }
  }
}
