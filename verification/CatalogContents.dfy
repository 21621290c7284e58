/** Which rows the catalog's views show, when a view is refused, and what archiving a row does to them. */
module CatalogContents {
  import opened Common
  import opened Results
  import K = Keyset
  import F = HistoryFilters
  import opened GlobalLibrary
  import opened Catalog
  import L = LibraryCalls

  /** q occurs in the text, ASCII letters of either case being the same. */
  ghost predicate Occurs(q: string, text: string) {
    exists before: string, after: string :: F.Lower(text) == before + F.Lower(q) + after
  }

  ghost predicate OccursInAny(q: string, name: string, more: Option<string>) {
    q == "" || Occurs(q, name) || (more.Some? && Occurs(q, more.value))
  }

  lemma {:induction false} LowerLetters(s: string)
    ensures |F.Lower(s)| == |s|
    ensures forall i :: 0 <= i < |s| ==> F.Lower(s)[i] == if 'A' <= s[i] <= 'Z' then s[i] - 'A' + 'a' else s[i]
  {
    if s != [] { LowerLetters(s[1..]); }
  }

  lemma ContainsMeaning(s: string, part: string)
    ensures F.Contains(s, part) <==> exists before: string, after: string :: s == before + part + after
  {
    if F.Contains(s, part) {
      var i :| 0 <= i <= |s| && F.PartAt(s, part, i);
      assert s == s[..i] + part + s[i + |part|..];
    }
    if before: string, after: string :| s == before + part + after {
      assert s[|before|..|before| + |part|] == part;
      assert F.PartAt(s, part, |before|);
    }
  }

  lemma MentionsMeaning(column: string, q: string)
    ensures Mentions(column, q) <==> Occurs(q, column)
    ensures q == "" ==> Mentions(column, q)
  {
    ContainsMeaning(F.Lower(column), F.Lower(q));
    if q == "" { assert F.PartAt(F.Lower(column), "", 0); }
  }

  lemma EitherMentions(name: string, more: Option<string>, q: string)
    ensures Mentions(name, q) || MaybeMentions(more, q) <==> OccursInAny(q, name, more)
  {
    hide Mentions;
    MentionsMeaning(name, q);
    if more.Some? {
      MentionsMeaning(more.value, q);
    } else {
      NothingInNothing(q);
    }
  }

  lemma NothingInNothing(q: string)
    ensures Mentions("", q) ==> q == ""
  {
    LowerLetters(q);
    MentionsMeaning("", q);
    if Occurs(q, "") {
      var before: string, after: string :| F.Lower("") == before + F.Lower(q) + after;
      assert |before + F.Lower(q) + after| == 0;
    }
  }

  // ---------- what each view shows ----------

  /** The view lists the row with this id. */
  ghost predicate Shows(t: Tables, view: View, id: Id) { exists x :: x in Listing(t, view) && x.item == K.Text(id) }

  lemma ShowsMatches(t: Tables, view: View, id: Id)
    ensures Shows(t, view, id) <==> Matches(t, view, id)
    ensures Shows(t, view, id) ==> id in Ids(t, view) && RowOf(t, view, id) in Listing(t, view)
  {
    MatchesAreRows(t, view, id);
    hide Matches;
    var rows := Listing(t, view);
    if x :| x in rows && x.item == K.Text(id) {
      var other :| other in Ids(t, view) && Matches(t, view, other) && x == RowOf(t, view, other);
    }
    if Matches(t, view, id) { assert RowOf(t, view, id) in rows; }
  }

  lemma FamiliesShown(t: Tables, q: string, includeArchived: bool, id: Id)
    ensures Shows(t, Families(q, includeArchived), id) <==>
      && id in t.workflows
      && (t.workflows[id].archivedAt.Some? ==> includeArchived)
      && OccursInAny(q, t.workflows[id].name, t.workflows[id].description)
  {
    hide Listing;
    ShowsMatches(t, Families(q, includeArchived), id);
    if id in t.workflows { EitherMentions(t.workflows[id].name, t.workflows[id].description, q); }
    hide Shows, Mentions, MaybeMentions, OccursInAny;
  }

  /** Profiles for copying: active ones of an active family that target this very version, found by the
      family's name; archived ones are never shown. */
  lemma CopyableShown(t: Tables, version: Id, q: string, includeArchived: bool, id: Id)
    ensures Shows(t, CopyableProfiles(version, q, includeArchived), id) <==>
      && id in t.profileVersions
      && var v := t.profileVersions[id];
        v.version == version && v.archivedAt.None?
        && v.profile in t.profiles && t.profiles[v.profile].archivedAt.None?
        && OccursInAny(q, t.profiles[v.profile].name, None)
  {
    hide Listing;
    ShowsMatches(t, CopyableProfiles(version, q, includeArchived), id);
    if id in t.profileVersions && t.profileVersions[id].profile in t.profiles {
      MentionsMeaning(t.profiles[t.profileVersions[id].profile].name, q);
    }
    hide Shows, Mentions, MaybeMentions;
  }

  /** The versions of a family, whichever target is asked about. */
  lemma VersionsShown(t: Tables, owner: Id, target: Option<Id>, includeArchived: bool, q: string, id: Id)
    ensures Shows(t, FamilyVersions(owner, target, includeArchived, q), id) <==>
      && id in t.versions && t.versions[id].workflow == owner
      && (t.versions[id].archivedAt.Some? ==> includeArchived)
      && OccursInAny(q, t.versions[id].nameSnapshot, t.versions[id].note)
  {
    hide Listing;
    ShowsMatches(t, FamilyVersions(owner, target, includeArchived, q), id);
    if id in t.versions { EitherMentions(t.versions[id].nameSnapshot, t.versions[id].note, q); }
    hide Shows, Mentions, MaybeMentions, OccursInAny;
  }

  lemma ProfilesShown(t: Tables, owner: Id, target: Option<Id>, includeArchived: bool, q: string, id: Id)
    ensures Shows(t, FamilyProfiles(owner, target, includeArchived, q), id) <==>
      && id in t.profiles && t.profiles[id].workflow == owner
      && (t.profiles[id].archivedAt.Some? ==> includeArchived)
      && OccursInAny(q, t.profiles[id].name, t.profiles[id].description)
  {
    hide Listing;
    ShowsMatches(t, FamilyProfiles(owner, target, includeArchived, q), id);
    if id in t.profiles { EitherMentions(t.profiles[id].name, t.profiles[id].description, q); }
    hide Shows, Mentions, MaybeMentions, OccursInAny;
  }

  /** The versions of a profile, for one target if one is asked for. */
  lemma ProfileVersionsShown(t: Tables, owner: Id, target: Option<Id>, includeArchived: bool, q: string, id: Id)
    ensures Shows(t, ProfileVersions(owner, target, includeArchived, q), id) <==>
      && id in t.profileVersions && t.profileVersions[id].profile == owner
      && (target.None? || target.value == t.profileVersions[id].version)
      && (t.profileVersions[id].archivedAt.Some? ==> includeArchived)
      && OccursInAny(q, t.profileVersions[id].nameSnapshot, t.profileVersions[id].note)
  {
    hide Listing;
    ShowsMatches(t, ProfileVersions(owner, target, includeArchived, q), id);
    if id in t.profileVersions { EitherMentions(t.profileVersions[id].nameSnapshot, t.profileVersions[id].note, q); }
    hide Shows, Mentions, MaybeMentions, OccursInAny;
  }

  // ---------- archived rows ----------

  /** The same view with or without archived rows. */
  function WithArchived(view: View, includeArchived: bool): View { view.(includeArchived := includeArchived) }

  /** When the row itself is archived; unknown ids are not. */
  ghost predicate IsArchived(t: Tables, view: View, id: Id) {
    match view
    case Families(_, _) => id in t.workflows && t.workflows[id].archivedAt.Some?
    case CopyableProfiles(_, _, _) => id in t.profileVersions && t.profileVersions[id].archivedAt.Some?
    case FamilyVersions(_, _, _, _) => id in t.versions && t.versions[id].archivedAt.Some?
    case FamilyProfiles(_, _, _, _) => id in t.profiles && t.profiles[id].archivedAt.Some?
    case ProfileVersions(_, _, _, _) => id in t.profileVersions && t.profileVersions[id].archivedAt.Some?
  }

  lemma ShownExactly(t: Tables, view: View, id: Id)
    ensures Shows(t, view, id) ==> !IsArchived(t, view, id) || (view.includeArchived && !view.CopyableProfiles?)
    ensures Shows(t, WithArchived(view, false), id) <==>
      Shows(t, WithArchived(view, true), id) && !IsArchived(t, view, id)
  {
    hide Shows, OccursInAny;
    match view
    case Families(q, inc) =>
      FamiliesShown(t, q, inc, id); FamiliesShown(t, q, false, id); FamiliesShown(t, q, true, id);
    case CopyableProfiles(version, q, inc) =>
      CopyableShown(t, version, q, inc, id); CopyableShown(t, version, q, false, id);
      CopyableShown(t, version, q, true, id);
    case FamilyVersions(owner, target, inc, q) =>
      VersionsShown(t, owner, target, inc, q, id); VersionsShown(t, owner, target, false, q, id);
      VersionsShown(t, owner, target, true, q, id);
    case FamilyProfiles(owner, target, inc, q) =>
      ProfilesShown(t, owner, target, inc, q, id); ProfilesShown(t, owner, target, false, q, id);
      ProfilesShown(t, owner, target, true, q, id);
    case ProfileVersions(owner, target, inc, q) =>
      ProfileVersionsShown(t, owner, target, inc, q, id); ProfileVersionsShown(t, owner, target, false, q, id);
      ProfileVersionsShown(t, owner, target, true, q, id);
  }

  /** The kind of row that a view shows. */
  function KindShown(view: View): Kind {
    match view
    case Families(_, _) => WorkflowKind
    case CopyableProfiles(_, _, _) => ProfileVersionKind
    case FamilyVersions(_, _, _, _) => VersionKind
    case FamilyProfiles(_, _, _, _) => ProfileKind
    case ProfileVersions(_, _, _, _) => ProfileVersionKind
  }

  /** A row that has just been archived is gone from the default listing and, if it was there before, still in
      the one with archived rows; after unarchiving it is in both. The other rows stay as they were. */
  lemma ArchivingMoves(s: State, requestId: string, r: Request, now: string, uuid: Uuids, view: View, id: Id)
    requires r.SetArchived? && r.kind == KindShown(view) && requestId !in s.authoring
    requires Step(s, AuthorCall(requestId, r, now, uuid)).result.Ok?
    ensures var t, u := s.library, Step(s, AuthorCall(requestId, r, now, uuid)).state.library;
      && (r.archived ==> !Shows(u, WithArchived(view, false), r.row))
      && (!view.CopyableProfiles? ==>
            (Shows(u, WithArchived(view, true), r.row) <==> Shows(t, WithArchived(view, true), r.row)))
      && (!view.CopyableProfiles? && !r.archived ==>
            (Shows(u, WithArchived(view, false), r.row) <==> Shows(t, WithArchived(view, true), r.row)))
      && (id != r.row ==> (Shows(u, view, id) <==> Shows(t, view, id)))
  {
    L.SetArchivedDecided(s, requestId, r, now, uuid);
    var t, u := s.library, Step(s, AuthorCall(requestId, r, now, uuid)).state.library;
    hide Step, Shows, OccursInAny;
    ShownExactly(u, view, r.row);
    var mark := if r.archived then Some(now) else None;
    if !view.CopyableProfiles? { SameShown(t, u, WithArchived(view, true), r.kind, r.row, now, mark, r.row); }
    if id != r.row { SameShown(t, u, view, r.kind, r.row, now, mark, id); }
    MarkedSame(u, view, r.kind, r.row);
  }

  lemma MarkedSame(t: Tables, view: View, kind: Kind, id: Id)
    requires kind == KindShown(view)
    ensures IsArchived(t, view, id) <==> L.IsArchived(t, kind, id)
  {
  }

  /** A mark changes what a view shows of its own row only, and nothing if archived rows are shown too. */
  lemma SameShown(t: Tables, u: Tables, view: View, kind: Kind, row: Id, now: string, mark: Option<string>, id: Id)
    requires kind == KindShown(view) && L.Exists(t, kind, row) && L.OnlyMarkChanged(t, u, kind, row, now, mark)
    requires id != row || (view.includeArchived && !view.CopyableProfiles?)
    ensures Shows(u, view, id) <==> Shows(t, view, id)
  {
    hide Shows, OccursInAny;
    match view
    case Families(q, inc) => FamiliesShown(t, q, inc, id); FamiliesShown(u, q, inc, id);
    case CopyableProfiles(version, q, inc) =>
      CopyableShown(t, version, q, inc, id); CopyableShown(u, version, q, inc, id);
    case FamilyVersions(owner, target, inc, q) =>
      VersionsShown(t, owner, target, inc, q, id); VersionsShown(u, owner, target, inc, q, id);
    case FamilyProfiles(owner, target, inc, q) =>
      ProfilesShown(t, owner, target, inc, q, id); ProfilesShown(u, owner, target, inc, q, id);
    case ProfileVersions(owner, target, inc, q) =>
      ProfileVersionsShown(t, owner, target, inc, q, id); ProfileVersionsShown(u, owner, target, inc, q, id);
  }

  // ---------- pages ----------

  /** A page shows nothing that its view does not, and leaves out only what lies behind its cursor or
      before the one it was asked for. */
  lemma PageShows(t: Tables, view: View, after: K.Key, limit: nat, page: Page, binding: Binding, id: Id)
    requires limit >= 1 && IsPage(page, K.Fetch(Listing(t, view), Some(after), limit), binding)
    ensures (exists x :: x in page.items && x.item == K.Text(id)) ==> Shows(t, view, id)
    ensures Shows(t, view, id) && K.KeyLess(after, KeyOf(CreatedAt(t, view, id), id)) ==>
      RowOf(t, view, id) in page.items
      || (page.next.Some? && K.KeyLess(KeyOf(page.next.value.createdAt, page.next.value.id),
                                       KeyOf(CreatedAt(t, view, id), id)))
  {
    hide Matches, K.KeyLess, Listing;
    var rows := Listing(t, view);
    K.FetchMeaning(rows, Some(after), limit);
    ShowsMatches(t, view, id);
    if Shows(t, view, id) && K.KeyLess(after, KeyOf(CreatedAt(t, view, id), id)) {
      assert RowOf(t, view, id) in rows;
    }
  }

  /** From its start, a view is shown completely on one page if the page has room for it. */
  lemma FirstPageShowsAll(t: Tables, view: View, limit: nat, page: Page, binding: Binding, id: Id)
    requires limit >= 1 && IsPage(page, K.Fetch(Listing(t, view), Some(START), limit), binding) && page.next.None?
    requires id != ""
    ensures Shows(t, view, id) <==> exists x :: x in page.items && x.item == K.Text(id)
  {
    PageShows(t, view, START, limit, page, binding, id);
    if Shows(t, view, id) {
      ShowsMatches(t, view, id);
      StartIsBelow(CreatedAt(t, view, id), id);
      assert RowOf(t, view, id).item == K.Text(id);
    }
  }

  /** (createdAt, id) before (otherAt, other) */
  predicate CreatedBefore(createdAt: string, id: Id, otherAt: string, other: Id) {
    K.TextLess(createdAt, otherAt) || (createdAt == otherAt && K.TextLess(id, other))
  }

  /** A page is in the order in which its rows were created. */
  lemma PageInCreationOrder(t: Tables, view: View, after: K.Key, limit: nat, page: Page, binding: Binding,
                            i: nat, j: nat, a: Id, b: Id)
    requires limit >= 1 && IsPage(page, K.Fetch(Listing(t, view), Some(after), limit), binding)
    requires i < j < |page.items| && page.items[i].item == K.Text(a) && page.items[j].item == K.Text(b)
    ensures view.Families? ==>
      (a in t.workflows && b in t.workflows
       && CreatedBefore(t.workflows[a].createdAt, a, t.workflows[b].createdAt, b))
    ensures view.CopyableProfiles? || view.ProfileVersions? ==>
      (a in t.profileVersions && b in t.profileVersions
       && CreatedBefore(t.profileVersions[a].createdAt, a, t.profileVersions[b].createdAt, b))
    ensures view.FamilyVersions? ==>
      (a in t.versions && b in t.versions
       && CreatedBefore(t.versions[a].createdAt, a, t.versions[b].createdAt, b))
    ensures view.FamilyProfiles? ==>
      (a in t.profiles && b in t.profiles
       && CreatedBefore(t.profiles[a].createdAt, a, t.profiles[b].createdAt, b))
  {
    var rows := Listing(t, view);
    K.FetchMeaning(rows, Some(after), limit);
    ListedRow(t, view, page.items[i], a);
    ListedRow(t, view, page.items[j], b);
    KeysCompare(CreatedAt(t, view, a), a, CreatedAt(t, view, b), b);
    hide K.Fetch, Matches, K.KeyLess;
  }

  lemma ListedRow(t: Tables, view: View, x: K.Row, id: Id)
    requires x in Listing(t, view) && x.item == K.Text(id)
    ensures id in Ids(t, view) && x == RowOf(t, view, id)
  {
    hide Matches;
    var other :| other in Ids(t, view) && Matches(t, view, other) && x == RowOf(t, view, other);
  }

  lemma KeysCompare(createdAt: string, id: Id, otherAt: string, other: Id)
    ensures K.KeyLess(KeyOf(createdAt, id), KeyOf(otherAt, other)) <==> CreatedBefore(createdAt, id, otherAt, other)
  {
    var x, y := KeyOf(createdAt, id), KeyOf(otherAt, other);
    assert x[1..] == [K.Text(id)] && y[1..] == [K.Text(other)];
    assert x[1..][1..] == [] && y[1..][1..] == [];
    assert K.AtomLess(x[0], y[0]) <==> K.TextLess(createdAt, otherAt);
    assert K.AtomLess(x[1..][0], y[1..][0]) <==> K.TextLess(id, other);
    assert !K.KeyLess(x[1..][1..], y[1..][1..]);
    assert K.KeyLess(x[1..], y[1..]) <==> K.TextLess(id, other);
  }

  // ---------- refusals ----------

  /** The family that the view's owner is, or belongs to; none if the owner is not there. */
  ghost function FamilyOf(t: Tables, view: View): Option<Id> {
    match view
    case Families(_, _) => None
    case CopyableProfiles(_, _, _) => None
    case FamilyVersions(owner, _, _, _) => if owner in t.workflows then Some(owner) else None
    case FamilyProfiles(owner, _, _, _) => if owner in t.workflows then Some(owner) else None
    case ProfileVersions(owner, _, _, _) => if owner in t.profiles then Some(t.profiles[owner].workflow) else None
  }

  /** A view of families is never refused; one for copying needs its version; a history needs its owner,
      and its target, if there is one, in the owner's family. */
  lemma ViewRefusedExactly(t: Tables, view: View)
    ensures view.Families? ==> ViewProblem(t, view) == None
    ensures
      view.CopyableProfiles? ==> ViewProblem(t, view) == if view.version in t.versions then None else Some(NotFound)
    ensures !view.Families? && !view.CopyableProfiles? ==>
      && (ViewProblem(t, view) == Some(NotFound) <==>
            FamilyOf(t, view).None? || (view.target.Some? && view.target.value !in t.versions))
      && (ViewProblem(t, view) == Some(Invalid) <==>
            FamilyOf(t, view).Some? && view.target.Some? && view.target.value in t.versions
            && t.versions[view.target.value].workflow != FamilyOf(t, view).value)
      && ViewProblem(t, view) != Some(Conflict)
  {
  }

  /** A cursor is good for the view and the page size that it was issued for, and for no other. */
  lemma ForeignCursorRefused(page: Page, fetched: K.Page, view: View, limit: int, other: View, size: int)
    requires IsPage(page, fetched, Binding(view, limit)) && page.next.Some?
    ensures CursorAfter(page.next, Binding(other, size)).Ok? <==> other == view && size == limit
    ensures CursorAfter(page.next, Binding(other, size)).Ok? ==>
      fetched.next == Some(CursorAfter(page.next, Binding(other, size)).value)
  {
  }
}
