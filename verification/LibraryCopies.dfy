/** What copying a setup between the library and a Project, or importing one from a Run, does, seen from
    outside: when it succeeds, which error it gives otherwise, and which rows it leaves behind. */
module LibraryCopies {
  import opened Common
  import opened Results
  import W = WorkflowOverlay
  import opened GlobalLibrary
  import opened LibraryCalls

  // ---------- copied profiles ----------

  /** A chosen profile under its new identity. */
  function CopiedContent(id: Id, chosen: Named): W.Document {
    map["id" := W.Str(id), "name" := W.Str(chosen.name), "mappings" := Section(chosen.content, "mappings"),
        "image_inputs" := Section(chosen.content,
                                  "image_inputs"), "parameters" := Section(chosen.content, "parameters")]
  }

  function Section(content: W.Document, name: string): W.Json { if name in content then content[name] else W.Null }

  /** The rows that the k-th chosen profile becomes. */
  function ProfileRow(project: Id, family: Id, chosen: Named, now: string): Profile {
    Profile(family, project, chosen.name, None, now, now, None)
  }

  function ProfileVersionRow(project: Id, family: Id, version: Id, chosen: Named, id: Id, now: string): ProfileVersion {
    ProfileVersion(id, family, project, version, 1, chosen.name, CopiedContent(id, chosen), None, now, None)
  }

  /** Nothing is stored under the two ids, and no profile of the family has the name. */
  ghost predicate Free(t: Tables, family: Id, chosen: Named, id: Id, versionId: Id) {
    && id !in t.profiles && versionId !in t.profileVersions
    && !ProfileNamed(t, family, chosen.name)
    && (forall v :: v in t.profileVersions && t.profileVersions[v].number == 1 ==> t.profileVersions[v].profile != id)
  }

  ghost predicate Fits(workflow: W.Document, chosen: Named, id: Id) {
    ProperText(chosen.name, 200) && W.ValidProfile(workflow, CopiedContent(id, chosen))
  }

  lemma CopyProfileDecided(t: Tables, project: Id, family: Id, version: Id, workflow: W.Document, chosen: Named,
                           now: string, id: Id, versionId: Id)
    ensures var r := CopyProfile(t, project, family, version, workflow, chosen, now, id, versionId);
      && (r.Ok? <==> Fits(workflow, chosen, id) && Free(t, family, chosen, id, versionId))
      && (r.Ok? ==>
            var row := ProfileVersionRow(project, family, version, chosen, id, now);
            (r.value.tables == t.(profiles := t.profiles[id := ProfileRow(project, family, chosen, now)],
                                  profileVersions := t.profileVersions[versionId := row])
             && r.value.response == [ProfileEntry(id, ProfileRow(project, family, chosen, now)),
                                     ProfileVersionEntry(versionId, row)]))
      && (r.Err? ==> r.error == if Fits(workflow, chosen, id) then Conflict else Invalid)
  {
    hide W.ValidProfile, ProperText;
    if id !in t.profiles { ProfileTakenMeaning(t, family, chosen.name, id); }
    PlaceTaken(t, id);
    hide ProfileNameTaken, ProfileNamed, NumberTaken;
  }

  lemma PlaceTaken(t: Tables, id: Id)
    ensures NumberTaken(ProfileVersionPlaces(t.profileVersions), Place(id, 1)) <==>
      !forall v :: v in t.profileVersions && t.profileVersions[v].number == 1 ==> t.profileVersions[v].profile != id
  {
    var places := ProfileVersionPlaces(t.profileVersions);
    if v :| v in t.profileVersions && t.profileVersions[v].number == 1 && t.profileVersions[v].profile == id {
      assert places[v] == Place(id, 1);
    }
  }

  /** The ids that the i-th chosen profile gets when the drawing stands at `at`. */
  function ProfileId(uuid: Uuids, at: nat, i: nat): Id { uuid(at + 2 * i) }

  function VersionId(uuid: Uuids, at: nat, i: nat): Id { uuid(at + 2 * i + 1) }

  /** Each fits and has free ids and a free name. */
  ghost predicate EachFree(t: Tables, family: Id, workflow: W.Document, chosen: seq<Named>, uuid: Uuids, at: nat) {
    forall i: nat :: i < |chosen| ==>
      Fits(workflow, chosen[i], ProfileId(uuid, at, i))
      && Free(t, family, chosen[i], ProfileId(uuid, at, i), VersionId(uuid, at, i))
  }

  /** No two get in each other's way. */
  ghost predicate Apart(chosen: seq<Named>, uuid: Uuids, at: nat) {
    forall i: nat, j: nat :: i < j < |chosen| ==>
      chosen[i].name != chosen[j].name && ProfileId(uuid, at, i) != ProfileId(uuid, at, j)
      && VersionId(uuid, at, i) != VersionId(uuid, at, j)
  }

  /** The tables with the first chosen profile copied. */
  function WithFirst(t: Tables, project: Id, family: Id, version: Id, chosen: Named, id: Id, versionId: Id, now: string)
    : Tables
  {
    t.(profiles := t.profiles[id := ProfileRow(project, family, chosen, now)],
       profileVersions := t.profileVersions[versionId := ProfileVersionRow(project, family, version, chosen, id, now)])
  }

  lemma FreeAfter(t: Tables, project: Id, family: Id, version: Id, first: Named, id: Id, versionId: Id, now: string,
                  other: Named, otherId: Id, otherVersion: Id)
    requires Free(t, family, first, id, versionId)
    ensures
      Free(WithFirst(t, project, family, version, first, id, versionId, now), family, other, otherId, otherVersion)
      <==> Free(t, family, other, otherId, otherVersion)
           && other.name != first.name && otherId != id && otherVersion != versionId
  {
    var u := WithFirst(t, project, family, version, first, id, versionId, now);
    assert u.profiles[id].workflow == family && u.profiles[id].name == first.name;
    assert u.profileVersions[versionId].profile == id && u.profileVersions[versionId].number == 1;
    assert forall x :: x in t.profiles ==> x in u.profiles && u.profiles[x] == t.profiles[x];
    assert forall x ::
      x in t.profileVersions ==> x in u.profileVersions && u.profileVersions[x] == t.profileVersions[x];
  }

  lemma TailFree(t: Tables, project: Id, family: Id, version: Id, workflow: W.Document, chosen: seq<Named>, uuid: Uuids,
                 at: nat, now: string)
    requires chosen != [] && Free(t, family, chosen[0], ProfileId(uuid, at, 0), VersionId(uuid, at, 0))
    ensures
      var u := WithFirst(t, project, family, version, chosen[0], ProfileId(uuid, at, 0), VersionId(uuid, at, 0), now);
      EachFree(u, family, workflow, chosen[1..], uuid, at + 2) && Apart(chosen[1..], uuid, at + 2)
      && Fits(workflow, chosen[0], ProfileId(uuid, at, 0))
      <==> EachFree(t, family, workflow, chosen, uuid, at) && Apart(chosen, uuid, at)
  {
    hide Free, Fits, WithFirst;
    var id, versionId := ProfileId(uuid, at, 0), VersionId(uuid, at, 0);
    var u := WithFirst(t, project, family, version, chosen[0], id, versionId, now);
    var rest := chosen[1..];
    forall i: nat | i < |rest|
      ensures rest[i] == chosen[i + 1]
      ensures ProfileId(uuid, at + 2, i) == ProfileId(uuid, at, i + 1)
      ensures VersionId(uuid, at + 2, i) == VersionId(uuid, at, i + 1)
      ensures Free(u, family, rest[i], ProfileId(uuid, at + 2, i), VersionId(uuid, at + 2, i)) <==>
        (Free(t, family, chosen[i + 1], ProfileId(uuid, at, i + 1), VersionId(uuid, at, i + 1))
         && chosen[i + 1].name != chosen[0].name && ProfileId(uuid, at, i + 1) != id
            && VersionId(uuid, at, i + 1) != versionId)
    {
      FreeAfter(t, project, family, version, chosen[0], id, versionId, now,
                chosen[i + 1], ProfileId(uuid, at, i + 1), VersionId(uuid, at, i + 1));
    }
    hide ProfileId, VersionId;
    if EachFree(u, family, workflow, rest, uuid, at + 2) && Apart(rest, uuid, at + 2) && Fits(workflow, chosen[0], id) {
      forall i: nat | i < |chosen|
        ensures Fits(workflow, chosen[i], ProfileId(uuid, at, i))
        ensures Free(t, family, chosen[i], ProfileId(uuid, at, i), VersionId(uuid, at, i))
      {
        if i > 0 { assert rest[i - 1] == chosen[i]; }
      }
      forall i: nat, j: nat | i < j < |chosen|
        ensures chosen[i].name != chosen[j].name && ProfileId(uuid, at, i) != ProfileId(uuid, at, j)
        ensures VersionId(uuid, at, i) != VersionId(uuid, at, j)
      {
        assert rest[j - 1] == chosen[j];
        if i > 0 { assert rest[i - 1] == chosen[i]; }
      }
    }
    if EachFree(t, family, workflow, chosen, uuid, at) && Apart(chosen, uuid, at) {
      forall i: nat | i < |rest|
        ensures Fits(workflow, rest[i], ProfileId(uuid, at + 2, i))
        ensures Free(u, family, rest[i], ProfileId(uuid, at + 2, i), VersionId(uuid, at + 2, i))
      {
        assert rest[i] == chosen[i + 1];
      }
      forall i: nat, j: nat | i < j < |rest|
        ensures rest[i].name != rest[j].name && ProfileId(uuid, at + 2, i) != ProfileId(uuid, at + 2, j)
        ensures VersionId(uuid, at + 2, i) != VersionId(uuid, at + 2, j)
      {
        assert rest[i] == chosen[i + 1] && rest[j] == chosen[j + 1];
      }
    }
  }

  /** The ids of u are those of t and the drawn ones. */
  ghost predicate IdsAdded(t: Tables, u: Tables, count: nat, uuid: Uuids, at: nat) {
    && (forall id :: id in u.profiles <==> id in t.profiles || DrawnForProfile(id, count, uuid, at))
    && (forall id :: id in u.profileVersions <==> id in t.profileVersions || DrawnForVersion(id, count, uuid, at))
  }

  ghost predicate DrawnForProfile(id: Id, count: nat, uuid: Uuids, at: nat) {
    exists i: nat :: i < count && id == ProfileId(uuid, at, i)
  }

  ghost predicate DrawnForVersion(id: Id, count: nat, uuid: Uuids, at: nat) {
    exists i: nat :: i < count && id == VersionId(uuid, at, i)
  }

  ghost predicate AddedAt(u: Tables, project: Id, family: Id, version: Id, chosen: Named, id: Id, versionId: Id,
                          now: string) {
    && id in u.profiles && u.profiles[id] == ProfileRow(project, family, chosen, now)
    && versionId in u.profileVersions
    && u.profileVersions[versionId] == ProfileVersionRow(project, family, version, chosen, id, now)
  }

  ghost predicate RowsAdded(u: Tables, project: Id, family: Id, version: Id, chosen: seq<Named>, uuid: Uuids, at: nat,
                            now: string) {
    forall i: nat :: i < |chosen| ==>
      AddedAt(u, project, family, version, chosen[i], ProfileId(uuid, at, i), VersionId(uuid, at, i), now)
  }

  /** u is t with the chosen profiles added, each under its ids, and nothing else. */
  ghost predicate ProfilesAdded(t: Tables, u: Tables, project: Id, family: Id, version: Id, chosen: seq<Named>,
                                uuid: Uuids, at: nat, now: string) {
    && u.workflows == t.workflows && u.versions == t.versions && ProfilesRemain(t, u)
    && IdsAdded(t, u, |chosen|, uuid, at) && RowsAdded(u, project, family, version, chosen, uuid, at, now)
  }

  lemma FirstAdded(t: Tables, project: Id, family: Id, version: Id, chosen: Named, id: Id, versionId: Id, now: string)
    requires id !in t.profiles && versionId !in t.profileVersions
    ensures var u := WithFirst(t, project, family, version, chosen, id, versionId, now);
      && AddedAt(u, project, family, version, chosen, id, versionId, now) && ProfilesRemain(t, u)
      && u.profiles.Keys == t.profiles.Keys + {id} && u.profileVersions.Keys == t.profileVersions.Keys + {versionId}
      && u.workflows == t.workflows && u.versions == t.versions
  {
    hide ProfileRow, ProfileVersionRow;
  }

  lemma AddedFirst(t: Tables, v: Tables, project: Id, family: Id, version: Id, chosen: seq<Named>, uuid: Uuids, at: nat,
                   now: string)
    requires chosen != [] && ProfileId(uuid, at, 0) !in t.profiles && VersionId(uuid, at, 0) !in t.profileVersions
    requires ProfilesAdded(WithFirst(t, project, family, version, chosen[0], ProfileId(uuid, at, 0),
                                     VersionId(uuid, at, 0), now),
                           v, project, family, version, chosen[1..], uuid, at + 2, now)
    ensures ProfilesAdded(t, v, project, family, version, chosen, uuid, at, now)
  {
    var id, versionId := ProfileId(uuid, at, 0), VersionId(uuid, at, 0);
    var u := WithFirst(t, project, family, version, chosen[0], id, versionId, now);
    FirstAdded(t, project, family, version, chosen[0], id, versionId, now);
    AddedIsParts(u, v, project, family, version, chosen[1..], uuid, at + 2, now);
    hide WithFirst, AddedAt, ProfilesRemain, RowsAdded, IdsAdded;
    RowKept(u, v, project, family, version, chosen[0], id, versionId, now);
    RowsShifted(v, project, family, version, chosen, uuid, at, now);
    RemainTransitive(t, u, v);
    DrawnShifted(|chosen|, uuid, at);
    IdInIts(u, id, versionId);
    IdsShifted(t, u, v, |chosen|, uuid, at);
  }

  lemma IdInIts(u: Tables, id: Id, versionId: Id)
    ensures id in u.profiles.Keys <==> id in u.profiles
    ensures versionId in u.profileVersions.Keys <==> versionId in u.profileVersions
  {
  }

  lemma AddedIsParts(t: Tables, u: Tables, project: Id, family: Id, version: Id, chosen: seq<Named>, uuid: Uuids,
                     at: nat, now: string)
    requires ProfilesAdded(t, u, project, family, version, chosen, uuid, at, now)
    ensures u.workflows == t.workflows && u.versions == t.versions && ProfilesRemain(t, u)
    ensures IdsAdded(t, u, |chosen|, uuid, at) && RowsAdded(u, project, family, version, chosen, uuid, at, now)
  {
    hide ProfilesRemain, IdsAdded, RowsAdded;
  }

  lemma RowKept(u: Tables, v: Tables, project: Id, family: Id, version: Id, chosen: Named, id: Id, versionId: Id,
                now: string)
    requires ProfilesRemain(u, v) && AddedAt(u, project, family, version, chosen, id, versionId, now)
    ensures AddedAt(v, project, family, version, chosen, id, versionId, now)
  {
  }

  lemma RowsShifted(v: Tables, project: Id, family: Id, version: Id, chosen: seq<Named>, uuid: Uuids, at: nat,
                    now: string)
    requires chosen != [] && RowsAdded(v, project, family, version, chosen[1..], uuid, at + 2, now)
    requires AddedAt(v, project, family, version, chosen[0], ProfileId(uuid, at, 0), VersionId(uuid, at, 0), now)
    ensures RowsAdded(v, project, family, version, chosen, uuid, at, now)
  {
    hide AddedAt;
    forall i: nat | i < |chosen|
      ensures AddedAt(v, project, family, version, chosen[i], ProfileId(uuid, at, i), VersionId(uuid, at, i), now)
    {
      if i > 0 {
        assert chosen[1..][i - 1] == chosen[i];
        assert ProfileId(uuid, at + 2, i - 1) == ProfileId(uuid, at, i);
        assert VersionId(uuid, at + 2, i - 1) == VersionId(uuid, at, i);
      }
    }
  }

  /** The ids drawn for all are the first ones and those drawn for the rest. */
  lemma DrawnShifted(count: nat, uuid: Uuids, at: nat)
    requires count > 0
    ensures forall id :: DrawnForProfile(id, count, uuid, at) <==>
      id == ProfileId(uuid, at, 0) || DrawnForProfile(id, count - 1, uuid, at + 2)
    ensures forall id :: DrawnForVersion(id, count, uuid, at) <==>
      id == VersionId(uuid, at, 0) || DrawnForVersion(id, count - 1, uuid, at + 2)
  {
    var next := at + 2;
    forall id ensures DrawnForProfile(id, count, uuid, at) <==>
      id == ProfileId(uuid, at, 0) || DrawnForProfile(id, count - 1, uuid, at + 2)
    {
      if i: nat :| i < count && id == ProfileId(uuid, at, i) {
        if i > 0 { assert id == ProfileId(uuid, at + 2, i - 1); }
      }
      if i: nat :| i < count - 1 && id == ProfileId(uuid, next, i) { assert id == ProfileId(uuid, at, i + 1); }
    }
    forall id ensures DrawnForVersion(id, count, uuid, at) <==>
      id == VersionId(uuid, at, 0) || DrawnForVersion(id, count - 1, uuid, at + 2)
    {
      if i: nat :| i < count && id == VersionId(uuid, at, i) {
        if i > 0 { assert id == VersionId(uuid, at + 2, i - 1); }
      }
      if i: nat :| i < count - 1 && id == VersionId(uuid, next, i) { assert id == VersionId(uuid, at, i + 1); }
    }
  }

  lemma IdsShifted(t: Tables, u: Tables, v: Tables, count: nat, uuid: Uuids, at: nat)
    requires count > 0 && IdsAdded(u, v, count - 1, uuid, at + 2)
    requires ProfilesRemain(t, u) && ProfileId(uuid, at, 0) in u.profiles && VersionId(uuid, at, 0) in u.profileVersions
    requires u.profiles.Keys == t.profiles.Keys + {ProfileId(uuid, at, 0)}
    requires u.profileVersions.Keys == t.profileVersions.Keys + {VersionId(uuid, at, 0)}
    requires forall id :: DrawnForProfile(id, count, uuid, at) <==>
      id == ProfileId(uuid, at, 0) || DrawnForProfile(id, count - 1, uuid, at + 2)
    requires forall id :: DrawnForVersion(id, count, uuid, at) <==>
      id == VersionId(uuid, at, 0) || DrawnForVersion(id, count - 1, uuid, at + 2)
    ensures IdsAdded(t, v, count, uuid, at)
  {
    hide DrawnForProfile, DrawnForVersion, ProfileId, VersionId;
  }

  /** Copying the chosen profiles succeeds exactly if each fits and all have free ids and names; then they are
      added, and nothing else is. */
  lemma {:induction false} CopyProfilesDecided(t: Tables, project: Id, family: Id, version: Id, workflow: W.Document,
                                               chosen: seq<Named>, now: string, uuid: Uuids, at: nat, shown: Response)
    ensures var r := CopyProfiles(t, project, family, version, workflow, chosen, now, uuid, at, shown);
      && (r.Ok? <==> EachFree(t, family, workflow, chosen, uuid, at) && Apart(chosen, uuid, at))
      && (r.Ok? ==> ProfilesAdded(t, r.value.tables, project, family, version, chosen, uuid, at, now))
      && (r.Ok? && AllStored(t, shown) ==> AllStored(r.value.tables, r.value.response))
      && (r.Ok? ==> shown <= r.value.response)
    decreases |chosen|
  {
    hide CopyProfile, EachFree, Apart, ProfilesAdded, AllStored, Fits, Free, WithFirst;
    if chosen == [] {
      NothingCopied(t, project, family, version, workflow, chosen, uuid, at, now);
    } else {
      var id, versionId := ProfileId(uuid, at, 0), VersionId(uuid, at, 0);
      var first := CopyProfile(t, project, family, version, workflow, chosen[0], now, id, versionId);
      CopyFirst(t, project, family, version, workflow, chosen, now, uuid, at, shown);
      if first.Ok? {
        CopyProfilesDecided(first.value.tables, project, family, version, workflow, chosen[1..], now, uuid, at + 2,
                            shown + first.value.response);
        TailFree(t, project, family, version, workflow, chosen, uuid, at, now);
        var r := CopyProfiles(t, project, family, version, workflow, chosen, now, uuid, at, shown);
        if r.Ok? { AddedFirst(t, r.value.tables, project, family, version, chosen, uuid, at, now); }
      }
    }
  }

  lemma NothingCopied(t: Tables, project: Id, family: Id, version: Id, workflow: W.Document, chosen: seq<Named>,
                      uuid: Uuids, at: nat, now: string)
    requires chosen == []
    ensures EachFree(t, family, workflow, chosen, uuid, at) && Apart(chosen, uuid, at)
    ensures ProfilesAdded(t, t, project, family, version, chosen, uuid, at, now)
  {
  }

  lemma CopyFirst(t: Tables, project: Id, family: Id, version: Id, workflow: W.Document, chosen: seq<Named>,
                  now: string, uuid: Uuids, at: nat, shown: Response)
    requires chosen != []
    ensures var id, versionId := ProfileId(uuid, at, 0), VersionId(uuid, at, 0);
      var first := CopyProfile(t, project, family, version, workflow, chosen[0], now, id, versionId);
      && (first.Ok? <==> Fits(workflow, chosen[0], id) && Free(t, family, chosen[0], id, versionId))
      && (first.Ok? ==> first.value.tables == WithFirst(t, project, family, version, chosen[0], id, versionId, now))
      && (first.Ok? ==> id !in t.profiles && versionId !in t.profileVersions)
      && (first.Ok? && AllStored(t, shown) ==> AllStored(first.value.tables, shown + first.value.response))
      && (first.Err? ==> !(EachFree(t, family, workflow, chosen, uuid, at) && Apart(chosen, uuid, at)))
  {
    var id, versionId := ProfileId(uuid, at, 0), VersionId(uuid, at, 0);
    CopyProfileDecided(t, project, family, version, workflow, chosen[0], now, id, versionId);
    var first := CopyProfile(t, project, family, version, workflow, chosen[0], now, id, versionId);
    FreeIds(t, family, chosen[0], id, versionId);
    FirstUnfit(t, family, workflow, chosen, uuid, at);
    hide CopyProfile, Fits, Free, EachFree, Apart, AllStored, ProfileRow, ProfileVersionRow, ProfileId, VersionId;
    if first.Ok? && AllStored(t, shown) {
      FirstStored(t, project, family, version, chosen[0], id, versionId, now, shown);
    }
    hide WithFirst;
  }

  lemma FreeIds(t: Tables, family: Id, chosen: Named, id: Id, versionId: Id)
    ensures Free(t, family, chosen, id, versionId) ==> id !in t.profiles && versionId !in t.profileVersions
  {
  }

  lemma FirstUnfit(t: Tables, family: Id, workflow: W.Document, chosen: seq<Named>, uuid: Uuids, at: nat)
    requires chosen != []
    ensures EachFree(t, family, workflow, chosen, uuid, at) ==>
      Fits(workflow, chosen[0], ProfileId(uuid, at, 0))
      && Free(t, family, chosen[0], ProfileId(uuid, at, 0), VersionId(uuid, at, 0))
  {
  }

  lemma FirstStored(t: Tables, project: Id, family: Id, version: Id, chosen: Named, id: Id, versionId: Id, now: string,
                    shown: Response)
    requires AllStored(t, shown) && id !in t.profiles && versionId !in t.profileVersions
    ensures AllStored(WithFirst(t, project, family, version, chosen, id, versionId, now),
                      shown + [ProfileEntry(id, ProfileRow(project, family, chosen, now)),
                               ProfileVersionEntry(versionId,
                                                   ProfileVersionRow(project, family, version, chosen, id, now))])
  {
    hide ProfileRow, ProfileVersionRow;
    StillStored(t, WithFirst(t, project, family, version, chosen, id, versionId, now), shown,
                [ProfileEntry(id, ProfileRow(project, family, chosen, now)),
                 ProfileVersionEntry(versionId, ProfileVersionRow(project, family, version, chosen, id, now))]);
  }

  /** Rows that were shown stay stored when others are added. */
  lemma StillStored(t: Tables, u: Tables, shown: Response, more: Response)
    requires AllStored(t, shown) && u.workflows == t.workflows && u.versions == t.versions && ProfilesRemain(t, u)
    requires AllStored(u, more)
    ensures AllStored(u, shown + more)
  {
    forall e | e in shown + more ensures IsStored(u, e) {
      if e in shown { assert IsStored(t, e); }
    }
  }

  // ---------- a copy ----------

  /** A workflow of the project has this name. */
  ghost predicate NamedIn(t: Tables, project: Id, name: string) {
    exists id :: id in t.workflows && t.workflows[id].project == project && t.workflows[id].name == name
  }

  /** The new family and its first version have free ids, and the family a free name. */
  ghost predicate FamilyFree(t: Tables, project: Id, name: string, uuid: Uuids) {
    && uuid(0) !in t.workflows && !NamedIn(t, project, name) && uuid(1) !in t.versions
    && (forall v :: v in t.versions && t.versions[v].number == 1 ==> t.versions[v].workflow != uuid(0))
  }

  ghost predicate Copyable(t: Tables, project: Id, workflow: W.Document, name: string, description: Option<string>,
                           chosen: seq<Named>, uuid: Uuids) {
    && ProperText(name, 200) && OptionalText(description, 2000) && W.ValidWorkflow(workflow)
    && FamilyFree(t, project, name, uuid)
    && EachFree(t, uuid(0), workflow, chosen, uuid, 2) && Apart(chosen, uuid, 2)
  }

  /** u is t with the copy added, and nothing else. */
  ghost predicate CopyAdded(t: Tables, u: Tables, project: Id, workflow: W.Document, name: string,
                            description: Option<string>, chosen: seq<Named>, uuid: Uuids, now: string) {
    ProfilesAdded(t.(workflows := t.workflows[uuid(0) := CopyRoot(project, name, description, now)],
                     versions := t.versions[uuid(1) := CopyVersion(project, workflow, name, now, uuid)]),
                  u, project, uuid(0), uuid(1), chosen, uuid, 2, now)
  }

  function CopyRoot(project: Id, name: string, description: Option<string>, now: string): Workflow {
    Workflow(project, name, description, now, now, None)
  }

  function CopyVersion(project: Id, workflow: W.Document, name: string, now: string, uuid: Uuids): Version {
    Version(uuid(0), project, 1, name, workflow, None, now, None)
  }

  /** The new family comes first, and nothing is copied without it. */
  lemma FamilyDecided(t: Tables, project: Id, workflow: W.Document, name: string, description: Option<string>,
                      chosen: seq<Named>, now: string, uuid: Uuids)
    ensures
      var root, row := CopyRoot(project, name, description, now), CopyVersion(project, workflow, name, now, uuid);
      var r := WriteCopy(t, project, workflow, name, description, chosen, now, uuid);
      if ProperText(name, 200) && OptionalText(description, 2000) && W.ValidWorkflow(workflow)
         && FamilyFree(t, project, name, uuid)
      then r == CopyProfiles(
        t.(workflows := t.workflows[uuid(0) := root], versions := t.versions[uuid(1) := row]),
        project, uuid(0), uuid(1), workflow, chosen, now, uuid, 2,
        [WorkflowEntry(uuid(0), root), VersionEntry(uuid(1), row)])
      else r == Err(Invalid) || r == Err(Conflict)
  {
    if uuid(0) !in t.workflows { NamedMeaning(t, project, name, uuid(0)); }
    FirstPlaceTaken(t, uuid(0));
    hide CopyProfiles, W.ValidWorkflow, WorkflowNameTaken, NamedIn, NumberTaken, ProperText;
  }

  lemma WriteCopyDecided(t: Tables, project: Id, workflow: W.Document, name: string, description: Option<string>,
                         chosen: seq<Named>, now: string, uuid: Uuids)
    ensures var r := WriteCopy(t, project, workflow, name, description, chosen, now, uuid);
      && (r.Ok? <==> Copyable(t, project, workflow, name, description, chosen, uuid))
      && (r.Ok? ==> CopyAdded(t, r.value.tables, project, workflow, name, description, chosen, uuid, now))
      && (r.Ok? ==> AllStored(r.value.tables, r.value.response) && r.value.response != [])
      && r != Err(NotFound)
  {
    var root, row := CopyRoot(project, name, description, now), CopyVersion(project, workflow, name, now, uuid);
    var v := t.(workflows := t.workflows[uuid(0) := root], versions := t.versions[uuid(1) := row]);
    var shown := [WorkflowEntry(uuid(0), root), VersionEntry(uuid(1), row)];
    assert AllStored(v, shown);
    FamilyDecided(t, project, workflow, name, description, chosen, now, uuid);
    CopyProfilesDecided(v, project, uuid(0), uuid(1), workflow, chosen, now, uuid, 2, shown);
    SameFree(t, v, uuid(0), workflow, chosen, uuid);
    CopyNotFound(v, project, uuid(0), uuid(1), workflow, chosen, now, uuid, 2, shown);
    hide WriteCopy, CopyProfiles, EachFree, Apart, ProfilesAdded, AllStored, W.ValidWorkflow, FamilyFree, ProperText;
  }

  lemma SameFree(t: Tables, u: Tables, family: Id, workflow: W.Document, chosen: seq<Named>, uuid: Uuids)
    requires u.profiles == t.profiles && u.profileVersions == t.profileVersions
    ensures EachFree(u, family, workflow, chosen, uuid, 2) <==> EachFree(t, family, workflow, chosen, uuid, 2)
  {
    hide Fits, ProfileId, VersionId;
    forall i: nat | i < |chosen|
      ensures Free(u, family, chosen[i], ProfileId(uuid, 2, i), VersionId(uuid, 2, i)) <==>
        Free(t, family, chosen[i], ProfileId(uuid, 2, i), VersionId(uuid, 2, i))
    {
    }
    hide Free;
  }

  lemma {:induction false} CopyNotFound(t: Tables, project: Id, family: Id, version: Id, workflow: W.Document,
                                        chosen: seq<Named>, now: string, uuid: Uuids, at: nat, shown: Response)
    ensures CopyProfiles(t, project, family, version, workflow, chosen, now, uuid, at, shown) != Err(NotFound)
    decreases |chosen|
  {
    hide W.ValidProfile;
    if chosen != [] {
      var first := CopyProfile(t, project, family, version, workflow, chosen[0], now, uuid(at), uuid(at + 1));
      if first.Ok? {
        CopyNotFound(first.value.tables, project, family, version, workflow, chosen[1..], now, uuid, at + 2,
                     shown + first.value.response);
      }
    }
  }

  lemma NamedMeaning(t: Tables, project: Id, name: string, id: Id)
    requires id !in t.workflows
    ensures WorkflowNameTaken(t, project, name, id) <==> NamedIn(t, project, name)
  {
  }

  lemma FirstPlaceTaken(t: Tables, id: Id)
    ensures NumberTaken(VersionPlaces(t.versions), Place(id, 1)) <==>
      !forall v :: v in t.versions && t.versions[v].number == 1 ==> t.versions[v].workflow != id
  {
    var places := VersionPlaces(t.versions);
    if v :| v in t.versions && t.versions[v].number == 1 && t.versions[v].workflow == id {
      assert places[v] == Place(id, 1);
    }
  }

  // ---------- the call ----------

  /** A copy reads from one side and writes to the other. */
  function SourceOf(s: State, r: CopyRequest): Tables
    requires r.CopySetup?
  {
    match r.direction
    case Import => s.local
    case Use => s.library
  }

  function DestinationOf(s: State, r: CopyRequest): Tables
    requires r.CopySetup?
  {
    match r.direction
    case Import => s.library
    case Use => s.local
  }

  ghost predicate ProperCopy(requestId: string, r: CopyRequest)
    requires r.CopySetup?
  {
    && W.Nonblank(requestId) && W.Nonblank(r.project) && |r.selections| <= 50
    && (forall i, j :: 0 <= i < j < |r.selections| ==> r.selections[i].version != r.selections[j].version)
  }

  /** The Project is registered, and active if it is the destination. */
  predicate ProjectFits(s: State, r: CopyRequest)
    requires r.CopySetup?
  {
    r.project in s.projects && (r.direction.Use? ==> !s.projects[r.project])
  }

  /** The source version is there, and is the Project's own if it is read from a Project. */
  predicate SourceFits(s: State, r: CopyRequest)
    requires r.CopySetup?
  {
    && r.version in SourceOf(s, r).versions
    && (r.direction.Import? ==> SourceOf(s, r).versions[r.version].project == r.project)
  }

  /** The profile targets the source version, is the Project's own if it is read from a Project, carries its
      own identity, and is valid for the source's workflow. */
  ghost predicate Choosable(s: State, r: CopyRequest, chosen: Selection)
    requires r.CopySetup? && SourceFits(s, r)
  {
    var src, source := SourceOf(s, r), SourceOf(s, r).versions[r.version];
    && chosen.version in src.profileVersions
    && var p := src.profileVersions[chosen.version];
      p.version == r.version && p.workflow == source.workflow && (r.direction.Import? ==> p.project == r.project)
      && "id" in p.content && p.content["id"] == W.Str(p.profile)
      && "name" in p.content && p.content["name"] == W.Str(p.nameSnapshot)
      && W.ValidProfile(source.content, p.content)
  }

  /** The chosen profile under the name asked for, or else under its own. */
  predicate IsChosen(src: Tables, selection: Selection, named: Named) {
    && selection.version in src.profileVersions
    && named.content == src.profileVersions[selection.version].content
    && named.name == match selection.name
                     case Some(name) => name
                     case None => src.profileVersions[selection.version].nameSnapshot
  }

  ghost predicate AreChosen(src: Tables, selections: seq<Selection>, chosen: seq<Named>) {
    |chosen| == |selections| && forall i :: 0 <= i < |chosen| ==> IsChosen(src, selections[i], chosen[i])
  }

  lemma ChosenIsNamed(src: Tables, selections: seq<Selection>, chosen: seq<Named>)
    requires AreChosen(src, selections, chosen)
    ensures chosen == NamedAs(src, selections)
  {
    forall i | 0 <= i < |chosen| ensures chosen[i] == NamedAs(src, selections)[i] {
      assert IsChosen(src, selections[i], chosen[i]);
    }
  }

  lemma SelectionDecided(s: State, r: CopyRequest, chosen: Selection)
    requires r.CopySetup? && SourceFits(s, r)
    ensures var src := SourceOf(s, r);
      SelectionProblem(src, r, src.versions[r.version], chosen) ==
        if chosen.version !in src.profileVersions then Some(NotFound)
        else if Choosable(s, r, chosen) then None else Some(Invalid)
    ensures Choosable(s, r, chosen) ==> chosen.version in SourceOf(s, r).profileVersions
  {
    hide W.ValidProfile;
  }

  lemma {:induction false} NoProblem(s: State, r: CopyRequest, chosen: seq<Selection>)
    requires r.CopySetup? && SourceFits(s, r)
    requires forall i :: 0 <= i < |chosen| ==> Choosable(s, r, chosen[i])
    ensures FirstProblem(SourceOf(s, r), r, SourceOf(s, r).versions[r.version], chosen) == None
  {
    hide SelectionProblem;
    if chosen != [] {
      SelectionDecided(s, r, chosen[0]);
      NoProblem(s, r, chosen[1..]);
    }
  }

  lemma {:induction false} ProblemAt(s: State, r: CopyRequest, chosen: seq<Selection>, i: nat)
    requires r.CopySetup? && SourceFits(s, r) && i < |chosen|
    requires (forall j :: 0 <= j < i ==> Choosable(s, r, chosen[j])) && !Choosable(s, r, chosen[i])
    ensures FirstProblem(SourceOf(s, r), r, SourceOf(s, r).versions[r.version], chosen) ==
      Some(if chosen[i].version in SourceOf(s, r).profileVersions then Invalid else NotFound)
  {
    hide SelectionProblem, Choosable;
    SelectionDecided(s, r, chosen[0]);
    if i > 0 { ProblemAt(s, r, chosen[1..], i - 1); }
  }

  /** Why a copy without a receipt is refused before anything is written: the first of these that holds. */
  lemma CopyRefused(s: State, requestId: string, r: CopyRequest, now: string, uuid: Uuids)
    requires r.CopySetup? && requestId !in s.copies
    ensures var o := Step(s, CopyCall(requestId, r, now, uuid));
      && (!ProperCopy(requestId, r) || !ProjectFits(s, r) ==> o == Outcome(s, Err(Invalid)))
      && (ProperCopy(requestId, r) && ProjectFits(s, r) && !SourceFits(s, r) ==>
            o == Outcome(s, Err(if r.version in SourceOf(s, r).versions then Invalid else NotFound)))
  {
    hide WriteCopy, FirstProblem;
  }

  lemma CopyRefusedAt(s: State, requestId: string, r: CopyRequest, now: string, uuid: Uuids, i: nat)
    requires r.CopySetup? && requestId !in s.copies && ProperCopy(requestId, r) && ProjectFits(s, r) && SourceFits(s, r)
    requires i < |r.selections| && !Choosable(s, r, r.selections[i])
    requires forall j :: 0 <= j < i ==> Choosable(s, r, r.selections[j])
    ensures Step(s, CopyCall(requestId, r, now, uuid)) ==
      Outcome(s, Err(if r.selections[i].version in SourceOf(s, r).profileVersions then Invalid else NotFound))
  {
    ProblemAt(s, r, r.selections, i);
    hide WriteCopy, FirstProblem, Choosable;
  }

  /** With every source check passed, a copy succeeds exactly if its texts are proper, its names and ids are
      free, and each profile fits. Then the destination has the copy, under the given name or the source's
      own, in the destination Project or in none; the response shows what is stored; nothing else changes. */
  lemma CopyDecided(s: State, requestId: string, r: CopyRequest, now: string, uuid: Uuids, chosen: seq<Named>)
    requires r.CopySetup? && requestId !in s.copies && ProperCopy(requestId, r) && ProjectFits(s, r) && SourceFits(s, r)
    requires forall i :: 0 <= i < |r.selections| ==> Choosable(s, r, r.selections[i])
    requires AreChosen(SourceOf(s, r), r.selections, chosen)
    ensures var o, source := Step(s, CopyCall(requestId, r, now, uuid)), SourceOf(s, r).versions[r.version];
      var project := if r.direction == Use then r.project else "";
      var name := if r.name.Some? then r.name.value else source.nameSnapshot;
      && (o.result.Ok? <==> Copyable(DestinationOf(s, r), project, source.content, name, r.description, chosen, uuid))
      && (o.result.Err? ==> o.state == s && o.result.error != NotFound)
      && (o.result.Ok? ==>
            (CopyAdded(DestinationOf(s, r), DestinationOf(o.state, r), project, source.content, name, r.description,
                       chosen, uuid, now)
             && SourceOf(o.state, r) == SourceOf(s, r)
             && o.state.projects == s.projects && o.state.authoring == s.authoring
             && o.state.copies == s.copies[requestId := CopyReceipt(r, o.result.value)]
             && o.result.value != [] && AllStored(DestinationOf(o.state, r), o.result.value)))
  {
    NoProblem(s, r, r.selections);
    ChosenIsNamed(SourceOf(s, r), r.selections, chosen);
    var source := SourceOf(s, r).versions[r.version];
    WriteCopyDecided(DestinationOf(s, r), if r.direction == Use then r.project else "", source.content,
                     if r.name.Some? then r.name.value else source.nameSnapshot, r.description, chosen, now, uuid);
    hide WriteCopy, FirstProblem, Choosable, Copyable, CopyAdded, AllStored, AreChosen;
  }

  /** Both kinds of copies, with a receipt under their id: nothing changes. */
  lemma CopyReceiptAnswers(s: State, requestId: string, r: CopyRequest, now: string, uuid: Uuids)
    requires r.CopySetup? && requestId in s.copies
    ensures var o := Step(s, CopyCall(requestId, r, now, uuid));
      && o.state == s
      && o.result == (if !ProperCopy(requestId, r) then Err(Invalid)
                      else if s.copies[requestId].request == r then Ok(s.copies[requestId].response) else Err(Conflict))
  {
    hide CopyInto;
  }

  // ---------- importing a Run's setup ----------

  predicate IsDigestText(s: string) { |s| == 64 && forall i :: 0 <= i < |s| ==> s[i] in "0123456789abcdef" }

  predicate ProperImport(requestId: string, r: CopyRequest)
    requires r.HistoricalSetup?
  {
    && ProperText(requestId, 200) && ProperText(r.workflowName, 200) && ProperText(r.profileName, 200)
    && (r.description.Some? ==> ProperText(r.description.value, 2000)) && r.run != ""
    && (r.workflowDigest.Some? ==> IsDigestText(r.workflowDigest.value))
    && (r.profileDigest.Some? ==> IsDigestText(r.profileDigest.value))
  }

  lemma DigestMeaning(s: string)
    ensures IsDigest(s) <==> IsDigestText(s)
  {
    if |s| == 64 {
      forall i | 0 <= i < 64 ensures ('0' <= s[i] <= '9' || 'a' <= s[i] <= 'f') <==> s[i] in "0123456789abcdef" {
        HexDigit(s[i]);
      }
    }
  }

  lemma HexDigit(c: char)
    ensures ('0' <= c <= '9' || 'a' <= c <= 'f') <==> c in "0123456789abcdef"
  {
  }

  /** The reviewed digests, where given, are those of the snapshot. */
  predicate AsReviewed(r: CopyRequest, snapshot: Snapshot)
    requires r.HistoricalSetup?
  {
    && (r.workflowDigest.Some? ==> r.workflowDigest.value == snapshot.workflowDigest)
    && (r.profileDigest.Some? ==> r.profileDigest.value == snapshot.profileDigest)
  }

  /** An import without a receipt is refused for improper texts, a snapshot other than the reviewed one, or
      an invalid setup. */
  lemma ImportRefused(s: State, requestId: string, r: CopyRequest, snapshot: Snapshot, now: string, uuid: Uuids)
    requires r.HistoricalSetup? && requestId !in s.copies
    ensures var o := Step(s, ImportCall(requestId, r, snapshot, now, uuid));
      && (!ProperImport(requestId, r) ==> o == Outcome(s, Err(Invalid)))
      && (ProperImport(requestId, r) && !AsReviewed(r, snapshot) ==> o == Outcome(s, Err(Conflict)))
      && (ProperImport(requestId, r) && AsReviewed(r, snapshot) ==>
            !W.ValidProfile(snapshot.workflow, snapshot.profile) ==> o == Outcome(s, Err(Invalid)))
  {
    ImportTexts(requestId, r);
    hide WriteCopy, ProperHistorical, ProperImport, W.ValidProfile, Copied;
  }

  lemma ImportTexts(requestId: string, r: CopyRequest)
    requires r.HistoricalSetup?
    ensures ProperHistorical(requestId, r) <==> ProperImport(requestId, r)
  {
    if r.workflowDigest.Some? { DigestMeaning(r.workflowDigest.value); }
    if r.profileDigest.Some? { DigestMeaning(r.profileDigest.value); }
    hide IsDigest, IsDigestText, W.Nonblank;
  }

  /** Otherwise the one profile is copied into the library under the given names. */
  lemma ImportDecided(s: State, requestId: string, r: CopyRequest, snapshot: Snapshot, now: string, uuid: Uuids)
    requires r.HistoricalSetup? && requestId !in s.copies && ProperImport(requestId, r) && AsReviewed(r, snapshot)
    requires W.ValidProfile(snapshot.workflow, snapshot.profile)
    ensures var o, chosen := Step(s, ImportCall(requestId, r, snapshot, now, uuid)),
                             [Named(r.profileName, snapshot.profile)];
      && (o.result.Ok? <==> Copyable(s.library, "", snapshot.workflow, r.workflowName, r.description, chosen, uuid))
      && (o.result.Err? ==> o.state == s && o.result.error != NotFound)
      && (o.result.Ok? ==>
            (CopyAdded(s.library, o.state.library, "", snapshot.workflow, r.workflowName, r.description, chosen, uuid,
                       now)
             && o.state.local == s.local && o.state.projects == s.projects && o.state.authoring == s.authoring
             && o.state.copies == s.copies[requestId := CopyReceipt(r, o.result.value)]
             && o.result.value != [] && AllStored(o.state.library, o.result.value)))
  {
    ImportTexts(requestId, r);
    WriteCopyDecided(s.library, "", snapshot.workflow, r.workflowName, r.description,
                     [Named(r.profileName, snapshot.profile)], now, uuid);
    hide WriteCopy, Copyable, CopyAdded, AllStored, ProperHistorical, ProperImport, W.ValidProfile, Copy, Author;
  }

  lemma ImportReceiptAnswers(s: State, requestId: string, r: CopyRequest, snapshot: Snapshot, now: string, uuid: Uuids)
    requires r.HistoricalSetup? && requestId in s.copies
    ensures var o := Step(s, ImportCall(requestId, r, snapshot, now, uuid));
      && o.state == s
      && o.result == (if !ProperImport(requestId, r) then Err(Invalid)
                      else if s.copies[requestId].request == r then Ok(s.copies[requestId].response) else Err(Conflict))
  {
    ImportTexts(requestId, r);
    hide WriteCopy, ProperHistorical, ProperImport, W.ValidProfile;
  }
}
