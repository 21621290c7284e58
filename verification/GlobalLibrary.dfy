/** The global workflow library: named families, numbered immutable versions, profiles that target
    them, copies between the library and Projects, and at-most-once requests. */
module GlobalLibrary {
  import opened Common
  import opened Results
  import W = WorkflowOverlay

  type Id = string

  /** Stored rows. Rows of the library carry an empty project; rows of a Project carry its id. */
  datatype Workflow = Workflow(project: string, name: string, description: Option<string>, createdAt: string,
                               updatedAt: string, archivedAt: Option<string>)

  datatype Version = Version(workflow: Id, project: string, number: nat, nameSnapshot: string, content: W.Document,
                             note: Option<string>, createdAt: string, archivedAt: Option<string>)

  datatype Profile = Profile(workflow: Id, project: string, name: string, description: Option<string>,
                             createdAt: string, updatedAt: string, archivedAt: Option<string>)

  datatype ProfileVersion = ProfileVersion(profile: Id, workflow: Id, project: string, version: Id, number: nat,
                                           nameSnapshot: string, content: W.Document, note: Option<string>,
                                           createdAt: string, archivedAt: Option<string>)

  datatype Tables = Tables(workflows: map<Id, Workflow>, versions: map<Id, Version>, profiles: map<Id, Profile>,
                           profileVersions: map<Id, ProfileVersion>)

  datatype Error = Invalid | NotFound | Conflict

  type Result<+T> = Try<T, Error>

  /** A row as a response shows it. */
  datatype Entry =
    | WorkflowEntry(id: Id, workflow: Workflow)
    | VersionEntry(id: Id, version: Version)
    | ProfileEntry(id: Id, profile: Profile)
    | ProfileVersionEntry(id: Id, profileVersion: ProfileVersion)

  type Response = seq<Entry>

  /** What a write leaves behind, before the commit. */
  datatype Written = Written(tables: Tables, response: Response)

  /** The uuid4() values a transaction draws, in order. */
  type Uuids = nat -> Id

  // ---------- numbered families ----------

  datatype Place = Place(family: Id, number: nat)

  /** Which family each version is in and under which number. */
  function VersionPlaces(versions: map<Id, Version>): (places: map<Id, Place>)
    ensures places.Keys == versions.Keys
  {
    map id | id in versions :: Place(versions[id].workflow, versions[id].number)
  }

  function ProfileVersionPlaces(versions: map<Id, ProfileVersion>): (places: map<Id, Place>)
    ensures places.Keys == versions.Keys
  {
    map id | id in versions :: Place(versions[id].profile, versions[id].number)
  }

  ghost predicate HasNumber(places: map<Id, Place>, family: Id, n: int) {
    exists id :: id in places && places[id].family == family && places[id].number == n
  }

  /** No number is used twice in a family, and below a used number every positive one is used. */
  ghost predicate Numbered(places: map<Id, Place>) {
    && (forall a, b :: a in places && b in places && places[a] == places[b] ==> a == b)
    && (forall id :: id in places ==> places[id].number >= 1)
    && (forall id :: id in places && places[id].number > 1 ==>
          HasNumber(places, places[id].family, places[id].number - 1))
  }

  /** coalesce(max(version_number), 0) + 1 */
  ghost predicate IsNext(places: map<Id, Place>, family: Id, n: nat) {
    && n >= 1
    && (forall id :: id in places && places[id].family == family ==> places[id].number < n)
    && (n > 1 ==> HasNumber(places, family, n - 1))
  }

  lemma {:induction false} NextExists(places: map<Id, Place>, family: Id)
    ensures exists n: nat :: IsNext(places, family, n)
    decreases |places|
  {
    if forall id :: id in places ==> places[id].family != family {
      assert IsNext(places, family, 1);
    } else {
      var id :| id in places && places[id].family == family;
      var rest := places - {id};
      assert |rest.Keys| < |places.Keys| by { assert rest.Keys == places.Keys - {id}; }
      assert |rest| < |places|;
      NextExists(rest, family);
      var n: nat :| IsNext(rest, family, n);
      forall x | x in places && places[x].family == family && x != id ensures places[x].number < n {
        assert x in rest && rest[x] == places[x];
      }
      if places[id].number < n {
        if n > 1 {
          var other :| other in rest && rest[other].family == family && rest[other].number == n - 1;
          assert other in places && places[other] == rest[other];
          assert HasNumber(places, family, n - 1);
        }
        assert IsNext(places, family, n);
      } else {
        assert HasNumber(places, family, places[id].number);
        assert IsNext(places, family, places[id].number + 1);
      }
    }
  }

  lemma BelowNext(places: map<Id, Place>, family: Id, n: nat, k: int)
    requires IsNext(places, family, n) && HasNumber(places, family, k)
    ensures k < n
  {
  }

  lemma NextIsUnique(places: map<Id, Place>, family: Id, m: nat, n: nat)
    requires IsNext(places, family, m) && IsNext(places, family, n)
    ensures m == n
  {
    if n > 1 { BelowNext(places, family, m, n - 1); }
    if m > 1 { BelowNext(places, family, n, m - 1); }
  }

  /** The numbers of a family are exactly 1..n-1, where n is the next one. */
  lemma {:induction false} NumbersAreInitial(places: map<Id, Place>, family: Id, n: nat, k: nat)
    requires Numbered(places) && IsNext(places, family, n)
    ensures HasNumber(places, family, k) <==> 1 <= k < n
    decreases n - k
  {
    if 1 <= k < n - 1 {
      NumbersAreInitial(places, family, n, k + 1);
      assert HasNumber(places, family, k + 1);
    }
  }

  lemma AppendNumbered(places: map<Id, Place>, id: Id, family: Id, n: nat)
    requires Numbered(places) && id !in places && IsNext(places, family, n)
    ensures Numbered(places[id := Place(family, n)])
  {
    hide HasNumber;
    var next := places[id := Place(family, n)];
    forall x | x in next && next[x].number > 1 ensures HasNumber(next, next[x].family, next[x].number - 1) {
      StillHasNumber(places, id, Place(family, n), next[x].family, next[x].number - 1);
    }
  }

  lemma StillHasNumber(places: map<Id, Place>, id: Id, place: Place, family: Id, k: int)
    requires HasNumber(places, family, k) && id !in places
    ensures HasNumber(places[id := place], family, k)
  {
    var y :| y in places && places[y].family == family && places[y].number == k;
    assert places[id := place][y] == places[y];
  }

  // ---------- consistency of the tables ----------

  ghost predicate WorkflowNamesUnique(workflows: map<Id, Workflow>) {
    forall a, b :: a in workflows && b in workflows && workflows[a].project == workflows[b].project ==>
      workflows[a].name == workflows[b].name ==> a == b
  }

  ghost predicate ProfileNamesUnique(profiles: map<Id, Profile>) {
    forall a, b :: a in profiles && b in profiles && profiles[a].workflow == profiles[b].workflow ==>
      profiles[a].name == profiles[b].name ==> a == b
  }

  /** A version belongs to a family of its Project and holds a valid workflow. */
  ghost predicate VersionOwned(t: Tables, v: Version) {
    && v.workflow in t.workflows && t.workflows[v.workflow].project == v.project
    && W.ValidWorkflow(v.content)
  }

  ghost predicate ProfileOwned(t: Tables, p: Profile) {
    p.workflow in t.workflows && t.workflows[p.workflow].project == p.project
  }

  /** A profile version belongs to its profile, targets a version of the same family, is valid for
      that version's workflow, and its envelope agrees with its row. */
  ghost predicate ProfileVersionOwned(t: Tables, v: ProfileVersion) {
    && v.profile in t.profiles && t.profiles[v.profile].workflow == v.workflow
       && t.profiles[v.profile].project == v.project
    && v.version in t.versions && t.versions[v.version].workflow == v.workflow
       && t.versions[v.version].project == v.project
    && W.ValidProfile(t.versions[v.version].content, v.content)
    && Enveloped(v.content, v.profile, v.nameSnapshot)
  }

  predicate Enveloped(content: W.Document, profile: Id, name: string) {
    && "id" in content && content["id"] == W.Str(profile)
    && "name" in content && content["name"] == W.Str(name)
  }

  ghost predicate Owned(t: Tables) {
    && (forall id :: id in t.versions ==> VersionOwned(t, t.versions[id]))
    && (forall id :: id in t.profiles ==> ProfileOwned(t, t.profiles[id]))
    && (forall id :: id in t.profileVersions ==> ProfileVersionOwned(t, t.profileVersions[id]))
  }

  ghost predicate Consistent(t: Tables) {
    && WorkflowNamesUnique(t.workflows)
    && ProfileNamesUnique(t.profiles)
    && Numbered(VersionPlaces(t.versions))
    && Numbered(ProfileVersionPlaces(t.profileVersions))
    && Owned(t)
  }

  // ---------- what no operation changes ----------

  predicate SameVersion(a: Version, b: Version) { a == b.(archivedAt := a.archivedAt) }

  predicate SameProfileVersion(a: ProfileVersion, b: ProfileVersion) { a == b.(archivedAt := a.archivedAt) }

  predicate SameWorkflowIdentity(a: Workflow, b: Workflow) { a.project == b.project && a.createdAt == b.createdAt }

  predicate SameProfileIdentity(a: Profile, b: Profile) {
    a.project == b.project && a.createdAt == b.createdAt && a.workflow == b.workflow
  }

  ghost predicate WorkflowsEvolve(a: map<Id, Workflow>, b: map<Id, Workflow>) {
    forall id :: id in a ==> id in b && SameWorkflowIdentity(a[id], b[id])
  }

  ghost predicate VersionsEvolve(a: map<Id, Version>, b: map<Id, Version>) {
    forall id :: id in a ==> id in b && SameVersion(a[id], b[id])
  }

  ghost predicate ProfilesEvolve(a: map<Id, Profile>, b: map<Id, Profile>) {
    forall id :: id in a ==> id in b && SameProfileIdentity(a[id], b[id])
  }

  ghost predicate ProfileVersionsEvolve(a: map<Id, ProfileVersion>, b: map<Id, ProfileVersion>) {
    forall id :: id in a ==> id in b && SameProfileVersion(a[id], b[id])
  }

  /** Nothing is removed; versions change only their archive mark; families keep owner and creation. */
  ghost predicate Evolves(t: Tables, u: Tables) {
    && WorkflowsEvolve(t.workflows, u.workflows)
    && VersionsEvolve(t.versions, u.versions)
    && ProfilesEvolve(t.profiles, u.profiles)
    && ProfileVersionsEvolve(t.profileVersions, u.profileVersions)
  }

  lemma EvolvesReflexive(t: Tables)
    ensures Evolves(t, t)
  {
  }

  lemma EvolvesTransitive(t: Tables, u: Tables, v: Tables)
    requires Evolves(t, u) && Evolves(u, v)
    ensures Evolves(t, v)
  {
  }

  // ---------- inserts under the table constraints ----------

  predicate WorkflowNameTaken(t: Tables, project: string, name: string, except: Id) {
    exists id :: id in t.workflows && id != except && t.workflows[id].project == project && t.workflows[id].name == name
  }

  predicate ProfileNameTaken(t: Tables, workflow: Id, name: string, except: Id) {
    exists id :: id in t.profiles && id != except && t.profiles[id].workflow == workflow && t.profiles[id].name == name
  }

  function InsertWorkflow(t: Tables, id: Id, row: Workflow): Result<Tables> {
    if id in t.workflows || WorkflowNameTaken(t, row.project, row.name, id) then Err(Conflict)
    else Ok(t.(workflows := t.workflows[id := row]))
  }

  predicate NumberTaken(places: map<Id, Place>, place: Place) { place in places.Values }

  function InsertVersion(t: Tables, id: Id, row: Version): Result<Tables> {
    if id in t.versions || NumberTaken(VersionPlaces(t.versions), Place(row.workflow, row.number)) then Err(Conflict)
    else Ok(t.(versions := t.versions[id := row]))
  }

  function InsertProfile(t: Tables, id: Id, row: Profile): Result<Tables> {
    if id in t.profiles || ProfileNameTaken(t, row.workflow, row.name, id) then Err(Conflict)
    else Ok(t.(profiles := t.profiles[id := row]))
  }

  function InsertProfileVersion(t: Tables, id: Id, row: ProfileVersion): Result<Tables> {
    if id in t.profileVersions || NumberTaken(ProfileVersionPlaces(t.profileVersions), Place(row.profile, row.number))
    then Err(Conflict)
    else Ok(t.(profileVersions := t.profileVersions[id := row]))
  }

  lemma OwnedGrows(t: Tables, u: Tables)
    requires Owned(t) && Evolves(t, u)
    requires forall id :: id in u.versions && id !in t.versions ==> VersionOwned(u, u.versions[id])
    requires forall id :: id in u.profiles && id !in t.profiles ==> ProfileOwned(u, u.profiles[id])
    requires
      forall id :: id in u.profileVersions && id !in t.profileVersions ==> ProfileVersionOwned(u, u.profileVersions[id])
    ensures Owned(u)
  {
    forall id | id in t.versions ensures VersionOwned(u, u.versions[id]) { VersionStaysOwned(t, u, id); }
    forall id | id in t.profiles ensures ProfileOwned(u, u.profiles[id]) { ProfileStaysOwned(t, u, id); }
    forall id | id in t.profileVersions ensures ProfileVersionOwned(u, u.profileVersions[id]) {
      ProfileVersionStaysOwned(t, u, id);
    }
  }

  lemma VersionStaysOwned(t: Tables, u: Tables, id: Id)
    requires Evolves(t, u) && id in t.versions && VersionOwned(t, t.versions[id])
    ensures VersionOwned(u, u.versions[id])
  {
    var w := t.versions[id].workflow;
    assert SameVersion(t.versions[id], u.versions[id]) && SameWorkflowIdentity(t.workflows[w], u.workflows[w]);
  }

  lemma ProfileStaysOwned(t: Tables, u: Tables, id: Id)
    requires Evolves(t, u) && id in t.profiles && ProfileOwned(t, t.profiles[id])
    ensures ProfileOwned(u, u.profiles[id])
  {
    var w := t.profiles[id].workflow;
    assert SameProfileIdentity(t.profiles[id], u.profiles[id]) && SameWorkflowIdentity(t.workflows[w], u.workflows[w]);
  }

  lemma ProfileVersionStaysOwned(t: Tables, u: Tables, id: Id)
    requires Evolves(t, u) && id in t.profileVersions && ProfileVersionOwned(t, t.profileVersions[id])
    ensures ProfileVersionOwned(u, u.profileVersions[id])
  {
    var v := t.profileVersions[id];
    assert SameProfileVersion(v, u.profileVersions[id]);
    assert SameProfileIdentity(t.profiles[v.profile], u.profiles[v.profile]);
    assert SameVersion(t.versions[v.version], u.versions[v.version]);
  }

  lemma WorkflowInserted(a: map<Id, Workflow>, id: Id, row: Workflow)
    requires WorkflowNamesUnique(a) && id !in a
    requires forall x :: x in a && a[x].project == row.project ==> a[x].name != row.name
    ensures WorkflowNamesUnique(a[id := row]) && WorkflowsEvolve(a, a[id := row])
  {
  }

  lemma ProfileInserted(a: map<Id, Profile>, id: Id, row: Profile)
    requires ProfileNamesUnique(a) && id !in a
    requires forall x :: x in a && a[x].workflow == row.workflow ==> a[x].name != row.name
    ensures ProfileNamesUnique(a[id := row]) && ProfilesEvolve(a, a[id := row])
  {
  }

  lemma VersionInserted(a: map<Id, Version>, id: Id, row: Version)
    requires Numbered(VersionPlaces(a)) && id !in a && IsNext(VersionPlaces(a), row.workflow, row.number)
    ensures Numbered(VersionPlaces(a[id := row])) && VersionsEvolve(a, a[id := row])
  {
    AppendNumbered(VersionPlaces(a), id, row.workflow, row.number);
    assert VersionPlaces(a[id := row]) == VersionPlaces(a)[id := Place(row.workflow, row.number)];
  }

  lemma ProfileVersionInserted(a: map<Id, ProfileVersion>, id: Id, row: ProfileVersion)
    requires Numbered(ProfileVersionPlaces(a)) && id !in a && IsNext(ProfileVersionPlaces(a), row.profile, row.number)
    ensures Numbered(ProfileVersionPlaces(a[id := row])) && ProfileVersionsEvolve(a, a[id := row])
  {
    AppendNumbered(ProfileVersionPlaces(a), id, row.profile, row.number);
    assert ProfileVersionPlaces(a[id := row]) == ProfileVersionPlaces(a)[id := Place(row.profile, row.number)];
  }

  lemma InsertWorkflowKeeps(t: Tables, id: Id, row: Workflow, u: Tables)
    requires Consistent(t) && InsertWorkflow(t, id, row) == Ok(u)
    ensures Consistent(u) && Evolves(t, u)
  {
    hide Numbered, W.ValidProfile, W.ValidWorkflow, Owned, WorkflowNamesUnique, ProfileNamesUnique;
    WorkflowInserted(t.workflows, id, row);
    OwnedGrows(t, u);
  }

  lemma InsertVersionKeeps(t: Tables, id: Id, row: Version, u: Tables)
    requires Consistent(t) && InsertVersion(t, id, row) == Ok(u)
    requires VersionOwned(t, row) && IsNext(VersionPlaces(t.versions), row.workflow, row.number)
    ensures Consistent(u) && Evolves(t, u)
  {
    hide Numbered, W.ValidProfile, W.ValidWorkflow, Owned, WorkflowNamesUnique, ProfileNamesUnique;
    VersionInserted(t.versions, id, row);
    assert VersionOwned(u, row);
    OwnedGrows(t, u);
  }

  lemma InsertProfileKeeps(t: Tables, id: Id, row: Profile, u: Tables)
    requires Consistent(t) && InsertProfile(t, id, row) == Ok(u) && ProfileOwned(t, row)
    ensures Consistent(u) && Evolves(t, u)
  {
    hide Numbered, W.ValidProfile, W.ValidWorkflow, Owned, WorkflowNamesUnique, ProfileNamesUnique;
    ProfileInserted(t.profiles, id, row);
    assert ProfileOwned(u, row);
    OwnedGrows(t, u);
  }

  lemma InsertProfileVersionKeeps(t: Tables, id: Id, row: ProfileVersion, u: Tables)
    requires Consistent(t) && InsertProfileVersion(t, id, row) == Ok(u)
    requires ProfileVersionOwned(t, row) && IsNext(ProfileVersionPlaces(t.profileVersions), row.profile, row.number)
    ensures Consistent(u) && Evolves(t, u)
  {
    hide Numbered, W.ValidProfile, W.ValidWorkflow, Owned, WorkflowNamesUnique, ProfileNamesUnique;
    ProfileVersionInserted(t.profileVersions, id, row);
    assert ProfileVersionOwned(u, row);
    OwnedGrows(t, u);
  }

  // ---------- requests that author the library ----------

  /** 1..maximum characters, not all white space. */
  predicate ProperText(s: string, maximum: nat) { W.Nonblank(s) && |s| <= maximum }

  predicate OptionalText(s: Option<string>, maximum: nat) { s.Some? ==> ProperText(s.value, maximum) }

  predicate RequiredText(s: Option<string>, maximum: nat) { s.Some? && ProperText(s.value, maximum) }

  datatype Kind = WorkflowKind | ProfileKind | VersionKind | ProfileVersionKind

  /** A description can be left alone or replaced, also by nothing. */
  datatype Changes = Changes(name: Option<string>, description: Option<Option<string>>)

  datatype Request =
    | SaveWorkflow(workflow: Option<Id>, content: W.Document, name: Option<string>, description: Option<string>,
                   note: Option<string>)
    | SaveProfile(workflow: Option<Id>, profile: Option<Id>, version: Id, mappings: W.Document,
                  imageInputs: seq<W.Json>, parameters: seq<W.Json>, name: Option<string>, description: Option<string>,
                  note: Option<string>)
    | UpdateMetadata(row: Id, changes: Changes, ofProfile: bool)
    | SetArchived(row: Id, archived: bool, kind: Kind)

  /** The family or row the request names, if any. */
  function TargetOf(r: Request): Option<Id> {
    match r
    case SaveWorkflow(workflow, _, _, _, _) => workflow
    case SaveProfile(workflow, profile, _, _, _, _, _, _, _) =>
      if profile.Some? && profile.value != "" then profile else workflow
    case UpdateMetadata(row, _, _) => Some(row)
    case SetArchived(row, _, _) => Some(row)
  }

  ghost function NextNumber(places: map<Id, Place>, family: Id): nat {
    if n: nat :| IsNext(places, family, n) then n else 1
  }

  lemma NextNumberIsNext(places: map<Id, Place>, family: Id, n: nat)
    ensures IsNext(places, family, NextNumber(places, family))
    ensures IsNext(places, family, n) ==> n == NextNumber(places, family)
  {
    NextExists(places, family);
    if IsNext(places, family, n) { NextIsUnique(places, family, n, NextNumber(places, family)); }
  }

  /** _append for a workflow family. */
  ghost function AppendVersion(t: Tables, family: Id, root: Workflow, content: W.Document, note: Option<string>,
                               now: string, id: Id, shown: Response): Result<Written>
  {
    var row :=
      Version(family, root.project, NextNumber(VersionPlaces(t.versions), family), root.name, content, note, now, None);
    match InsertVersion(t, id, row)
    case Ok(u) => Ok(Written(u, shown + [VersionEntry(id, row)]))
    case Err(e) => Err(e)
  }

  ghost function WriteWorkflow(t: Tables, r: Request, now: string, uuid: Uuids): Result<Written>
    requires r.SaveWorkflow?
  {
    if !OptionalText(r.note, 2000) || !W.ValidWorkflow(r.content) then Err(Invalid)
    else if r.workflow.None? then
      if !RequiredText(r.name, 200) || !OptionalText(r.description, 2000) then Err(Invalid)
      else
        var root := Workflow("", r.name.value, r.description, now, now, None);
        match InsertWorkflow(t, uuid(0), root)
        case Ok(u) => AppendVersion(u, uuid(0), root, r.content, r.note, now, uuid(1), [WorkflowEntry(uuid(0), root)])
        case Err(e) => Err(e)
    else if r.name.Some? || r.description.Some? then Err(Invalid)
    else if r.workflow.value !in t.workflows then Err(NotFound)
    else if t.workflows[r.workflow.value].archivedAt.Some? then Err(Invalid)
    else AppendVersion(t, r.workflow.value, t.workflows[r.workflow.value], r.content, r.note, now, uuid(0), [])
  }

  /** The stored envelope of a profile. */
  function Envelope(id: Id, name: string, mappings: W.Json, imageInputs: W.Json, parameters: W.Json): W.Document {
    map["id" := W.Str(id), "name" := W.Str(name), "mappings" := mappings, "image_inputs" := imageInputs,
        "parameters" := parameters]
  }

  /** _append for a profile. */
  ghost function AppendProfileVersion(t: Tables, profile: Id, root: Profile, version: Id, content: W.Document,
                                      note: Option<string>, now: string, id: Id, shown: Response): Result<Written>
  {
    var row := ProfileVersion(profile, root.workflow, root.project, version,
                              NextNumber(ProfileVersionPlaces(t.profileVersions), profile), root.name, content, note,
                              now, None);
    match InsertProfileVersion(t, id, row)
    case Ok(u) => Ok(Written(u, shown + [ProfileVersionEntry(id, row)]))
    case Err(e) => Err(e)
  }

  /** The family a profile is saved into: a new one or the stored one. */
  ghost function ProfileRoot(t: Tables, r: Request, now: string): Result<Profile>
    requires r.SaveProfile?
  {
    if !ProperText(r.version, 200) || !OptionalText(r.note, 2000) || r.workflow.None? == r.profile.None? then
      Err(Invalid)
    else if r.profile.None? then
      if !RequiredText(r.name, 200) || !OptionalText(r.description, 2000) then Err(Invalid)
      else Ok(Profile(r.workflow.value, "", r.name.value, r.description, now, now, None))
    else if r.name.Some? || r.description.Some? then Err(Invalid)
    else if r.profile.value !in t.profiles then Err(NotFound)
    else Ok(t.profiles[r.profile.value])
  }

  /** Profile, workflow and target version must be active, and the target in the profile's family. */
  ghost function TargetProblem(t: Tables, root: Profile, version: Id): Option<Error> {
    if root.archivedAt.Some? then Some(Invalid)
    else if root.workflow !in t.workflows then Some(NotFound)
    else if t.workflows[root.workflow].archivedAt.Some? then Some(Invalid)
    else if version !in t.versions then Some(NotFound)
    else if t.versions[version].workflow != root.workflow || t.versions[version].archivedAt.Some? then Some(Invalid)
    else None
  }

  ghost function SaveInto(t: Tables, r: Request, root: Profile, id: Id, content: W.Document, now: string,
                          uuid: Uuids): Result<Written>
    requires r.SaveProfile?
  {
    var problem := TargetProblem(t, root, r.version);
    if problem.Some? then Err(problem.value)
    else if !W.ValidProfile(t.versions[r.version].content, content) then Err(Invalid)
    else if r.profile.None? then
      match InsertProfile(t, id, root)
      case Ok(u) =>
        AppendProfileVersion(u, id, root, r.version, content, r.note, now, uuid(1), [ProfileEntry(id, root)])
      case Err(e) => Err(e)
    else AppendProfileVersion(t, id, root, r.version, content, r.note, now, uuid(0), [])
  }

  ghost function WriteProfile(t: Tables, r: Request, now: string, uuid: Uuids): Result<Written>
    requires r.SaveProfile?
  {
    match ProfileRoot(t, r, now)
    case Err(e) => Err(e)
    case Ok(root) =>
      var id := if r.profile.None? then uuid(0) else r.profile.value;
      SaveInto(t, r, root, id, Envelope(id, root.name, W.Obj(r.mappings), W.List(r.imageInputs), W.List(r.parameters)),
               now, uuid)
  }

  function Renamed(t: Tables, r: Request, now: string): Result<Written>
    requires r.UpdateMetadata?
  {
    var c := r.changes;
    if (c.name.None? && c.description.None?) || !OptionalText(c.name, 200)
       || (c.description.Some? && !OptionalText(c.description.value, 2000)) then Err(Invalid)
    else if r.ofProfile then
      if r.row !in t.profiles then Err(NotFound)
      else
        var stored := t.profiles[r.row];
        var row := stored.(name := if c.name.Some? then c.name.value else stored.name,
                         description := if c.description.Some? then c.description.value else stored.description,
                          updatedAt := now);
        if ProfileNameTaken(t, row.workflow, row.name, r.row) then Err(Conflict)
        else Ok(Written(t.(profiles := t.profiles[r.row := row]), [ProfileEntry(r.row, row)]))
    else if r.row !in t.workflows then Err(NotFound)
    else
      var stored := t.workflows[r.row];
      var row := stored.(name := if c.name.Some? then c.name.value else stored.name,
                       description := if c.description.Some? then c.description.value else stored.description,
                          updatedAt := now);
      if WorkflowNameTaken(t, row.project, row.name, r.row) then Err(Conflict)
      else Ok(Written(t.(workflows := t.workflows[r.row := row]), [WorkflowEntry(r.row, row)]))
  }

  function Archived(t: Tables, r: Request, now: string): Result<Written>
    requires r.SetArchived?
  {
    var mark := if r.archived then Some(now) else None;
    match r.kind
    case WorkflowKind =>
      if r.row !in t.workflows then Err(NotFound)
      else
        var row := t.workflows[r.row].(archivedAt := mark, updatedAt := now);
        Ok(Written(t.(workflows := t.workflows[r.row := row]), [WorkflowEntry(r.row, row)]))
    case ProfileKind =>
      if r.row !in t.profiles then Err(NotFound)
      else
        var row := t.profiles[r.row].(archivedAt := mark, updatedAt := now);
        Ok(Written(t.(profiles := t.profiles[r.row := row]), [ProfileEntry(r.row, row)]))
    case VersionKind =>
      if r.row !in t.versions then Err(NotFound)
      else
        var row := t.versions[r.row].(archivedAt := mark);
        Ok(Written(t.(versions := t.versions[r.row := row]), [VersionEntry(r.row, row)]))
    case ProfileVersionKind =>
      if r.row !in t.profileVersions then Err(NotFound)
      else
        var row := t.profileVersions[r.row].(archivedAt := mark);
        Ok(Written(t.(profileVersions := t.profileVersions[r.row := row]), [ProfileVersionEntry(r.row, row)]))
  }

  ghost function Write(t: Tables, r: Request, now: string, uuid: Uuids): Result<Written> {
    match r
    case SaveWorkflow(_, _, _, _, _) => WriteWorkflow(t, r, now, uuid)
    case SaveProfile(_, _, _, _, _, _, _, _, _) => WriteProfile(t, r, now, uuid)
    case UpdateMetadata(_, _, _) => Renamed(t, r, now)
    case SetArchived(_, _, _) => Archived(t, r, now)
  }

  // ---------- each write keeps the tables consistent ----------

  lemma AppendVersionKeeps(t: Tables, family: Id, root: Workflow, content: W.Document, note: Option<string>,
                           now: string, id: Id, shown: Response, w: Written)
    requires Consistent(t) && AppendVersion(t, family, root, content, note, now, id, shown) == Ok(w)
    requires family in t.workflows && t.workflows[family].project == root.project && W.ValidWorkflow(content)
    ensures Consistent(w.tables) && Evolves(t, w.tables)
  {
    var row :=
      Version(family, root.project, NextNumber(VersionPlaces(t.versions), family), root.name, content, note, now, None);
    NextNumberIsNext(VersionPlaces(t.versions), family, 0);
    InsertVersionKeeps(t, id, row, w.tables);
  }

  lemma AppendProfileVersionKeeps(t: Tables, profile: Id, root: Profile, version: Id, content: W.Document,
                                  note: Option<string>, now: string, id: Id, shown: Response, w: Written)
    requires Consistent(t) && AppendProfileVersion(t, profile, root, version, content, note, now, id, shown) == Ok(w)
    requires profile in t.profiles && t.profiles[profile].workflow == root.workflow
    requires t.profiles[profile].project == root.project
    requires version in t.versions && t.versions[version].workflow == root.workflow
    requires t.versions[version].project == root.project
    requires W.ValidProfile(t.versions[version].content, content) && Enveloped(content, profile, root.name)
    ensures Consistent(w.tables) && Evolves(t, w.tables)
  {
    var row := ProfileVersion(profile, root.workflow, root.project, version,
                              NextNumber(ProfileVersionPlaces(t.profileVersions), profile), root.name, content, note,
                              now, None);
    NextNumberIsNext(ProfileVersionPlaces(t.profileVersions), profile, 0);
    assert ProfileVersionOwned(t, row);
    InsertProfileVersionKeeps(t, id, row, w.tables);
  }

  lemma WriteWorkflowKeeps(t: Tables, r: Request, now: string, uuid: Uuids, w: Written)
    requires Consistent(t) && r.SaveWorkflow? && WriteWorkflow(t, r, now, uuid) == Ok(w)
    ensures Consistent(w.tables) && Evolves(t, w.tables)
  {
    if r.workflow.None? {
      var root := Workflow("", r.name.value, r.description, now, now, None);
      var u := InsertWorkflow(t, uuid(0), root).value;
      InsertWorkflowKeeps(t, uuid(0), root, u);
      AppendVersionKeeps(u, uuid(0), root, r.content, r.note, now, uuid(1), [WorkflowEntry(uuid(0), root)], w);
      EvolvesTransitive(t, u, w.tables);
    } else {
      AppendVersionKeeps(t, r.workflow.value, t.workflows[r.workflow.value], r.content, r.note, now, uuid(0), [], w);
    }
  }

  /** Library rows carry no Project. */
  ghost predicate Unscoped(t: Tables) { forall id :: id in t.workflows ==> t.workflows[id].project == "" }

  lemma NewProfileKeeps(t: Tables, r: Request, root: Profile, id: Id, content: W.Document, now: string, uuid: Uuids,
                        w: Written)
    requires Consistent(t) && Unscoped(t) && r.SaveProfile? && r.profile.None? && root.project == ""
    requires Enveloped(content, id, root.name)
    requires SaveInto(t, r, root, id, content, now, uuid) == Ok(w)
    ensures Consistent(w.tables) && Evolves(t, w.tables)
  {
    hide Evolves, Numbered, WorkflowNamesUnique, ProfileNamesUnique, W.ValidProfile, W.ValidWorkflow;
    assert VersionOwned(t, t.versions[r.version]);
    var u := InsertProfile(t, id, root).value;
    InsertProfileKeeps(t, id, root, u);
    AppendProfileVersionKeeps(u, id, root, r.version, content, r.note, now, uuid(1), [ProfileEntry(id, root)], w);
    EvolvesTransitive(t, u, w.tables);
  }

  lemma NextProfileVersionKeeps(t: Tables, r: Request, root: Profile, id: Id, content: W.Document, now: string,
                                uuid: Uuids, w: Written)
    requires Consistent(t) && Unscoped(t) && r.SaveProfile? && r.profile.Some? && id in t.profiles
    requires root == t.profiles[id]
    requires Enveloped(content, id, root.name)
    requires SaveInto(t, r, root, id, content, now, uuid) == Ok(w)
    ensures Consistent(w.tables) && Evolves(t, w.tables)
  {
    hide Evolves, Numbered, WorkflowNamesUnique, ProfileNamesUnique, W.ValidProfile, W.ValidWorkflow;
    assert VersionOwned(t, t.versions[r.version]);
    assert ProfileOwned(t, root);
    AppendProfileVersionKeeps(t, id, root, r.version, content, r.note, now, uuid(0), [], w);
  }

  lemma WriteProfileKeeps(t: Tables, r: Request, now: string, uuid: Uuids, w: Written)
    requires Consistent(t) && Unscoped(t) && r.SaveProfile? && WriteProfile(t, r, now, uuid) == Ok(w)
    ensures Consistent(w.tables) && Evolves(t, w.tables)
  {
    hide Consistent, Evolves, W.ValidProfile;
    var root := ProfileRoot(t, r, now).value;
    var id := if r.profile.None? then uuid(0) else r.profile.value;
    var content := Envelope(id, root.name, W.Obj(r.mappings), W.List(r.imageInputs), W.List(r.parameters));
    if r.profile.None? {
      NewProfileKeeps(t, r, root, id, content, now, uuid, w);
    } else {
      NextProfileVersionKeeps(t, r, root, id, content, now, uuid, w);
    }
  }

  /** Changing rows without moving them. */
  lemma OwnedStays(t: Tables, u: Tables)
    requires Owned(t) && Evolves(t, u)
    requires u.versions.Keys == t.versions.Keys && u.profiles.Keys == t.profiles.Keys
    requires u.profileVersions.Keys == t.profileVersions.Keys
    ensures Owned(u)
  {
    OwnedGrows(t, u);
  }

  lemma WorkflowReplaced(t: Tables, id: Id, row: Workflow, u: Tables)
    requires Consistent(t) && id in t.workflows && SameWorkflowIdentity(t.workflows[id], row)
    requires !WorkflowNameTaken(t, row.project, row.name, id)
    requires u == t.(workflows := t.workflows[id := row])
    ensures Consistent(u) && Evolves(t, u)
  {
    hide Numbered, W.ValidProfile, W.ValidWorkflow, Owned;
    OwnedStays(t, u);
  }

  lemma ProfileReplaced(t: Tables, id: Id, row: Profile, u: Tables)
    requires Consistent(t) && id in t.profiles && SameProfileIdentity(t.profiles[id], row)
    requires !ProfileNameTaken(t, row.workflow, row.name, id)
    requires u == t.(profiles := t.profiles[id := row])
    ensures Consistent(u) && Evolves(t, u)
  {
    hide Numbered, W.ValidProfile, W.ValidWorkflow, Owned;
    OwnedStays(t, u);
  }

  lemma VersionMarked(a: map<Id, Version>, id: Id, row: Version)
    requires id in a && SameVersion(a[id], row)
    ensures VersionPlaces(a[id := row]) == VersionPlaces(a) && VersionsEvolve(a, a[id := row])
  {
  }

  lemma ProfileVersionMarked(a: map<Id, ProfileVersion>, id: Id, row: ProfileVersion)
    requires id in a && SameProfileVersion(a[id], row)
    ensures ProfileVersionPlaces(a[id := row]) == ProfileVersionPlaces(a) && ProfileVersionsEvolve(a, a[id := row])
  {
  }

  lemma VersionReplaced(t: Tables, id: Id, row: Version, u: Tables)
    requires Consistent(t) && id in t.versions && SameVersion(t.versions[id], row)
    requires u == t.(versions := t.versions[id := row])
    ensures Consistent(u) && Evolves(t, u)
  {
    hide Numbered, W.ValidProfile, W.ValidWorkflow, Owned;
    VersionMarked(t.versions, id, row);
    OwnedStays(t, u);
  }

  lemma ProfileVersionReplaced(t: Tables, id: Id, row: ProfileVersion, u: Tables)
    requires Consistent(t) && id in t.profileVersions && SameProfileVersion(t.profileVersions[id], row)
    requires u == t.(profileVersions := t.profileVersions[id := row])
    ensures Consistent(u) && Evolves(t, u)
  {
    hide Numbered, W.ValidProfile, W.ValidWorkflow, Owned;
    ProfileVersionMarked(t.profileVersions, id, row);
    OwnedStays(t, u);
  }

  lemma RenamedKeeps(t: Tables, r: Request, now: string, w: Written)
    requires Consistent(t) && r.UpdateMetadata? && Renamed(t, r, now) == Ok(w)
    ensures Consistent(w.tables) && Evolves(t, w.tables)
  {
    if r.ofProfile {
      ProfileReplaced(t, r.row, w.tables.profiles[r.row], w.tables);
    } else {
      WorkflowReplaced(t, r.row, w.tables.workflows[r.row], w.tables);
    }
  }

  lemma ArchivedKeeps(t: Tables, r: Request, now: string, w: Written)
    requires Consistent(t) && r.SetArchived? && Archived(t, r, now) == Ok(w)
    ensures Consistent(w.tables) && Evolves(t, w.tables)
  {
    match r.kind
    case WorkflowKind => WorkflowReplaced(t, r.row, w.tables.workflows[r.row], w.tables);
    case ProfileKind => ProfileReplaced(t, r.row, w.tables.profiles[r.row], w.tables);
    case VersionKind => VersionReplaced(t, r.row, w.tables.versions[r.row], w.tables);
    case ProfileVersionKind => ProfileVersionReplaced(t, r.row, w.tables.profileVersions[r.row], w.tables);
  }

  lemma WriteKeeps(t: Tables, r: Request, now: string, uuid: Uuids, w: Written)
    requires Consistent(t) && Unscoped(t) && Write(t, r, now, uuid) == Ok(w)
    ensures Consistent(w.tables) && Evolves(t, w.tables)
  {
    hide Consistent, Evolves, W.ValidProfile, W.ValidWorkflow, WriteWorkflow, WriteProfile, Renamed, Archived;
    match r
    case SaveWorkflow(_, _, _, _, _) => WriteWorkflowKeeps(t, r, now, uuid, w);
    case SaveProfile(_, _, _, _, _, _, _, _, _) => WriteProfileKeeps(t, r, now, uuid, w);
    case UpdateMetadata(_, _, _) => RenamedKeeps(t, r, now, w);
    case SetArchived(_, _, _) => ArchivedKeeps(t, r, now, w);
  }

  lemma WriteUnscoped(t: Tables, r: Request, now: string, uuid: Uuids, w: Written)
    requires Unscoped(t) && Write(t, r, now, uuid) == Ok(w)
    ensures Unscoped(w.tables)
  {
    hide W.ValidProfile, W.ValidWorkflow;
  }

  // ---------- what a successful write has done ----------

  /** Saving a workflow adds one version row: the next of its family, with the given content under the
      family's current name; no other version is touched, and an existing family stays as it is. */
  lemma SavedWorkflow(t: Tables, r: Request, now: string, uuid: Uuids, w: Written)
    requires r.SaveWorkflow? && WriteWorkflow(t, r, now, uuid) == Ok(w)
    ensures var created := r.workflow.None?;
      var family, id := if created then uuid(0) else r.workflow.value, if created then uuid(1) else uuid(0);
      && id !in t.versions && id in w.tables.versions && w.tables.versions == t.versions[id := w.tables.versions[id]]
      && family in w.tables.workflows && w.tables.workflows == t.workflows[family := w.tables.workflows[family]]
      && (created ==> family !in t.workflows && w.tables.workflows[family].name == r.name.value
                      && w.tables.workflows[family].description == r.description)
      && (!created ==> family in t.workflows && w.tables.workflows[family] == t.workflows[family]
                       && t.workflows[family].archivedAt.None?)
      && var row := w.tables.versions[id];
        row.workflow == family && row.content == r.content && row.note == r.note
        && row.nameSnapshot == w.tables.workflows[family].name
        && row.createdAt == now && row.archivedAt.None? && IsNext(VersionPlaces(t.versions), family, row.number)
        && w.tables.profiles == t.profiles && w.tables.profileVersions == t.profileVersions
        && w.response != [] && w.response[|w.response| - 1] == VersionEntry(id, row)
  {
    hide W.ValidWorkflow, IsNext, NumberTaken, WorkflowNameTaken;
    NextNumberIsNext(VersionPlaces(t.versions), if r.workflow.None? then uuid(0) else r.workflow.value, 0);
  }

  /** Saving a profile adds one profile version for an active version of its own family, with exactly the
      given sections, valid for that version's workflow. */
  lemma SavedProfile(t: Tables, r: Request, now: string, uuid: Uuids, w: Written)
    requires r.SaveProfile? && WriteProfile(t, r, now, uuid) == Ok(w)
    ensures var created := r.profile.None?;
      var profile, id := if created then uuid(0) else r.profile.value, if created then uuid(1) else uuid(0);
      && id !in t.profileVersions && id in w.tables.profileVersions
      && w.tables.profileVersions == t.profileVersions[id := w.tables.profileVersions[id]]
      && w.tables.workflows == t.workflows && w.tables.versions == t.versions
      && profile in w.tables.profiles && w.tables.profiles == t.profiles[profile := w.tables.profiles[profile]]
      && (created ==> profile !in t.profiles && w.tables.profiles[profile].workflow == r.workflow.value
                      && w.tables.profiles[profile].name == r.name.value)
      && (!created ==> profile in t.profiles && w.tables.profiles[profile] == t.profiles[profile]
                       && t.profiles[profile].archivedAt.None?)
      && var row := w.tables.profileVersions[id];
        row.profile == profile && row.workflow == w.tables.profiles[profile].workflow && row.version == r.version
        && r.version in t.versions && t.versions[r.version].workflow == row.workflow
           && t.versions[r.version].archivedAt.None?
        && W.ValidProfile(t.versions[r.version].content, row.content)
        && row.content ==
             Envelope(profile, row.nameSnapshot, W.Obj(r.mappings), W.List(r.imageInputs), W.List(r.parameters))
        && row.note == r.note && IsNext(ProfileVersionPlaces(t.profileVersions), profile, row.number)
        && w.response != [] && w.response[|w.response| - 1] == ProfileVersionEntry(id, row)
  {
    hide W.ValidProfile, IsNext, NumberTaken, ProfileNameTaken;
    NextNumberIsNext(ProfileVersionPlaces(t.profileVersions), if r.profile.None? then uuid(0) else r.profile.value, 0);
  }

  /** Unarchiving a version undoes archiving it. */
  lemma UnarchiveUndoes(t: Tables, r: Request, now: string, later: string, w: Written)
    requires r.SetArchived? && r.archived && (r.kind.VersionKind? || r.kind.ProfileVersionKind?)
    requires Archived(t, r, now) == Ok(w)
    requires r.row in t.versions ==> t.versions[r.row].archivedAt.None?
    requires r.row in t.profileVersions ==> t.profileVersions[r.row].archivedAt.None?
    ensures Archived(w.tables, r.(archived := false), later).Ok?
    ensures Archived(w.tables, r.(archived := false), later).value.tables == t
  {
    var undone := Archived(w.tables, r.(archived := false), later).value.tables;
    assert undone.versions == t.versions && undone.profileVersions == t.profileVersions;
  }

  /** Renaming a workflow touches its name and description only, and takes no name in use; versions keep
      the name they were saved under. */
  lemma RenamedWorkflow(t: Tables, r: Request, now: string, w: Written)
    requires r.UpdateMetadata? && !r.ofProfile && Renamed(t, r, now) == Ok(w)
    ensures w.tables == t.(workflows := w.tables.workflows)
    ensures r.row in t.workflows && r.row in w.tables.workflows
    ensures w.tables.workflows == t.workflows[r.row := w.tables.workflows[r.row]]
    ensures var a, b := t.workflows[r.row], w.tables.workflows[r.row];
      && b == a.(name := b.name, description := b.description, updatedAt := now)
      && b.name == (if r.changes.name.Some? then r.changes.name.value else a.name)
      && b.description == (if r.changes.description.Some? then r.changes.description.value else a.description)
      && forall id ::
           id in t.workflows && id != r.row && t.workflows[id].project == b.project ==> t.workflows[id].name != b.name
  {
  }

  /** The same for a profile, whose name is unique within its workflow. */
  lemma RenamedProfile(t: Tables, r: Request, now: string, w: Written)
    requires r.UpdateMetadata? && r.ofProfile && Renamed(t, r, now) == Ok(w)
    ensures w.tables == t.(profiles := w.tables.profiles)
    ensures r.row in t.profiles && r.row in w.tables.profiles
    ensures w.tables.profiles == t.profiles[r.row := w.tables.profiles[r.row]]
    ensures var a, b := t.profiles[r.row], w.tables.profiles[r.row];
      && b == a.(name := b.name, description := b.description, updatedAt := now)
      && b.name == (if r.changes.name.Some? then r.changes.name.value else a.name)
      && b.description == (if r.changes.description.Some? then r.changes.description.value else a.description)
      && forall id ::
           id in t.profiles && id != r.row && t.profiles[id].workflow == b.workflow ==> t.profiles[id].name != b.name
  {
  }

  // ---------- copies ----------

  datatype Direction = Import | Use

  datatype Selection = Selection(version: Id, name: Option<string>)

  datatype CopyRequest =
    | CopySetup(direction: Direction, project: Id, version: Id, selections: seq<Selection>, name: Option<string>,
                description: Option<string>)
    | HistoricalSetup(run: string, workflowName: string, profileName: string, description: Option<string>,
                      workflowDigest: Option<string>, profileDigest: Option<string>)

  datatype Named = Named(name: string, content: W.Document)

  function Field(content: W.Document, name: string): W.Json { if name in content then content[name] else W.Null }

  /** One pass of the loop over the chosen profiles. */
  ghost function CopyProfile(t: Tables, project: Id, family: Id, version: Id, workflow: W.Document, chosen: Named,
                             now: string, id: Id, versionId: Id): Result<Written>
  {
    var content := Envelope(id, chosen.name, Field(chosen.content, "mappings"), Field(chosen.content, "image_inputs"),
                            Field(chosen.content, "parameters"));
    if !ProperText(chosen.name, 200) || !W.ValidProfile(workflow, content) then Err(Invalid)
    else
      var root := Profile(family, project, chosen.name, None, now, now, None);
      match InsertProfile(t, id, root)
      case Err(e) => Err(e)
      case Ok(u) =>
        var row := ProfileVersion(id, family, project, version, 1, chosen.name, content, None, now, None);
        match InsertProfileVersion(u, versionId, row)
        case Err(e) => Err(e)
        case Ok(v) => Ok(Written(v, [ProfileEntry(id, root), ProfileVersionEntry(versionId, row)]))
  }

  ghost function CopyProfiles(t: Tables, project: Id, family: Id, version: Id, workflow: W.Document, chosen: seq<Named>,
                              now: string, uuid: Uuids, at: nat, shown: Response): Result<Written>
    decreases |chosen|
  {
    if chosen == [] then Ok(Written(t, shown))
    else
      match CopyProfile(t, project, family, version, workflow, chosen[0], now, uuid(at), uuid(at + 1))
      case Ok(w) =>
        CopyProfiles(w.tables, project, family, version, workflow, chosen[1..], now, uuid, at + 2, shown + w.response)
      case Err(e) => Err(e)
  }

  /** _write_copy: a new family with version 1, and a new profile with version 1 for each one chosen. */
  ghost function WriteCopy(t: Tables, project: Id, workflow: W.Document, name: string, description: Option<string>,
                           chosen: seq<Named>, now: string, uuid: Uuids): Result<Written>
  {
    if !ProperText(name, 200) || !OptionalText(description, 2000) then Err(Invalid)
    else
      var root := Workflow(project, name, description, now, now, None);
      match InsertWorkflow(t, uuid(0), root)
      case Err(e) => Err(e)
      case Ok(u) =>
        if !W.ValidWorkflow(workflow) then Err(Invalid)
        else
          var row := Version(uuid(0), project, 1, name, workflow, None, now, None);
          match InsertVersion(u, uuid(1), row)
          case Err(e) => Err(e)
          case Ok(v) => CopyProfiles(v, project, uuid(0), uuid(1), workflow, chosen, now, uuid, 2,
                                     [WorkflowEntry(uuid(0), root), VersionEntry(uuid(1), row)])
  }

  /** A family not stored yet has no versions, so the first one is number 1. */
  lemma FirstVersion(t: Tables, family: Id)
    requires Consistent(t) && family !in t.workflows
    ensures IsNext(VersionPlaces(t.versions), family, 1)
  {
    hide W.ValidProfile, W.ValidWorkflow;
    forall v | v in t.versions ensures t.versions[v].workflow != family {
      assert VersionOwned(t, t.versions[v]);
    }
  }

  lemma FirstProfileVersion(t: Tables, profile: Id)
    requires Consistent(t) && profile !in t.profiles
    ensures IsNext(ProfileVersionPlaces(t.profileVersions), profile, 1)
  {
    hide W.ValidProfile, W.ValidWorkflow;
    forall v | v in t.profileVersions ensures t.profileVersions[v].profile != profile {
      assert ProfileVersionOwned(t, t.profileVersions[v]);
    }
  }

  lemma CopyProfileKeeps(t: Tables, project: Id, family: Id, version: Id, workflow: W.Document, chosen: Named,
                         now: string, id: Id, versionId: Id, w: Written)
    requires Consistent(t) && CopyProfile(t, project, family, version, workflow, chosen, now, id, versionId) == Ok(w)
    requires family in t.workflows && t.workflows[family].project == project
    requires version in t.versions && t.versions[version].workflow == family && t.versions[version].project == project
    requires t.versions[version].content == workflow
    ensures Consistent(w.tables) && Evolves(t, w.tables)
  {
    hide Consistent, W.ValidProfile, W.ValidWorkflow, IsNext;
    var content := Envelope(id, chosen.name, Field(chosen.content, "mappings"), Field(chosen.content, "image_inputs"),
                            Field(chosen.content, "parameters"));
    var root := Profile(family, project, chosen.name, None, now, now, None);
    var u := InsertProfile(t, id, root).value;
    var row := ProfileVersion(id, family, project, version, 1, chosen.name, content, None, now, None);
    InsertProfileKeeps(t, id, root, u);
    FirstProfileVersion(t, id);
    assert ProfileVersionOwned(u, row);
    InsertProfileVersionKeeps(u, versionId, row, w.tables);
    EvolvesTransitive(t, u, w.tables);
  }

  lemma {:induction false} CopyProfilesKeep(t: Tables, project: Id, family: Id, version: Id, workflow: W.Document,
                                            chosen: seq<Named>, now: string, uuid: Uuids, at: nat, shown: Response,
                                            w: Written)
    requires Consistent(t) && CopyProfiles(t, project, family, version, workflow, chosen, now, uuid, at, shown) == Ok(w)
    requires family in t.workflows && t.workflows[family].project == project
    requires version in t.versions && t.versions[version].workflow == family && t.versions[version].project == project
    requires t.versions[version].content == workflow
    ensures Consistent(w.tables) && Evolves(t, w.tables)
    decreases |chosen|
  {
    hide Consistent, W.ValidProfile, W.ValidWorkflow;
    if chosen == [] {
      EvolvesReflexive(t);
    } else {
      var next := CopyProfile(t, project, family, version, workflow, chosen[0], now, uuid(at), uuid(at + 1)).value;
      CopyProfileKeeps(t, project, family, version, workflow, chosen[0], now, uuid(at), uuid(at + 1), next);
      assert SameWorkflowIdentity(t.workflows[family], next.tables.workflows[family]);
      assert SameVersion(t.versions[version], next.tables.versions[version]);
      CopyProfilesKeep(next.tables, project, family, version, workflow, chosen[1..], now, uuid, at + 2,
                       shown + next.response, w);
      EvolvesTransitive(t, next.tables, w.tables);
    }
  }

  lemma WriteCopyKeeps(t: Tables, project: Id, workflow: W.Document, name: string, description: Option<string>,
                       chosen: seq<Named>, now: string, uuid: Uuids, w: Written)
    requires Consistent(t) && WriteCopy(t, project, workflow, name, description, chosen, now, uuid) == Ok(w)
    ensures Consistent(w.tables) && Evolves(t, w.tables)
  {
    hide Consistent, W.ValidProfile, W.ValidWorkflow, CopyProfiles, IsNext;
    var root := Workflow(project, name, description, now, now, None);
    var u := InsertWorkflow(t, uuid(0), root).value;
    InsertWorkflowKeeps(t, uuid(0), root, u);
    var row := Version(uuid(0), project, 1, name, workflow, None, now, None);
    FirstVersion(t, uuid(0));
    assert VersionOwned(u, row);
    var v := InsertVersion(u, uuid(1), row).value;
    InsertVersionKeeps(u, uuid(1), row, v);
    CopyProfilesKeep(v, project, uuid(0), uuid(1), workflow, chosen, now, uuid, 2,
                     [WorkflowEntry(uuid(0), root), VersionEntry(uuid(1), row)], w);
    EvolvesTransitive(t, u, v);
    EvolvesTransitive(t, v, w.tables);
  }

  /** A copied profile keeps its three sections, under a new identity. */
  ghost predicate CopiedProfile(t: Tables, family: Id, version: Id, chosen: Named, id: Id, versionId: Id) {
    && id in t.profiles && t.profiles[id].workflow == family && t.profiles[id].name == chosen.name
    && versionId in t.profileVersions
    && var row := t.profileVersions[versionId];
      row.profile == id && row.workflow == family && row.version == version && row.number == 1
      && row.nameSnapshot == chosen.name
      && row.content ==
           Envelope(id, chosen.name, Field(chosen.content, "mappings"), Field(chosen.content, "image_inputs"),
                                 Field(chosen.content, "parameters"))
  }

  /** Rows that were there are still there, unchanged. */
  ghost predicate ProfilesRemain(t: Tables, u: Tables) {
    && (forall id :: id in t.profiles ==> id in u.profiles && u.profiles[id] == t.profiles[id])
    && (forall id :: id in t.profileVersions ==>
          id in u.profileVersions && u.profileVersions[id] == t.profileVersions[id])
  }

  lemma ProfileCopied(t: Tables, project: Id, family: Id, version: Id, workflow: W.Document, chosen: Named, now: string,
                      id: Id, versionId: Id, w: Written)
    requires CopyProfile(t, project, family, version, workflow, chosen, now, id, versionId) == Ok(w)
    ensures ProfilesRemain(t, w.tables) && CopiedProfile(w.tables, family, version, chosen, id, versionId)
  {
    hide W.ValidProfile;
  }

  lemma CopyRemains(t: Tables, u: Tables, family: Id, version: Id, chosen: Named, id: Id, versionId: Id)
    requires ProfilesRemain(t, u) && CopiedProfile(t, family, version, chosen, id, versionId)
    ensures CopiedProfile(u, family, version, chosen, id, versionId)
  {
  }

  lemma {:induction false} ProfilesCopied(t: Tables, project: Id, family: Id, version: Id, workflow: W.Document,
                                          chosen: seq<Named>, now: string, uuid: Uuids, at: nat, shown: Response,
                                          w: Written)
    requires CopyProfiles(t, project, family, version, workflow, chosen, now, uuid, at, shown) == Ok(w)
    ensures ProfilesRemain(t, w.tables)
    ensures forall i :: 0 <= i < |chosen| ==>
      CopiedProfile(w.tables, family, version, chosen[i], uuid(at + 2 * i), uuid(at + 2 * i + 1))
    decreases |chosen|
  {
    hide CopyProfile, CopiedProfile, ProfilesRemain;
    if chosen == [] {
      RemainReflexive(t);
    } else {
      var next := CopyProfile(t, project, family, version, workflow, chosen[0], now, uuid(at), uuid(at + 1)).value;
      ProfileCopied(t, project, family, version, workflow, chosen[0], now, uuid(at), uuid(at + 1), next);
      ProfilesCopied(next.tables, project, family, version, workflow, chosen[1..], now, uuid, at + 2,
                     shown + next.response, w);
      CopyRemains(next.tables, w.tables, family, version, chosen[0], uuid(at), uuid(at + 1));
      RemainTransitive(t, next.tables, w.tables);
      forall i | 0 <= i < |chosen|
        ensures CopiedProfile(w.tables, family, version, chosen[i], uuid(at + 2 * i), uuid(at + 2 * i + 1))
      {
        if i > 0 { assert chosen[1..][i - 1] == chosen[i] && at + 2 + 2 * (i - 1) == at + 2 * i; }
      }
    }
  }

  lemma RemainReflexive(t: Tables)
    ensures ProfilesRemain(t, t)
  {
  }

  lemma RemainTransitive(t: Tables, u: Tables, v: Tables)
    requires ProfilesRemain(t, u) && ProfilesRemain(u, v)
    ensures ProfilesRemain(t, v)
  {
  }

  /** A copy is a new family whose version 1 holds the source's workflow unchanged, with every chosen
      profile as version 1 of a new profile for it; rows that were there stay as they were. */
  lemma CopyIsFaithful(t: Tables, project: Id, workflow: W.Document, name: string, description: Option<string>,
                       chosen: seq<Named>, now: string, uuid: Uuids, w: Written)
    requires WriteCopy(t, project, workflow, name, description, chosen, now, uuid) == Ok(w)
    ensures w.tables.workflows == t.workflows[uuid(0) := Workflow(project, name, description, now, now, None)]
    ensures w.tables.versions == t.versions[uuid(1) := Version(uuid(0), project, 1, name, workflow, None, now, None)]
    ensures uuid(0) !in t.workflows && uuid(1) !in t.versions
    ensures ProfilesRemain(t, w.tables)
    ensures forall i :: 0 <= i < |chosen| ==>
      CopiedProfile(w.tables, uuid(0), uuid(1), chosen[i], uuid(2 + 2 * i), uuid(2 + 2 * i + 1))
  {
    hide CopyProfiles, CopiedProfile, W.ValidWorkflow, NumberTaken, WorkflowNameTaken;
    var root := Workflow(project, name, description, now, now, None);
    var row := Version(uuid(0), project, 1, name, workflow, None, now, None);
    var u := InsertWorkflow(t, uuid(0), root).value;
    var v := InsertVersion(u, uuid(1), row).value;
    var shown := [WorkflowEntry(uuid(0), root), VersionEntry(uuid(1), row)];
    ProfilesCopied(v, project, uuid(0), uuid(1), workflow, chosen, now, uuid, 2, shown, w);
    CopyProfilesSameWorkflows(v, project, uuid(0), uuid(1), workflow, chosen, now, uuid, 2, shown, w);
  }

  // ---------- requests, receipts and runs ----------

  datatype AuthoringReceipt = AuthoringReceipt(request: Request, response: Response)

  datatype CopyReceipt = CopyReceipt(request: CopyRequest, response: Response)

  /** The library, the tables of all Projects, which Projects are archived, and the receipts. */
  datatype State = State(library: Tables, local: Tables, projects: map<Id, bool>,
                         authoring: map<string, AuthoringReceipt>, copies: map<string, CopyReceipt>)

  datatype Outcome = Outcome(state: State, result: Result<Response>)

  ghost function Refused(s: State, e: Error): Outcome { Outcome(s, Err(e)) }

  /** _author: one transaction; a stored receipt answers, an error rolls back. */
  ghost function Author(s: State, requestId: string, r: Request, now: string, uuid: Uuids): Outcome {
    if !ProperText(requestId, 200) || !OptionalText(TargetOf(r), 200) then Refused(s, Invalid)
    else if requestId in s.authoring then
      if s.authoring[requestId].request == r then Outcome(s, Ok(s.authoring[requestId].response))
      else Refused(s, Conflict)
    else
      match Write(s.library, r, now, uuid)
      case Err(e) => Refused(s, e)
      case Ok(w) =>
        Outcome(s.(library := w.tables, authoring := s.authoring[requestId := AuthoringReceipt(r, w.response)]),
                Ok(w.response))
  }

  /** What is wrong with a chosen profile, if anything. */
  ghost function SelectionProblem(src: Tables, r: CopyRequest, source: Version, chosen: Selection): Option<Error>
    requires r.CopySetup?
  {
    if chosen.version !in src.profileVersions then Some(NotFound)
    else
      var p := src.profileVersions[chosen.version];
      if p.version != r.version || p.workflow != source.workflow then Some(Invalid)
      else if r.direction.Import? && p.project != r.project then Some(Invalid)
      else if !Enveloped(p.content, p.profile, p.nameSnapshot) then Some(Invalid)
      else if !W.ValidProfile(source.content, p.content) then Some(Invalid)
      else None
  }

  ghost function FirstProblem(src: Tables, r: CopyRequest, source: Version, chosen: seq<Selection>): Option<Error>
    requires r.CopySetup?
  {
    if chosen == [] then None
    else
      var problem := SelectionProblem(src, r, source, chosen[0]);
      if problem.Some? then problem else FirstProblem(src, r, source, chosen[1..])
  }

  function NamedAs(src: Tables, chosen: seq<Selection>): seq<Named> {
    seq(|chosen|, i requires 0 <= i < |chosen| => NamedOne(src, chosen[i]))
  }

  /** The chosen profile under its new or its stored name. */
  function NamedOne(src: Tables, chosen: Selection): Named {
    if chosen.version !in src.profileVersions then Named("", map[])
    else
      var p := src.profileVersions[chosen.version];
      Named(if chosen.name.Some? then chosen.name.value else p.nameSnapshot, p.content)
  }

  ghost predicate DistinctVersions(chosen: seq<Selection>) {
    forall i, j :: 0 <= i < j < |chosen| ==> chosen[i].version != chosen[j].version
  }

  /** The copy itself, once no receipt answers: checks on the source, then _write_copy. */
  ghost function CopyInto(s: State, r: CopyRequest, now: string, uuid: Uuids): Result<Written>
    requires r.CopySetup?
  {
    var src := if r.direction.Import? then s.local else s.library;
    if r.project !in s.projects || (r.direction.Use? && s.projects[r.project]) then Err(Invalid)
    else if r.version !in src.versions then Err(NotFound)
    else
      var source := src.versions[r.version];
      if r.direction.Import? && source.project != r.project then Err(Invalid)
      else
        var problem := FirstProblem(src, r, source, r.selections);
        if problem.Some? then Err(problem.value)
        else
          WriteCopy(if r.direction.Import? then s.library else s.local, if r.direction.Import? then "" else r.project,
                    source.content, if r.name.Some? then r.name.value else source.nameSnapshot, r.description,
                    NamedAs(src, r.selections), now, uuid)
  }

  /** Committing a copy: into the library, or into the Project's tables, with its receipt. */
  ghost function Copied(s: State, requestId: string, r: CopyRequest, written: Result<Written>): Outcome {
    match written
    case Err(e) => Refused(s, e)
    case Ok(w) =>
      var copies := s.copies[requestId := CopyReceipt(r, w.response)];
      if r.CopySetup? && r.direction.Use? then Outcome(s.(local := w.tables, copies := copies), Ok(w.response))
      else Outcome(s.(library := w.tables, copies := copies), Ok(w.response))
  }

  ghost function Copy(s: State, requestId: string, r: CopyRequest, now: string, uuid: Uuids): Outcome
    requires r.CopySetup?
  {
    if !W.Nonblank(requestId) || !W.Nonblank(r.project) || |r.selections| > 50 || !DistinctVersions(r.selections) then
      Refused(s, Invalid)
    else if requestId in s.copies then
      if s.copies[requestId].request == r then Outcome(s, Ok(s.copies[requestId].response)) else Refused(s, Conflict)
    else Copied(s, requestId, r, CopyInto(s, r, now, uuid))
  }

  predicate IsDigest(s: string) { |s| == 64 && forall i :: 0 <= i < 64 ==> '0' <= s[i] <= '9' || 'a' <= s[i] <= 'f' }

  predicate ProperHistorical(requestId: string, r: CopyRequest)
    requires r.HistoricalSetup?
  {
    && ProperText(requestId, 200) && ProperText(r.workflowName, 200) && ProperText(r.profileName, 200)
    && OptionalText(r.description, 2000) && r.run != ""
    && (r.workflowDigest.Some? ==> IsDigest(r.workflowDigest.value))
    && (r.profileDigest.Some? ==> IsDigest(r.profileDigest.value))
  }

  /** A trusted snapshot of a run's setup, with the digests of its two parts. */
  datatype Snapshot = Snapshot(workflow: W.Document, profile: W.Document, workflowDigest: string, profileDigest: string)

  ghost function ImportHistorical(s: State, requestId: string, r: CopyRequest, snapshot: Snapshot, now: string,
                                  uuid: Uuids): Outcome
    requires r.HistoricalSetup?
  {
    if !ProperHistorical(requestId, r) then Refused(s, Invalid)
    else if requestId in s.copies then
      if s.copies[requestId].request == r then Outcome(s, Ok(s.copies[requestId].response)) else Refused(s, Conflict)
    else if (r.workflowDigest.Some? && r.workflowDigest.value != snapshot.workflowDigest)
            || (r.profileDigest.Some? && r.profileDigest.value != snapshot.profileDigest) then Refused(s, Conflict)
    else if !W.ValidProfile(snapshot.workflow, snapshot.profile) then Refused(s, Invalid)
    else Copied(s, requestId, r, WriteCopy(s.library, "", snapshot.workflow, r.workflowName, r.description,
                                           [Named(r.profileName, snapshot.profile)], now, uuid))
  }

  /** One call against the store, or a change that a Project's own stores make. */
  datatype Call =
    | AuthorCall(requestId: string, request: Request, now: string, uuid: Uuids)
    | CopyCall(requestId: string, setup: CopyRequest, now: string, uuid: Uuids)
    | ImportCall(requestId: string, setup: CopyRequest, snapshot: Snapshot, now: string, uuid: Uuids)
    | ProjectChange(local: Tables, projects: map<Id, bool>)

  ghost predicate Callable(c: Call) {
    (c.CopyCall? ==> c.setup.CopySetup?) && (c.ImportCall? ==> c.setup.HistoricalSetup?)
  }

  ghost function Step(s: State, c: Call): Outcome
    requires Callable(c)
  {
    match c
    case AuthorCall(requestId, request, now, uuid) => Author(s, requestId, request, now, uuid)
    case CopyCall(requestId, setup, now, uuid) => Copy(s, requestId, setup, now, uuid)
    case ImportCall(requestId, setup, snapshot, now, uuid) => ImportHistorical(s, requestId, setup, snapshot, now, uuid)
    case ProjectChange(local, projects) => Outcome(s.(local := local, projects := projects), Ok([]))
  }

  ghost function Run(s: State, calls: seq<Call>): State
    requires forall i :: 0 <= i < |calls| ==> Callable(calls[i])
    decreases |calls|
  {
    if calls == [] then s else Run(Step(s, calls[0]).state, calls[1..])
  }

  // ---------- every reachable library ----------

  lemma WriteCopyUnscoped(t: Tables, workflow: W.Document, name: string, description: Option<string>,
                          chosen: seq<Named>, now: string, uuid: Uuids, w: Written)
    requires Unscoped(t) && WriteCopy(t, "", workflow, name, description, chosen, now, uuid) == Ok(w)
    ensures Unscoped(w.tables)
  {
    hide W.ValidProfile, W.ValidWorkflow;
    var root := Workflow("", name, description, now, now, None);
    var row := Version(uuid(0), "", 1, name, workflow, None, now, None);
    var u := InsertWorkflow(t, uuid(0), root).value;
    var v := InsertVersion(u, uuid(1), row).value;
    CopyProfilesSameWorkflows(v, "", uuid(0), uuid(1), workflow, chosen, now, uuid, 2,
                              [WorkflowEntry(uuid(0), root), VersionEntry(uuid(1), row)], w);
  }

  lemma {:induction false} CopyProfilesSameWorkflows(t: Tables, project: Id, family: Id, version: Id,
                                                     workflow: W.Document, chosen: seq<Named>, now: string, uuid: Uuids,
                                                     at: nat, shown: Response, w: Written)
    requires CopyProfiles(t, project, family, version, workflow, chosen, now, uuid, at, shown) == Ok(w)
    ensures w.tables.workflows == t.workflows && w.tables.versions == t.versions
    decreases |chosen|
  {
    hide W.ValidProfile;
    if chosen != [] {
      var next := CopyProfile(t, project, family, version, workflow, chosen[0], now, uuid(at), uuid(at + 1)).value;
      CopyProfilesSameWorkflows(next.tables, project, family, version, workflow, chosen[1..], now, uuid, at + 2,
                                shown + next.response, w);
    }
  }

  /** What every call keeps of the library, whatever the Projects' tables hold. */
  lemma StepKeeps(s: State, c: Call)
    requires Callable(c) && Consistent(s.library) && Unscoped(s.library)
    ensures Consistent(Step(s, c).state.library) && Unscoped(Step(s, c).state.library)
    ensures Evolves(s.library, Step(s, c).state.library)
  {
    hide Consistent, Unscoped, Evolves, Write, WriteCopy, W.ValidProfile,
         IsDigest, ProperHistorical, FirstProblem, DistinctVersions;
    EvolvesReflexive(s.library);
    var u := Step(s, c).state;
    if u.library != s.library {
      match c
      case AuthorCall(requestId, request, now, uuid) =>
        var w := Write(s.library, request, now, uuid).value;
        WriteKeeps(s.library, request, now, uuid, w);
        WriteUnscoped(s.library, request, now, uuid, w);
      case CopyCall(requestId, setup, now, uuid) =>
        CopyStepKeeps(s, requestId, setup, now, uuid);
      case ImportCall(requestId, r, snapshot, now, uuid) =>
        var w := WriteCopy(s.library, "", snapshot.workflow, r.workflowName, r.description,
                           [Named(r.profileName, snapshot.profile)], now, uuid).value;
        WriteCopyKeeps(s.library, "", snapshot.workflow, r.workflowName, r.description,
                       [Named(r.profileName, snapshot.profile)], now, uuid, w);
        WriteCopyUnscoped(s.library, snapshot.workflow, r.workflowName, r.description,
                          [Named(r.profileName, snapshot.profile)], now, uuid, w);
    }
  }

  lemma CopyStepKeeps(s: State, requestId: string, r: CopyRequest, now: string, uuid: Uuids)
    requires r.CopySetup? && Consistent(s.library) && Unscoped(s.library)
    ensures var u := Copy(s, requestId, r, now, uuid).state;
      Consistent(u.library) && Unscoped(u.library) && Evolves(s.library, u.library)
  {
    hide Consistent, Unscoped, Evolves, WriteCopy, W.ValidProfile, DistinctVersions, FirstProblem;
    EvolvesReflexive(s.library);
    var u := Copy(s, requestId, r, now, uuid).state;
    if u.library != s.library {
      var source := s.local.versions[r.version];
      var chosen := NamedAs(s.local, r.selections);
      var name := if r.name.Some? then r.name.value else source.nameSnapshot;
      var w := WriteCopy(s.library, "", source.content, name, r.description, chosen, now, uuid).value;
      WriteCopyKeeps(s.library, "", source.content, name, r.description, chosen, now, uuid, w);
      WriteCopyUnscoped(s.library, source.content, name, r.description, chosen, now, uuid, w);
    }
  }

  /** Using a library setup in a Project keeps the Project's tables consistent too. */
  lemma UseKeepsProject(s: State, requestId: string, r: CopyRequest, now: string, uuid: Uuids)
    requires r.CopySetup? && r.direction.Use? && Consistent(s.local)
    ensures var u := Copy(s, requestId, r, now, uuid).state;
      u.library == s.library && Consistent(u.local) && Evolves(s.local, u.local)
  {
    hide Consistent, Evolves, WriteCopy, W.ValidProfile, DistinctVersions, FirstProblem;
    EvolvesReflexive(s.local);
    var u := Copy(s, requestId, r, now, uuid).state;
    if u.local != s.local {
      var source := s.library.versions[r.version];
      var chosen := NamedAs(s.library, r.selections);
      var name := if r.name.Some? then r.name.value else source.nameSnapshot;
      var w := WriteCopy(s.local, r.project, source.content, name, r.description, chosen, now, uuid).value;
      WriteCopyKeeps(s.local, r.project, source.content, name, r.description, chosen, now, uuid, w);
    }
  }

  /** Over whole runs: the library stays consistent, and no version, owner or creation time changes. */
  lemma {:induction false} RunKeeps(s: State, calls: seq<Call>)
    requires forall i :: 0 <= i < |calls| ==> Callable(calls[i])
    requires Consistent(s.library) && Unscoped(s.library)
    ensures Consistent(Run(s, calls).library) && Unscoped(Run(s, calls).library)
    ensures Evolves(s.library, Run(s, calls).library)
    decreases |calls|
  {
    hide Consistent, Unscoped, Evolves, Step;
    if calls == [] {
      EvolvesReflexive(s.library);
    } else {
      var next := Step(s, calls[0]).state;
      StepKeeps(s, calls[0]);
      RunKeeps(next, calls[1..]);
      EvolvesTransitive(s.library, next.library, Run(s, calls).library);
    }
  }

  lemma EmptyIsConsistent()
    ensures var t := Tables(map[], map[], map[], map[]); Consistent(t) && Unscoped(t)
  {
  }

  /** So every library that calls can lead to is consistent. */
  lemma ReachableLibrary(projects: map<Id, bool>, calls: seq<Call>)
    requires forall i :: 0 <= i < |calls| ==> Callable(calls[i])
    ensures var empty := Tables(map[], map[], map[], map[]);
      var s := Run(State(empty, empty, projects, map[], map[]), calls);
      Consistent(s.library) && Unscoped(s.library)
  {
    hide Consistent, Unscoped, Run;
    var empty := Tables(map[], map[], map[], map[]);
    EmptyIsConsistent();
    RunKeeps(State(empty, empty, projects, map[], map[]), calls);
  }

  /** In a reachable library the numbers of a family are exactly 1..n. */
  lemma FamilyNumbers(t: Tables, family: Id, k: nat)
    requires Consistent(t)
    ensures HasNumber(VersionPlaces(t.versions), family, k) <==> 1 <= k < NextNumber(VersionPlaces(t.versions), family)
    ensures HasNumber(ProfileVersionPlaces(t.profileVersions), family, k)
      <==> 1 <= k < NextNumber(ProfileVersionPlaces(t.profileVersions), family)
  {
    NextNumberIsNext(VersionPlaces(t.versions), family, 0);
    NextNumberIsNext(ProfileVersionPlaces(t.profileVersions), family, 0);
    NumbersAreInitial(VersionPlaces(t.versions), family, NextNumber(VersionPlaces(t.versions), family), k);
    NumbersAreInitial(ProfileVersionPlaces(t.profileVersions), family,
                      NextNumber(ProfileVersionPlaces(t.profileVersions), family), k);
  }

  // ---------- at most once ----------

  /** A call that fails changes nothing. */
  lemma FailureChangesNothing(s: State, c: Call)
    requires Callable(c) && Step(s, c).result.Err?
    ensures Step(s, c).state == s
  {
    hide Write, WriteCopy, W.ValidProfile, IsDigest, ProperHistorical, FirstProblem, DistinctVersions, CopyInto;
  }

  /** Receipts are never changed or dropped. */
  lemma StepKeepsReceipts(s: State, c: Call, id: string)
    requires Callable(c)
    ensures id in s.authoring ==> id in Step(s, c).state.authoring && Step(s, c).state.authoring[id] == s.authoring[id]
    ensures id in s.copies ==> id in Step(s, c).state.copies && Step(s, c).state.copies[id] == s.copies[id]
  {
    hide Write, WriteCopy, W.ValidProfile, IsDigest, ProperHistorical, FirstProblem, DistinctVersions, CopyInto;
  }

  lemma {:induction false} RunKeepsReceipts(s: State, calls: seq<Call>, id: string)
    requires forall i :: 0 <= i < |calls| ==> Callable(calls[i])
    ensures id in s.authoring ==> id in Run(s, calls).authoring && Run(s, calls).authoring[id] == s.authoring[id]
    ensures id in s.copies ==> id in Run(s, calls).copies && Run(s, calls).copies[id] == s.copies[id]
    decreases |calls|
  {
    hide Step;
    if calls != [] {
      StepKeepsReceipts(s, calls[0], id);
      RunKeepsReceipts(Step(s, calls[0]).state, calls[1..], id);
    }
  }

  /** Once an authoring request succeeded, every later call under its id, after any other calls, changes
      nothing: the same request gets the first response again, a different one an error. */
  lemma AuthoredAtMostOnce(s: State, first: Call, between: seq<Call>, again: Call)
    requires first.AuthorCall? && Step(s, first).result.Ok?
    requires forall i :: 0 <= i < |between| ==> Callable(between[i])
    requires again.AuthorCall? && again.requestId == first.requestId
    ensures var later := Run(Step(s, first).state, between);
      && Step(later, again).state == later
      && (again.request == first.request ==> Step(later, again).result == Step(s, first).result)
      && (again.request != first.request ==> Step(later, again).result.Err?)
  {
    hide Write, Run;
    RunKeepsReceipts(Step(s, first).state, between, first.requestId);
  }

  ghost predicate IsCopy(c: Call) { Callable(c) && (c.CopyCall? || c.ImportCall?) }

  /** The same for copies and historical imports, which share their receipts. */
  lemma CopiedAtMostOnce(s: State, first: Call, between: seq<Call>, again: Call)
    requires IsCopy(first) && Step(s, first).result.Ok?
    requires forall i :: 0 <= i < |between| ==> Callable(between[i])
    requires IsCopy(again) && again.requestId == first.requestId
    ensures var later := Run(Step(s, first).state, between);
      && Step(later, again).state == later
      && (again.setup == first.setup ==> Step(later, again).result == Step(s, first).result)
      && (again.setup != first.setup ==> Step(later, again).result.Err?)
  {
    hide Step, Run;
    CopyRecorded(s, first);
    RunKeepsReceipts(Step(s, first).state, between, first.requestId);
    CopyAnswered(Run(Step(s, first).state, between), again, first.requestId);
    SameAnswer(s, first, again);
  }

  /** A copy that succeeds leaves its request and its response under its id. */
  lemma CopyRecorded(s: State, c: Call)
    requires IsCopy(c) && Step(s, c).result.Ok?
    ensures c.requestId in Step(s, c).state.copies
    ensures Step(s, c).state.copies[c.requestId] == CopyReceipt(c.setup, Step(s, c).result.value)
  {
    hide WriteCopy, W.ValidProfile, W.Nonblank, IsDigest, FirstProblem, DistinctVersions, CopyInto;
  }

  /** Under a recorded id a copy is answered from the receipt, or refused. */
  lemma CopyAnswered(s: State, c: Call, id: string)
    requires IsCopy(c) && c.requestId == id && id in s.copies
    ensures Step(s, c).state == s
    ensures Step(s, c).result.Ok? ==> Step(s, c).result == Ok(s.copies[id].response) && s.copies[id].request == c.setup
    ensures Proper(c) && s.copies[id].request == c.setup ==> Step(s, c).result == Ok(s.copies[id].response)
  {
    hide WriteCopy, W.ValidProfile, W.Nonblank, IsDigest, FirstProblem, DistinctVersions, CopyInto;
  }

  /** The checks made before the receipts are looked at. */
  ghost predicate Proper(c: Call)
    requires IsCopy(c)
  {
    if c.CopyCall? then
      W.Nonblank(c.requestId) && W.Nonblank(c.setup.project) && |c.setup.selections| <= 50
      && DistinctVersions(c.setup.selections)
    else ProperHistorical(c.requestId, c.setup)
  }

  /** What passed them once passes them again. */
  lemma SameAnswer(s: State, first: Call, again: Call)
    requires IsCopy(first) && IsCopy(again) && Step(s, first).result.Ok? && again.requestId == first.requestId
    ensures again.setup == first.setup ==> Proper(again)
  {
    hide WriteCopy, W.ValidProfile, W.Nonblank, IsDigest, FirstProblem, DistinctVersions, CopyInto;
  }
}
