/** What each call against the library does, seen from outside: when it succeeds, which error it gives
    otherwise, which rows it leaves behind, and what it does not touch. */
module LibraryCalls {
  import opened Common
  import opened Results
  import W = WorkflowOverlay
  import opened GlobalLibrary

  // ---------- responses and what a call leaves alone ----------

  /** The row is stored under its id as the response shows it. */
  predicate IsStored(t: Tables, e: Entry) {
    match e
    case WorkflowEntry(id, row) => id in t.workflows && t.workflows[id] == row
    case VersionEntry(id, row) => id in t.versions && t.versions[id] == row
    case ProfileEntry(id, row) => id in t.profiles && t.profiles[id] == row
    case ProfileVersionEntry(id, row) => id in t.profileVersions && t.profileVersions[id] == row
  }

  ghost predicate AllStored(t: Tables, shown: Response) { forall e :: e in shown ==> IsStored(t, e) }

  /** A successful authoring call without a receipt changes the library, stores the receipt with the
      response, and touches nothing else. */
  ghost predicate Authored(s: State, n: State, requestId: string, r: Request, shown: Response) {
    && n.local == s.local && n.projects == s.projects && n.copies == s.copies
    && n.authoring == s.authoring[requestId := AuthoringReceipt(r, shown)]
    && shown != [] && AllStored(n.library, shown)
  }

  lemma AppendStored(t: Tables, family: Id, root: Workflow, content: W.Document, note: Option<string>, now: string,
                     id: Id, shown: Response, w: Written)
    requires AppendVersion(t, family, root, content, note, now, id, shown) == Ok(w) && AllStored(t, shown)
    ensures AllStored(w.tables, w.response) && w.response != []
  {
    hide NumberTaken;
  }

  lemma AppendProfileStored(t: Tables, profile: Id, root: Profile, version: Id, content: W.Document,
                            note: Option<string>, now: string, id: Id, shown: Response, w: Written)
    requires AppendProfileVersion(t, profile, root, version, content, note, now, id, shown) == Ok(w)
    requires AllStored(t, shown)
    ensures AllStored(w.tables, w.response) && w.response != []
  {
    hide NumberTaken;
  }

  lemma WriteStored(t: Tables, r: Request, now: string, uuid: Uuids, w: Written)
    requires Write(t, r, now, uuid) == Ok(w)
    ensures AllStored(w.tables, w.response) && w.response != []
  {
    hide W.ValidWorkflow, W.ValidProfile, AppendVersion, AppendProfileVersion, WorkflowNameTaken, ProfileNameTaken;
    match r
    case SaveWorkflow(_, _, _, _, _) =>
      if r.workflow.None? {
        var root := Workflow("", r.name.value, r.description, now, now, None);
        var u := InsertWorkflow(t, uuid(0), root).value;
        AppendStored(u, uuid(0), root, r.content, r.note, now, uuid(1), [WorkflowEntry(uuid(0), root)], w);
      } else {
        var root := t.workflows[r.workflow.value];
        AppendStored(t, r.workflow.value, root, r.content, r.note, now, uuid(0), [], w);
      }
    case SaveProfile(_, _, _, _, _, _, _, _, _) =>
      var root := ProfileRoot(t, r, now).value;
      var id := if r.profile.None? then uuid(0) else r.profile.value;
      var content := Envelope(id, root.name, W.Obj(r.mappings), W.List(r.imageInputs), W.List(r.parameters));
      if r.profile.None? {
        var u := InsertProfile(t, id, root).value;
        AppendProfileStored(u, id, root, r.version, content, r.note, now, uuid(1), [ProfileEntry(id, root)], w);
      } else {
        AppendProfileStored(t, id, root, r.version, content, r.note, now, uuid(0), [], w);
      }
    case UpdateMetadata(_, _, _) =>
    case SetArchived(_, _, _) =>
  }

  /** What the new library is, for any authoring request. */
  lemma AuthorStores(s: State, requestId: string, r: Request, now: string, uuid: Uuids)
    requires requestId !in s.authoring && Step(s, AuthorCall(requestId, r, now, uuid)).result.Ok?
    ensures var o := Step(s, AuthorCall(requestId, r, now, uuid));
      && Authored(s, o.state, requestId, r, o.result.value)
      && Write(s.library, r, now, uuid) == Ok(Written(o.state.library, o.result.value))
  {
    hide Write;
    WriteStored(s.library, r, now, uuid, Write(s.library, r, now, uuid).value);
  }

  // ---------- saving a workflow ----------

  lemma NextIsFree(places: map<Id, Place>, family: Id)
    ensures !NumberTaken(places, Place(family, NextNumber(places, family)))
  {
    NextNumberIsNext(places, family, 0);
  }

  /** A workflow of the library has this name. */
  ghost predicate WorkflowNamed(t: Tables, name: string) {
    exists id :: id in t.workflows && t.workflows[id].project == "" && t.workflows[id].name == name
  }

  predicate ProperSaveWorkflow(requestId: string, r: Request)
    requires r.SaveWorkflow?
  {
    && ProperText(requestId, 200) && OptionalText(r.workflow, 200) && OptionalText(r.note, 2000)
    && if r.workflow.None? then RequiredText(r.name, 200) && OptionalText(r.description, 2000)
       else r.name.None? && r.description.None?
  }

  /** Saving succeeds exactly for proper texts and a valid graph, into a new family with a free name or an
      existing active one; the ids drawn must be new. */
  lemma SaveWorkflowDecided(s: State, requestId: string, r: Request, now: string, uuid: Uuids)
    requires r.SaveWorkflow? && requestId !in s.authoring
    ensures var result, t := Step(s, AuthorCall(requestId, r, now, uuid)).result, s.library;
      var proper := ProperSaveWorkflow(requestId, r) && W.ValidWorkflow(r.content);
      var missing := r.workflow.Some? && r.workflow.value !in t.workflows;
      var closed :=
        r.workflow.Some? && r.workflow.value in t.workflows && t.workflows[r.workflow.value].archivedAt.Some?;
      var named := r.name.Some? && WorkflowNamed(t, r.name.value);
      var clash := if r.workflow.Some? then uuid(0) in t.versions
                   else uuid(0) in t.workflows || named || uuid(1) in t.versions;
      && (result == Err(Invalid) <==> !proper || closed)
      && (result == Err(NotFound) <==> proper && missing)
      && (result == Err(Conflict) <==> proper && !missing && !closed && clash)
      && (result.Ok? <==> proper && !missing && !closed && !clash)
  {
    hide W.ValidWorkflow, NumberTaken, ProperText;
    var t := s.library;
    if r.workflow.None? {
      var root := Workflow("", if r.name.Some? then r.name.value else "", r.description, now, now, None);
      var u := t.(workflows := t.workflows[uuid(0) := root]);
      assert u.versions == t.versions;
      NextIsFree(VersionPlaces(t.versions), uuid(0));
      if uuid(0) !in t.workflows { NameTakenMeaning(t, root.name, uuid(0)); }
    } else {
      NextIsFree(VersionPlaces(t.versions), r.workflow.value);
    }
    hide WorkflowNameTaken, WorkflowNamed;
  }

  lemma NameTakenMeaning(t: Tables, name: string, id: Id)
    requires id !in t.workflows
    ensures WorkflowNameTaken(t, "", name, id) <==> WorkflowNamed(t, name)
  {
  }

  /** The rows a save leaves behind: the family as it was or a new one, and its next version with the given
      content under the family's current name. */
  lemma SaveWorkflowStores(s: State, requestId: string, r: Request, now: string, uuid: Uuids)
    requires r.SaveWorkflow? && requestId !in s.authoring && Step(s, AuthorCall(requestId, r, now, uuid)).result.Ok?
    ensures var o := Step(s, AuthorCall(requestId, r, now, uuid));
      var t, u := s.library, o.state.library;
      var family, id := if r.workflow.None? then uuid(0) else r.workflow.value,
                        if r.workflow.None? then uuid(1) else uuid(0);
      && Authored(s, o.state, requestId, r, o.result.value)
      && family in u.workflows && id !in t.versions && id in u.versions
      && u == t.(workflows := u.workflows, versions := t.versions[id := u.versions[id]])
      && u.workflows == (if r.workflow.None?
                         then t.workflows[family := Workflow("", r.name.value, r.description, now, now, None)]
                         else t.workflows)
      && u.versions[id] == Version(family, u.workflows[family].project, u.versions[id].number, u.workflows[family].name,
                                   r.content, r.note, now, None)
      && IsNext(VersionPlaces(t.versions), family, u.versions[id].number)
      && VersionEntry(id, u.versions[id]) in o.result.value
      && (r.workflow.None? ==> WorkflowEntry(family, u.workflows[family]) in o.result.value)
  {
    AuthorStores(s, requestId, r, now, uuid);
    hide W.ValidWorkflow, IsNext, NumberTaken, WorkflowNameTaken, AllStored, ProperText;
    NextNumberIsNext(VersionPlaces(s.library.versions), if r.workflow.None? then uuid(0) else r.workflow.value, 0);
  }

  // ---------- saving a profile ----------

  /** A profile of this workflow has this name. */
  ghost predicate ProfileNamed(t: Tables, workflow: Id, name: string) {
    exists id :: id in t.profiles && t.profiles[id].workflow == workflow && t.profiles[id].name == name
  }

  predicate ProperSaveProfile(requestId: string, r: Request)
    requires r.SaveProfile?
  {
    && ProperText(requestId, 200) && ProperText(r.version, 200) && OptionalText(r.note, 2000)
    && (if r.profile.Some? then r.workflow.None? && r.name.None? && r.description.None? && |r.profile.value| <= 200
           && (r.profile.value != "" ==> W.Nonblank(r.profile.value))
        else r.workflow.Some? && ProperText(r.workflow.value, 200)
             && RequiredText(r.name, 200) && OptionalText(r.description, 2000))
  }

  /** What is missing or closed on the way from a workflow to its target version; None if nothing is. */
  ghost predicate TargetMissing(t: Tables, workflow: Id, version: Id) {
    || workflow !in t.workflows
    || (t.workflows[workflow].archivedAt.None? && version !in t.versions)
  }

  ghost predicate TargetOpen(t: Tables, workflow: Id, version: Id) {
    && workflow in t.workflows && t.workflows[workflow].archivedAt.None?
    && version in t.versions && t.versions[version].workflow == workflow && t.versions[version].archivedAt.None?
  }

  /** The stored sections of the profile that a save makes. */
  function Sections(r: Request, id: Id, name: string): W.Document
    requires r.SaveProfile?
  {
    map["id" := W.Str(id), "name" := W.Str(name), "mappings" := W.Obj(r.mappings),
        "image_inputs" := W.List(r.imageInputs), "parameters" := W.List(r.parameters)]
  }

  /** Into a new profile: exactly for proper texts, an active target of the named workflow, sections that
      are valid for it, and a name that is free in the workflow. */
  lemma SaveNewProfileDecided(s: State, requestId: string, r: Request, now: string, uuid: Uuids)
    requires r.SaveProfile? && r.profile.None? && requestId !in s.authoring
    ensures var result, t := Step(s, AuthorCall(requestId, r, now, uuid)).result, s.library;
      var proper := ProperSaveProfile(requestId, r);
      proper ==>
        var missing := TargetMissing(t, r.workflow.value, r.version);
        var open := TargetOpen(t, r.workflow.value, r.version)
                    && W.ValidProfile(t.versions[r.version].content, Sections(r, uuid(0), r.name.value));
        var clash := uuid(0) in t.profiles || ProfileNamed(t, r.workflow.value, r.name.value)
                     || uuid(1) in t.profileVersions;
        && (result == Err(NotFound) <==> missing)
        && (result == Err(Invalid) <==> !missing && !open)
        && (result == Err(Conflict) <==> open && clash)
        && (result.Ok? <==> open && !clash)
    ensures !ProperSaveProfile(requestId, r) ==> Step(s, AuthorCall(requestId, r, now, uuid)).result == Err(Invalid)
  {
    hide W.ValidProfile, NumberTaken, ProperText;
    NextIsFree(ProfileVersionPlaces(s.library.profileVersions), uuid(0));
    if ProperSaveProfile(requestId, r) && uuid(0) !in s.library.profiles {
      ProfileTakenMeaning(s.library, r.workflow.value, r.name.value, uuid(0));
    }
    hide ProfileNameTaken, ProfileNamed;
  }

  lemma ProfileTakenMeaning(t: Tables, workflow: Id, name: string, id: Id)
    requires id !in t.profiles
    ensures ProfileNameTaken(t, workflow, name, id) <==> ProfileNamed(t, workflow, name)
  {
  }

  /** Into a stored profile: it must be there and active, and its workflow and target must be open. */
  lemma SaveNextProfileDecided(s: State, requestId: string, r: Request, now: string, uuid: Uuids)
    requires r.SaveProfile? && r.profile.Some? && requestId !in s.authoring
    ensures var result, t := Step(s, AuthorCall(requestId, r, now, uuid)).result, s.library;
      var proper := ProperSaveProfile(requestId, r);
      proper && r.profile.value in t.profiles ==>
        var root := t.profiles[r.profile.value];
        var missing := root.archivedAt.None? && TargetMissing(t, root.workflow, r.version);
        var open := root.archivedAt.None? && TargetOpen(t, root.workflow, r.version)
                    && W.ValidProfile(t.versions[r.version].content, Sections(r, r.profile.value, root.name));
        && (result == Err(NotFound) <==> missing)
        && (result == Err(Invalid) <==> !missing && !open)
        && (result == Err(Conflict) <==> open && uuid(0) in t.profileVersions)
        && (result.Ok? <==> open && uuid(0) !in t.profileVersions)
    ensures var result := Step(s, AuthorCall(requestId, r, now, uuid)).result;
      && (!ProperSaveProfile(requestId, r) ==> result == Err(Invalid))
      && (ProperSaveProfile(requestId, r) && r.profile.value !in s.library.profiles ==> result == Err(NotFound))
  {
    hide W.ValidProfile, NumberTaken;
    NextIsFree(ProfileVersionPlaces(s.library.profileVersions), r.profile.value);
  }

  /** The rows a save leaves behind: the profile as it was or a new one, and its next version, for the target,
      with exactly the given sections. */
  lemma SaveProfileStores(s: State, requestId: string, r: Request, now: string, uuid: Uuids)
    requires r.SaveProfile? && requestId !in s.authoring && Step(s, AuthorCall(requestId, r, now, uuid)).result.Ok?
    ensures var o := Step(s, AuthorCall(requestId, r, now, uuid));
      var t, u := s.library, o.state.library;
      var profile, id := if r.profile.None? then uuid(0) else r.profile.value,
                         if r.profile.None? then uuid(1) else uuid(0);
      && Authored(s, o.state, requestId, r, o.result.value)
      && profile in u.profiles && id !in t.profileVersions && id in u.profileVersions
      && u == t.(profiles := u.profiles, profileVersions := t.profileVersions[id := u.profileVersions[id]])
      && (r.profile.None? ==> r.workflow.Some? && r.name.Some?)
      && u.profiles == (if r.profile.None?
                        then t.profiles[profile := Profile(r.workflow.value, "", r.name.value, r.description, now, now,
                                                           None)]
                        else t.profiles)
      && u.profileVersions[id] ==
           ProfileVersion(profile, u.profiles[profile].workflow, u.profiles[profile].project, r.version,
                          u.profileVersions[id].number, u.profiles[profile].name,
                          Sections(r, profile, u.profiles[profile].name), r.note, now, None)
      && IsNext(ProfileVersionPlaces(t.profileVersions), profile, u.profileVersions[id].number)
      && ProfileVersionEntry(id, u.profileVersions[id]) in o.result.value
      && (r.profile.None? ==> ProfileEntry(profile, u.profiles[profile]) in o.result.value)
  {
    AuthorStores(s, requestId, r, now, uuid);
    hide W.ValidProfile, IsNext, NumberTaken, ProfileNameTaken, AllStored, ProperText;
    NextNumberIsNext(ProfileVersionPlaces(s.library.profileVersions),
                     if r.profile.None? then uuid(0) else r.profile.value, 0);
  }

  // ---------- names and descriptions ----------

  predicate ProperUpdate(requestId: string, r: Request)
    requires r.UpdateMetadata?
  {
    && ProperText(requestId, 200) && ProperText(r.row, 200)
    && (r.changes.name.Some? || r.changes.description.Some?)
    && (r.changes.name.Some? ==> ProperText(r.changes.name.value, 200))
    && (r.changes.description.Some? && r.changes.description.value.Some? ==>
          ProperText(r.changes.description.value.value, 2000))
  }

  /** The name that the row has afterwards. */
  function NameAfter(c: Changes, name: string): string { if c.name.Some? then c.name.value else name }

  function DescriptionAfter(c: Changes, description: Option<string>): Option<string> {
    if c.description.Some? then c.description.value else description
  }

  /** Another workflow of the same project has the name. */
  ghost predicate WorkflowTaken(t: Tables, id: Id, name: string)
    requires id in t.workflows
  {
    exists other :: other in t.workflows && other != id && t.workflows[other].project == t.workflows[id].project
                    && t.workflows[other].name == name
  }

  /** Another profile of the same workflow has the name. */
  ghost predicate ProfileTaken(t: Tables, id: Id, name: string)
    requires id in t.profiles
  {
    exists other :: other in t.profiles && other != id && t.profiles[other].workflow == t.profiles[id].workflow
                    && t.profiles[other].name == name
  }

  /** A workflow's name and description: when they are changed, and to what. */
  lemma UpdateWorkflowDecided(s: State, requestId: string, r: Request, now: string, uuid: Uuids)
    requires r.UpdateMetadata? && !r.ofProfile && requestId !in s.authoring
    ensures var o, t := Step(s, AuthorCall(requestId, r, now, uuid)), s.library;
      && (o.result == Err(Invalid) <==> !ProperUpdate(requestId, r))
      && (o.result == Err(NotFound) <==> ProperUpdate(requestId, r) && r.row !in t.workflows)
      && (r.row in t.workflows && ProperUpdate(requestId, r) ==>
            var a := t.workflows[r.row];
            var taken := WorkflowTaken(t, r.row, NameAfter(r.changes, a.name));
            var b := Workflow(a.project, NameAfter(r.changes, a.name), DescriptionAfter(r.changes, a.description),
                              a.createdAt, now, a.archivedAt);
            && (taken ==> o.result == Err(Conflict))
            && (!taken ==> o.result == Ok([WorkflowEntry(r.row, b)])
                           && o.state.library == t.(workflows := t.workflows[r.row := b])
                           && Authored(s, o.state, requestId, r, o.result.value)))
  {
    if Step(s, AuthorCall(requestId, r, now, uuid)).result.Ok? { AuthorStores(s, requestId, r, now, uuid); }
    hide W.Nonblank;
  }

  lemma UpdateProfileDecided(s: State, requestId: string, r: Request, now: string, uuid: Uuids)
    requires r.UpdateMetadata? && r.ofProfile && requestId !in s.authoring
    ensures var o, t := Step(s, AuthorCall(requestId, r, now, uuid)), s.library;
      && (o.result == Err(Invalid) <==> !ProperUpdate(requestId, r))
      && (o.result == Err(NotFound) <==> ProperUpdate(requestId, r) && r.row !in t.profiles)
      && (r.row in t.profiles && ProperUpdate(requestId, r) ==>
            var a := t.profiles[r.row];
            var taken := ProfileTaken(t, r.row, NameAfter(r.changes, a.name));
            var b := Profile(a.workflow, a.project, NameAfter(r.changes, a.name),
                             DescriptionAfter(r.changes, a.description), a.createdAt, now, a.archivedAt);
            && (taken ==> o.result == Err(Conflict))
            && (!taken ==> o.result == Ok([ProfileEntry(r.row, b)])
                           && o.state.library == t.(profiles := t.profiles[r.row := b])
                           && Authored(s, o.state, requestId, r, o.result.value)))
  {
    if Step(s, AuthorCall(requestId, r, now, uuid)).result.Ok? { AuthorStores(s, requestId, r, now, uuid); }
    hide W.Nonblank;
  }

  // ---------- archiving ----------

  predicate Exists(t: Tables, kind: Kind, id: Id) {
    match kind
    case WorkflowKind => id in t.workflows
    case ProfileKind => id in t.profiles
    case VersionKind => id in t.versions
    case ProfileVersionKind => id in t.profileVersions
  }

  predicate IsArchived(t: Tables, kind: Kind, id: Id) {
    match kind
    case WorkflowKind => id in t.workflows && t.workflows[id].archivedAt.Some?
    case ProfileKind => id in t.profiles && t.profiles[id].archivedAt.Some?
    case VersionKind => id in t.versions && t.versions[id].archivedAt.Some?
    case ProfileVersionKind => id in t.profileVersions && t.profileVersions[id].archivedAt.Some?
  }

  /** u is t but for the archive mark, and a family's update time, of this one row. */
  ghost predicate OnlyMarkChanged(t: Tables, u: Tables, kind: Kind, id: Id, now: string, mark: Option<string>)
    requires Exists(t, kind, id)
  {
    match kind
    case WorkflowKind =>
      var a := t.workflows[id];
      u == t.(workflows := t.workflows[id := Workflow(a.project, a.name, a.description, a.createdAt, now, mark)])
    case ProfileKind =>
      var a := t.profiles[id];
      u == t.(profiles := t.profiles[id :=
               Profile(a.workflow, a.project, a.name, a.description, a.createdAt, now, mark)])
    case VersionKind =>
      var a := t.versions[id];
      u == t.(versions := t.versions[id :=
               Version(a.workflow, a.project, a.number, a.nameSnapshot, a.content, a.note, a.createdAt, mark)])
    case ProfileVersionKind =>
      var a := t.profileVersions[id];
      u == t.(profileVersions := t.profileVersions[id :=
               ProfileVersion(a.profile, a.workflow, a.project, a.version, a.number, a.nameSnapshot, a.content, a.note,
                              a.createdAt, mark)])
  }

  /** Archiving or unarchiving: exactly the rows that exist, whatever mark they had; afterwards the row is
      archived as of now, or not at all. */
  lemma SetArchivedDecided(s: State, requestId: string, r: Request, now: string, uuid: Uuids)
    requires r.SetArchived? && requestId !in s.authoring
    ensures var o, t := Step(s, AuthorCall(requestId, r, now, uuid)), s.library;
      var proper := ProperText(requestId, 200) && ProperText(r.row, 200);
      && (o.result == Err(Invalid) <==> !proper)
      && (o.result == Err(NotFound) <==> proper && !Exists(t, r.kind, r.row))
      && (o.result.Ok? <==> proper && Exists(t, r.kind, r.row))
      && (o.result.Ok? ==>
            (IsArchived(o.state.library, r.kind, r.row) == r.archived
             && OnlyMarkChanged(t, o.state.library, r.kind, r.row, now, if r.archived then Some(now) else None)
             && Authored(s, o.state, requestId, r, o.result.value)))
  {
    if Step(s, AuthorCall(requestId, r, now, uuid)).result.Ok? { AuthorStores(s, requestId, r, now, uuid); }
    hide W.Nonblank, AllStored;
  }

  // ---------- receipts ----------

  /** With a receipt under its id, a request changes nothing: the same one is answered again, a different
      one is a conflict, an improper one is refused. */
  lemma ReceiptAnswers(s: State, requestId: string, r: Request, now: string, uuid: Uuids)
    requires requestId in s.authoring
    ensures var o := Step(s, AuthorCall(requestId, r, now, uuid));
      && o.state == s
      && (o.result != Err(Invalid) ==>
            o.result ==
              if s.authoring[requestId].request == r then Ok(s.authoring[requestId].response) else Err(Conflict))
      && (o.result == Err(Invalid) <==> !ProperText(requestId, 200) || !ProperTarget(r))
  {
  }

  /** The ids that a request names are texts of at most 200 characters. */
  predicate ProperTarget(r: Request) {
    match r
    case SaveWorkflow(workflow, _, _, _, _) => workflow.Some? ==> ProperText(workflow.value, 200)
    case SaveProfile(workflow, profile, _, _, _, _, _, _, _) =>
      if profile.Some? && profile.value != "" then ProperText(profile.value, 200)
      else workflow.Some? ==> ProperText(workflow.value, 200)
    case UpdateMetadata(row, _, _) => ProperText(row, 200)
    case SetArchived(row, _, _) => ProperText(row, 200)
  }
}
