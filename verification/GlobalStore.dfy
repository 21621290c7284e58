/** The store over the library: transactions that write step by step and then commit or roll back. */
module GlobalStore {
  import opened Common
  import opened Results
  import opened GlobalLibrary
  import W = WorkflowOverlay

  /** coalesce(max(version_number), 0) + 1 */
  method FindNext(places: map<Id, Place>, family: Id) returns (n: nat)
    ensures n == NextNumber(places, family)
  {
    n := 1;
    var pending := places.Keys;
    while pending != {}
      invariant pending <= places.Keys && n >= 1
      invariant forall id :: id in places && id !in pending && places[id].family == family ==> places[id].number < n
      invariant n > 1 ==> HasNumber(places, family, n - 1)
    {
      var id :| id in pending;
      if places[id].family == family && places[id].number >= n {
        n := places[id].number + 1;
      }
      pending := pending - {id};
    }
    NextNumberIsNext(places, family, n);
  }

  /** Every selection is made at most once. */
  method AllDistinct(chosen: seq<Selection>) returns (distinct: bool)
    ensures distinct == DistinctVersions(chosen)
  {
    var seen: set<Id> := {};
    for i := 0 to |chosen|
      invariant seen == set j | 0 <= j < i :: chosen[j].version
      invariant DistinctVersions(chosen[..i])
    {
      if chosen[i].version in seen {
        var j :| 0 <= j < i && chosen[j].version == chosen[i].version;
        return false;
      }
      seen := seen + {chosen[i].version};
    }
    assert chosen[..|chosen|] == chosen;
    return true;
  }

  class GlobalWorkflowStore {
    var library: Tables
    var local: Tables
    var projects: map<Id, bool>
    var authoring: map<string, AuthoringReceipt>
    var copies: map<string, CopyReceipt>

    constructor ()
      ensures
        Database() == State(Tables(map[], map[], map[], map[]), Tables(map[], map[], map[], map[]), map[], map[], map[])
    {
      library, local := Tables(map[], map[], map[], map[]), Tables(map[], map[], map[], map[]);
      projects, authoring, copies := map[], map[], map[];
    }

    ghost function Database(): State
      reads this
    {
      State(library, local, projects, authoring, copies)
    }

    /** _append for a workflow family, inside a transaction on the library. */
    method Append(family: Id, root: Workflow, content: W.Document, note: Option<string>, now: string, id: Id,
                  shown: Response)
      returns (r: Result<Response>)
      modifies `library
      ensures match AppendVersion(old(library), family, root, content, note, now, id, shown)
              case Ok(w) => library == w.tables && r == Ok(w.response)
              case Err(e) => r == Err(e)
    {
      var number := FindNext(VersionPlaces(library.versions), family);
      var row := Version(family, root.project, number, root.name, content, note, now, None);
      var inserted := InsertVersion(library, id, row);
      if inserted.Err? {
        return Err(inserted.error);
      }
      library := inserted.value;
      return Ok(shown + [VersionEntry(id, row)]);
    }

    method SaveWorkflow(r: Request, now: string, uuid: Uuids) returns (result: Result<Response>)
      requires r.SaveWorkflow?
      modifies `library
      ensures match WriteWorkflow(old(library), r, now, uuid)
              case Ok(w) => library == w.tables && result == Ok(w.response)
              case Err(e) => result == Err(e)
    {
      if !OptionalText(r.note, 2000) {
        return Err(Invalid);
      }
      var valid := W.ValidateWorkflow(r.content);
      if valid.PreparationError? {
        return Err(Invalid);
      }
      if r.workflow.None? {
        if !RequiredText(r.name, 200) || !OptionalText(r.description, 2000) {
          return Err(Invalid);
        }
        var root := Workflow("", r.name.value, r.description, now, now, None);
        var inserted := InsertWorkflow(library, uuid(0), root);
        if inserted.Err? {
          return Err(inserted.error);
        }
        library := inserted.value;
        result := Append(uuid(0), root, r.content, r.note, now, uuid(1), [WorkflowEntry(uuid(0), root)]);
      } else {
        if r.name.Some? || r.description.Some? {
          return Err(Invalid);
        }
        if r.workflow.value !in library.workflows {
          return Err(NotFound);
        }
        var root := library.workflows[r.workflow.value];
        if root.archivedAt.Some? {
          return Err(Invalid);
        }
        result := Append(r.workflow.value, root, r.content, r.note, now, uuid(0), []);
      }
    }

    /** _append for a profile. */
    method AppendProfile(profile: Id, root: Profile, version: Id, content: W.Document, note: Option<string>,
                         now: string, id: Id, shown: Response) returns (r: Result<Response>)
      modifies `library
      ensures match AppendProfileVersion(old(library), profile, root, version, content, note, now, id, shown)
              case Ok(w) => library == w.tables && r == Ok(w.response)
              case Err(e) => r == Err(e)
    {
      var number := FindNext(ProfileVersionPlaces(library.profileVersions), profile);
      var row :=
        ProfileVersion(profile, root.workflow, root.project, version, number, root.name, content, note, now, None);
      var inserted := InsertProfileVersion(library, id, row);
      if inserted.Err? {
        return Err(inserted.error);
      }
      library := inserted.value;
      return Ok(shown + [ProfileVersionEntry(id, row)]);
    }

    method FindRoot(r: Request, now: string) returns (root: Result<Profile>)
      requires r.SaveProfile?
      ensures root == ProfileRoot(library, r, now)
    {
      if !ProperText(r.version, 200) || !OptionalText(r.note, 2000) || r.workflow.None? == r.profile.None? {
        return Err(Invalid);
      }
      if r.profile.None? {
        if !RequiredText(r.name, 200) || !OptionalText(r.description, 2000) {
          return Err(Invalid);
        }
        return Ok(Profile(r.workflow.value, "", r.name.value, r.description, now, now, None));
      }
      if r.name.Some? || r.description.Some? {
        return Err(Invalid);
      }
      if r.profile.value !in library.profiles {
        return Err(NotFound);
      }
      return Ok(library.profiles[r.profile.value]);
    }

    method CheckTarget(root: Profile, version: Id) returns (problem: Option<Error>)
      ensures problem == TargetProblem(library, root, version)
    {
      if root.archivedAt.Some? {
        return Some(Invalid);
      }
      if root.workflow !in library.workflows {
        return Some(NotFound);
      }
      if library.workflows[root.workflow].archivedAt.Some? {
        return Some(Invalid);
      }
      if version !in library.versions {
        return Some(NotFound);
      }
      var target := library.versions[version];
      if target.workflow != root.workflow || target.archivedAt.Some? {
        return Some(Invalid);
      }
      return None;
    }

    method SaveProfile(r: Request, now: string, uuid: Uuids) returns (result: Result<Response>)
      requires r.SaveProfile?
      modifies `library
      ensures match WriteProfile(old(library), r, now, uuid)
              case Ok(w) => library == w.tables && result == Ok(w.response)
              case Err(e) => result == Err(e)
    {
      hide W.ValidProfile, AppendProfileVersion;
      var found := FindRoot(r, now);
      if found.Err? {
        return Err(found.error);
      }
      var root := found.value;
      var problem := CheckTarget(root, r.version);
      if problem.Some? {
        return Err(problem.value);
      }
      var id := if r.profile.None? then uuid(0) else r.profile.value;
      var content := Envelope(id, root.name, W.Obj(r.mappings), W.List(r.imageInputs), W.List(r.parameters));
      var valid := W.ValidateProfile(library.versions[r.version].content, content);
      if valid.PreparationError? {
        return Err(Invalid);
      }
      if r.profile.None? {
        var inserted := InsertProfile(library, id, root);
        if inserted.Err? {
          return Err(inserted.error);
        }
        library := inserted.value;
        result := AppendProfile(id, root, r.version, content, r.note, now, uuid(1), [ProfileEntry(id, root)]);
      } else {
        result := AppendProfile(id, root, r.version, content, r.note, now, uuid(0), []);
      }
    }

    /** The write of update_metadata: the stored row, overwritten with what was supplied; the name test
        is the table's uniqueness constraint. */
    method UpdateMetadata(r: Request, now: string) returns (result: Result<Response>)
      requires r.UpdateMetadata?
      modifies `library
      ensures match Renamed(old(library), r, now)
              case Ok(w) => library == w.tables && result == Ok(w.response)
              case Err(e) => library == old(library) && result == Err(e)
    {
      var name, description := r.changes.name, r.changes.description;
      if name.None? && description.None? {
        return Err(Invalid);
      }
      if !OptionalText(name, 200) {
        return Err(Invalid);
      }
      if description.Some? && !OptionalText(description.value, 2000) {
        return Err(Invalid);
      }
      if r.ofProfile {
        if r.row !in library.profiles {
          return Err(NotFound);
        }
        var row := library.profiles[r.row];
        if name.Some? {
          row := row.(name := name.value);
        }
        if description.Some? {
          row := row.(description := description.value);
        }
        row := row.(updatedAt := now);
        if ProfileNameTaken(library, row.workflow, row.name, r.row) {
          return Err(Conflict);
        }
        library := library.(profiles := library.profiles[r.row := row]);
        return Ok([ProfileEntry(r.row, row)]);
      }
      if r.row !in library.workflows {
        return Err(NotFound);
      }
      var row := library.workflows[r.row];
      if name.Some? {
        row := row.(name := name.value);
      }
      if description.Some? {
        row := row.(description := description.value);
      }
      row := row.(updatedAt := now);
      if WorkflowNameTaken(library, row.project, row.name, r.row) {
        return Err(Conflict);
      }
      library := library.(workflows := library.workflows[r.row := row]);
      return Ok([WorkflowEntry(r.row, row)]);
    }

    /** The write of set_archived: the mark of one row of one of the four tables, and for a family its
        update time too. */
    method SetArchived(r: Request, now: string) returns (result: Result<Response>)
      requires r.SetArchived?
      modifies `library
      ensures match Archived(old(library), r, now)
              case Ok(w) => library == w.tables && result == Ok(w.response)
              case Err(e) => library == old(library) && result == Err(e)
    {
      var mark: Option<string> := None;
      if r.archived {
        mark := Some(now);
      }
      match r.kind {
        case WorkflowKind =>
          if r.row !in library.workflows {
            return Err(NotFound);
          }
          var row := library.workflows[r.row].(archivedAt := mark, updatedAt := now);
          library := library.(workflows := library.workflows[r.row := row]);
          return Ok([WorkflowEntry(r.row, row)]);
        case ProfileKind =>
          if r.row !in library.profiles {
            return Err(NotFound);
          }
          var row := library.profiles[r.row].(archivedAt := mark, updatedAt := now);
          library := library.(profiles := library.profiles[r.row := row]);
          return Ok([ProfileEntry(r.row, row)]);
        case VersionKind =>
          if r.row !in library.versions {
            return Err(NotFound);
          }
          var row := library.versions[r.row].(archivedAt := mark);
          library := library.(versions := library.versions[r.row := row]);
          return Ok([VersionEntry(r.row, row)]);
        case ProfileVersionKind =>
          if r.row !in library.profileVersions {
            return Err(NotFound);
          }
          var row := library.profileVersions[r.row].(archivedAt := mark);
          library := library.(profileVersions := library.profileVersions[r.row := row]);
          return Ok([ProfileVersionEntry(r.row, row)]);
      }
    }

    /** _author: replay the receipt, or write and commit with a new receipt, or roll back. */
    method Author(requestId: string, r: Request, now: string, uuid: Uuids) returns (result: Result<Response>)
      modifies `library, `authoring
      ensures Outcome(Database(), result) == GlobalLibrary.Author(old(Database()), requestId, r, now, uuid)
    {
      hide WriteWorkflow, WriteProfile, Renamed, Archived;
      if !ProperText(requestId, 200) || !OptionalText(TargetOf(r), 200) {
        return Err(Invalid);
      }
      if requestId in authoring {
        if authoring[requestId].request != r {
          return Err(Conflict);
        }
        return Ok(authoring[requestId].response);
      }
      var before := library;
      match r {
        case SaveWorkflow(_, _, _, _, _) => result := SaveWorkflow(r, now, uuid);
        case SaveProfile(_, _, _, _, _, _, _, _, _) => result := SaveProfile(r, now, uuid);
        case UpdateMetadata(_, _, _) => result := UpdateMetadata(r, now);
        case SetArchived(_, _, _) => result := SetArchived(r, now);
      }
      if result.Err? {
        library := before;
        return;
      }
      authoring := authoring[requestId := AuthoringReceipt(r, result.value)];
    }

    /** The checks on each chosen profile, in order, up to the first problem. */
    method CheckSelections(src: Tables, r: CopyRequest, source: Version) returns (problem: Option<Error>)
      requires r.CopySetup?
      ensures problem == FirstProblem(src, r, source, r.selections)
    {
      hide W.ValidProfile;
      var chosen := r.selections;
      for i := 0 to |chosen|
        invariant FirstProblem(src, r, source, chosen) == FirstProblem(src, r, source, chosen[i..])
      {
        assert chosen[i..][1..] == chosen[i + 1..];
        problem := CheckSelection(src, r, source, chosen[i]);
        if problem.Some? {
          return;
        }
      }
      return None;
    }

    method CheckSelection(src: Tables, r: CopyRequest, source: Version, chosen: Selection)
      returns (problem: Option<Error>)
      requires r.CopySetup?
      ensures problem == SelectionProblem(src, r, source, chosen)
    {
      hide W.ValidProfile;
      if chosen.version !in src.profileVersions {
        return Some(NotFound);
      }
      var p := src.profileVersions[chosen.version];
      if p.version != r.version || p.workflow != source.workflow || (r.direction.Import? && p.project != r.project)
         || !Enveloped(p.content, p.profile, p.nameSnapshot) {
        return Some(Invalid);
      }
      var valid := W.ValidateProfile(source.content, p.content);
      return if valid.PreparationError? then Some(Invalid) else None;
    }

    /** The inserts for one chosen profile. */
    method InsertCopied(t: Tables, project: Id, family: Id, version: Id, workflow: W.Document, chosen: Named,
                        now: string, id: Id, versionId: Id) returns (r: Result<Written>)
      ensures r == CopyProfile(t, project, family, version, workflow, chosen, now, id, versionId)
    {
      hide W.ValidProfile;
      if !ProperText(chosen.name, 200) {
        return Err(Invalid);
      }
      var content := Envelope(id, chosen.name, Field(chosen.content, "mappings"), Field(chosen.content, "image_inputs"),
                              Field(chosen.content, "parameters"));
      var valid := W.ValidateProfile(workflow, content);
      if valid.PreparationError? {
        return Err(Invalid);
      }
      var root := Profile(family, project, chosen.name, None, now, now, None);
      var inserted := InsertProfile(t, id, root);
      if inserted.Err? {
        return Err(inserted.error);
      }
      var row := ProfileVersion(id, family, project, version, 1, chosen.name, content, None, now, None);
      inserted := InsertProfileVersion(inserted.value, versionId, row);
      if inserted.Err? {
        return Err(inserted.error);
      }
      return Ok(Written(inserted.value, [ProfileEntry(id, root), ProfileVersionEntry(versionId, row)]));
    }

    /** _write_copy: root, version, then the loop over the profiles. */
    method InsertCopy(t: Tables, project: Id, workflow: W.Document, name: string, description: Option<string>,
                      chosen: seq<Named>, now: string, uuid: Uuids) returns (r: Result<Written>)
      ensures r == WriteCopy(t, project, workflow, name, description, chosen, now, uuid)
    {
      hide W.ValidWorkflow, CopyProfile, NumberTaken, WorkflowNameTaken;
      if !ProperText(name, 200) || !OptionalText(description, 2000) {
        return Err(Invalid);
      }
      var root := Workflow(project, name, description, now, now, None);
      var inserted := InsertWorkflow(t, uuid(0), root);
      if inserted.Err? {
        return Err(inserted.error);
      }
      var valid := W.ValidateWorkflow(workflow);
      if valid.PreparationError? {
        return Err(Invalid);
      }
      var row := Version(uuid(0), project, 1, name, workflow, None, now, None);
      inserted := InsertVersion(inserted.value, uuid(1), row);
      if inserted.Err? {
        return Err(inserted.error);
      }
      r := InsertProfiles(inserted.value, project, uuid(0), uuid(1), workflow, chosen, now, uuid, 2,
                          [WorkflowEntry(uuid(0), root), VersionEntry(uuid(1), row)]);
    }

    method InsertProfiles(t: Tables, project: Id, family: Id, version: Id, workflow: W.Document, chosen: seq<Named>,
                          now: string, uuid: Uuids, at: nat, shown: Response) returns (r: Result<Written>)
      ensures r == CopyProfiles(t, project, family, version, workflow, chosen, now, uuid, at, shown)
    {
      hide CopyProfile;
      var written := Written(t, shown);
      for i := 0 to |chosen|
        invariant CopyProfiles(t, project, family, version, workflow, chosen, now, uuid, at, shown)
          == CopyProfiles(written.tables, project, family, version, workflow, chosen[i..], now, uuid, at + 2 * i,
                          written.response)
      {
        assert chosen[i..][1..] == chosen[i + 1..];
        var next := InsertCopied(written.tables, project, family, version, workflow, chosen[i], now, uuid(at + 2 * i),
                                 uuid(at + 2 * i + 1));
        if next.Err? {
          return Err(next.error);
        }
        written := Written(next.value.tables, written.response + next.value.response);
      }
      return Ok(written);
    }

    /** Commit a written copy with its receipt, or roll back. */
    method Commit(requestId: string, r: CopyRequest, written: Result<Written>) returns (result: Result<Response>)
      modifies `library, `local, `copies
      ensures Outcome(Database(), result) == Copied(old(Database()), requestId, r, written)
    {
      if written.Err? {
        return Err(written.error);
      }
      var w := written.value;
      if r.CopySetup? && r.direction.Use? {
        local := w.tables;
      } else {
        library := w.tables;
      }
      copies := copies[requestId := CopyReceipt(r, w.response)];
      return Ok(w.response);
    }

    /** The part of copy after the receipt lookup, up to the commit. */
    method PrepareCopy(r: CopyRequest, now: string, uuid: Uuids) returns (written: Result<Written>)
      requires r.CopySetup?
      ensures written == CopyInto(Database(), r, now, uuid)
    {
      hide FirstProblem, WriteCopy;
      if r.project !in projects || (r.direction.Use? && projects[r.project]) {
        return Err(Invalid);
      }
      var src := if r.direction.Import? then local else library;
      if r.version !in src.versions {
        return Err(NotFound);
      }
      var source := src.versions[r.version];
      if r.direction.Import? && source.project != r.project {
        return Err(Invalid);
      }
      var problem := CheckSelections(src, r, source);
      if problem.Some? {
        return Err(problem.value);
      }
      written := InsertCopy(if r.direction.Import? then library else local,
                            if r.direction.Import? then "" else r.project, source.content,
                            if r.name.Some? then r.name.value else source.nameSnapshot, r.description,
                            NamedAs(src, r.selections), now, uuid);
    }

    method Copy(requestId: string, r: CopyRequest, now: string, uuid: Uuids) returns (result: Result<Response>)
      requires r.CopySetup?
      modifies `library, `local, `copies
      ensures Outcome(Database(), result) == GlobalLibrary.Copy(old(Database()), requestId, r, now, uuid)
    {
      hide CopyInto, Copied;
      if !W.Nonblank(requestId) || !W.Nonblank(r.project) || |r.selections| > 50 {
        return Err(Invalid);
      }
      var distinct := AllDistinct(r.selections);
      if !distinct {
        return Err(Invalid);
      }
      if requestId in copies {
        if copies[requestId].request != r {
          return Err(Conflict);
        }
        return Ok(copies[requestId].response);
      }
      var written := PrepareCopy(r, now, uuid);
      result := Commit(requestId, r, written);
    }

    /** import_historical_setup */
    method ImportHistorical(requestId: string, r: CopyRequest, snapshot: Snapshot, now: string, uuid: Uuids)
      returns (result: Result<Response>)
      requires r.HistoricalSetup?
      modifies `library, `local, `copies
      ensures
        Outcome(Database(), result) ==
          GlobalLibrary.ImportHistorical(old(Database()), requestId, r, snapshot, now, uuid)
    {
      hide WriteCopy, Copied, W.ValidProfile;
      if !ProperHistorical(requestId, r) {
        return Err(Invalid);
      }
      if requestId in copies {
        if copies[requestId].request != r {
          return Err(Conflict);
        }
        return Ok(copies[requestId].response);
      }
      if (r.workflowDigest.Some? && r.workflowDigest.value != snapshot.workflowDigest)
         || (r.profileDigest.Some? && r.profileDigest.value != snapshot.profileDigest) {
        return Err(Conflict);
      }
      var valid := W.ValidateProfile(snapshot.workflow, snapshot.profile);
      if valid.PreparationError? {
        return Err(Invalid);
      }
      var written := InsertCopy(library, "", snapshot.workflow, r.workflowName, r.description,
                                [Named(r.profileName, snapshot.profile)], now, uuid);
      result := Commit(requestId, r, written);
    }
  }
}
