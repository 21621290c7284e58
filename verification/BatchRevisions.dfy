/** Prompts, their numbered versions, and the Saved Batches that select them: optimistic revisions and
    references that always resolve. */
module BatchRevisions {
  import G = GlobalLibrary
  import W = WorkflowOverlay

  type Id = string

  datatype Prompt = Prompt(project: Id, name: string)

  datatype PromptVersion = PromptVersion(prompt: Id, number: nat, nameSnapshot: string, text: string)

  /** A selection as a definition carries it: the version and a copy of its content. */
  datatype Selection = Selection(version: Id, name: string, text: string)

  /** The part of a definition that concerns prompts; acceptable says whether the rest of it, and of the
      call it comes with, passes the checks made before the transaction. */
  datatype Definition = Definition(name: string, selections: seq<Selection>, acceptable: bool)

  /** A stored batch; of a selection only the version id is stored. */
  datatype Batch = Batch(project: Id, filesystemKey: string, name: string, revision: nat, archived: bool,
                         selected: seq<Id>)

  datatype State = State(projects: set<Id>, prompts: map<Id, Prompt>, versions: map<Id, PromptVersion>,
                         batches: map<Id, Batch>)

  datatype Error = Invalid | NotFound | Conflict | Referenced | Integrity

  datatype Result = Ok | Err(error: Error)

  datatype Outcome = Outcome(state: State, result: Result)

  datatype Call =
    | CreatePrompt(project: Id, prompt: Id, version: Id, name: string, text: string)
    | RenamePrompt(prompt: Id, name: string)
    | CreateVersion(prompt: Id, version: Id, text: string)
    | DeletePrompt(prompt: Id)
    | CreateBatch(project: Id, batch: Id, filesystemKey: string, definition: Definition)
    | UpdateBatch(batch: Id, definition: Definition, expected: int)
    | ArchiveBatch(batch: Id)

  // ---------- prompts ----------

  predicate PromptNameTaken(s: State, project: Id, name: string, except: Id) {
    exists id :: id in s.prompts && id != except && s.prompts[id].project == project && s.prompts[id].name == name
  }

  function Places(versions: map<Id, PromptVersion>): (places: map<Id, G.Place>)
    ensures places.Keys == versions.Keys
  {
    map id | id in versions :: G.Place(versions[id].prompt, versions[id].number)
  }

  /** A Saved Batch selects one of the prompt's versions. */
  predicate PromptReferenced(s: State, prompt: Id) {
    exists b :: b in s.batches && Selects(s, s.batches[b], prompt)
  }

  predicate Selects(s: State, b: Batch, prompt: Id) {
    exists i :: 0 <= i < |b.selected| && b.selected[i] in s.versions && s.versions[b.selected[i]].prompt == prompt
  }

  function VersionsWithout(versions: map<Id, PromptVersion>, prompt: Id): map<Id, PromptVersion> {
    map id | id in versions && versions[id].prompt != prompt :: versions[id]
  }

  ghost function PromptStep(s: State, c: Call): Outcome
    requires c.CreatePrompt? || c.RenamePrompt? || c.CreateVersion? || c.DeletePrompt?
  {
    match c
    case CreatePrompt(project, prompt, version, name, text) =>
      if !W.Nonblank(project) || !W.Nonblank(prompt) || !W.Nonblank(version) || !W.Nonblank(name)
         || !W.Nonblank(text)
      then Outcome(s, Err(Invalid))
      else if project !in s.projects then Outcome(s, Err(NotFound))
      else if prompt in s.prompts || PromptNameTaken(s, project, name, prompt) || version in s.versions then
        Outcome(s, Err(Conflict))
      else Outcome(s.(prompts := s.prompts[prompt := Prompt(project, name)],
                      versions := s.versions[version := PromptVersion(prompt, 1, name, text)]), Ok)
    case RenamePrompt(prompt, name) =>
      if !W.Nonblank(prompt) || !W.Nonblank(name) then Outcome(s, Err(Invalid))
      else if prompt !in s.prompts then Outcome(s, Err(NotFound))
      else if PromptNameTaken(s, s.prompts[prompt].project, name, prompt) then Outcome(s, Err(Conflict))
      else Outcome(s.(prompts := s.prompts[prompt := s.prompts[prompt].(name := name)]), Ok)
    case CreateVersion(prompt, version, text) =>
      if !W.Nonblank(prompt) || !W.Nonblank(text) || !W.Nonblank(version) then Outcome(s, Err(Invalid))
      else if prompt !in s.prompts then Outcome(s, Err(NotFound))
      else if version in s.versions then Outcome(s, Err(Conflict))
      else
        var row := PromptVersion(prompt, G.NextNumber(Places(s.versions), prompt), s.prompts[prompt].name, text);
        Outcome(s.(versions := s.versions[version := row]), Ok)
    case DeletePrompt(prompt) =>
      if !W.Nonblank(prompt) then Outcome(s, Err(Invalid))
      else if prompt !in s.prompts then Outcome(s, Err(NotFound))
      else if PromptReferenced(s, prompt) then Outcome(s, Err(Referenced))
      else Outcome(s.(prompts := s.prompts - {prompt}, versions := VersionsWithout(s.versions, prompt)), Ok)
  }

  // ---------- batches ----------

  predicate ProperDefinition(d: Definition) {
    && d.acceptable && W.Nonblank(d.name)
    && forall i :: 0 <= i < |d.selections| ==>
         W.Nonblank(d.selections[i].version) && W.Nonblank(d.selections[i].name) && W.Nonblank(d.selections[i].text)
  }

  /** The version exists, in the project, with the content the definition carries. */
  predicate Matches(s: State, project: Id, x: Selection) {
    && x.version in s.versions
    && var v := s.versions[x.version];
      v.prompt in s.prompts && s.prompts[v.prompt].project == project && v.nameSnapshot == x.name && v.text == x.text
  }

  ghost predicate AllMatch(s: State, project: Id, selections: seq<Selection>) {
    forall i :: 0 <= i < |selections| ==> Matches(s, project, selections[i])
  }

  function Selected(selections: seq<Selection>): (ids: seq<Id>)
    ensures |ids| == |selections| && forall i :: 0 <= i < |selections| ==> ids[i] == selections[i].version
  {
    seq(|selections|, i requires 0 <= i < |selections| => selections[i].version)
  }

  predicate KeyTaken(s: State, project: Id, filesystemKey: string) {
    exists b :: b in s.batches && s.batches[b].project == project && s.batches[b].filesystemKey == filesystemKey
  }

  ghost function BatchStep(s: State, c: Call): Outcome
    requires c.CreateBatch? || c.UpdateBatch? || c.ArchiveBatch?
  {
    match c
    case CreateBatch(project, batch, filesystemKey, d) =>
      if !W.Nonblank(project) || !W.Nonblank(batch) || !ProperDefinition(d) then Outcome(s, Err(Invalid))
      else if project !in s.projects then Outcome(s, Err(Integrity))
      else if !AllMatch(s, project, d.selections) then Outcome(s, Err(Integrity))
      else if batch in s.batches || KeyTaken(s, project, filesystemKey) then Outcome(s, Err(Conflict))
      else Outcome(s.(batches := s.batches[batch := Batch(project, filesystemKey, d.name, 1, false,
                                                          Selected(d.selections))]), Ok)
    case UpdateBatch(batch, d, expected) =>
      if !W.Nonblank(batch) || expected < 1 || !ProperDefinition(d) then Outcome(s, Err(Invalid))
      else if batch !in s.batches then Outcome(s, Err(NotFound))
      else if s.batches[batch].revision != expected then Outcome(s, Err(Conflict))
      else if !AllMatch(s, s.batches[batch].project, d.selections) then Outcome(s, Err(Integrity))
      else Outcome(s.(batches := s.batches[batch :=
        s.batches[batch].(name := d.name, revision := s.batches[batch].revision + 1,
                          selected := Selected(d.selections))]), Ok)
    case ArchiveBatch(batch) =>
      if !W.Nonblank(batch) then Outcome(s, Err(Invalid))
      else if batch !in s.batches then Outcome(s, Err(NotFound))
      else if s.batches[batch].archived then Outcome(s, Ok)
      else Outcome(s.(batches := s.batches[batch := s.batches[batch].(archived := true,
                                                                      revision := s.batches[batch].revision + 1)]), Ok)
  }

  ghost function Step(s: State, c: Call): Outcome {
    if c.CreatePrompt? || c.RenamePrompt? || c.CreateVersion? || c.DeletePrompt? then PromptStep(s, c)
    else BatchStep(s, c)
  }

  ghost function Run(s: State, calls: seq<Call>): State
    decreases |calls|
  {
    if calls == [] then s else Run(Step(s, calls[0]).state, calls[1..])
  }

  // ---------- what every run keeps ----------

  /** Every stored selection resolves, to a version of a prompt of the batch's own project. */
  ghost predicate Resolves(s: State, b: Batch) {
    forall i :: 0 <= i < |b.selected| ==>
      b.selected[i] in s.versions && s.versions[b.selected[i]].prompt in s.prompts
      && s.prompts[s.versions[b.selected[i]].prompt].project == b.project
  }

  ghost predicate Sound(s: State) {
    && G.Numbered(Places(s.versions))
    && (forall v :: v in s.versions ==> s.versions[v].prompt in s.prompts)
    && (forall a, b :: a in s.prompts && b in s.prompts && s.prompts[a].project == s.prompts[b].project ==>
          s.prompts[a].name == s.prompts[b].name ==> a == b)
    && (forall b :: b in s.batches ==> Resolves(s, s.batches[b]))
  }

  lemma PlacesInsert(versions: map<Id, PromptVersion>, id: Id, row: PromptVersion)
    requires G.Numbered(Places(versions)) && id !in versions && G.IsNext(Places(versions), row.prompt, row.number)
    ensures G.Numbered(Places(versions[id := row]))
  {
    G.AppendNumbered(Places(versions), id, row.prompt, row.number);
    assert Places(versions[id := row]) == Places(versions)[id := G.Place(row.prompt, row.number)];
  }

  /** Removing a whole family leaves the others numbered. */
  lemma PlacesWithout(versions: map<Id, PromptVersion>, prompt: Id)
    requires G.Numbered(Places(versions))
    ensures G.Numbered(Places(VersionsWithout(versions, prompt)))
  {
    var before, after := Places(versions), Places(VersionsWithout(versions, prompt));
    assert forall id :: id in after ==> before[id] == after[id];
    forall id | id in after && after[id].number > 1 ensures G.HasNumber(after, after[id].family, after[id].number - 1) {
      assert G.HasNumber(before, before[id].family, before[id].number - 1);
      var other :| other in before && before[other].family == before[id].family
                   && before[other].number == before[id].number - 1;
      assert other in after;
    }
  }

  lemma CreatedPromptSound(s: State, c: Call)
    requires Sound(s) && c.CreatePrompt?
    ensures Sound(PromptStep(s, c).state)
  {
    var u := PromptStep(s, c).state;
    if u != s {
      var row := PromptVersion(c.prompt, 1, c.name, c.text);
      PlacesInsert(s.versions, c.version, row);
      forall b | b in u.batches ensures Resolves(u, u.batches[b]) { assert Resolves(s, s.batches[b]); }
    }
  }

  lemma RenamedPromptSound(s: State, c: Call)
    requires Sound(s) && c.RenamePrompt?
    ensures Sound(PromptStep(s, c).state)
  {
    var u := PromptStep(s, c).state;
    forall b | b in u.batches ensures Resolves(u, u.batches[b]) { assert Resolves(s, s.batches[b]); }
  }

  lemma CreatedVersionSound(s: State, c: Call)
    requires Sound(s) && c.CreateVersion?
    ensures Sound(PromptStep(s, c).state)
  {
    var u := PromptStep(s, c).state;
    if u != s {
      var number := G.NextNumber(Places(s.versions), c.prompt);
      G.NextNumberIsNext(Places(s.versions), c.prompt, number);
      PlacesInsert(s.versions, c.version, PromptVersion(c.prompt, number, s.prompts[c.prompt].name, c.text));
      forall b | b in u.batches ensures Resolves(u, u.batches[b]) { assert Resolves(s, s.batches[b]); }
    }
  }

  lemma DeletedPromptSound(s: State, c: Call)
    requires Sound(s) && c.DeletePrompt?
    ensures Sound(PromptStep(s, c).state)
  {
    hide G.Numbered, W.Nonblank, Resolves;
    var u := PromptStep(s, c).state;
    if u != s {
      PlacesWithout(s.versions, c.prompt);
      forall b | b in u.batches ensures Resolves(u, u.batches[b]) {
        StillResolves(s, u, s.batches[b], c.prompt);
      }
    }
  }

  /** A batch that selects no version of a prompt does not notice that it is gone. */
  lemma StillResolves(s: State, u: State, b: Batch, prompt: Id)
    requires Resolves(s, b) && !Selects(s, b, prompt)
    requires u.prompts == s.prompts - {prompt} && u.versions == VersionsWithout(s.versions, prompt)
    ensures Resolves(u, b)
  {
  }

  lemma SelectedResolves(s: State, project: Id, selections: seq<Selection>, b: Batch)
    requires AllMatch(s, project, selections) && b.project == project && b.selected == Selected(selections)
    ensures Resolves(s, b)
  {
    forall i | 0 <= i < |b.selected|
      ensures b.selected[i] in s.versions && s.versions[b.selected[i]].prompt in s.prompts
      && s.prompts[s.versions[b.selected[i]].prompt].project == b.project
    {
      assert Matches(s, project, selections[i]);
    }
  }

  lemma OneBatchChanged(s: State, u: State, id: Id)
    requires Sound(s) && u.prompts == s.prompts && u.versions == s.versions
    requires id in u.batches && u.batches == s.batches[id := u.batches[id]] && Resolves(s, u.batches[id])
    ensures Sound(u)
  {
    hide G.Numbered;
    forall b | b in u.batches ensures Resolves(u, u.batches[b]) {
      if b != id { assert Resolves(s, s.batches[b]); }
    }
  }

  lemma BatchStepSound(s: State, c: Call)
    requires Sound(s) && (c.CreateBatch? || c.UpdateBatch? || c.ArchiveBatch?)
    ensures Sound(BatchStep(s, c).state)
  {
    hide G.Numbered, KeyTaken, W.Nonblank, ProperDefinition, AllMatch, Resolves;
    var u := BatchStep(s, c).state;
    if u != s {
      match c {
        case CreateBatch(project, batch, _, d) => SelectedResolves(s, project, d.selections, u.batches[batch]);
        case UpdateBatch(batch, d, _) => SelectedResolves(s, s.batches[batch].project, d.selections, u.batches[batch]);
        case ArchiveBatch(batch) => SameSelection(s, s.batches[batch], u.batches[batch]);
      }
      OneBatchChanged(s, u, c.batch);
    }
  }

  lemma SameSelection(s: State, a: Batch, b: Batch)
    requires Resolves(s, a) && a.project == b.project && a.selected == b.selected
    ensures Resolves(s, b)
  {
  }

  lemma StepSound(s: State, c: Call)
    requires Sound(s)
    ensures Sound(Step(s, c).state)
  {
    hide Sound, PromptStep, BatchStep;
    match c
    case CreatePrompt(_, _, _, _, _) => CreatedPromptSound(s, c);
    case RenamePrompt(_, _) => RenamedPromptSound(s, c);
    case CreateVersion(_, _, _) => CreatedVersionSound(s, c);
    case DeletePrompt(_) => DeletedPromptSound(s, c);
    case CreateBatch(_, _, _, _) => BatchStepSound(s, c);
    case UpdateBatch(_, _, _) => BatchStepSound(s, c);
    case ArchiveBatch(_) => BatchStepSound(s, c);
  }

  lemma {:induction false} RunSound(s: State, calls: seq<Call>)
    requires Sound(s)
    ensures Sound(Run(s, calls))
    decreases |calls|
  {
    hide Sound, Step;
    if calls != [] {
      StepSound(s, calls[0]);
      RunSound(Step(s, calls[0]).state, calls[1..]);
    }
  }

  lemma EmptySound(projects: set<Id>)
    ensures Sound(State(projects, map[], map[], map[]))
  {
  }

  /** In every state that calls can lead to each stored selection resolves, and loads. */
  lemma ReachableSound(projects: set<Id>, calls: seq<Call>, id: Id)
    ensures var s := Run(State(projects, map[], map[], map[]), calls);
      Sound(s) && (id in s.batches ==> |Load(s, s.batches[id].selected)| == |s.batches[id].selected|)
  {
    hide Sound, Run, Load;
    EmptySound(projects);
    RunSound(State(projects, map[], map[], map[]), calls);
    var s := Run(State(projects, map[], map[], map[]), calls);
    if id in s.batches {
      SoundResolves(s, id);
      LoadKeepsAll(s, s.batches[id]);
    }
  }

  // ---------- loading ----------

  /** The loader's inner join: selections whose version or prompt is missing are dropped. */
  function Load(s: State, selected: seq<Id>): seq<Selection> {
    if selected == [] then []
    else
      var id := selected[|selected| - 1];
      Load(s, selected[..|selected| - 1])
      + if id in s.versions && s.versions[id].prompt in s.prompts
        then [Selection(id, s.versions[id].nameSnapshot, s.versions[id].text)] else []
  }

  /** Nothing is dropped: in every reachable state a batch loads one prompt per selection, in order. */
  lemma {:induction false} LoadKeepsAll(s: State, b: Batch)
    requires Resolves(s, b)
    ensures |Load(s, b.selected)| == |b.selected|
    ensures forall i :: 0 <= i < |b.selected| ==> Load(s, b.selected)[i].version == b.selected[i]
    decreases |b.selected|
  {
    if b.selected != [] {
      LoadKeepsAll(s, b.(selected := b.selected[..|b.selected| - 1]));
    }
  }

  /** What matched when it was saved is what loads. */
  lemma {:induction false} LoadMatches(s: State, project: Id, selections: seq<Selection>)
    requires AllMatch(s, project, selections)
    ensures Load(s, Selected(selections)) == selections
  {
    if selections != [] {
      var init, last := selections[..|selections| - 1], selections[|selections| - 1];
      LoadMatches(s, project, init);
      assert Selected(selections)[..|selections| - 1] == Selected(init);
      assert Matches(s, project, last);
      assert selections == init + [last];
    }
  }

  // ---------- revisions ----------

  /** How a batch moves in one call: it stays, or its revision goes up by exactly one. */
  lemma RevisionStep(s: State, c: Call, id: Id)
    requires id in s.batches
    ensures var u := Step(s, c).state;
      && id in u.batches && u.batches[id].project == s.batches[id].project
      && (u.batches[id] == s.batches[id] || u.batches[id].revision == s.batches[id].revision + 1)
  {
    hide W.Nonblank, ProperDefinition, AllMatch, KeyTaken, PromptNameTaken, PromptReferenced;
  }

  /** An update succeeds only against the current revision, and moves it to the next one. */
  lemma UpdateMoves(s: State, c: Call)
    requires c.UpdateBatch? && Step(s, c).result.Ok?
    ensures c.batch in s.batches && s.batches[c.batch].revision == c.expected
    ensures Step(s, c).state.batches[c.batch].revision == c.expected + 1
    ensures Load(Step(s, c).state, Step(s, c).state.batches[c.batch].selected) == c.definition.selections
  {
    hide W.Nonblank, ProperDefinition;
    var u := Step(s, c).state;
    assert AllMatch(u, s.batches[c.batch].project, c.definition.selections) by {
      forall i | 0 <= i < |c.definition.selections|
        ensures Matches(u, s.batches[c.batch].project, c.definition.selections[i])
      {
        assert Matches(s, s.batches[c.batch].project, c.definition.selections[i]);
      }
    }
    LoadMatches(u, s.batches[c.batch].project, c.definition.selections);
  }

  lemma {:induction false} RevisionsRise(s: State, calls: seq<Call>, id: Id)
    requires id in s.batches
    ensures id in Run(s, calls).batches && Run(s, calls).batches[id].revision >= s.batches[id].revision
    decreases |calls|
  {
    hide Step;
    if calls != [] {
      RevisionStep(s, calls[0], id);
      RevisionsRise(Step(s, calls[0]).state, calls[1..], id);
    }
  }

  /** Of all updates expecting one revision of a batch, whatever runs in between, at most one succeeds. */
  lemma OneSuccessPerRevision(s: State, first: Call, between: seq<Call>, second: Call)
    requires first.UpdateBatch? && second.UpdateBatch? && first.batch == second.batch
    requires first.expected == second.expected
    requires Step(s, first).result.Ok?
    ensures Step(Run(Step(s, first).state, between), second).result.Err?
    ensures Step(Run(Step(s, first).state, between), second).state == Run(Step(s, first).state, between)
  {
    hide W.Nonblank, ProperDefinition, AllMatch, Run, Load;
    UpdateMoves(s, first);
    RevisionsRise(Step(s, first).state, between, first.batch);
  }

  /** Archiving twice is archiving once. */
  lemma SecondArchiveNothing(s: State, c: Call)
    requires c.ArchiveBatch? && Step(s, c).result.Ok?
    ensures Step(Step(s, c).state, c) == Outcome(Step(s, c).state, Ok)
  {
    hide W.Nonblank;
  }

  lemma FailureChangesNothing(s: State, c: Call)
    ensures Step(s, c).result.Err? ==> Step(s, c).state == s
  {
    hide W.Nonblank, ProperDefinition, AllMatch, KeyTaken, PromptNameTaken, PromptReferenced;
  }

  /** Versions never change, and those a batch selects are never removed. */
  lemma VersionStays(s: State, c: Call, b: Id, v: Id)
    requires Sound(s) && b in s.batches && v in s.batches[b].selected
    ensures v in s.versions && v in Step(s, c).state.versions && Step(s, c).state.versions[v] == s.versions[v]
  {
    hide G.Numbered, W.Nonblank, ProperDefinition, AllMatch, KeyTaken, PromptNameTaken;
    var i :| 0 <= i < |s.batches[b].selected| && s.batches[b].selected[i] == v;
    assert Resolves(s, s.batches[b]);
    if c.DeletePrompt? && s.versions[v].prompt == c.prompt {
      assert Selects(s, s.batches[b], c.prompt);
    }
  }

  /** While a batch keeps its revision, what it loads does not change, whatever else happens. */
  lemma {:induction false} LoadedContentStays(s: State, calls: seq<Call>, id: Id)
    requires Sound(s) && id in s.batches
    requires id in Run(s, calls).batches && Run(s, calls).batches[id].revision == s.batches[id].revision
    ensures Load(Run(s, calls), Run(s, calls).batches[id].selected) == Load(s, s.batches[id].selected)
    decreases |calls|
  {
    hide Step, Sound, Load;
    if calls != [] {
      var next := Step(s, calls[0]).state;
      RevisionStep(s, calls[0], id);
      RevisionsRise(next, calls[1..], id);
      StepSound(s, calls[0]);
      StepLoads(s, calls[0], id);
      LoadedContentStays(next, calls[1..], id);
    }
  }

  lemma StepLoads(s: State, c: Call, id: Id)
    requires Sound(s) && id in s.batches && id in Step(s, c).state.batches
    requires Step(s, c).state.batches[id] == s.batches[id]
    ensures Load(Step(s, c).state, s.batches[id].selected) == Load(s, s.batches[id].selected)
  {
    hide Step, Sound;
    var u := Step(s, c).state;
    StepSound(s, c);
    SoundResolves(s, id);
    SoundResolves(u, id);
    forall v | v in s.batches[id].selected
      ensures v in s.versions && v in u.versions && u.versions[v] == s.versions[v]
    {
      VersionStays(s, c, id, v);
    }
    SameLoad(s, u, s.batches[id].selected);
  }

  lemma SoundResolves(s: State, id: Id)
    requires Sound(s) && id in s.batches
    ensures Resolves(s, s.batches[id])
  {
  }

  lemma {:induction false} SameLoad(s: State, u: State, selected: seq<Id>)
    requires forall v :: v in selected ==> v in s.versions && v in u.versions && u.versions[v] == s.versions[v]
    requires forall v :: v in selected ==> s.versions[v].prompt in s.prompts && u.versions[v].prompt in u.prompts
    ensures Load(s, selected) == Load(u, selected)
    decreases |selected|
  {
    if selected != [] {
      var last := selected[|selected| - 1];
      assert last in selected;
      SameLoad(s, u, selected[..|selected| - 1]);
    }
  }
}
