/** What each call on prompts and Saved Batches decides and does, row by row. */
module BatchCalls {
  import opened BatchRevisions
  import G = GlobalLibrary
  import W = WorkflowOverlay

  // ---------- prompts ----------

  /** No other prompt of the project has the name. */
  ghost predicate NameFree(s: State, project: Id, name: string, except: Id) {
    forall id :: id in s.prompts && id != except && s.prompts[id].project == project ==> s.prompts[id].name != name
  }

  /** Some batch selects the version. */
  ghost predicate VersionSelected(s: State, version: Id) {
    exists b :: b in s.batches && version in s.batches[b].selected
  }

  lemma NameFreeMeaning(s: State, project: Id, name: string, except: Id)
    ensures PromptNameTaken(s, project, name, except) <==> !NameFree(s, project, name, except)
  {
  }

  /** A prompt is created exactly under fresh ids and a name that is free within an existing Project. It comes
      with its first version, which carries the name. */
  lemma CreatePromptDecided(s: State, c: Call)
    requires c.CreatePrompt?
    ensures var r, u := Step(s, c).result, Step(s, c).state;
      && (r == Err(Invalid) <==> !W.Nonblank(c.project) || !W.Nonblank(c.prompt) || !W.Nonblank(c.version)
                                 || !W.Nonblank(c.name) || !W.Nonblank(c.text))
      && (r == Err(NotFound) <==> r != Err(Invalid) && c.project !in s.projects)
      && (r == Err(Conflict) <==>
            && r != Err(Invalid) && r != Err(NotFound)
            && (c.prompt in s.prompts || c.version in s.versions || !NameFree(s, c.project, c.name, c.prompt)))
      && r in {Ok, Err(Invalid), Err(NotFound), Err(Conflict)}
      && (r == Ok ==>
            && u.projects == s.projects && u.batches == s.batches
            && u.prompts == s.prompts[c.prompt := Prompt(c.project, c.name)]
            && u.versions == s.versions[c.version := PromptVersion(c.prompt, 1, c.name, c.text)])
  {
    hide W.Nonblank;
    NameFreeMeaning(s, c.project, c.name, c.prompt);
    hide PromptNameTaken, NameFree;
  }

  /** A rename writes the name of one prompt, if it is free there; versions keep the name they were made under. */
  lemma RenamePromptDecided(s: State, c: Call)
    requires c.RenamePrompt?
    ensures var r, u := Step(s, c).result, Step(s, c).state;
      && (r == Err(Invalid) <==> !W.Nonblank(c.prompt) || !W.Nonblank(c.name))
      && (r == Err(NotFound) <==> r != Err(Invalid) && c.prompt !in s.prompts)
      && (r == Err(Conflict) <==>
            && r != Err(Invalid) && c.prompt in s.prompts
            && !NameFree(s, s.prompts[c.prompt].project, c.name, c.prompt))
      && r in {Ok, Err(Invalid), Err(NotFound), Err(Conflict)}
      && (r == Ok ==>
            && u.projects == s.projects && u.batches == s.batches && u.versions == s.versions
            && u.prompts == s.prompts[c.prompt := Prompt(s.prompts[c.prompt].project, c.name)])
  {
    hide W.Nonblank;
    if c.prompt in s.prompts { NameFreeMeaning(s, s.prompts[c.prompt].project, c.name, c.prompt); }
    hide PromptNameTaken, NameFree;
  }

  /** A new version has the number after the highest of its prompt, the prompt's present name and the text. */
  lemma CreateVersionDecided(s: State, c: Call)
    requires Sound(s) && c.CreateVersion?
    ensures var r, u := Step(s, c).result, Step(s, c).state;
      && (r == Err(Invalid) <==> !W.Nonblank(c.prompt) || !W.Nonblank(c.text) || !W.Nonblank(c.version))
      && (r == Err(NotFound) <==> r != Err(Invalid) && c.prompt !in s.prompts)
      && (r == Err(Conflict) <==> r != Err(Invalid) && c.prompt in s.prompts && c.version in s.versions)
      && r in {Ok, Err(Invalid), Err(NotFound), Err(Conflict)}
      && (r == Ok ==>
            && u.projects == s.projects && u.batches == s.batches && u.prompts == s.prompts
            && c.version in u.versions && u.versions - {c.version} == s.versions
            && u.versions[c.version] ==
                 PromptVersion(c.prompt, u.versions[c.version].number, s.prompts[c.prompt].name, c.text)
            && Follows(s, c.prompt, u.versions[c.version].number))
  {
    hide W.Nonblank, G.Numbered;
    if c.prompt in s.prompts {
      G.NextNumberIsNext(Places(s.versions), c.prompt, G.NextNumber(Places(s.versions), c.prompt));
    }
  }

  /** Every number of the prompt is below it, and it is one or has its predecessor. */
  ghost predicate Follows(s: State, prompt: Id, number: nat) {
    && (forall v :: v in s.versions && s.versions[v].prompt == prompt ==> s.versions[v].number < number)
    && (number == 1
        || exists v :: v in s.versions && s.versions[v].prompt == prompt && s.versions[v].number + 1 == number)
  }

  /** A prompt goes exactly if no batch selects any of its versions, and its versions go with it. */
  lemma DeletePromptDecided(s: State, c: Call)
    requires c.DeletePrompt?
    ensures var r, u := Step(s, c).result, Step(s, c).state;
      && (r == Err(Invalid) <==> !W.Nonblank(c.prompt))
      && (r == Err(NotFound) <==> r != Err(Invalid) && c.prompt !in s.prompts)
      && (r == Err(Referenced) <==>
            && r != Err(Invalid) && c.prompt in s.prompts
            && exists v :: v in s.versions && s.versions[v].prompt == c.prompt && VersionSelected(s, v))
      && r in {Ok, Err(Invalid), Err(NotFound), Err(Referenced)}
      && (r == Ok ==>
            && u.projects == s.projects && u.batches == s.batches && u.prompts == s.prompts - {c.prompt}
            && (forall v :: v in u.versions <==> v in s.versions && s.versions[v].prompt != c.prompt)
            && (forall v :: v in u.versions ==> u.versions[v] == s.versions[v]))
  {
    hide W.Nonblank;
    ReferencedMeaning(s, c.prompt);
    hide PromptReferenced, VersionSelected;
  }

  lemma ReferencedMeaning(s: State, prompt: Id)
    ensures PromptReferenced(s, prompt) <==>
      exists v :: v in s.versions && s.versions[v].prompt == prompt && VersionSelected(s, v)
  {
    if PromptReferenced(s, prompt) {
      var b :| b in s.batches && Selects(s, s.batches[b], prompt);
      var i :| 0 <= i < |s.batches[b].selected| && s.batches[b].selected[i] in s.versions
               && s.versions[s.batches[b].selected[i]].prompt == prompt;
      assert VersionSelected(s, s.batches[b].selected[i]);
    }
    if v :| v in s.versions && s.versions[v].prompt == prompt && VersionSelected(s, v) {
      var b :| b in s.batches && v in s.batches[b].selected;
      assert Selects(s, s.batches[b], prompt);
    }
  }

  // ---------- batches ----------

  ghost predicate Proper(d: Definition) {
    && d.acceptable && W.Nonblank(d.name)
    && forall x :: x in d.selections ==> W.Nonblank(x.version) && W.Nonblank(x.name) && W.Nonblank(x.text)
  }

  /** Every selection names a version of the Project, as it is stored. */
  ghost predicate Stored(s: State, project: Id, selections: seq<Selection>) {
    forall x :: x in selections ==>
      && x.version in s.versions && s.versions[x.version].prompt in s.prompts
      && s.prompts[s.versions[x.version].prompt].project == project
      && s.versions[x.version].nameSnapshot == x.name && s.versions[x.version].text == x.text
  }

  ghost predicate KeyFree(s: State, project: Id, key: string) {
    forall b :: b in s.batches && s.batches[b].project == project ==> s.batches[b].filesystemKey != key
  }

  lemma DefinitionMeaning(s: State, project: Id, d: Definition)
    ensures ProperDefinition(d) <==> Proper(d)
    ensures AllMatch(s, project, d.selections) <==> Stored(s, project, d.selections)
  {
    if ProperDefinition(d) {
      forall x | x in d.selections ensures W.Nonblank(x.version) && W.Nonblank(x.name) && W.Nonblank(x.text) {
        var i :| 0 <= i < |d.selections| && d.selections[i] == x;
      }
    }
    if AllMatch(s, project, d.selections) {
      forall x | x in d.selections ensures Matches(s, project, x) {
        var i :| 0 <= i < |d.selections| && d.selections[i] == x;
      }
    }
    if Stored(s, project, d.selections) {
      forall i | 0 <= i < |d.selections| ensures Matches(s, project, d.selections[i]) {
        assert d.selections[i] in d.selections;
      }
    }
  }

  /** A batch row as the definition says. */
  ghost predicate Holds(b: Batch, d: Definition) {
    && b.name == d.name && |b.selected| == |d.selections|
    && forall i :: 0 <= i < |d.selections| ==> b.selected[i] == d.selections[i].version
  }

  /** Nothing changes but one batch, which exists afterwards. */
  ghost predicate OnlyBatch(s: State, u: State, batch: Id) {
    && u.projects == s.projects && u.prompts == s.prompts && u.versions == s.versions
    && batch in u.batches && u.batches - {batch} == s.batches - {batch}
  }

  /** A batch is created exactly under a fresh id and a filesystem key that is free within an existing Project,
      and only with selections as they are stored there. It starts unarchived, at revision one. */
  lemma CreateBatchDecided(s: State, c: Call)
    requires c.CreateBatch?
    ensures var r, u := Step(s, c).result, Step(s, c).state;
      && (r == Err(Invalid) <==> !W.Nonblank(c.project) || !W.Nonblank(c.batch) || !Proper(c.definition))
      && (r == Err(Integrity) <==>
            && r != Err(Invalid)
            && (c.project !in s.projects || !Stored(s, c.project, c.definition.selections)))
      && (r == Err(Conflict) <==>
            && r != Err(Invalid) && r != Err(Integrity)
            && (c.batch in s.batches || !KeyFree(s, c.project, c.filesystemKey)))
      && r in {Ok, Err(Invalid), Err(Integrity), Err(Conflict)}
      && (r == Ok ==> OnlyBatch(s, u, c.batch) && Holds(u.batches[c.batch], c.definition))
      && (r == Ok ==> var b := u.batches[c.batch];
            && b.project == c.project && b.filesystemKey == c.filesystemKey && b.revision == 1 && !b.archived)
  {
    DefinitionMeaning(s, c.project, c.definition);
    assert KeyTaken(s, c.project, c.filesystemKey) <==> !KeyFree(s, c.project, c.filesystemKey);
    hide W.Nonblank, ProperDefinition, Proper, AllMatch, Stored, KeyTaken, KeyFree;
  }

  /** An update succeeds exactly for the current revision and selections as they are stored in the batch's
      Project. It moves the revision by one, replaces name and selections, and leaves the rest. */
  lemma UpdateBatchDecided(s: State, c: Call)
    requires c.UpdateBatch?
    ensures var r, u := Step(s, c).result, Step(s, c).state;
      && (r == Err(Invalid) <==> !W.Nonblank(c.batch) || c.expected < 1 || !Proper(c.definition))
      && (r == Err(NotFound) <==> r != Err(Invalid) && c.batch !in s.batches)
      && (r == Err(Conflict) <==>
            r != Err(Invalid) && c.batch in s.batches && s.batches[c.batch].revision != c.expected)
      && (r == Err(Integrity) <==>
            && r != Err(Invalid) && c.batch in s.batches && s.batches[c.batch].revision == c.expected
            && !Stored(s, s.batches[c.batch].project, c.definition.selections))
      && r in {Ok, Err(Invalid), Err(NotFound), Err(Conflict), Err(Integrity)}
      && (r == Ok ==> OnlyBatch(s, u, c.batch) && Holds(u.batches[c.batch], c.definition))
      && (r == Ok ==> var a, b := s.batches[c.batch], u.batches[c.batch];
            && b.revision == a.revision + 1 && b.archived == a.archived
            && b.project == a.project && b.filesystemKey == a.filesystemKey)
  {
    DefinitionMeaning(s, if c.batch in s.batches then s.batches[c.batch].project else "", c.definition);
    hide W.Nonblank, ProperDefinition, Proper, AllMatch, Stored;
  }

  /** Archiving marks the batch, and moves its revision by one exactly if it was not yet marked. */
  lemma ArchiveBatchDecided(s: State, c: Call)
    requires c.ArchiveBatch?
    ensures var r, u := Step(s, c).result, Step(s, c).state;
      && (r == Err(Invalid) <==> !W.Nonblank(c.batch))
      && (r == Err(NotFound) <==> r != Err(Invalid) && c.batch !in s.batches)
      && r in {Ok, Err(Invalid), Err(NotFound)}
      && (r == Ok ==> OnlyBatch(s, u, c.batch))
      && (r == Ok ==> var a, b := s.batches[c.batch], u.batches[c.batch];
            && b.archived && b.revision == a.revision + (if a.archived then 0 else 1)
            && b.project == a.project && b.filesystemKey == a.filesystemKey
            && b.name == a.name && b.selected == a.selected)
  {
    hide W.Nonblank;
  }
}
