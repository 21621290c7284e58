/** The prompt and Saved Batch stores over their tables. Each method is one transaction, statement by
    statement; the database may stop carrying statements out at any of them. */
module BatchStore {
  import opened BatchRevisions
  import G = GlobalLibrary
  import S = GlobalStore
  import W = WorkflowOverlay

  /** A row of `batch`; the selections are rows of their own. */
  datatype Root = Root(project: Id, filesystemKey: string, name: string, revision: nat, archived: bool)

  /** The primary key of `batch_prompt_selection`. */
  datatype Key = Key(batch: Id, position: nat)

  datatype Tables = Tables(prompts: map<Id, Prompt>, versions: map<Id, PromptVersion>, roots: map<Id, Root>,
                           selections: map<Key, Id>)

  /** How a statement ends: carried out, against a constraint, or not at all. */
  datatype Statement = Done | Violated | Broken

  /** What the caller learns. Unconfirmed: committed, and then the reading back failed. */
  datatype Answer = Answered(result: Result) | Failed | Unconfirmed

  function RootOf(b: Batch): Root { Root(b.project, b.filesystemKey, b.name, b.revision, b.archived) }

  /** The rows of a batch are these versions at positions 1..n. */
  ghost predicate HasRows(selections: map<Key, Id>, batch: Id, ids: seq<Id>) {
    && (forall k: nat :: Key(batch, k) in selections <==> 1 <= k <= |ids|)
    && (forall k: nat :: 1 <= k <= |ids| ==> selections[Key(batch, k)] == ids[k - 1])
  }

  predicate SameElsewhere(a: map<Key, Id>, b: map<Key, Id>, batch: Id) {
    && (forall k :: k in a && k.batch != batch ==> k in b && b[k] == a[k])
    && (forall k :: k in b && k.batch != batch ==> k in a)
  }

  ghost predicate Represents(t: Tables, s: State) {
    && t.prompts == s.prompts && t.versions == s.versions && t.roots.Keys == s.batches.Keys
    && (forall b :: b in s.batches ==>
          t.roots[b] == RootOf(s.batches[b]) && HasRows(t.selections, b, s.batches[b].selected))
    && (forall k :: k in t.selections ==> k.batch in s.batches)
  }

  /** A statement changed one batch, and its rows are now those of its new selections. */
  lemma OneBatchWritten(t: Tables, u: Tables, s: State, id: Id, b: Batch)
    requires Represents(t, s) && u.prompts == t.prompts && u.versions == t.versions
    requires u.roots == t.roots[id := RootOf(b)]
    requires SameElsewhere(t.selections, u.selections, id) && HasRows(u.selections, id, b.selected)
    ensures Represents(u, s.(batches := s.batches[id := b]))
  {
    forall c | c in s.batches && c != id ensures HasRows(u.selections, c, s.batches[c].selected) {
      assert HasRows(t.selections, c, s.batches[c].selected);
    }
  }

  /** A selection row references a version of the prompt. */
  predicate RowSelects(t: Tables, k: Key, prompt: Id) {
    k in t.selections && t.selections[k] in t.versions && t.versions[t.selections[k]].prompt == prompt
  }

  predicate RowsReference(t: Tables, prompt: Id) { exists k :: k in t.selections && RowSelects(t, k, prompt) }

  /** The join over the rows finds what a search through the batches would. */
  lemma RowsReferenceMeaning(t: Tables, s: State, prompt: Id)
    requires Represents(t, s)
    ensures RowsReference(t, prompt) <==> PromptReferenced(s, prompt)
  {
    if RowsReference(t, prompt) {
      var k :| k in t.selections && RowSelects(t, k, prompt);
      assert HasRows(t.selections, k.batch, s.batches[k.batch].selected);
      assert s.batches[k.batch].selected[k.position - 1] == t.selections[Key(k.batch, k.position)];
      assert Selects(s, s.batches[k.batch], prompt);
    }
    if PromptReferenced(s, prompt) {
      var b :| b in s.batches && Selects(s, s.batches[b], prompt);
      assert HasRows(t.selections, b, s.batches[b].selected);
      var i :| 0 <= i < |s.batches[b].selected| && s.batches[b].selected[i] in s.versions
               && s.versions[s.batches[b].selected[i]].prompt == prompt;
      assert RowSelects(t, Key(b, i + 1), prompt);
    }
  }

  // ---------- the constraints of the schema ----------

  predicate PromptClash(t: Tables, id: Id, row: Prompt) {
    id in t.prompts || exists p :: p in t.prompts && t.prompts[p] == row
  }

  predicate VersionClash(t: Tables, id: Id, row: PromptVersion) {
    || id in t.versions || row.prompt !in t.prompts
    || exists v :: v in t.versions && t.versions[v].prompt == row.prompt && t.versions[v].number == row.number
  }

  predicate RootClash(t: Tables, batch: Id, row: Root) {
    || batch in t.roots
    || exists b :: b in t.roots && t.roots[b].project == row.project && t.roots[b].filesystemKey == row.filesystemKey
  }

  predicate SelectionClash(t: Tables, key: Key, version: Id) {
    key in t.selections || key.batch !in t.roots || version !in t.versions
  }

  lemma NextIsFree(t: Tables, prompt: Id, number: nat)
    requires number == G.NextNumber(Places(t.versions), prompt)
    ensures forall v :: v in t.versions && t.versions[v].prompt == prompt ==> t.versions[v].number != number
  {
    G.NextNumberIsNext(Places(t.versions), prompt, number);
    forall v | v in t.versions && t.versions[v].prompt == prompt ensures t.versions[v].number != number {
      assert G.HasNumber(Places(t.versions), prompt, t.versions[v].number);
    }
  }

  lemma KeyTakenMeaning(t: Tables, s: State, project: Id, filesystemKey: string)
    requires Represents(t, s)
    ensures KeyTaken(s, project, filesystemKey) <==>
      exists b :: b in t.roots && t.roots[b].project == project && t.roots[b].filesystemKey == filesystemKey
  {
    hide HasRows;
  }

  lemma Versions(s: State, project: Id, selections: seq<Selection>)
    requires AllMatch(s, project, selections)
    ensures forall i :: 0 <= i < |selections| ==> selections[i].version in s.versions
  {
    forall i | 0 <= i < |selections| ensures selections[i].version in s.versions {
      assert Matches(s, project, selections[i]);
    }
  }

  lemma SameRows(selections: map<Key, Id>, batch: Id)
    ensures SameElsewhere(selections, selections, batch)
  {
  }

  class Stores {
    const projects: set<Id>
    var tables: Tables
    var left: nat  // statements that the database still carries out
    ghost var state: State

    ghost predicate Valid()
      reads this
    {
      Represents(tables, state) && state.projects == projects && Sound(state)
    }

    constructor (projects: set<Id>, left: nat)
      ensures Valid() && state == State(projects, map[], map[], map[]) && this.left == left
    {
      this.projects, this.left := projects, left;
      tables, state := Tables(map[], map[], map[], map[]), State(projects, map[], map[], map[]);
    }

    // ---------- statements ----------

    /** BEGIN, a query, or COMMIT. */
    method Execute() returns (ok: bool)
      modifies `left
      ensures ok <==> old(left) > 0
      ensures left == if ok then old(left) - 1 else 0
    {
      ok := left > 0;
      if ok { left := left - 1; }
    }

    method InsertPrompt(id: Id, row: Prompt) returns (r: Statement)
      modifies `tables, `left
      ensures r.Broken? <==> old(left) == 0
      ensures left == if r.Broken? then 0 else old(left) - 1
      ensures r.Violated? <==> old(left) > 0 && PromptClash(old(tables), id, row)
      ensures tables == if r.Done? then old(tables).(prompts := old(tables).prompts[id := row]) else old(tables)
    {
      var ok := Execute();
      if !ok { return Broken; }
      if PromptClash(tables, id, row) { return Violated; }
      tables := tables.(prompts := tables.prompts[id := row]);
      return Done;
    }

    method InsertVersion(id: Id, row: PromptVersion) returns (r: Statement)
      modifies `tables, `left
      ensures r.Broken? <==> old(left) == 0
      ensures left == if r.Broken? then 0 else old(left) - 1
      ensures r.Violated? <==> old(left) > 0 && VersionClash(old(tables), id, row)
      ensures tables == if r.Done? then old(tables).(versions := old(tables).versions[id := row]) else old(tables)
    {
      var ok := Execute();
      if !ok { return Broken; }
      if VersionClash(tables, id, row) { return Violated; }
      tables := tables.(versions := tables.versions[id := row]);
      return Done;
    }

    /** The versions go with the prompt, unless one of them is selected. */
    method DeletePromptRow(prompt: Id) returns (r: Statement)
      modifies `tables, `left
      ensures r.Broken? <==> old(left) == 0
      ensures left == if r.Broken? then 0 else old(left) - 1
      ensures r.Violated? <==> old(left) > 0 && RowsReference(old(tables), prompt)
      ensures tables == if r.Done?
                        then old(tables).(prompts := old(tables).prompts - {prompt},
                                          versions := VersionsWithout(old(tables).versions, prompt))
                        else old(tables)
    {
      var ok := Execute();
      if !ok { return Broken; }
      var versions, pending := tables.versions, tables.versions.Keys;
      while pending != {}
        invariant tables == old(tables) && left == old(left) - 1 && old(left) > 0 && pending <= tables.versions.Keys
        invariant forall v :: v in versions ==> v in tables.versions && versions[v] == tables.versions[v]
        invariant
          forall v :: v in tables.versions ==> (v in versions <==> v in pending || tables.versions[v].prompt != prompt)
        invariant
          forall k :: k in tables.selections && RowSelects(tables, k, prompt) ==> tables.selections[k] in pending
      {
        var v :| v in pending;
        if tables.versions[v].prompt == prompt {
          if k :| k in tables.selections && tables.selections[k] == v {
            assert RowSelects(tables, k, prompt);
            return Violated;
          }
          versions := versions - {v};
        }
        pending := pending - {v};
      }
      assert versions == VersionsWithout(tables.versions, prompt);
      tables := tables.(prompts := tables.prompts - {prompt}, versions := versions);
      return Done;
    }

    method InsertRoot(batch: Id, row: Root) returns (r: Statement)
      modifies `tables, `left
      ensures r.Broken? <==> old(left) == 0
      ensures left == if r.Broken? then 0 else old(left) - 1
      ensures r.Violated? <==> old(left) > 0 && (row.project !in projects || RootClash(old(tables), batch, row))
      ensures tables == if r.Done? then old(tables).(roots := old(tables).roots[batch := row]) else old(tables)
    {
      var ok := Execute();
      if !ok { return Broken; }
      if row.project !in projects || RootClash(tables, batch, row) { return Violated; }
      tables := tables.(roots := tables.roots[batch := row]);
      return Done;
    }

    /** UPDATE … WHERE id = ? AND revision = ?, with the number of rows it found. */
    method UpdateRoot(batch: Id, name: string, expected: int) returns (r: Statement, count: nat)
      modifies `tables, `left
      ensures r == if old(left) == 0 then Broken else Done
      ensures left == if r.Broken? then 0 else old(left) - 1
      ensures
        r.Done? ==>
          count == if batch in old(tables).roots && old(tables).roots[batch].revision == expected then 1 else 0
      ensures tables == if r.Done? && count == 1
                        then old(tables).(roots := old(tables).roots[batch :=
                               old(tables).roots[batch].(name := name,
                                                         revision := old(tables).roots[batch].revision + 1)])
                        else old(tables)
    {
      count := 0;
      var ok := Execute();
      if !ok { return Broken, 0; }
      if batch in tables.roots && tables.roots[batch].revision == expected {
        var row := tables.roots[batch];
        tables := tables.(roots := tables.roots[batch := row.(name := name, revision := row.revision + 1)]);
        count := 1;
      }
      r := Done;
    }

    method DeleteSelections(batch: Id) returns (ok: bool)
      modifies `tables, `left
      ensures ok <==> old(left) > 0
      ensures left == if ok then old(left) - 1 else 0
      ensures !ok ==> tables == old(tables)
      ensures tables == old(tables).(selections := tables.selections)
      ensures
        ok ==> SameElsewhere(old(tables).selections, tables.selections, batch) && HasRows(tables.selections, batch, [])
    {
      ok := Execute();
      if ok {
        tables := tables.(selections := map k | k in tables.selections && k.batch != batch :: tables.selections[k]);
      }
    }

    method InsertSelection(batch: Id, position: nat, version: Id) returns (r: Statement)
      modifies `tables, `left
      ensures r.Broken? <==> old(left) == 0
      ensures left == if r.Broken? then 0 else old(left) - 1
      ensures r.Violated? <==> old(left) > 0 && SelectionClash(old(tables), Key(batch, position), version)
      ensures tables == if r.Done?
                        then old(tables).(selections := old(tables).selections[Key(batch, position) := version])
                        else old(tables)
    {
      var ok := Execute();
      if !ok { return Broken; }
      if SelectionClash(tables, Key(batch, position), version) { return Violated; }
      tables := tables.(selections := tables.selections[Key(batch, position) := version]);
      return Done;
    }

    /** _replace_children, for the prompts. */
    method ReplaceSelections(batch: Id, selections: seq<Selection>) returns (r: Statement)
      requires batch in tables.roots && forall i :: 0 <= i < |selections| ==> selections[i].version in tables.versions
      modifies `tables, `left
      ensures r == if old(left) <= |selections| then Broken else Done
      ensures left == if r.Broken? then 0 else old(left) - |selections| - 1
      ensures tables == old(tables).(selections := tables.selections)
      ensures r.Done? ==> SameElsewhere(old(tables).selections, tables.selections, batch)
      ensures r.Done? ==> HasRows(tables.selections, batch, Selected(selections))
    {
      var ok := DeleteSelections(batch);
      if !ok { return Broken; }
      for i := 0 to |selections|
        invariant old(left) == left + i + 1
        invariant tables == old(tables).(selections := tables.selections)
        invariant SameElsewhere(old(tables).selections, tables.selections, batch)
        invariant HasRows(tables.selections, batch, Selected(selections)[..i])
      {
        var inserted := InsertSelection(batch, i + 1, selections[i].version);
        if !inserted.Done? { return inserted; }
        assert Selected(selections)[..i + 1] == Selected(selections)[..i] + [selections[i].version];
      }
      assert Selected(selections)[..|selections|] == Selected(selections);
      return Done;
    }

    /** _validate_library_selections, for the prompts: one query each, up to the first problem. */
    method CheckSelections(project: Id, selections: seq<Selection>) returns (ok: bool, good: bool)
      requires Valid()
      modifies `left
      ensures !ok ==> left == 0 && old(left) < |selections|
      ensures ok ==> good == AllMatch(state, project, selections) && old(left) >= left >= old(left) - |selections|
    {
      good := true;
      for i := 0 to |selections|
        invariant forall j :: 0 <= j < i ==> Matches(state, project, selections[j])
        invariant old(left) == left + i && good
      {
        ok := Execute();
        if !ok { return false, false; }
        if !Matches(State(projects, tables.prompts, tables.versions, map[]), project, selections[i]) {
          assert !Matches(state, project, selections[i]);
          return true, false;
        }
      }
      ok := true;
    }

    // ---------- transactions ----------

    /** After the commit: reading back what the response shows. */
    method Confirm() returns (answer: Answer)
      modifies `left
      ensures answer == if old(left) == 0 then Unconfirmed else Answered(Ok)
      ensures left == if answer.Unconfirmed? then 0 else old(left) - 1
    {
      var ok := Execute();
      answer := if ok then Answered(Ok) else Unconfirmed;
    }

    /** All or nothing: what the caller is told and what is stored agree. */
    ghost predicate Settled(before: State, c: Call, answer: Answer)
      reads this
    {
      match answer
      case Answered(result) => Outcome(state, result) == Step(before, c)
      case Failed => left == 0 && state == before
      case Unconfirmed => left == 0 && Outcome(state, Ok) == Step(before, c)
    }

    method CreatePrompt(project: Id, prompt: Id, version: Id, name: string, text: string) returns (answer: Answer)
      requires Valid()
      modifies this
      ensures Valid() && Settled(old(state), Call.CreatePrompt(project, prompt, version, name, text), answer)
      ensures old(left) >= 8 ==> answer.Answered?
    {
      if !W.Nonblank(project) || !W.Nonblank(prompt) || !W.Nonblank(version) || !W.Nonblank(name) || !W.Nonblank(text) {
        return Answered(Err(Invalid));
      }
      var saved := tables;
      var ok := Execute();
      if !ok { return Failed; }
      ok := Execute();
      if !ok { return Failed; }
      if project !in projects { return Answered(Err(NotFound)); }
      ok := Execute();
      if !ok { return Failed; }
      if prompt in tables.prompts || PromptNameTaken(State(projects, tables.prompts, map[], map[]), project, name,
                                                     prompt) {
        assert prompt in state.prompts || PromptNameTaken(state, project, name, prompt);
        return Answered(Err(Conflict));
      }
      ok := Execute();
      if !ok { return Failed; }
      if version in tables.versions { return Answered(Err(Conflict)); }
      var inserted := InsertPrompt(prompt, Prompt(project, name));
      if inserted.Done? { inserted := InsertVersion(version, PromptVersion(prompt, 1, name, text)); }
      if !inserted.Done? {
        tables := saved;
        return if inserted.Broken? then Failed else Answered(Err(Conflict));
      }
      ok := Execute();
      if !ok {
        tables := saved;
        return Failed;
      }
      StepSound(state, Call.CreatePrompt(project, prompt, version, name, text));
      state := state.(prompts := tables.prompts, versions := tables.versions);
      answer := Confirm();
    }

    method CreateVersion(prompt: Id, version: Id, text: string) returns (answer: Answer)
      requires Valid()
      modifies this
      ensures Valid() && Settled(old(state), Call.CreateVersion(prompt, version, text), answer)
      ensures old(left) >= 6 ==> answer.Answered?
    {
      if !W.Nonblank(prompt) || !W.Nonblank(text) || !W.Nonblank(version) {
        return Answered(Err(Invalid));
      }
      var saved := tables;
      var ok := Execute();
      if !ok { return Failed; }
      ok := Execute();
      if !ok { return Failed; }
      if prompt !in tables.prompts { return Answered(Err(NotFound)); }
      ok := Execute();
      if !ok { return Failed; }
      var number := S.FindNext(Places(tables.versions), prompt);
      NextIsFree(tables, prompt, number);
      var inserted := InsertVersion(version, PromptVersion(prompt, number, tables.prompts[prompt].name, text));
      if !inserted.Done? {
        tables := saved;
        return if inserted.Broken? then Failed else Answered(Err(Conflict));
      }
      ok := Execute();
      if !ok {
        tables := saved;
        return Failed;
      }
      StepSound(state, Call.CreateVersion(prompt, version, text));
      state := state.(versions := tables.versions);
      answer := Confirm();
    }

    /** The SELECT that looks for a selection of one of the prompt's versions. */
    method Referenced(prompt: Id) returns (found: bool)
      ensures found == RowsReference(tables, prompt)
    {
      var pending := tables.selections.Keys;
      while pending != {}
        invariant pending <= tables.selections.Keys
        invariant forall k :: k in tables.selections && RowSelects(tables, k, prompt) ==> k in pending
      {
        var k :| k in pending;
        if RowSelects(tables, k, prompt) { return true; }
        pending := pending - {k};
      }
      found := false;
    }

    method DeletePrompt(prompt: Id) returns (answer: Answer)
      requires Valid()
      modifies this
      ensures Valid() && Settled(old(state), Call.DeletePrompt(prompt), answer)
      ensures old(left) >= 5 ==> answer.Answered?
    {
      if !W.Nonblank(prompt) {
        return Answered(Err(Invalid));
      }
      var saved := tables;
      var ok := Execute();
      if !ok { return Failed; }
      ok := Execute();
      if !ok { return Failed; }
      if prompt !in tables.prompts { return Answered(Err(NotFound)); }
      ok := Execute();
      if !ok { return Failed; }
      RowsReferenceMeaning(tables, state, prompt);
      var referenced := Referenced(prompt);
      if referenced { return Answered(Err(Error.Referenced)); }
      var deleted := DeletePromptRow(prompt);
      if deleted.Done? { ok := Execute(); }
      if !deleted.Done? || !ok {
        tables := saved;
        return Failed;
      }
      StepSound(state, Call.DeletePrompt(prompt));
      state := state.(prompts := tables.prompts, versions := tables.versions);
      answer := Answered(Ok);
    }

    method Create(project: Id, batch: Id, filesystemKey: string, d: Definition) returns (answer: Answer)
      requires Valid()
      modifies this
      ensures Valid() && Settled(old(state), CreateBatch(project, batch, filesystemKey, d), answer)
      ensures old(left) >= 2 * |d.selections| + 6 ==> answer.Answered?
    {
      hide AllMatch, Sound, HasRows, SameElsewhere;
      if !W.Nonblank(project) || !W.Nonblank(batch) || !ProperDefinition(d) {
        return Answered(Err(Invalid));
      }
      var saved := tables;
      var ok := Execute();
      if !ok { return Failed; }
      ok := Execute();
      if !ok { return Failed; }
      if project !in projects { return Answered(Err(Integrity)); }
      var good;
      ok, good := CheckSelections(project, d.selections);
      if !ok { return Failed; }
      if !good { return Answered(Err(Integrity)); }
      KeyTakenMeaning(tables, state, project, filesystemKey);
      var inserted := InsertRoot(batch, Root(project, filesystemKey, d.name, 1, false));
      if inserted.Violated? {
        tables := saved;
        return Answered(Err(Conflict));
      }
      if inserted.Done? {
        Versions(state, project, d.selections);
        inserted := ReplaceSelections(batch, d.selections);
      }
      if inserted.Done? { ok := Execute(); }
      if !inserted.Done? || !ok {
        tables := saved;
        return Failed;
      }
      var row := Batch(project, filesystemKey, d.name, 1, false, Selected(d.selections));
      OneBatchWritten(saved, tables, state, batch, row);
      StepSound(state, CreateBatch(project, batch, filesystemKey, d));
      state := state.(batches := state.batches[batch := row]);
      answer := Confirm();
    }

    /** The revision is compared by the method, and compared again by the UPDATE; then the old rows go
        and the new ones come. */
    method Update(batch: Id, d: Definition, expected: int) returns (answer: Answer)
      requires Valid()
      modifies this
      ensures Valid() && Settled(old(state), UpdateBatch(batch, d, expected), answer)
      ensures old(left) >= 2 * |d.selections| + 6 ==> answer.Answered?
    {
      hide AllMatch, Sound, HasRows, SameElsewhere;
      if !W.Nonblank(batch) || expected < 1 || !ProperDefinition(d) {
        return Answered(Err(Invalid));
      }
      var saved := tables;
      var ok := Execute();
      if !ok { return Failed; }
      ok := Execute();
      if !ok { return Failed; }
      if batch !in tables.roots { return Answered(Err(NotFound)); }
      var current := tables.roots[batch];
      if current.revision != expected { return Answered(Err(Conflict)); }
      var good;
      ok, good := CheckSelections(current.project, d.selections);
      if !ok { return Failed; }
      if !good { return Answered(Err(Integrity)); }
      var updated, count := UpdateRoot(batch, d.name, expected);
      if updated.Done? && count == 1 {
        Versions(state, current.project, d.selections);
        updated := ReplaceSelections(batch, d.selections);
      }
      if updated.Done? && count == 1 { ok := Execute(); }
      if !updated.Done? || count != 1 || !ok {
        tables := saved;
        return if updated.Done? && count != 1 then Answered(Err(Conflict)) else Failed;
      }
      var b := state.batches[batch];
      var row := b.(name := d.name, revision := b.revision + 1, selected := Selected(d.selections));
      OneBatchWritten(saved, tables, state, batch, row);
      StepSound(state, UpdateBatch(batch, d, expected));
      state := state.(batches := state.batches[batch := row]);
      answer := Confirm();
    }

    /** UPDATE … WHERE archived_at IS NULL; that it found no row means either of two things. */
    method Archive(batch: Id) returns (answer: Answer)
      requires Valid()
      modifies this
      ensures Valid() && Settled(old(state), ArchiveBatch(batch), answer)
      ensures old(left) >= 5 ==> answer.Answered?
    {
      hide Sound, HasRows, SameElsewhere;
      if !W.Nonblank(batch) {
        return Answered(Err(Invalid));
      }
      var saved := tables;
      var ok := Execute();
      if !ok { return Failed; }
      ok := Execute();
      if !ok { return Failed; }
      var found := batch in tables.roots && !tables.roots[batch].archived;
      if found {
        var row := tables.roots[batch];
        tables := tables.(roots := tables.roots[batch := row.(archived := true, revision := row.revision + 1)]);
      } else {
        ok := Execute();
        if !ok { return Failed; }
        if batch !in tables.roots { return Answered(Err(NotFound)); }
      }
      ok := Execute();
      if !ok {
        tables := saved;
        return Failed;
      }
      if found {
        var b := state.batches[batch];
        var row := b.(archived := true, revision := b.revision + 1);
        SameRows(tables.selections, batch);
        OneBatchWritten(saved, tables, state, batch, row);
        StepSound(state, ArchiveBatch(batch));
        state := state.(batches := state.batches[batch := row]);
      }
      answer := Confirm();
    }

    /** The loader's query, in position order. */
    method LoadSelections(batch: Id) returns (loaded: seq<Selection>)
      requires Valid() && batch in state.batches
      ensures loaded == Load(state, state.batches[batch].selected)
      ensures |loaded| == |state.batches[batch].selected|
    {
      ghost var ids := state.batches[batch].selected;
      loaded := [];
      var position := 1;
      while Key(batch, position) in tables.selections
        invariant 1 <= position <= |ids| + 1 && HasRows(tables.selections, batch, ids)
        invariant loaded == Load(state, ids[..position - 1])
        decreases |ids| - position
      {
        var version := tables.selections[Key(batch, position)];
        assert ids[..position][..position - 1] == ids[..position - 1];
        if version in tables.versions && tables.versions[version].prompt in tables.prompts {
          loaded := loaded + [Selection(version, tables.versions[version].nameSnapshot, tables.versions[version].text)];
        }
        position := position + 1;
      }
      assert ids[..position - 1] == ids;
      SoundResolves(state, batch);
      LoadKeepsAll(state, state.batches[batch]);
    }
  }
}
