/** When a history request is refused, what a cursor is good for, and which rows a page can show. */
module HistoryCursors {
  import opened Common
  import opened Keyset
  import opened HistoryTables
  import opened HistoryFilters
  import opened HistoryQuery

  // ---------- which rows there are ----------

  lemma {:induction false} RunSourceExactly(runs: seq<RunRow>, c: Candidate)
    ensures c in RunSource(runs) <==> c.run in runs && c.result.None?
  {
    if runs != [] {
      RunSourceExactly(runs[1..], c);
      assert runs == [runs[0]] + runs[1..];
    }
  }

  /** The result belongs to the run. */
  predicate BelongsTo(result: ResultRow, run: RunRow) { result.projectId == run.projectId && result.runId == run.runId }

  lemma {:induction false} ResultsOfExactly(run: RunRow, results: seq<ResultRow>, c: Candidate)
    ensures c in ResultsOf(run, results) <==>
      c.run == run && c.result.Some? && c.result.value in results && BelongsTo(c.result.value, run)
  {
    if results != [] {
      ResultsOfExactly(run, results[1..], c);
      assert results == [results[0]] + results[1..];
    }
  }

  lemma {:induction false} JoinSourceExactly(runs: seq<RunRow>, results: seq<ResultRow>, c: Candidate)
    ensures c in JoinSource(runs, results) <==>
      c.run in runs && c.result.Some? && c.result.value in results && BelongsTo(c.result.value, c.run)
  {
    if runs != [] {
      ResultsOfExactly(runs[0], results, c);
      JoinSourceExactly(runs[1..], results, c);
      assert runs == [runs[0]] + runs[1..];
    }
  }

  /** A run by itself, or a result with its own run. */
  predicate Exists(tables: Tables, kind: Kind, c: Candidate) {
    && c.run in tables.runs
    && match c.result
       case None => kind.Runs?
       case Some(result) => kind.Results? && result in tables.results && BelongsTo(result, c.run)
  }

  lemma {:induction false} VisibleRowsExactly(projectId: string, query: Query, kind: Kind, tables: Tables,
                                              source: seq<Candidate>, row: Row)
    ensures row in VisibleRows(projectId, query, kind, tables, source) <==>
      exists c :: c in source && Visible(projectId, query, kind, tables, c) && row == RowOf(query.sort, kind, c)
  {
    hide Visible;
    if source != [] {
      VisibleRowsExactly(projectId, query, kind, tables, source[1..], row);
      assert source == [source[0]] + source[1..];
    }
  }

  /** The rows that a query lists are those of the runs, or results, that it asks to see. */
  lemma ListedExactly(projectId: string, query: Query, kind: Kind, tables: Tables, row: Row)
    ensures row in Rows(projectId, query, kind, tables) <==>
      exists c :: Exists(tables, kind, c) && Visible(projectId, query, kind, tables, c)
                  && row == RowOf(query.sort, kind, c)
  {
    hide Visible, RowOf;
    VisibleRowsExactly(projectId, query, kind, tables, Source(tables, kind), row);
    forall c ensures c in Source(tables, kind) <==> Exists(tables, kind, c) {
      if kind.Runs? { RunSourceExactly(tables.runs, c); } else { JoinSourceExactly(tables.runs, tables.results, c); }
    }
  }

  // ---------- when a request is refused ----------

  /** Filters need provenance of the very generation that is read. */
  predicate NeedsReindex(snapshot: Snapshot, query: Query) {
    query.filters != NO_FILTERS
    && (snapshot.generation.None? || snapshot.provenanceGeneration != Some(snapshot.generation.value))
  }

  /** The cursor was made for this project, this kind and this query, whatever the page size. */
  predicate IssuedFor(c: Cursor, projectId: string, query: Query, kind: Kind) {
    && c.binding.projectId == projectId && c.binding.kind == kind
    && c.binding.sort == query.sort && c.binding.q == query.q
    && c.binding.runId == query.runId && c.binding.batchId == query.batchId
    && c.binding.status == query.status && c.binding.available == query.available
    && c.binding.filters == query.filters
    && c.binding.generation == c.generation
  }

  /** The row it ended at is still there and still asked for. */
  ghost predicate StillListed(snapshot: Snapshot, projectId: string, query: Query, kind: Kind, rowid: int) {
    exists c :: Exists(snapshot.tables, kind, c) && Visible(projectId, query, kind, snapshot.tables, c)
                && Bookmark(c) == Num(rowid)
  }

  lemma FoundExactly(snapshot: Snapshot, projectId: string, query: Query, kind: Kind, rowid: int)
    ensures Find(Rows(projectId, query, kind, snapshot.tables), rowid).Some? <==>
      StillListed(snapshot, projectId, query, kind, rowid)
  {
    hide Visible, Exists, Rows, Find, KeyOf;
    var rows := Rows(projectId, query, kind, snapshot.tables);
    FindMeaning(rows, rowid);
    if Find(rows, rowid).Some? {
      var row := Find(rows, rowid).value;
      ListedExactly(projectId, query, kind, snapshot.tables, row);
      var c :| Exists(snapshot.tables, kind, c) && Visible(projectId, query, kind, snapshot.tables, c)
               && row == RowOf(query.sort, kind, c);
    }
    if c :| Exists(snapshot.tables, kind, c) && Visible(projectId, query, kind, snapshot.tables, c)
            && Bookmark(c) == Num(rowid) {
      ListedExactly(projectId, query, kind, snapshot.tables, RowOf(query.sort, kind, c));
      assert RowOf(query.sort, kind, c) in rows;
    }
  }

  /** Each refusal happens exactly when its own condition holds and none before it does. */
  lemma RefusedExactly(snapshot: Snapshot, projectId: string, query: Query, kind: Kind)
    requires query.limit >= 1
    ensures var answer := Answer(snapshot, projectId, query, kind);
      var reindex := NeedsReindex(snapshot, query);
      var foreign := query.cursor.Some? && !IssuedFor(query.cursor.value, projectId, query, kind);
      var changed := query.cursor.Some? && query.cursor.value.generation != snapshot.generation;
      var lost := query.cursor.Some? && !StillListed(snapshot, projectId, query, kind, query.cursor.value.rowid);
      && (answer == Err(ReindexRequired) <==> reindex)
      && (answer == Err(CursorMismatch) <==> !reindex && foreign)
      && (answer == Err(GenerationChanged) <==> !reindex && !foreign && changed)
      && (answer == Err(BookmarkMissing) <==> !reindex && !foreign && !changed && lost)
      && (answer.Ok? <==> !reindex && !foreign && !changed && !lost)
  {
    if query.cursor.Some? { FoundExactly(snapshot, projectId, query, kind, query.cursor.value.rowid); }
    hide Rows, StillListed, Find, Fetch;
  }

  // ---------- what an accepted request gives ----------

  /** The row that a cursor ended at, with its key. */
  ghost predicate EndedAt(cursor: Option<Cursor>, after: Option<Key>, rows: seq<Row>) {
    if cursor.None? then after.None?
    else after.Some? && exists row :: row in rows && row.item == Num(cursor.value.rowid) && row.key == after.value
  }

  /** An accepted request answers with the page behind its cursor's row, and with a cursor for this query
      and this generation that ends at the last row of the page, exactly if rows remain. */
  lemma AcceptedIsPage(snapshot: Snapshot, projectId: string, query: Query, kind: Kind, after: Option<Key>)
    requires query.limit >= 1 && TablesOk(snapshot.tables) && Answer(snapshot, projectId, query, kind).Ok?
    requires EndedAt(query.cursor, after, Rows(projectId, query, kind, snapshot.tables))
    ensures var answer, page := Answer(snapshot, projectId, query, kind),
                                Fetch(Rows(projectId, query, kind, snapshot.tables), after, query.limit);
      && answer.rows == page.items && answer.generation == snapshot.generation
      && (answer.next.Some? <==> page.next.Some?)
      && (answer.next.Some? ==> |page.items| == query.limit
                                && page.items[query.limit - 1].item == Num(answer.next.value.rowid)
                                && IssuedFor(answer.next.value, projectId, query, kind)
                                && answer.next.value.generation == snapshot.generation)
  {
    var rows := Rows(projectId, query, kind, snapshot.tables);
    RowsUnique(projectId, query, kind, snapshot.tables);
    hide Rows;
    if query.cursor.Some? {
      var row :| row in rows && row.item == Num(query.cursor.value.rowid) && row.key == after.value;
      FindUnique(rows, row);
    }
    PageAnswered(rows, after, query.limit, snapshot.generation, BindingOf(projectId, kind, query, snapshot.generation));
    hide Fetch, Find, UniqueKeys, UniqueItems, TablesOk, PageResult;
  }

  /** A page and its continuation as an answer. */
  lemma PageAnswered(rows: seq<Row>, after: Option<Key>, limit: nat, generation: Option<string>, binding: Binding)
    requires limit >= 1 && UniqueKeys(rows) && forall row :: row in rows ==> row.item.Num?
    ensures var page := Fetch(rows, after, limit);
      var answer := PageResult(page, generation, binding);
      && answer.Ok? && answer.rows == page.items && answer.generation == generation
      && (answer.next.Some? <==> page.next.Some?)
      && (answer.next.Some? ==> |page.items| == limit && page.items[limit - 1].item == Num(answer.next.value.rowid)
                                && answer.next.value.binding == binding && answer.next.value.generation == generation)
  {
    LastItem(rows, after, limit);
    hide Fetch, UniqueKeys;
  }

  /** A cursor sent with anything but the query, kind and project that it was issued for is refused, in
      whatever generation; another page size is no difference. */
  lemma ForeignCursorRefused(issued: Snapshot, projectA: string, queryA: Query, kindA: Kind,
                             now: Snapshot, projectB: string, queryB: Query, kindB: Kind)
    requires queryA.limit >= 1 && queryB.limit >= 1 && TablesOk(issued.tables)
    requires Answer(issued, projectA, queryA, kindA).Ok? && Answer(issued, projectA, queryA, kindA).next.Some?
    requires queryB.cursor == Answer(issued, projectA, queryA, kindA).next
    ensures var same := projectA == projectB && kindA == kindB
                        && queryB == queryA.(limit := queryB.limit, cursor := queryB.cursor);
      var answer := Answer(now, projectB, queryB, kindB);
      && (!same ==> answer == Err(if NeedsReindex(now, queryB) then ReindexRequired else CursorMismatch))
      && (same ==> answer != Err(CursorMismatch))
      && (same && answer.Ok? ==> now.generation == issued.generation)
  {
    IssuedCursor(issued, projectA, queryA, kindA);
    RefusedExactly(now, projectB, queryB, kindB);
    hide Answer;
  }

  lemma IssuedCursor(snapshot: Snapshot, projectId: string, query: Query, kind: Kind)
    requires query.limit >= 1 && TablesOk(snapshot.tables)
    requires Answer(snapshot, projectId, query, kind).Ok? && Answer(snapshot, projectId, query, kind).next.Some?
    ensures var c := Answer(snapshot, projectId, query, kind).next.value;
      IssuedFor(c, projectId, query, kind) && c.generation == snapshot.generation
  {
    var rows := Rows(projectId, query, kind, snapshot.tables);
    hide Rows, Fetch;
    var after: Option<Key> := None;
    if query.cursor.Some? {
      FindMeaning(rows, query.cursor.value.rowid);
      after := Some(Find(rows, query.cursor.value.rowid).value.key);
    }
    AcceptedIsPage(snapshot, projectId, query, kind, after);
  }
}
