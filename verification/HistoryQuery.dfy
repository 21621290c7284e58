/** Browsing the committed projection: SQL assembly, cursor checks, and page traversal. */
module HistoryQuery {
  import opened Common
  import opened Keyset
  import opened HistoryTables
  import opened HistoryFilters

  datatype Query = Query(
    limit: nat, cursor: Option<Cursor>, sort: Sort, q: string,
    runId: Option<string>, batchId: Option<string>, status: Option<string>, available: Option<bool>, filters: Filters)

  /** The digest in a cursor, as the injective list of what it covers. The page size is not in it. */
  datatype Binding = Binding(
    projectId: string, kind: Kind, sort: Sort, q: string,
    runId: Option<string>, batchId: Option<string>, status: Option<string>, available: Option<bool>,
    generation: Option<string>, filters: Filters)

  datatype Cursor = Cursor(binding: Binding, generation: Option<string>, rowid: int)

  datatype Error = ReindexRequired | CursorMismatch | GenerationChanged | BookmarkMissing

  datatype Result = Ok(rows: seq<Row>, generation: Option<string>, next: Option<Cursor>) | Err(error: Error)

  /** One read transaction's view of one project. */
  datatype Snapshot = Snapshot(generation: Option<string>, provenanceGeneration: Option<string>, tables: Tables)

  function BindingOf(projectId: string, kind: Kind, query: Query, generation: Option<string>): Binding {
    Binding(projectId, kind, query.sort, query.q, query.runId, query.batchId, query.status, query.available,
            generation, query.filters)
  }

  // ---------- what is listed ----------

  /** FROM historical_run r [JOIN historical_result a USING (project_id, run_id)]. */
  function Source(tables: Tables, kind: Kind): seq<Candidate> {
    if kind.Runs? then RunSource(tables.runs) else JoinSource(tables.runs, tables.results)
  }

  function RunSource(runs: seq<RunRow>): seq<Candidate> {
    if runs == [] then [] else [Candidate(runs[0], None)] + RunSource(runs[1..])
  }

  function JoinSource(runs: seq<RunRow>, results: seq<ResultRow>): seq<Candidate> {
    if runs == [] then [] else ResultsOf(runs[0], results) + JoinSource(runs[1..], results)
  }

  function ResultsOf(run: RunRow, results: seq<ResultRow>): seq<Candidate> {
    if results == [] then []
    else (if results[0].projectId == run.projectId && results[0].runId == run.runId
          then [Candidate(run, Some(results[0]))] else []) + ResultsOf(run, results[1..])
  }

  function Bookmark(c: Candidate): Atom { Num(if c.result.Some? then c.result.value.rowid else c.run.rowid) }

  function RowOf(sort: Sort, kind: Kind, c: Candidate): Row { Row(KeyOf(sort, kind, c), Bookmark(c)) }

  /** What a query asks to see, without SQL. */
  predicate Visible(projectId: string, query: Query, kind: Kind, tables: Tables, c: Candidate) {
    && c.run.projectId == projectId
    && FilterHolds(query.filters, tables, c, kind.Results?)
    && (query.runId.Some? ==> c.run.runId == query.runId.value)
    && (query.batchId.Some? ==> c.run.batchId == query.batchId.value)
    && (query.status.Some? ==> c.run.status == query.status)
    && (query.available.Some? ==> c.run.available == query.available.value)
    && (query.q != "" ==> NameOrDescriptionContains(c.run, query.q))
  }

  predicate NameOrDescriptionContains(run: RunRow, q: string) {
    || (run.name.Some? && Contains(Lower(run.name.value), Lower(q)))
    || (run.description.Some? && Contains(Lower(run.description.value), Lower(q)))
  }

  function VisibleRows(projectId: string, query: Query, kind: Kind, tables: Tables, source: seq<Candidate>): seq<Row> {
    if source == [] then []
    else (if Visible(projectId, query, kind, tables, source[0])
          then [RowOf(query.sort, kind, source[0])] else []) + VisibleRows(projectId, query, kind, tables, source[1..])
  }

  /** Filter, sort, list everything. */
  function Listing(projectId: string, query: Query, kind: Kind, tables: Tables): seq<Row> {
    Ordered(VisibleRows(projectId, query, kind, tables, Source(tables, kind)))
  }

  /** Database keys: run_id is the primary key of runs, (run_id, job_ordinal, artifact_ordinal) is
      unique among results, and rowids are unique. */
  ghost predicate TablesOk(tables: Tables) {
    && (forall i, j :: 0 <= i < j < |tables.runs| ==>
          tables.runs[i].runId != tables.runs[j].runId && tables.runs[i].rowid != tables.runs[j].rowid)
    && (forall i, j :: 0 <= i < j < |tables.results| ==>
          !SameArtifact(tables.results[i], tables.results[j]) && tables.results[i].rowid != tables.results[j].rowid)
  }

  predicate SameArtifact(a: ResultRow, b: ResultRow) {
    a.runId == b.runId && a.jobOrdinal == b.jobOrdinal && a.artifactOrdinal == b.artifactOrdinal
  }

  // ---------- the order of the listing ----------

  /** The order a reader sees: known timestamps before unknown ones whichever way the list is
      sorted, then by time in the requested direction, then run, job and artifact. */
  predicate Earlier(sort: Sort, a: Candidate, b: Candidate) {
    if a.run.stamp.Some? != b.run.stamp.Some? then a.run.stamp.Some?
    else if a.run.stamp != b.run.stamp then
      (if sort.Newest? then a.run.stamp.value > b.run.stamp.value else a.run.stamp.value < b.run.stamp.value)
    else if a.run.runId != b.run.runId then TextLess(a.run.runId, b.run.runId)
    else if a.result.None? || b.result.None? then false
    else if a.result.value.jobOrdinal != b.result.value.jobOrdinal then
      a.result.value.jobOrdinal < b.result.value.jobOrdinal
    else a.result.value.artifactOrdinal < b.result.value.artifactOrdinal
  }

  lemma KeyLessStep(a: Key, b: Key)
    requires a != [] && b != []
    ensures KeyLess(a, b) <==> AtomLess(a[0], b[0]) || (a[0] == b[0] && KeyLess(a[1..], b[1..]))
  {
  }

  lemma KeyOrderIsReadingOrder(sort: Sort, kind: Kind, a: Candidate, b: Candidate)
    requires a.result.Some? == b.result.Some? == kind.Results?
    ensures KeyLess(KeyOf(sort, kind, a), KeyOf(sort, kind, b)) <==> Earlier(sort, a, b)
  {
    var x, y := KeyOf(sort, kind, a), KeyOf(sort, kind, b);
    KeyLessStep(x, y);
    KeyLessStep(x[1..], y[1..]);
    KeyLessStep(x[2..], y[2..]);
    assert x[1..][1..] == x[2..] && y[1..][1..] == y[2..] && x[2..][1..] == x[3..] && y[2..][1..] == y[3..];
    TextOrder(a.run.runId, b.run.runId);
    if kind.Results? {
      KeyLessStep(x[3..], y[3..]);
      assert x[3..][1..] == x[4..] && y[3..][1..] == y[4..];
      KeyLessStep(x[4..], y[4..]);
      assert x[4..][1..] == [] && y[4..][1..] == [];
    } else {
      assert x[3..] == [] && y[3..] == [];
    }
  }

  // ---------- assembling and running the query ----------

  /** SELECT ... WHERE predicates, before ORDER BY and LIMIT. */
  function Select(cs: seq<Condition>, args: seq<Value>, sort: Sort, kind: Kind, tables: Tables,
                  source: seq<Candidate>): seq<Row>
    requires |args| == Arities(cs)
  {
    if source == [] then []
    else (if EvalAll(cs, args, tables, source[0])
          then [RowOf(sort, kind, source[0])] else []) + Select(cs, args, sort, kind, tables, source[1..])
  }

  /** fetchone() of the row with this bookmark. */
  function Find(rows: seq<Row>, rowid: int): Option<Row> {
    if rows == [] then None else if rows[0].item == Num(rowid) then Some(rows[0]) else Find(rows[1..], rowid)
  }

  function ColumnClauses(query: Query): (bs: seq<Bound>)
    ensures Fits(bs)
  {
    WhenCondition(query.runId.Some?, RunColumnIs(RunIdColumn), [Argument(query.runId)])
    + WhenCondition(query.batchId.Some?, RunColumnIs(BatchIdColumn), [Argument(query.batchId)])
    + WhenCondition(query.status.Some?, RunColumnIs(StatusColumn), [Argument(query.status)])
    + WhenCondition(query.available.Some?, RunColumnIs(AvailableColumn), [FlagArgument(query.available)])
  }

  function FlagArgument(v: Option<bool>): Value { if v.Some? then BoolColumn(v.value) else Null }

  function AllClauses(projectId: string, query: Query, kind: Kind): (bs: seq<Bound>)
    ensures Fits(bs)
  {
    FitsAppend([Bound(ProjectIs, [Plain(Text(projectId))])], Clauses(query.filters, kind.Results?));
    FitsAppend([Bound(ProjectIs, [Plain(Text(projectId))])] + Clauses(query.filters, kind.Results?),
               ColumnClauses(query));
    [Bound(ProjectIs, [Plain(Text(projectId))])] + Clauses(query.filters, kind.Results?) + ColumnClauses(query)
    + WhenCondition(query.q != "", TextFound, [Plain(Text(query.q)), Plain(Text(query.q))])
  }

  lemma FitsAppend(a: seq<Bound>, b: seq<Bound>)
    requires Fits(a) && Fits(b)
    ensures Fits(a + b)
  {
  }

  lemma ColumnMeaning(query: Query, tables: Tables, row: Candidate)
    ensures Holds(ColumnClauses(query), tables, row) <==>
      (&& (query.runId.Some? ==> row.run.runId == query.runId.value)
       && (query.batchId.Some? ==> row.run.batchId == query.batchId.value)
       && (query.status.Some? ==> row.run.status == query.status)
       && (query.available.Some? ==> row.run.available == query.available.value))
  {
    hide Holds, WhenCondition;
    var a := WhenCondition(query.runId.Some?, RunColumnIs(RunIdColumn), [Argument(query.runId)]);
    var b := WhenCondition(query.batchId.Some?, RunColumnIs(BatchIdColumn), [Argument(query.batchId)]);
    var c := WhenCondition(query.status.Some?, RunColumnIs(StatusColumn), [Argument(query.status)]);
    var d := WhenCondition(query.available.Some?, RunColumnIs(AvailableColumn), [FlagArgument(query.available)]);
    HoldsAppend(a, b, tables, row);
    HoldsAppend(a + b, c, tables, row);
    HoldsAppend(a + b + c, d, tables, row);
    WhenConditionMeaning(query.runId.Some?, RunColumnIs(RunIdColumn), [Argument(query.runId)], tables, row);
    WhenConditionMeaning(query.batchId.Some?, RunColumnIs(BatchIdColumn), [Argument(query.batchId)], tables, row);
    WhenConditionMeaning(query.status.Some?, RunColumnIs(StatusColumn), [Argument(query.status)], tables, row);
    WhenConditionMeaning(query.available.Some?, RunColumnIs(AvailableColumn), [FlagArgument(query.available)], tables,
                         row);
  }

  /** The assembled WHERE clause selects exactly what the query asks to see. */
  lemma WhereIsVisible(projectId: string, query: Query, kind: Kind, tables: Tables, row: Candidate)
    ensures Holds(AllClauses(projectId, query, kind), tables, row) <==> Visible(projectId, query, kind, tables, row)
  {
    var p := [Bound(ProjectIs, [Plain(Text(projectId))])];
    var f := Clauses(query.filters, kind.Results?);
    var t := WhenCondition(query.q != "", TextFound, [Plain(Text(query.q)), Plain(Text(query.q))]);
    HoldsAppend(p, f, tables, row);
    HoldsAppend(p + f, ColumnClauses(query), tables, row);
    HoldsAppend(p + f + ColumnClauses(query), t, tables, row);
    assert p[0] == Bound(ProjectIs, [Plain(Text(projectId))]);
    assert Holds(p, tables, row) <==> row.run.projectId == projectId;
    hide Holds, Clauses, ColumnClauses, WhenCondition, FilterHolds;
    ClausesMeaning(query.filters, kind.Results?, tables, row);
    ColumnMeaning(query, tables, row);
    WhenConditionMeaning(query.q != "", TextFound, [Plain(Text(query.q)), Plain(Text(query.q))], tables, row);
  }

  lemma {:induction false} SelectIsVisible(projectId: string, query: Query, kind: Kind, tables: Tables,
                                           source: seq<Candidate>)
    ensures var bs := AllClauses(projectId, query, kind);
      && |Arguments(bs)| == Arities(Conditions(bs))
      && Select(Conditions(bs), Arguments(bs), query.sort, kind, tables, source) ==
           VisibleRows(projectId, query, kind, tables, source)
  {
    var bs := AllClauses(projectId, query, kind);
    ClauseLengths(bs);
    if source != [] {
      Positions(bs, tables, source[0]);
      WhereIsVisible(projectId, query, kind, tables, source[0]);
      assert Holds(bs, tables, source[0]) <==> EvalAll(Conditions(bs), Arguments(bs), tables, source[0]);
      SelectIsVisible(projectId, query, kind, tables, source[1..]);
    }
  }

  function KeyValues(key: Key): (vs: seq<Value>)
    ensures |vs| == |key|
  {
    seq(|key|, i requires 0 <= i < |key| => Plain(key[i]))
  }

  /** Appending `(keys) > (?, ..., ?)` and the bookmark's key keeps exactly the rows after it. */
  lemma {:induction false} SelectAfter(bs: seq<Bound>, key: Key, sort: Sort, kind: Kind, tables: Tables,
                                       source: seq<Candidate>)
    requires Fits(bs) && |key| == KeyWidth(kind)
    ensures var cs, args := Conditions(bs) + [KeyAfter(sort, kind)], Arguments(bs) + KeyValues(key);
      && |Arguments(bs)| == Arities(Conditions(bs)) && |args| == Arities(cs)
      && Select(cs, args, sort, kind, tables, source)
         == Beyond(Select(Conditions(bs), Arguments(bs), sort, kind, tables, source), Some(key))
  {
    var b := Bound(KeyAfter(sort, kind), KeyValues(key));
    Append(bs, [b]);
    ClauseLengths(bs);
    ClauseLengths(bs + [b]);
    assert Conditions([b]) == [KeyAfter(sort, kind)] && Arguments([b]) == KeyValues(key);
    var cs, args := Conditions(bs + [b]), Arguments(bs + [b]);
    if source != [] {
      SelectAfter(bs, key, sort, kind, tables, source[1..]);
      AfterOneRow(bs, key, sort, kind, tables, source[0]);
      var head := RowOf(sort, kind, source[0]);
      var rest := Select(Conditions(bs), Arguments(bs), sort, kind, tables, source[1..]);
      assert ([head] + rest)[1..] == rest;
      assert [] + rest == rest;
    }
  }

  lemma AfterHolds(key: Key, sort: Sort, kind: Kind, tables: Tables, row: Candidate)
    requires |key| == KeyWidth(kind)
    ensures var b := Bound(KeyAfter(sort, kind), KeyValues(key));
      && Fits([b]) && Conditions([b]) == [KeyAfter(sort, kind)] && Arguments([b]) == KeyValues(key)
      && (Holds([b], tables, row) <==> KeyLess(key, KeyOf(sort, kind, row)))
  {
    hide KeyLess;
    var b := Bound(KeyAfter(sort, kind), KeyValues(key));
    assert Atoms(KeyValues(key)) == key;
    assert [b][0] == b;
  }

  lemma AfterOneRow(bs: seq<Bound>, key: Key, sort: Sort, kind: Kind, tables: Tables, row: Candidate)
    requires Fits(bs) && |key| == KeyWidth(kind)
    requires |Arguments(bs)| == Arities(Conditions(bs))
    requires |Arguments(bs) + KeyValues(key)| == Arities(Conditions(bs) + [KeyAfter(sort, kind)])
    ensures EvalAll(Conditions(bs) + [KeyAfter(sort, kind)], Arguments(bs) + KeyValues(key), tables, row)
      <==> EvalAll(Conditions(bs), Arguments(bs), tables, row) && KeyLess(key, KeyOf(sort, kind, row))
  {
    var b := Bound(KeyAfter(sort, kind), KeyValues(key));
    AfterHolds(key, sort, kind, tables, row);
    hide KeyLess, KeyOf, KeyValues, EvalAll, Holds;
    Append(bs, [b]);
    Positions(bs, tables, row);
    Positions(bs + [b], tables, row);
    HoldsAppend(bs, [b], tables, row);
    assert Holds(bs, tables, row) <==> EvalAll(Conditions(bs), Arguments(bs), tables, row);
  }

  // ---------- keys and bookmarks identify rows ----------

  predicate Differ(a: Candidate, b: Candidate) {
    && Bookmark(a) != Bookmark(b)
    && (a.run.runId != b.run.runId
        || (a.result.Some? && b.result.Some?
            && (a.result.value.jobOrdinal != b.result.value.jobOrdinal
                || a.result.value.artifactOrdinal != b.result.value.artifactOrdinal)))
  }

  ghost predicate Distinct(source: seq<Candidate>) {
    forall i, j :: 0 <= i < j < |source| ==> Differ(source[i], source[j])
  }

  ghost predicate ShapedAs(source: seq<Candidate>, kind: Kind) {
    forall c :: c in source ==> c.result.Some? == kind.Results?
  }

  ghost predicate ResultsOk(results: seq<ResultRow>) {
    forall i, j :: 0 <= i < j < |results| ==>
      !SameArtifact(results[i], results[j]) && results[i].rowid != results[j].rowid
  }

  ghost predicate RunsOk(runs: seq<RunRow>) {
    forall i, j :: 0 <= i < j < |runs| ==> runs[i].runId != runs[j].runId && runs[i].rowid != runs[j].rowid
  }

  lemma {:induction false} RunSourceDistinct(runs: seq<RunRow>)
    requires RunsOk(runs)
    ensures |RunSource(runs)| == |runs|
    ensures forall i :: 0 <= i < |runs| ==> RunSource(runs)[i] == Candidate(runs[i], None)
    ensures Distinct(RunSource(runs)) && ShapedAs(RunSource(runs), Runs)
  {
    if runs != [] {
      var tail := runs[1..];
      assert forall i :: 0 <= i < |tail| ==> tail[i] == runs[i + 1];
      RunSourceDistinct(tail);
    }
  }

  lemma {:induction false} ResultsOfDistinct(run: RunRow, results: seq<ResultRow>)
    requires ResultsOk(results)
    ensures forall c :: c in ResultsOf(run, results) ==>
      c.run == run && c.result.Some? && c.result.value in results && c.result.value.runId == run.runId
    ensures Distinct(ResultsOf(run, results))
  {
    if results != [] {
      var head, tail := results[0], results[1..];
      assert forall i :: 0 <= i < |tail| ==> tail[i] == results[i + 1];
      ResultsOfDistinct(run, tail);
      var rest := ResultsOf(run, tail);
      forall j | 0 <= j < |rest| && head.runId == run.runId ensures Differ(Candidate(run, Some(head)), rest[j]) {
        assert rest[j] in rest;
        var k :| 0 <= k < |tail| && tail[k] == rest[j].result.value;
        assert results[k + 1] == tail[k];
      }
      assert results == [head] + tail;
    }
  }

  lemma {:induction false} JoinSourceDistinct(runs: seq<RunRow>, results: seq<ResultRow>)
    requires RunsOk(runs) && ResultsOk(results)
    ensures forall c :: c in JoinSource(runs, results) ==>
      c.run in runs && c.result.Some? && c.result.value in results && c.result.value.runId == c.run.runId
    ensures Distinct(JoinSource(runs, results)) && ShapedAs(JoinSource(runs, results), Results)
  {
    if runs != [] {
      var tail := runs[1..];
      assert forall i :: 0 <= i < |tail| ==> tail[i] == runs[i + 1];
      ResultsOfDistinct(runs[0], results);
      JoinSourceDistinct(tail, results);
      var a, b := ResultsOf(runs[0], results), JoinSource(tail, results);
      forall i, j | 0 <= i < |a| && 0 <= j < |b| ensures Differ(a[i], b[j]) {
        assert a[i] in a && b[j] in b;
        var k :| 0 <= k < |tail| && tail[k] == b[j].run;
        assert runs[k + 1] == b[j].run;
      }
      assert runs == [runs[0]] + tail;
    }
  }

  lemma SourceDistinct(tables: Tables, kind: Kind)
    requires TablesOk(tables)
    ensures Distinct(Source(tables, kind)) && ShapedAs(Source(tables, kind), kind)
  {
    if kind.Runs? { RunSourceDistinct(tables.runs); } else { JoinSourceDistinct(tables.runs, tables.results); }
  }

  ghost predicate UniqueItems(rows: seq<Row>) { forall i, j :: 0 <= i < j < |rows| ==> rows[i].item != rows[j].item }

  lemma DifferentRows(sort: Sort, kind: Kind, a: Candidate, b: Candidate)
    requires Differ(a, b) && a.result.Some? == b.result.Some? == kind.Results?
    ensures KeyOf(sort, kind, a) != KeyOf(sort, kind, b) && RowOf(sort, kind, a).item != RowOf(sort, kind, b).item
  {
    var x, y := KeyOf(sort, kind, a), KeyOf(sort, kind, b);
    assert x[2] == Text(a.run.runId) && y[2] == Text(b.run.runId);
    if kind.Results? {
      assert x[3] == Num(a.result.value.jobOrdinal) && y[3] == Num(b.result.value.jobOrdinal);
      assert x[4] == Num(a.result.value.artifactOrdinal) && y[4] == Num(b.result.value.artifactOrdinal);
    }
  }

  ghost predicate IsRowOf(row: Row, sort: Sort, kind: Kind, source: seq<Candidate>) {
    exists c :: c in source && row == RowOf(sort, kind, c)
  }

  lemma {:induction false} VisibleRowsUnique(projectId: string, query: Query, kind: Kind, tables: Tables,
                                             source: seq<Candidate>)
    requires Distinct(source) && ShapedAs(source, kind)
    ensures
      forall row ::
        row in VisibleRows(projectId, query, kind, tables, source) ==> IsRowOf(row, query.sort, kind, source)
    ensures UniqueKeys(VisibleRows(projectId, query, kind, tables, source))
    ensures UniqueItems(VisibleRows(projectId, query, kind, tables, source))
  {
    if source != [] {
      var tail := source[1..];
      assert forall i :: 0 <= i < |tail| ==> tail[i] == source[i + 1];
      VisibleRowsUnique(projectId, query, kind, tables, tail);
      var rest := VisibleRows(projectId, query, kind, tables, tail);
      var head := RowOf(query.sort, kind, source[0]);
      forall j | 0 <= j < |rest| ensures head.key != rest[j].key && head.item != rest[j].item {
        assert rest[j] in rest;
        var c :| c in tail && rest[j] == RowOf(query.sort, kind, c);
        var k :| 0 <= k < |tail| && tail[k] == c;
        assert source[k + 1] == c && source[0] in source && c in source;
        DifferentRows(query.sort, kind, source[0], c);
      }
      forall row | row in VisibleRows(projectId, query, kind, tables, source)
        ensures IsRowOf(row, query.sort, kind, source)
      {
        if row in rest {
          var c :| c in tail && row == RowOf(query.sort, kind, c);
          assert c in source;
        } else {
          assert row == head && source[0] in source;
        }
      }
    }
  }

  function Rows(projectId: string, query: Query, kind: Kind, tables: Tables): seq<Row> {
    VisibleRows(projectId, query, kind, tables, Source(tables, kind))
  }

  lemma RowsUnique(projectId: string, query: Query, kind: Kind, tables: Tables)
    requires TablesOk(tables)
    ensures UniqueKeys(Rows(projectId, query, kind, tables)) && UniqueItems(Rows(projectId, query, kind, tables))
    ensures forall row :: row in Rows(projectId, query, kind, tables) ==> |row.key| == KeyWidth(kind) && row.item.Num?
  {
    var source := Source(tables, kind);
    SourceDistinct(tables, kind);
    VisibleRowsUnique(projectId, query, kind, tables, source);
    forall row | row in Rows(projectId, query, kind, tables) ensures |row.key| == KeyWidth(kind) && row.item.Num? {
      var c :| c in source && row == RowOf(query.sort, kind, c);
    }
  }

  lemma {:induction false} FindMeaning(rows: seq<Row>, rowid: int)
    ensures Find(rows, rowid).Some? ==> Find(rows, rowid).value in rows && Find(rows, rowid).value.item == Num(rowid)
    ensures Find(rows, rowid).None? ==> forall row :: row in rows ==> row.item != Num(rowid)
  {
    if rows != [] { FindMeaning(rows[1..], rowid); assert rows == [rows[0]] + rows[1..]; }
  }

  lemma FindUnique(rows: seq<Row>, row: Row)
    requires UniqueItems(rows) && row in rows && row.item.Num?
    ensures Find(rows, row.item.n) == Some(row)
  {
    FindMeaning(rows, row.item.n);
    var found := Find(rows, row.item.n).value;
    var i :| 0 <= i < |rows| && rows[i] == row;
    var j :| 0 <= j < |rows| && rows[j] == found;
  }

  // ---------- one request ----------

  /** The answer to one request, said without SQL: validation in the order the errors are raised,
      then the page of the ordered listing after the bookmark. */
  function Answer(snapshot: Snapshot, projectId: string, query: Query, kind: Kind): Result
    requires query.limit >= 1
  {
    var rows := Rows(projectId, query, kind, snapshot.tables);
    if query.filters != NO_FILTERS
       && (snapshot.generation.None? || snapshot.provenanceGeneration != snapshot.generation) then
      Err(ReindexRequired)
    else if query.cursor.Some?
            && query.cursor.value.binding != BindingOf(projectId, kind, query, query.cursor.value.generation) then
      Err(CursorMismatch)
    else if query.cursor.Some? && query.cursor.value.generation != snapshot.generation then
      Err(GenerationChanged)
    else if query.cursor.Some? && Find(rows, query.cursor.value.rowid).None? then
      Err(BookmarkMissing)
    else
      var after := if query.cursor.Some? then Some(Find(rows, query.cursor.value.rowid).value.key) else None;
      PageResult(Fetch(rows, after, query.limit), snapshot.generation,
                 BindingOf(projectId, kind, query, snapshot.generation))
  }

  function PageResult(page: Page, generation: Option<string>, binding: Binding): Result {
    if page.next.Some? && page.items != [] && page.items[|page.items| - 1].item.Num? then
      Ok(page.items, generation, Some(Cursor(binding, generation, page.items[|page.items| - 1].item.n)))
    else Ok(page.items, generation, None)
  }

  lemma SelectedRows(projectId: string, query: Query, kind: Kind, tables: Tables)
    ensures
      var cs, args := Conditions(AllClauses(projectId, query, kind)), Arguments(AllClauses(projectId, query, kind));
      |args| == Arities(cs)
      && Select(cs, args, query.sort, kind, tables, Source(tables, kind)) == Rows(projectId, query, kind, tables)
  {
    SelectIsVisible(projectId, query, kind, tables, Source(tables, kind));
  }

  lemma SelectedRowsAfter(projectId: string, query: Query, kind: Kind, tables: Tables, key: Key)
    requires |key| == KeyWidth(kind)
    ensures var cs, args := Conditions(AllClauses(projectId, query, kind)) + [KeyAfter(query.sort, kind)],
                            Arguments(AllClauses(projectId, query, kind)) + KeyValues(key);
      |args| == Arities(cs)
      && Select(cs, args, query.sort, kind, tables, Source(tables, kind)) ==
           Beyond(Rows(projectId, query, kind, tables), Some(key))
  {
    SelectAfter(AllClauses(projectId, query, kind), key, query.sort, kind, tables, Source(tables, kind));
    SelectedRows(projectId, query, kind, tables);
  }

  lemma {:induction false} EverythingIsBeyondNothing(rows: seq<Row>)
    ensures Beyond(rows, None) == rows
  {
    if rows != [] { EverythingIsBeyondNothing(rows[1..]); }
  }

  /** The last kept row carries the bookmark. */
  lemma LastItem(rows: seq<Row>, after: Option<Key>, limit: nat)
    requires limit >= 1 && UniqueKeys(rows)
    requires forall row :: row in rows ==> row.item.Num?
    ensures var page := Fetch(rows, after, limit);
      page.next.Some? ==> (|page.items| == limit && page.items[limit - 1] in rows
                           && page.items[limit - 1].key == page.next.value && page.items[limit - 1].item.Num?)
  {
    FetchMeaning(rows, after, limit);
    var page := Fetch(rows, after, limit);
    if page.next.Some? {
      var last := page.items[limit - 1];
      assert last in page.items;
    }
  }

  /** ORDER BY key LIMIT limit + 1, then drop the extra row and remember the last kept one. */
  method Cut(selected: seq<Row>, limit: nat, generation: Option<string>, binding: Binding,
             ghost all: seq<Row>, ghost after: Option<Key>) returns (r: Result)
    requires limit >= 1 && UniqueKeys(all) && selected == Beyond(all, after)
    requires forall row :: row in all ==> row.item.Num?
    ensures r == PageResult(Fetch(all, after, limit), generation, binding)
  {
    var found := Ordered(selected);
    LastItem(all, after, limit);
    var rows := found;
    rows := if |rows| > limit + 1 then rows[..limit + 1] else rows;
    var next := None;
    if |rows| > limit {
      rows := rows[..limit];
      assert rows == found[..limit];
      next := Some(Cursor(binding, generation, rows[limit - 1].item.n));
    }
    r := Ok(rows, generation, next);
  }

  /** The query as it is assembled: predicates and values grow together, the bookmark's key is
      looked up under the same predicates, and one row too many is fetched. */
  method Browse(snapshot: Snapshot, projectId: string, query: Query, kind: Kind) returns (r: Result)
    requires query.limit >= 1 && TablesOk(snapshot.tables)
    ensures r == Answer(snapshot, projectId, query, kind)
  {
    var predicates, parameters := WhereSql(projectId, query, kind);
    var source := Source(snapshot.tables, kind);
    ghost var rows := Rows(projectId, query, kind, snapshot.tables);
    SelectedRows(projectId, query, kind, snapshot.tables);
    RowsUnique(projectId, query, kind, snapshot.tables);
    if query.filters != NO_FILTERS
       && (snapshot.generation.None? || snapshot.provenanceGeneration != snapshot.generation) {
      return Err(ReindexRequired);
    }
    var binding := BindingOf(projectId, kind, query,
                             if query.cursor.None? then snapshot.generation else query.cursor.value.generation);
    if query.cursor.Some? && query.cursor.value.binding != binding {
      return Err(CursorMismatch);
    }
    if query.cursor.Some? && query.cursor.value.generation != snapshot.generation {
      return Err(GenerationChanged);
    }
    ghost var after := None;
    if query.cursor.Some? {
      var found :=
        Find(Select(predicates, parameters, query.sort, kind, snapshot.tables, source), query.cursor.value.rowid);
      if found.None? {
        return Err(BookmarkMissing);
      }
      FindMeaning(rows, query.cursor.value.rowid);
      after := Some(found.value.key);
      SelectedRowsAfter(projectId, query, kind, snapshot.tables, found.value.key);
      predicates := predicates + [KeyAfter(query.sort, kind)];
      parameters := parameters + KeyValues(found.value.key);
    }
    var selected := Select(predicates, parameters, query.sort, kind, snapshot.tables, source);
    EverythingIsBeyondNothing(rows);
    assert selected == Beyond(rows, after);
    r := Cut(selected, query.limit, snapshot.generation, binding, rows, after);
  }

  method WhereSql(projectId: string, query: Query, kind: Kind)
    returns (predicates: seq<Condition>, parameters: seq<Value>)
    ensures predicates == Conditions(AllClauses(projectId, query, kind))
    ensures parameters == Arguments(AllClauses(projectId, query, kind))
  {
    WhereSections(projectId, query, kind);
    hide AllClauses, Conditions, Arguments, Clauses, ColumnClauses;
    predicates, parameters := [ProjectIs], [Plain(Text(projectId))];
    var advanced, advancedValues := FilterSql(query.filters, kind.Results?);
    predicates, parameters := predicates + advanced, parameters + advancedValues;
    var columns, columnValues := ColumnSql(query);
    predicates, parameters := predicates + columns, parameters + columnValues;
    if query.q != "" {
      predicates, parameters := predicates + [TextFound], parameters + [Plain(Text(query.q)), Plain(Text(query.q))];
    }
  }

  lemma WhereSections(projectId: string, query: Query, kind: Kind)
    ensures Conditions(AllClauses(projectId, query, kind)) ==
      [ProjectIs] + Conditions(Clauses(query.filters, kind.Results?)) + Conditions(ColumnClauses(query))
      + (if query.q != "" then [TextFound] else [])
    ensures Arguments(AllClauses(projectId, query, kind)) ==
      [Plain(Text(projectId))] + Arguments(Clauses(query.filters, kind.Results?)) + Arguments(ColumnClauses(query))
      + (if query.q != "" then [Plain(Text(query.q)), Plain(Text(query.q))] else [])
  {
    var p := [Bound(ProjectIs, [Plain(Text(projectId))])];
    assert p[1..] == [] && Arguments(p) == p[0].args + Arguments(p[1..]);
    assert Conditions(p) == [ProjectIs] && Arguments(p) == [Plain(Text(projectId))];
    hide Conditions, Arguments, Clauses, ColumnClauses, WhenCondition;
    var f := Clauses(query.filters, kind.Results?);
    Append(p, f);
    Append(p + f, ColumnClauses(query));
    Append(p + f + ColumnClauses(query),
           WhenCondition(query.q != "", TextFound, [Plain(Text(query.q)), Plain(Text(query.q))]));
    WhenConditionSql(query.q != "", TextFound, [Plain(Text(query.q)), Plain(Text(query.q))]);
  }

  method ColumnSql(query: Query) returns (predicates: seq<Condition>, parameters: seq<Value>)
    ensures predicates == Conditions(ColumnClauses(query)) && parameters == Arguments(ColumnClauses(query))
  {
    ColumnSections(query);
    hide ColumnClauses, Conditions, Arguments;
    predicates, parameters := [], [];
    if query.runId.Some? {
      predicates, parameters := predicates + [RunColumnIs(RunIdColumn)], parameters + [Argument(query.runId)];
    }
    if query.batchId.Some? {
      predicates, parameters := predicates + [RunColumnIs(BatchIdColumn)], parameters + [Argument(query.batchId)];
    }
    if query.status.Some? {
      predicates, parameters := predicates + [RunColumnIs(StatusColumn)], parameters + [Argument(query.status)];
    }
    if query.available.Some? {
      predicates, parameters :=
        predicates + [RunColumnIs(AvailableColumn)], parameters + [FlagArgument(query.available)];
    }
  }

  lemma ColumnSections(query: Query)
    ensures Conditions(ColumnClauses(query)) == (if query.runId.Some? then [RunColumnIs(RunIdColumn)] else [])
      + (if query.batchId.Some? then [RunColumnIs(BatchIdColumn)] else [])
      + (if query.status.Some? then [RunColumnIs(StatusColumn)] else [])
      + (if query.available.Some? then [RunColumnIs(AvailableColumn)] else [])
    ensures Arguments(ColumnClauses(query)) == (if query.runId.Some? then [Argument(query.runId)] else [])
      + (if query.batchId.Some? then [Argument(query.batchId)] else [])
      + (if query.status.Some? then [Argument(query.status)] else [])
      + (if query.available.Some? then [FlagArgument(query.available)] else [])
  {
    var a := WhenCondition(query.runId.Some?, RunColumnIs(RunIdColumn), [Argument(query.runId)]);
    var b := WhenCondition(query.batchId.Some?, RunColumnIs(BatchIdColumn), [Argument(query.batchId)]);
    var c := WhenCondition(query.status.Some?, RunColumnIs(StatusColumn), [Argument(query.status)]);
    var d := WhenCondition(query.available.Some?, RunColumnIs(AvailableColumn), [FlagArgument(query.available)]);
    Append(a, b);
    Append(a + b, c);
    Append(a + b + c, d);
    WhenConditionSql(query.runId.Some?, RunColumnIs(RunIdColumn), [Argument(query.runId)]);
    WhenConditionSql(query.batchId.Some?, RunColumnIs(BatchIdColumn), [Argument(query.batchId)]);
    WhenConditionSql(query.status.Some?, RunColumnIs(StatusColumn), [Argument(query.status)]);
    WhenConditionSql(query.available.Some?, RunColumnIs(AvailableColumn), [FlagArgument(query.available)]);
  }

  // ---------- following the cursors ----------

  datatype Journey = Complete(rows: seq<Row>) | Stopped(error: Error) | Unfinished

  /** A client that keeps sending back `next_cursor`; the projection may be rebuilt between requests,
      and each request may ask for another page size. */
  function Follow(snapshots: seq<Snapshot>, limits: seq<nat>, projectId: string, query: Query, kind: Kind,
                  cursor: Option<Cursor>): Journey
    requires |limits| == |snapshots| && forall i :: 0 <= i < |limits| ==> limits[i] >= 1
    decreases |snapshots|
  {
    if snapshots == [] then Unfinished
    else
      match Answer(snapshots[0], projectId, query.(limit := limits[0], cursor := cursor), kind)
      case Err(error) => Stopped(error)
      case Ok(rows, _, next) =>
        if next.None? then Complete(rows)
        else
          match Follow(snapshots[1..], limits[1..], projectId, query, kind, next)
          case Complete(more) => Complete(rows + more)
          case other => other
  }

  /** A committed generation never changes. */
  ghost predicate Immutable(snapshots: seq<Snapshot>, base: Snapshot) {
    forall s :: s in snapshots && s.generation == base.generation ==> s.tables == base.tables
  }

  ghost predicate Continues(cursor: Option<Cursor>, after: Option<Key>, base: Snapshot, projectId: string, query: Query,
                            kind: Kind) {
    match cursor
    case None => after == None
    case Some(c) =>
      c.generation == base.generation && c.binding == BindingOf(projectId, kind, query, base.generation)
      && after.Some?
      && exists row ::
           row in Rows(projectId, query, kind, base.tables) && row.item == Num(c.rowid) && row.key == after.value
  }

  function Requests(rows: seq<Row>, limits: seq<nat>): seq<Request> {
    seq(|limits|, i requires 0 <= i < |limits| => Request(rows, limits[i]))
  }

  predicate Enriched(snapshot: Snapshot, query: Query) {
    query.filters == NO_FILTERS || (snapshot.generation.Some? && snapshot.provenanceGeneration == snapshot.generation)
  }

  /** One request of a traversal that started in `base`: refused unless the generation still stands,
      otherwise the next page of base's rows, with a cursor that continues from it. */
  lemma AnswerIsPage(snapshot: Snapshot, limit: nat, projectId: string, query: Query, kind: Kind,
                     cursor: Option<Cursor>, after: Option<Key>, base: Snapshot)
    requires limit >= 1 && TablesOk(base.tables)
    requires snapshot.generation == base.generation ==> snapshot.tables == base.tables
    requires Continues(cursor, after, base, projectId, query, kind)
    requires cursor.None? ==> snapshot.generation == base.generation
    ensures var answer := Answer(snapshot, projectId, query.(limit := limit, cursor := cursor), kind);
      var page := Fetch(Rows(projectId, query, kind, base.tables), after, limit);
      && (snapshot.generation == base.generation && Enriched(snapshot, query) ==> answer.Ok?)
      && (answer.Ok? ==> answer.rows == page.items && answer.next.Some? == page.next.Some?
                         && (page.next.Some? ==> Continues(answer.next, page.next, base, projectId, query, kind)))
  {
    var q := query.(limit := limit, cursor := cursor);
    var rows := Rows(projectId, query, kind, base.tables);
    RowsIgnorePaging(projectId, query, q, kind, base.tables, Source(base.tables, kind));
    RowsUnique(projectId, query, kind, base.tables);
    LastItem(rows, after, limit);
    if snapshot.generation == base.generation && Enriched(snapshot, query) {
      AnswerInGeneration(snapshot, q, projectId, kind, after, base, rows);
    }
  }

  /** With a good cursor and a standing generation no check refuses, and the bookmark's row is the
      one whose key the traversal stopped at. */
  lemma AnswerInGeneration(snapshot: Snapshot, q: Query, projectId: string, kind: Kind, after: Option<Key>,
                           base: Snapshot, rows: seq<Row>)
    requires q.limit >= 1 && rows == Rows(projectId, q, kind, snapshot.tables) && UniqueItems(rows)
    requires snapshot.generation == base.generation && snapshot.tables == base.tables && Enriched(snapshot, q)
    requires Continues(q.cursor, after, base, projectId, q, kind)
    ensures Answer(snapshot, projectId, q, kind)
      == PageResult(Fetch(rows, after, q.limit), base.generation, BindingOf(projectId, kind, q, base.generation))
  {
    if q.cursor.Some? {
      var row :| row in rows && row.item == Num(q.cursor.value.rowid) && row.key == after.value;
      FindUnique(rows, row);
    }
  }

  ghost predicate Standing(snapshots: seq<Snapshot>, base: Snapshot, query: Query) {
    forall s :: s in snapshots ==> s.generation == base.generation && Enriched(s, query)
  }

  /** Inside one generation a client's requests are one keyset traversal of the listed rows; with
      the generation unchanged throughout, no request is refused. */
  lemma {:induction false} FollowIsTraversal(snapshots: seq<Snapshot>, limits: seq<nat>, projectId: string,
                                             query: Query, kind: Kind, cursor: Option<Cursor>, after: Option<Key>,
                                             base: Snapshot)
    requires |limits| == |snapshots| && forall i :: 0 <= i < |limits| ==> limits[i] >= 1
    requires TablesOk(base.tables) && Immutable(snapshots, base)
    requires Continues(cursor, after, base, projectId, query, kind)
    requires cursor.None? && snapshots != [] ==> snapshots[0].generation == base.generation
    ensures var journey := Follow(snapshots, limits, projectId, query, kind, cursor);
      var walk := Traverse(Requests(Rows(projectId, query, kind, base.tables), limits), after);
      && (journey.Complete? ==> walk.finished && walk.items == journey.rows)
      && (Standing(snapshots, base, query) ==> !journey.Stopped? && (walk.finished ==> journey == Complete(walk.items)))
    decreases |snapshots|
  {
    hide Rows, Fetch, Answer, Enriched, TablesOk, Continues;
    if snapshots != [] {
      var rows := Rows(projectId, query, kind, base.tables);
      var requests := Requests(rows, limits);
      assert requests[0] == Request(rows, limits[0]) && requests[1..] == Requests(rows, limits[1..]);
      assert snapshots[0] in snapshots;
      AnswerIsPage(snapshots[0], limits[0], projectId, query, kind, cursor, after, base);
      var answer := Answer(snapshots[0], projectId, query.(limit := limits[0], cursor := cursor), kind);
      var page := Fetch(rows, after, limits[0]);
      if answer.Ok? && page.next.Some? {
        FollowIsTraversal(snapshots[1..], limits[1..], projectId, query, kind, answer.next, page.next, base);
      }
    }
  }

  lemma {:induction false} RowsIgnorePaging(projectId: string, a: Query, b: Query, kind: Kind, tables: Tables,
                                            source: seq<Candidate>)
    requires b == a.(limit := b.limit, cursor := b.cursor)
    ensures VisibleRows(projectId, a, kind, tables, source) == VisibleRows(projectId, b, kind, tables, source)
  {
    if source != [] { RowsIgnorePaging(projectId, a, b, kind, tables, source[1..]); }
  }

  /** A browse that reaches the end returned exactly the filtered rows of the generation it started
      in, in listing order, each once, whatever page sizes it used and however often the projection
      was rebuilt meanwhile. */
  lemma CompleteJourneyIsListing(snapshots: seq<Snapshot>, limits: seq<nat>, projectId: string, query: Query,
                                 kind: Kind)
    requires |limits| == |snapshots| && snapshots != [] && forall i :: 0 <= i < |limits| ==> limits[i] >= 1
    requires TablesOk(snapshots[0].tables) && Immutable(snapshots, snapshots[0])
    requires Follow(snapshots, limits, projectId, query, kind, None).Complete?
    ensures
      Follow(snapshots, limits, projectId, query, kind, None).rows ==
        Listing(projectId, query, kind, snapshots[0].tables)
    ensures Ascending(Listing(projectId, query, kind, snapshots[0].tables))
  {
    hide Follow, Traverse, TablesOk, Immutable;
    var base := snapshots[0];
    var rows := Rows(projectId, query, kind, base.tables);
    FollowIsTraversal(snapshots, limits, projectId, query, kind, None, None, base);
    RowsUnique(projectId, query, kind, base.tables);
    ImmutableTraversal(Requests(rows, limits), rows, None);
    EverythingIsBeyondNothing(rows);
    OrderedSorted(rows);
  }

  /** While the generation stands, one request more than there are rows reaches the end. */
  lemma JourneyCompletes(snapshots: seq<Snapshot>, limits: seq<nat>, projectId: string, query: Query, kind: Kind)
    requires |limits| == |snapshots| && forall i :: 0 <= i < |limits| ==> limits[i] >= 1
    requires snapshots != [] && TablesOk(snapshots[0].tables) && Immutable(snapshots, snapshots[0])
    requires Standing(snapshots, snapshots[0], query)
    requires |snapshots| > |Rows(projectId, query, kind, snapshots[0].tables)|
    ensures Follow(snapshots, limits, projectId, query, kind, None) ==
      Complete(Listing(projectId, query, kind, snapshots[0].tables))
  {
    var base := snapshots[0];
    var rows := Rows(projectId, query, kind, base.tables);
    FollowIsTraversal(snapshots, limits, projectId, query, kind, None, None, base);
    RowsUnique(projectId, query, kind, base.tables);
    EverythingIsBeyondNothing(rows);
    TraversalTerminates(Requests(rows, limits), rows, None);
    CompleteJourneyIsListing(snapshots, limits, projectId, query, kind);
  }
}
