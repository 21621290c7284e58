/** Compiling a filter object to SQL predicates with positional placeholders. */
module HistoryFilters {
  import opened Common
  import opened Keyset
  import opened HistoryTables

  /** A column value or a bound parameter. */
  datatype Value = Null | Plain(atom: Atom) | Real(decimal: real)

  datatype Sort = Newest | Oldest
  datatype Kind = Runs | Results

  // ---------- the SQL that is built ----------

  datatype ProvenanceColumn = WorkflowVersionColumn | ProfileVersionColumn | SavedBatchColumn

  datatype RunColumn = RunIdColumn | BatchIdColumn | StatusColumn | AvailableColumn

  /** Conditions inside `EXISTS (SELECT 1 FROM historical_job j ...)`. */
  datatype JobCondition =
    | SeedIs                              // j.seed = ?
    | PromptVersionIs                     // j.prompt_version_id = ?
    | PromptIs                            // EXISTS ... p.prompt_id = ?
    | ParameterIs(column: Option<ValueType>) // EXISTS ... key, value_type and is_base [and the typed column]
    | ImageIs(base: bool)                 // EXISTS ... i.slot_key = ? AND i.asset_id IS NULL, or = ?
    | UsesAsset                           // EXISTS ... u.asset_id = ?
    | ProducesResult                      // j.job_id = a.job_id

  /** Conditions joined by AND in the WHERE clause. */
  datatype Condition =
    | ProjectIs                           // r.project_id = ?
    | CreatedFrom                         // history_timestamp_us(r.created_at) >= ?
    | CreatedBefore                       // history_timestamp_us(r.created_at) < ?
    | ProvenanceIs(columns: seq<ProvenanceColumn>)
    | ExistsJob(conditions: seq<JobCondition>)
    | RunColumnIs(runColumn: RunColumn)   // r.column = ?
    | TextFound                           // instr on the name, or on the description
    | KeyAfter(sort: Sort, kind: Kind)    // (keys) > (?, ..., ?)

  function JobArity(c: JobCondition): nat {
    match c
    case ParameterIs(column) => if column.Some? then 4 else 3
    case ImageIs(base) => if base then 1 else 2
    case ProducesResult => 0
    case _ => 1
  }

  function JobArities(cs: seq<JobCondition>): nat {
    if cs == [] then 0 else JobArity(cs[0]) + JobArities(cs[1..])
  }

  function KeyWidth(kind: Kind): nat { if kind.Results? then 5 else 3 }

  /** How many placeholders a condition contains, in its text order. */
  function Arity(c: Condition): nat {
    match c
    case ProvenanceIs(columns) => |columns|
    case ExistsJob(conditions) => JobArities(conditions)
    case TextFound => 2
    case KeyAfter(_, kind) => KeyWidth(kind)
    case _ => 1
  }

  function Arities(cs: seq<Condition>): nat {
    if cs == [] then 0 else Arity(cs[0]) + Arities(cs[1..])
  }

  // ---------- evaluating it ----------

  /** `column = ?`: NULL equals nothing. */
  predicate SqlEquals(column: Value, argument: Value) { column != Null && column == argument }

  function TextColumn(v: Option<string>): Value { if v.Some? then Plain(Text(v.value)) else Null }
  function BoolColumn(b: bool): Value { Plain(Num(if b then 1 else 0)) }

  function TypeName(t: ValueType): Value {
    Plain(Text(
      match t
      case StringType => "string"
      case IntegerType => "integer"
      case FloatType => "float"
      case BooleanType => "boolean"))
  }

  function TypedColumn(row: ParameterRow, t: ValueType): Value {
    match t
    case StringType => TextColumn(row.stringValue)
    case IntegerType => if row.integerValue.Some? then Plain(Num(row.integerValue.value)) else Null
    case FloatType => if row.realValue.Some? then Real(row.realValue.value) else Null
    case BooleanType => if row.booleanValue.Some? then BoolColumn(row.booleanValue.value) else Null
  }

  function ProvenanceValue(row: ProvenanceRow, column: ProvenanceColumn): Value {
    match column
    case WorkflowVersionColumn => TextColumn(row.workflowVersionId)
    case ProfileVersionColumn => TextColumn(row.profileVersionId)
    case SavedBatchColumn => TextColumn(row.savedBatchId)
  }

  function RunValue(run: RunRow, column: RunColumn): Value {
    match column
    case RunIdColumn => Plain(Text(run.runId))
    case BatchIdColumn => Plain(Text(run.batchId))
    case StatusColumn => TextColumn(run.status)
    case AvailableColumn => BoolColumn(run.available)
  }

  predicate EvalJob(c: JobCondition, args: seq<Value>, tables: Tables, job: JobRow, result: Option<ResultRow>)
    requires |args| == JobArity(c)
  {
    match c
    case SeedIs => SqlEquals(Plain(Num(job.seed)), args[0])
    case PromptVersionIs => SqlEquals(Plain(Text(job.promptVersionId)), args[0])
    case PromptIs =>
      exists p :: p in tables.prompts && p.projectId == job.projectId && p.runId == job.runId
        && p.promptVersionId == job.promptVersionId && SqlEquals(TextColumn(p.promptId), args[0])
    case ParameterIs(column) =>
      exists p :: p in tables.parameters && JobOwns(job, p.projectId, p.runId, p.jobId)
        && SqlEquals(Plain(Text(p.key)), args[0]) && SqlEquals(TypeName(p.valueType), args[1])
        && SqlEquals(BoolColumn(p.isBase), args[2])
        && (column.Some? ==> SqlEquals(TypedColumn(p, column.value), args[3]))
    case ImageIs(base) =>
      exists i :: i in tables.images && JobOwns(job, i.projectId, i.runId, i.jobId)
        && SqlEquals(Plain(Text(i.slotKey)), args[0])
        && if base then TextColumn(i.assetId) == Null else SqlEquals(TextColumn(i.assetId), args[1])
    case UsesAsset =>
      exists u :: u in tables.assetUses && JobOwns(job, u.projectId, u.runId, u.jobId)
        && SqlEquals(Plain(Text(u.assetId)), args[0])
    case ProducesResult => result.Some? && job.jobId == result.value.jobId
  }

  /** Conditions take their arguments from the front of one positional list, in order. */
  predicate EvalJobs(cs: seq<JobCondition>, args: seq<Value>, tables: Tables, job: JobRow, result: Option<ResultRow>)
    requires |args| == JobArities(cs)
  {
    cs == [] || (EvalJob(cs[0], args[..JobArity(cs[0])], tables, job, result)
                 && EvalJobs(cs[1..], args[JobArity(cs[0])..], tables, job, result))
  }

  predicate Eval(c: Condition, args: seq<Value>, tables: Tables, row: Candidate)
    requires |args| == Arity(c)
  {
    match c
    case ProjectIs => SqlEquals(Plain(Text(row.run.projectId)), args[0])
    case CreatedFrom =>
      row.run.stamp.Some? && args[0].Plain? && args[0].atom.Num? && row.run.stamp.value >= args[0].atom.n
    case CreatedBefore =>
      row.run.stamp.Some? && args[0].Plain? && args[0].atom.Num? && row.run.stamp.value < args[0].atom.n
    case ProvenanceIs(columns) =>
      exists p :: p in tables.provenance && OfRun(row.run, p.projectId, p.runId)
        && forall i :: 0 <= i < |columns| ==> SqlEquals(ProvenanceValue(p, columns[i]), args[i])
    case ExistsJob(conditions) =>
      exists j :: j in tables.jobs && OfRun(row.run, j.projectId, j.runId)
        && EvalJobs(conditions, args, tables, j, row.result)
    case RunColumnIs(column) => SqlEquals(RunValue(row.run, column), args[0])
    case TextFound => Found(row.run.name, args[0]) || Found(row.run.description, args[1])
    case KeyAfter(sort, kind) =>
      (forall i :: 0 <= i < |args| ==> args[i].Plain?) && KeyLess(Atoms(args), KeyOf(sort, kind, row))
  }

  predicate EvalAll(cs: seq<Condition>, args: seq<Value>, tables: Tables, row: Candidate)
    requires |args| == Arities(cs)
  {
    cs == [] || (Eval(cs[0], args[..Arity(cs[0])], tables, row) && EvalAll(cs[1..], args[Arity(cs[0])..], tables, row))
  }

  function Atoms(args: seq<Value>): (r: Key)
    ensures |r| == |args|
  {
    seq(|args|, i requires 0 <= i < |args| => if args[i].Plain? then args[i].atom else Num(0))
  }

  /** lower(): ASCII letters only. */
  function Lower(s: string): string {
    if s == [] then [] else [if 'A' <= s[0] <= 'Z' then s[0] - 'A' + 'a' else s[0]] + Lower(s[1..])
  }

  predicate PartAt(s: string, part: string, i: nat) { i + |part| <= |s| && s[i..i + |part|] == part }

  predicate Contains(s: string, part: string) { exists i :: 0 <= i <= |s| && PartAt(s, part, i) }

  /** instr(lower(column), lower(?)) > 0 */
  predicate Found(column: Option<string>, argument: Value) {
    column.Some? && argument.Plain? && argument.atom.Text? && Contains(Lower(column.value), Lower(argument.atom.s))
  }

  /** The ORDER BY columns: unknown timestamps after known ones, then time, then the identity. */
  function KeyOf(sort: Sort, kind: Kind, row: Candidate): (key: Key)
    ensures |key| == (if kind.Results? && row.result.Some? then 5 else 3)
  {
    [ Num(if row.run.stamp.None? then 1 else 0),
      Num(if row.run.stamp.None? then 0 else if sort.Newest? then -row.run.stamp.value else row.run.stamp.value),
      Text(row.run.runId) ]
    + if kind.Results? && row.result.Some? then [Num(row.result.value.jobOrdinal),
                                                 Num(row.result.value.artifactOrdinal)] else []
  }

  // ---------- each condition next to its own arguments ----------

  datatype BoundJob = BoundJob(condition: JobCondition, args: seq<Value>)
  datatype Bound = Bound(condition: Condition, args: seq<Value>)

  function JobConditions(bs: seq<BoundJob>): seq<JobCondition> {
    if bs == [] then [] else [bs[0].condition] + JobConditions(bs[1..])
  }
  function JobArguments(bs: seq<BoundJob>): seq<Value> { if bs == [] then [] else bs[0].args + JobArguments(bs[1..]) }
  function Conditions(bs: seq<Bound>): seq<Condition> {
    if bs == [] then [] else [bs[0].condition] + Conditions(bs[1..])
  }
  function Arguments(bs: seq<Bound>): seq<Value> { if bs == [] then [] else bs[0].args + Arguments(bs[1..]) }

  ghost predicate JobFits(bs: seq<BoundJob>) { forall i :: 0 <= i < |bs| ==> |bs[i].args| == JobArity(bs[i].condition) }
  ghost predicate Fits(bs: seq<Bound>) { forall i :: 0 <= i < |bs| ==> |bs[i].args| == Arity(bs[i].condition) }

  lemma {:induction false} JobSnoc(bs: seq<BoundJob>, b: BoundJob)
    ensures JobConditions(bs + [b]) == JobConditions(bs) + [b.condition]
    ensures JobArguments(bs + [b]) == JobArguments(bs) + b.args
  {
    if bs == [] {
      assert bs + [b] == [b];
    } else {
      assert (bs + [b])[0] == bs[0] && (bs + [b])[1..] == bs[1..] + [b];
      JobSnoc(bs[1..], b);
      assert bs[0].args + (JobArguments(bs[1..]) + b.args) == bs[0].args + JobArguments(bs[1..]) + b.args;
    }
  }

  /** Positional binding gives every condition exactly its own arguments. */
  lemma {:induction false} JobPositions(bs: seq<BoundJob>, tables: Tables, job: JobRow, result: Option<ResultRow>)
    requires JobFits(bs)
    ensures |JobArguments(bs)| == JobArities(JobConditions(bs))
    ensures EvalJobs(JobConditions(bs), JobArguments(bs), tables, job, result)
      <==> forall i :: 0 <= i < |bs| ==> EvalJob(bs[i].condition, bs[i].args, tables, job, result)
  {
    if bs != [] {
      var b, rest := bs[0], bs[1..];
      assert JobFits(rest);
      JobPositions(rest, tables, job, result);
      assert JobConditions(bs)[1..] == JobConditions(rest);
      assert JobArguments(bs)[..|b.args|] == b.args && JobArguments(bs)[|b.args|..] == JobArguments(rest);
      if forall i :: 0 <= i < |bs| ==> EvalJob(bs[i].condition, bs[i].args, tables, job, result) {
        forall i | 0 <= i < |rest| ensures EvalJob(rest[i].condition, rest[i].args, tables, job, result) {
          assert rest[i] == bs[i + 1];
        }
      }
    }
  }

  lemma {:induction false} Positions(bs: seq<Bound>, tables: Tables, row: Candidate)
    requires Fits(bs)
    ensures |Arguments(bs)| == Arities(Conditions(bs))
    ensures EvalAll(Conditions(bs), Arguments(bs), tables, row)
      <==> forall i :: 0 <= i < |bs| ==> Eval(bs[i].condition, bs[i].args, tables, row)
  {
    if bs != [] {
      var b, rest := bs[0], bs[1..];
      assert Fits(rest);
      Positions(rest, tables, row);
      assert Conditions(bs)[1..] == Conditions(rest);
      assert Arguments(bs)[..|b.args|] == b.args && Arguments(bs)[|b.args|..] == Arguments(rest);
      if forall i :: 0 <= i < |bs| ==> Eval(bs[i].condition, bs[i].args, tables, row) {
        forall i | 0 <= i < |rest| ensures Eval(rest[i].condition, rest[i].args, tables, row) {
          assert rest[i] == bs[i + 1];
        }
      }
    }
  }

  // ---------- the clauses of a filter ----------

  function ScalarArgument(v: Scalar): Value {
    match v
    case StringValue(s) => Plain(Text(s))
    case IntegerValue(n) => Plain(Num(n))
    case FloatValue(x) => Real(x)
    case BooleanValue(b) => BoolColumn(b)
  }

  function ParameterClause(f: ParameterFilter): (b: BoundJob)
    ensures |b.args| == JobArity(b.condition)
  {
    match f
    case Equals(key, v) =>
      BoundJob(ParameterIs(Some(v.Type())),
               [Plain(Text(key)), TypeName(v.Type()), BoolColumn(false), ScalarArgument(v)])
    case Base(key, t) => BoundJob(ParameterIs(None), [Plain(Text(key)), TypeName(t), BoolColumn(true)])
    case Override(key, t) => BoundJob(ParameterIs(None), [Plain(Text(key)), TypeName(t), BoolColumn(false)])
  }

  function ImageClause(f: ImageFilter): (b: BoundJob)
    ensures |b.args| == JobArity(b.condition)
  {
    match f
    case BaseImage(slot) => BoundJob(ImageIs(true), [Plain(Text(slot))])
    case Asset(slot, id) => BoundJob(ImageIs(false), [Plain(Text(slot)), Plain(Text(id))])
  }

  lemma ParameterRowMeaning(f: ParameterFilter, p: ParameterRow)
    ensures var b := ParameterClause(f);
      ParameterMatch(f, p) <==>
        (SqlEquals(Plain(Text(p.key)), b.args[0]) && SqlEquals(TypeName(p.valueType), b.args[1])
         && SqlEquals(BoolColumn(p.isBase), b.args[2])
         && (b.condition.column.Some? ==> SqlEquals(TypedColumn(p, b.condition.column.value), b.args[3])))
  {
    TypeNameInjective(p.valueType, if f.Equals? then f.value.Type() else f.valueType);
  }

  lemma ParameterClauseMeaning(f: ParameterFilter, tables: Tables, job: JobRow, result: Option<ResultRow>)
    ensures EvalJob(ParameterClause(f).condition, ParameterClause(f).args, tables, job, result) <==>
      ParameterHolds(f, tables, job)
  {
    forall p { ParameterRowMeaning(f, p); }
  }

  lemma TypeNameInjective(a: ValueType, b: ValueType)
    ensures TypeName(a) == TypeName(b) ==> a == b
  {
    assert TypeName(StringType).atom.s[0] == 's' && TypeName(IntegerType).atom.s[0] == 'i'
      && TypeName(FloatType).atom.s[0] == 'f' && TypeName(BooleanType).atom.s[0] == 'b';
  }

  lemma ImageClauseMeaning(f: ImageFilter, tables: Tables, job: JobRow, result: Option<ResultRow>)
    ensures EvalJob(ImageClause(f).condition, ImageClause(f).args, tables, job, result) <==> ImageHolds(f, tables, job)
  {
  }

  function When(present: bool, c: JobCondition, arg: Value): (bs: seq<BoundJob>)
    requires JobArity(c) == 1
    ensures JobFits(bs)
  {
    if present then [BoundJob(c, [arg])] else []
  }

  function ParameterClauses(fs: seq<ParameterFilter>): (bs: seq<BoundJob>)
    ensures |bs| == |fs| && JobFits(bs)
  {
    seq(|fs|, i requires 0 <= i < |fs| => ParameterClause(fs[i]))
  }

  function ImageClauses(fs: seq<ImageFilter>): (bs: seq<BoundJob>)
    ensures |bs| == |fs| && JobFits(bs)
  {
    seq(|fs|, i requires 0 <= i < |fs| => ImageClause(fs[i]))
  }

  function Argument(v: Option<string>): Value { TextColumn(v) }

  function NumberArgument(v: Option<int>): Value { if v.Some? then Plain(Num(v.value)) else Null }

  function ScalarClauses(f: Filters): (bs: seq<BoundJob>)
    ensures JobFits(bs)
  {
    When(f.seed.Some?, SeedIs, NumberArgument(f.seed))
    + When(f.promptVersionId.Some?, PromptVersionIs, Argument(f.promptVersionId))
    + When(f.promptId.Some?, PromptIs, Argument(f.promptId))
  }

  function JobClauses(f: Filters): (bs: seq<BoundJob>)
    ensures JobFits(bs)
  {
    ScalarClauses(f) + ParameterClauses(f.parameters) + ImageClauses(f.imageInputs)
    + When(f.assetId.Some?, UsesAsset, Argument(f.assetId))
  }

  ghost predicate AllHold(bs: seq<BoundJob>, tables: Tables, job: JobRow, result: Option<ResultRow>)
    requires JobFits(bs)
  {
    forall i :: 0 <= i < |bs| ==> EvalJob(bs[i].condition, bs[i].args, tables, job, result)
  }

  lemma AllHoldAppend(a: seq<BoundJob>, b: seq<BoundJob>, tables: Tables, job: JobRow, result: Option<ResultRow>)
    requires JobFits(a) && JobFits(b)
    ensures JobFits(a + b)
    ensures AllHold(a + b, tables, job, result) <==> AllHold(a, tables, job, result) && AllHold(b, tables, job, result)
  {
    if AllHold(a + b, tables, job, result) {
      forall i | 0 <= i < |a| ensures EvalJob(a[i].condition, a[i].args, tables, job, result) {
        assert (a + b)[i] == a[i];
      }
      forall i | 0 <= i < |b| ensures EvalJob(b[i].condition, b[i].args, tables, job, result) {
        assert (a + b)[|a| + i] == b[i];
      }
    }
  }

  lemma WhenMeaning(present: bool, c: JobCondition, arg: Value, tables: Tables, job: JobRow, result: Option<ResultRow>)
    requires JobArity(c) == 1
    ensures
      AllHold(When(present, c, arg), tables, job, result) <==> (present ==> EvalJob(c, [arg], tables, job, result))
  {
    if present { assert When(present, c, arg)[0] == BoundJob(c, [arg]); }
  }

  lemma ParameterClausesMeaning(f: Filters, tables: Tables, job: JobRow, result: Option<ResultRow>)
    ensures AllHold(ParameterClauses(f.parameters), tables, job, result)
      <==> forall i :: 0 <= i < |f.parameters| ==> ParameterHolds(f.parameters[i], tables, job)
  {
    var bs := ParameterClauses(f.parameters);
    forall i | 0 <= i < |bs|
      ensures
        EvalJob(bs[i].condition, bs[i].args, tables, job, result) <==> ParameterHolds(f.parameters[i], tables, job)
    {
      ParameterClauseMeaning(f.parameters[i], tables, job, result);
    }
  }

  lemma ImageClausesMeaning(f: Filters, tables: Tables, job: JobRow, result: Option<ResultRow>)
    ensures AllHold(ImageClauses(f.imageInputs), tables, job, result)
      <==> forall i :: 0 <= i < |f.imageInputs| ==> ImageHolds(f.imageInputs[i], tables, job)
  {
    var bs := ImageClauses(f.imageInputs);
    forall i | 0 <= i < |bs|
      ensures EvalJob(bs[i].condition, bs[i].args, tables, job, result) <==> ImageHolds(f.imageInputs[i], tables, job)
    {
      ImageClauseMeaning(f.imageInputs[i], tables, job, result);
    }
  }

  lemma ScalarClausesMeaning(f: Filters, tables: Tables, job: JobRow, result: Option<ResultRow>)
    ensures AllHold(ScalarClauses(f), tables, job, result) <==>
      && (f.seed.Some? ==> job.seed == f.seed.value)
      && (f.promptVersionId.Some? ==> job.promptVersionId == f.promptVersionId.value)
      && (f.promptId.Some? ==> PromptHolds(f.promptId.value, tables, job))
  {
    var a := When(f.seed.Some?, SeedIs, NumberArgument(f.seed));
    var b := When(f.promptVersionId.Some?, PromptVersionIs, Argument(f.promptVersionId));
    var c := When(f.promptId.Some?, PromptIs, Argument(f.promptId));
    AllHoldAppend(a, b, tables, job, result);
    AllHoldAppend(a + b, c, tables, job, result);
    WhenMeaning(f.seed.Some?, SeedIs, NumberArgument(f.seed), tables, job, result);
    WhenMeaning(f.promptVersionId.Some?, PromptVersionIs, Argument(f.promptVersionId), tables, job, result);
    WhenMeaning(f.promptId.Some?, PromptIs, Argument(f.promptId), tables, job, result);
  }

  /** The job-level conditions hold together exactly when this one job meets the filters. */
  lemma JobClausesMeaning(f: Filters, tables: Tables, job: JobRow, result: Option<ResultRow>)
    ensures AllHold(JobClauses(f), tables, job, result) <==> JobSatisfies(f, tables, job)
  {
    var s, p, i := ScalarClauses(f), ParameterClauses(f.parameters), ImageClauses(f.imageInputs);
    var u := When(f.assetId.Some?, UsesAsset, Argument(f.assetId));
    AllHoldAppend(s, p, tables, job, result);
    AllHoldAppend(s + p, i, tables, job, result);
    AllHoldAppend(s + p + i, u, tables, job, result);
    ScalarClausesMeaning(f, tables, job, result);
    ParameterClausesMeaning(f, tables, job, result);
    ImageClausesMeaning(f, tables, job, result);
    WhenMeaning(f.assetId.Some?, UsesAsset, Argument(f.assetId), tables, job, result);
  }

  // ---------- the whole WHERE clause ----------

  function WhenCondition(present: bool, c: Condition, args: seq<Value>): (bs: seq<Bound>)
    requires |args| == Arity(c)
    ensures Fits(bs)
  {
    if present then [Bound(c, args)] else []
  }

  function ProvenanceColumns(f: Filters): (cs: seq<ProvenanceColumn>)
  {
    (if f.workflowVersionId.Some? then [WorkflowVersionColumn] else [])
    + (if f.profileVersionId.Some? then [ProfileVersionColumn] else [])
    + (if f.savedBatchId.Some? then [SavedBatchColumn] else [])
  }

  function ProvenanceArguments(f: Filters): (vs: seq<Value>)
    ensures |vs| == |ProvenanceColumns(f)|
  {
    (if f.workflowVersionId.Some? then [Argument(f.workflowVersionId)] else [])
    + (if f.profileVersionId.Some? then [Argument(f.profileVersionId)] else [])
    + (if f.savedBatchId.Some? then [Argument(f.savedBatchId)] else [])
  }

  /** In the results view the job must also be the one that produced the result. */
  function JobClausesFor(f: Filters, results: bool): (bs: seq<BoundJob>)
    ensures JobFits(bs)
  {
    JobClauses(f) + if results then [BoundJob(ProducesResult, [])] else []
  }

  function JobClause(f: Filters, results: bool): (b: Bound)
    ensures |b.args| == Arity(b.condition)
  {
    assert |JobArguments(JobClausesFor(f, results))| == JobArities(JobConditions(JobClausesFor(f, results))) by {
      JobLengths(JobClausesFor(f, results));
    }
    Bound(ExistsJob(JobConditions(JobClausesFor(f, results))), JobArguments(JobClausesFor(f, results)))
  }

  lemma {:induction false} JobLengths(bs: seq<BoundJob>)
    requires JobFits(bs)
    ensures |JobArguments(bs)| == JobArities(JobConditions(bs))
  {
    if bs != [] {
      assert JobFits(bs[1..]);
      JobLengths(bs[1..]);
      assert JobConditions(bs)[1..] == JobConditions(bs[1..]);
    }
  }

  function Clauses(f: Filters, results: bool): (bs: seq<Bound>)
    ensures Fits(bs)
  {
    CreatedPart(f) + ProvenancePart(f) + JobPart(f, results)
  }

  ghost predicate Holds(bs: seq<Bound>, tables: Tables, row: Candidate)
    requires Fits(bs)
  {
    forall i :: 0 <= i < |bs| ==> Eval(bs[i].condition, bs[i].args, tables, row)
  }

  lemma HoldsAppend(a: seq<Bound>, b: seq<Bound>, tables: Tables, row: Candidate)
    requires Fits(a) && Fits(b)
    ensures Fits(a + b)
    ensures Holds(a + b, tables, row) <==> Holds(a, tables, row) && Holds(b, tables, row)
  {
    if Holds(a + b, tables, row) {
      forall i | 0 <= i < |a| ensures Eval(a[i].condition, a[i].args, tables, row) { assert (a + b)[i] == a[i]; }
      forall i | 0 <= i < |b| ensures Eval(b[i].condition, b[i].args, tables, row) { assert (a + b)[|a| + i] == b[i]; }
    }
  }

  lemma ProvenanceMeaning(f: Filters, tables: Tables, row: Candidate)
    ensures Eval(ProvenanceIs(ProvenanceColumns(f)), ProvenanceArguments(f), tables, row) <==>
      ProvenanceHolds(f, tables, row.run)
  {
    forall p: ProvenanceRow
      ensures (forall i :: 0 <= i < |ProvenanceColumns(f)| ==> SqlEquals(ProvenanceValue(p, ProvenanceColumns(f)[i]),
                                                                 ProvenanceArguments(f)[i]))
        <==> ProvenanceMatch(f, p)
    {
      ProvenanceRowMeaning(f, p);
    }
  }

  lemma ProvenanceRowMeaning(f: Filters, p: ProvenanceRow)
    ensures (forall i :: 0 <= i < |ProvenanceColumns(f)| ==> SqlEquals(ProvenanceValue(p, ProvenanceColumns(f)[i]),
                                                               ProvenanceArguments(f)[i]))
      <==> ProvenanceMatch(f, p)
  {
    var cs, vs := ProvenanceColumns(f), ProvenanceArguments(f);
    var m := if f.workflowVersionId.Some? then 1 else 0;
    var n := m + if f.profileVersionId.Some? then 1 else 0;
    if f.workflowVersionId.Some? { assert cs[0] == WorkflowVersionColumn && vs[0] == Argument(f.workflowVersionId); }
    if f.profileVersionId.Some? { assert cs[m] == ProfileVersionColumn && vs[m] == Argument(f.profileVersionId); }
    if f.savedBatchId.Some? { assert cs[n] == SavedBatchColumn && vs[n] == Argument(f.savedBatchId); }
  }

  /** EXISTS over historical_job: one single job carries every job-level condition. */
  lemma JobClauseMeaning(f: Filters, results: bool, tables: Tables, row: Candidate)
    ensures Eval(JobClause(f, results).condition, JobClause(f, results).args, tables, row)
      <==> SomeJobSatisfies(f, tables, row, results)
  {
    var bs := JobClausesFor(f, results);
    var last: seq<BoundJob> := if results then [BoundJob(ProducesResult, [])] else [];
    JobLengths(bs);
    forall job: JobRow
      ensures EvalJobs(JobConditions(bs), JobArguments(bs), tables, job, row.result)
        <==> JobSatisfies(f, tables, job) && (results ==> row.result.Some? && job.jobId == row.result.value.jobId)
    {
      JobPositions(bs, tables, job, row.result);
      JobClausesMeaning(f, tables, job, row.result);
      AllHoldAppend(JobClauses(f), last, tables, job, row.result);
      if results { assert last[0] == BoundJob(ProducesResult, []); }
      assert AllHold(bs, tables, job, row.result) <==>
        EvalJobs(JobConditions(bs), JobArguments(bs), tables, job, row.result);
    }
  }

  function JobPart(f: Filters, results: bool): (bs: seq<Bound>)
    ensures Fits(bs)
  {
    if FiltersJobs(f) then [JobClause(f, results)] else []
  }

  lemma JobPartMeaning(f: Filters, results: bool, tables: Tables, row: Candidate)
    ensures Holds(JobPart(f, results), tables, row) <==> (FiltersJobs(f) ==> SomeJobSatisfies(f, tables, row, results))
  {
    JobClauseMeaning(f, results, tables, row);
    if FiltersJobs(f) { assert JobPart(f, results)[0] == JobClause(f, results); }
  }

  lemma CreatedPartMeaning(f: Filters, tables: Tables, row: Candidate)
    ensures Holds(CreatedPart(f), tables, row)
      <==> ((f.createdFrom.Some? ==> row.run.stamp.Some? && row.run.stamp.value >= f.createdFrom.value)
            && (f.createdBefore.Some? ==> row.run.stamp.Some? && row.run.stamp.value < f.createdBefore.value))
  {
    WhenConditionMeaning(f.createdFrom.Some?, CreatedFrom, [NumberArgument(f.createdFrom)], tables, row);
    WhenConditionMeaning(f.createdBefore.Some?, CreatedBefore, [NumberArgument(f.createdBefore)], tables, row);
    HoldsAppend(WhenCondition(f.createdFrom.Some?, CreatedFrom, [NumberArgument(f.createdFrom)]),
      WhenCondition(f.createdBefore.Some?, CreatedBefore, [NumberArgument(f.createdBefore)]), tables, row);
  }

  lemma ProvenancePartMeaning(f: Filters, tables: Tables, row: Candidate)
    ensures Holds(ProvenancePart(f), tables, row) <==> (FiltersProvenance(f) ==> ProvenanceHolds(f, tables, row.run))
  {
    WhenConditionMeaning(FiltersProvenance(f), ProvenanceIs(ProvenanceColumns(f)), ProvenanceArguments(f), tables, row);
    ProvenanceMeaning(f, tables, row);
  }

  lemma ClausesMeaning(f: Filters, results: bool, tables: Tables, row: Candidate)
    ensures Holds(Clauses(f, results), tables, row) <==> FilterHolds(f, tables, row, results)
  {
    HoldsAppend(CreatedPart(f), ProvenancePart(f), tables, row);
    HoldsAppend(CreatedPart(f) + ProvenancePart(f), JobPart(f, results), tables, row);
    CreatedPartMeaning(f, tables, row);
    ProvenancePartMeaning(f, tables, row);
    JobPartMeaning(f, results, tables, row);
  }

  lemma WhenConditionMeaning(present: bool, c: Condition, args: seq<Value>, tables: Tables, row: Candidate)
    requires |args| == Arity(c)
    ensures Holds(WhenCondition(present, c, args), tables, row) <==> (present ==> Eval(c, args, tables, row))
  {
    if present { assert WhenCondition(present, c, args)[0] == Bound(c, args); }
  }

  lemma {:induction false} ClauseLengths(bs: seq<Bound>)
    requires Fits(bs)
    ensures |Arguments(bs)| == Arities(Conditions(bs))
  {
    if bs != [] {
      assert Fits(bs[1..]);
      ClauseLengths(bs[1..]);
      assert Conditions(bs)[1..] == Conditions(bs[1..]);
    }
  }

  method ParameterSql(items: seq<ParameterFilter>) returns (job: seq<JobCondition>, values: seq<Value>)
    ensures job == JobConditions(ParameterClauses(items)) && values == JobArguments(ParameterClauses(items))
  {
    job, values := [], [];
    ghost var clauses := ParameterClauses(items);
    for i := 0 to |items|
      invariant job == JobConditions(clauses[..i]) && values == JobArguments(clauses[..i])
    {
      var item := items[i];
      var itemType := if item.Equals? then item.value.Type() else item.valueType;
      var args := [Plain(Text(item.key)), TypeName(itemType), BoolColumn(item.Base?)];
      if item.Equals? {
        args := args + [ScalarArgument(item.value)];
      }
      values := values + args;
      job := job + [ParameterIs(if item.Equals? then Some(itemType) else None)];
      JobSnoc(clauses[..i], clauses[i]);
      assert clauses[..i + 1] == clauses[..i] + [clauses[i]];
    }
    assert clauses[..|items|] == clauses;
  }

  method ImageSql(items: seq<ImageFilter>) returns (job: seq<JobCondition>, values: seq<Value>)
    ensures job == JobConditions(ImageClauses(items)) && values == JobArguments(ImageClauses(items))
  {
    job, values := [], [];
    ghost var clauses := ImageClauses(items);
    for i := 0 to |items|
      invariant job == JobConditions(clauses[..i]) && values == JobArguments(clauses[..i])
    {
      var item := items[i];
      var args := [Plain(Text(item.slotKey))];
      if item.Asset? {
        args := args + [Plain(Text(item.assetId))];
      }
      values := values + args;
      job := job + [ImageIs(item.BaseImage?)];
      JobSnoc(clauses[..i], clauses[i]);
      assert clauses[..i + 1] == clauses[..i] + [clauses[i]];
    }
    assert clauses[..|items|] == clauses;
  }

  method ScalarSql(f: Filters) returns (job: seq<JobCondition>, values: seq<Value>)
    ensures job == JobConditions(ScalarClauses(f)) && values == JobArguments(ScalarClauses(f))
  {
    job, values := [], [];
    if f.seed.Some? {
      job, values := job + [SeedIs], values + [Plain(Num(f.seed.value))];
    }
    if f.promptVersionId.Some? {
      job, values := job + [PromptVersionIs], values + [Plain(Text(f.promptVersionId.value))];
    }
    if f.promptId.Some? {
      job, values := job + [PromptIs], values + [Plain(Text(f.promptId.value))];
    }
    ScalarSections(f);
  }

  /** The conditions on one job, with their values. */
  method JobSql(f: Filters, results: bool) returns (job: seq<JobCondition>, values: seq<Value>)
    ensures !FiltersJobs(f) ==> job == [] && values == []
    ensures FiltersJobs(f) ==> job != []
    ensures FiltersJobs(f) ==> job == JobConditions(JobClausesFor(f, results))
    ensures FiltersJobs(f) ==> values == JobArguments(JobClausesFor(f, results))
  {
    job, values := ScalarSql(f);
    var conditions, arguments := ParameterSql(f.parameters);
    job, values := job + conditions, values + arguments;
    conditions, arguments := ImageSql(f.imageInputs);
    job, values := job + conditions, values + arguments;
    if f.assetId.Some? {
      job, values := job + [UsesAsset], values + [Plain(Text(f.assetId.value))];
    }
    JobSections(f);
    JobSectionsEmpty(f);
    ResultSection(f, results);
    assert job == JobConditions(JobClauses(f)) && values == JobArguments(JobClauses(f));
    if job != [] && results {
      job := job + [ProducesResult];
    }
  }

  lemma ScalarSections(f: Filters)
    ensures JobConditions(ScalarClauses(f)) == (if f.seed.Some? then [SeedIs] else [])
      + (if f.promptVersionId.Some? then [PromptVersionIs] else []) + (if f.promptId.Some? then [PromptIs] else [])
    ensures JobArguments(ScalarClauses(f)) == (if f.seed.Some? then [NumberArgument(f.seed)] else [])
      + (if f.promptVersionId.Some? then [Argument(f.promptVersionId)] else [])
      + (if f.promptId.Some? then [Argument(f.promptId)] else [])
  {
    var a := When(f.seed.Some?, SeedIs, NumberArgument(f.seed));
    var b := When(f.promptVersionId.Some?, PromptVersionIs, Argument(f.promptVersionId));
    var c := When(f.promptId.Some?, PromptIs, Argument(f.promptId));
    JobAppend(a, b);
    JobAppend(a + b, c);
  }

  lemma {:induction false} JobAppend(a: seq<BoundJob>, b: seq<BoundJob>)
    ensures JobConditions(a + b) == JobConditions(a) + JobConditions(b)
    ensures JobArguments(a + b) == JobArguments(a) + JobArguments(b)
  {
    if a == [] {
      assert a + b == b;
    } else {
      assert (a + b)[0] == a[0] && (a + b)[1..] == a[1..] + b;
      JobAppend(a[1..], b);
      assert a[0].args + (JobArguments(a[1..]) + JobArguments(b)) == a[0].args + JobArguments(a[1..]) + JobArguments(b);
    }
  }

  lemma JobSections(f: Filters)
    ensures
      JobConditions(JobClauses(f)) == JobConditions(ScalarClauses(f)) + JobConditions(ParameterClauses(f.parameters))
      + JobConditions(ImageClauses(f.imageInputs)) + (if f.assetId.Some? then [UsesAsset] else [])
    ensures JobArguments(JobClauses(f)) == JobArguments(ScalarClauses(f)) + JobArguments(ParameterClauses(f.parameters))
      + JobArguments(ImageClauses(f.imageInputs)) + (if f.assetId.Some? then [Argument(f.assetId)] else [])
  {
    var s, p, i := ScalarClauses(f), ParameterClauses(f.parameters), ImageClauses(f.imageInputs);
    JobAppend(s, p);
    JobAppend(s + p, i);
    JobAppend(s + p + i, When(f.assetId.Some?, UsesAsset, Argument(f.assetId)));
  }

  lemma ResultSection(f: Filters, results: bool)
    ensures
      JobConditions(JobClausesFor(f, results)) ==
        JobConditions(JobClauses(f)) + if results then [ProducesResult] else []
    ensures JobArguments(JobClausesFor(f, results)) == JobArguments(JobClauses(f))
  {
    JobAppend(JobClauses(f), if results then [BoundJob(ProducesResult, [])] else []);
  }

  lemma JobSectionsEmpty(f: Filters)
    ensures JobConditions(JobClauses(f)) == [] <==> !FiltersJobs(f)
    ensures !FiltersJobs(f) ==> JobArguments(JobClauses(f)) == []
  {
    JobConditionCount(JobClauses(f));
    assert JobClauses(f) == [] <==> !FiltersJobs(f);
  }

  lemma {:induction false} JobConditionCount(bs: seq<BoundJob>)
    ensures |JobConditions(bs)| == |bs|
  {
    if bs != [] { JobConditionCount(bs[1..]); }
  }

  lemma {:induction false} Append(a: seq<Bound>, b: seq<Bound>)
    ensures Conditions(a + b) == Conditions(a) + Conditions(b)
    ensures Arguments(a + b) == Arguments(a) + Arguments(b)
  {
    if a == [] {
      assert a + b == b;
    } else {
      assert (a + b)[0] == a[0] && (a + b)[1..] == a[1..] + b;
      Append(a[1..], b);
      assert a[0].args + (Arguments(a[1..]) + Arguments(b)) == a[0].args + Arguments(a[1..]) + Arguments(b);
    }
  }

  lemma WhenConditionSql(present: bool, c: Condition, args: seq<Value>)
    requires |args| == Arity(c)
    ensures Conditions(WhenCondition(present, c, args)) == if present then [c] else []
    ensures Arguments(WhenCondition(present, c, args)) == if present then args else []
  {
  }

  function CreatedPart(f: Filters): (bs: seq<Bound>)
    ensures Fits(bs)
  {
    WhenCondition(f.createdFrom.Some?, CreatedFrom, [NumberArgument(f.createdFrom)])
    + WhenCondition(f.createdBefore.Some?, CreatedBefore, [NumberArgument(f.createdBefore)])
  }

  function ProvenancePart(f: Filters): (bs: seq<Bound>)
    ensures Fits(bs)
  {
    WhenCondition(FiltersProvenance(f), ProvenanceIs(ProvenanceColumns(f)), ProvenanceArguments(f))
  }

  method CreatedSql(f: Filters) returns (predicates: seq<Condition>, values: seq<Value>)
    ensures predicates == Conditions(CreatedPart(f)) && values == Arguments(CreatedPart(f))
  {
    predicates, values := [], [];
    if f.createdFrom.Some? {
      predicates, values := predicates + [CreatedFrom], values + [Plain(Num(f.createdFrom.value))];
    }
    if f.createdBefore.Some? {
      predicates, values := predicates + [CreatedBefore], values + [Plain(Num(f.createdBefore.value))];
    }
    Append(WhenCondition(f.createdFrom.Some?, CreatedFrom, [NumberArgument(f.createdFrom)]),
      WhenCondition(f.createdBefore.Some?, CreatedBefore, [NumberArgument(f.createdBefore)]));
    WhenConditionSql(f.createdFrom.Some?, CreatedFrom, [NumberArgument(f.createdFrom)]);
    WhenConditionSql(f.createdBefore.Some?, CreatedBefore, [NumberArgument(f.createdBefore)]);
  }

  method ProvenanceSql(f: Filters) returns (run: seq<ProvenanceColumn>, values: seq<Value>)
    ensures run == ProvenanceColumns(f) && values == ProvenanceArguments(f)
    ensures run != [] <==> FiltersProvenance(f)
  {
    run, values := [], [];
    if f.workflowVersionId.Some? {
      run, values := run + [WorkflowVersionColumn], values + [Plain(Text(f.workflowVersionId.value))];
    }
    if f.profileVersionId.Some? {
      run, values := run + [ProfileVersionColumn], values + [Plain(Text(f.profileVersionId.value))];
    }
    if f.savedBatchId.Some? {
      run, values := run + [SavedBatchColumn], values + [Plain(Text(f.savedBatchId.value))];
    }
  }

  /** The query text and the value list grow side by side; the placeholders and the values always
      correspond, and the predicates mean what the filter object says. */
  method FilterSql(f: Filters, results: bool) returns (predicates: seq<Condition>, values: seq<Value>)
    ensures predicates == Conditions(Clauses(f, results)) && values == Arguments(Clauses(f, results))
    ensures |values| == Arities(predicates)
    ensures forall tables, row :: (EvalAll(predicates, values, tables, row) <==> FilterHolds(f, tables, row, results))
  {
    predicates, values := CreatedSql(f);
    Append(CreatedPart(f), ProvenancePart(f));
    Append(CreatedPart(f) + ProvenancePart(f), JobPart(f, results));
    WhenConditionSql(FiltersProvenance(f), ProvenanceIs(ProvenanceColumns(f)), ProvenanceArguments(f));
    var run, runValues := ProvenanceSql(f);
    values := values + runValues;
    if run != [] {
      predicates := predicates + [ProvenanceIs(run)];
    }
    assert predicates == Conditions(CreatedPart(f) + ProvenancePart(f))
      && values == Arguments(CreatedPart(f) + ProvenancePart(f));
    JobPartSql(f, results);
    var job, jobValues := JobSql(f, results);
    values := values + jobValues;
    if job != [] {
      predicates := predicates + [ExistsJob(job)];
    }
    assert predicates == Conditions(Clauses(f, results)) && values == Arguments(Clauses(f, results));
    WhereMeaning(f, results);
  }

  lemma JobPartSql(f: Filters, results: bool)
    ensures Conditions(JobPart(f, results)) ==
      if FiltersJobs(f) then [ExistsJob(JobConditions(JobClausesFor(f, results)))] else []
    ensures Arguments(JobPart(f, results)) == if FiltersJobs(f) then JobArguments(JobClausesFor(f, results)) else []
  {
  }

  lemma WhereMeaning(f: Filters, results: bool)
    ensures |Arguments(Clauses(f, results))| == Arities(Conditions(Clauses(f, results)))
    ensures forall tables, row ::
      (EvalAll(Conditions(Clauses(f, results)), Arguments(Clauses(f, results)), tables, row) <==>
         FilterHolds(f, tables, row, results))
  {
    ClauseLengths(Clauses(f, results));
    forall tables, row
      ensures EvalAll(Conditions(Clauses(f, results)), Arguments(Clauses(f, results)), tables, row) <==>
        FilterHolds(f, tables, row, results)
    {
      Positions(Clauses(f, results), tables, row);
      ClausesMeaning(f, results, tables, row);
    }
  }
}
