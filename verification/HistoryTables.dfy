/** The historical projection: the tables a history query reads, and the filter object it is given. */
module HistoryTables {
  import opened Common
  import opened Keyset

  datatype Scalar =
    | StringValue(text: string)
    | IntegerValue(number: int)
    | FloatValue(decimal: real)
    | BooleanValue(flag: bool)
  {
    function Type(): ValueType {
      match this
      case StringValue(_) => StringType
      case IntegerValue(_) => IntegerType
      case FloatValue(_) => FloatType
      case BooleanValue(_) => BooleanType
    }
  }

  // ---------- tables ----------

  /** `stamp` is history_timestamp_us(created_at); None for text that is not a timestamp. */
  datatype RunRow = RunRow(
    rowid: int, projectId: string, runId: string, batchId: string,
    name: Option<string>, description: Option<string>,
    stamp: Option<int>, status: Option<string>, available: bool)

  datatype ResultRow = ResultRow(
    rowid: int, projectId: string, runId: string, jobId: string, jobOrdinal: int, artifactOrdinal: int)

  datatype JobRow = JobRow(
    projectId: string, runId: string, jobId: string, seed: int, promptVersionId: string)

  datatype ProvenanceRow = ProvenanceRow(
    projectId: string, runId: string,
    workflowVersionId: Option<string>, profileVersionId: Option<string>, savedBatchId: Option<string>)

  datatype PromptRow = PromptRow(
    projectId: string, runId: string, promptVersionId: string, promptId: Option<string>)

  /** One nullable column for each value type, as the table stores them. */
  datatype ParameterRow = ParameterRow(
    projectId: string, runId: string, jobId: string, key: string, valueType: ValueType, isBase: bool,
    stringValue: Option<string>, integerValue: Option<int>, realValue: Option<real>, booleanValue: Option<bool>)

  datatype ImageRow = ImageRow(
    projectId: string, runId: string, jobId: string, slotKey: string, assetId: Option<string>)

  datatype AssetUseRow = AssetUseRow(projectId: string, runId: string, jobId: string, assetId: string)

  datatype Tables = Tables(
    runs: seq<RunRow>, results: seq<ResultRow>, jobs: seq<JobRow>, provenance: seq<ProvenanceRow>,
    prompts: seq<PromptRow>, parameters: seq<ParameterRow>, images: seq<ImageRow>, assetUses: seq<AssetUseRow>)

  /** The override a parameter row records; None when the job ran with the base workflow value. */
  function StoredValue(row: ParameterRow): Option<Scalar> {
    if row.isBase then None else
      match row.valueType
      case StringType => (match row.stringValue case Some(v) => Some(StringValue(v)) case None => None)
      case IntegerType => (match row.integerValue case Some(v) => Some(IntegerValue(v)) case None => None)
      case FloatType => (match row.realValue case Some(v) => Some(FloatValue(v)) case None => None)
      case BooleanType => (match row.booleanValue case Some(v) => Some(BooleanValue(v)) case None => None)
  }

  // ---------- the filter object ----------

  datatype ParameterFilter =
    | Equals(key: string, value: Scalar)
    | Base(key: string, valueType: ValueType)
    | Override(key: string, valueType: ValueType)

  datatype ImageFilter = BaseImage(slotKey: string) | Asset(slotKey: string, assetId: string)

  datatype Filters = Filters(
    createdFrom: Option<int>, createdBefore: Option<int>,
    workflowVersionId: Option<string>, profileVersionId: Option<string>, savedBatchId: Option<string>,
    seed: Option<int>, promptVersionId: Option<string>, promptId: Option<string>,
    parameters: seq<ParameterFilter>, imageInputs: seq<ImageFilter>, assetId: Option<string>)

  const NO_FILTERS := Filters(None, None, None, None, None, None, None, None, [], [], None)

  // ---------- what a filter means ----------

  /** A row of the runs view, or of the join that the results view shows. */
  datatype Candidate = Candidate(run: RunRow, result: Option<ResultRow>)

  predicate OfRun(run: RunRow, projectId: string, runId: string) {
    projectId == run.projectId && runId == run.runId
  }

  /** The row of historical_parameter_value that the filter asks for. */
  predicate ParameterMatch(f: ParameterFilter, p: ParameterRow) {
    p.key == f.key
    && match f
       case Equals(_, value) => p.valueType == value.Type() && StoredValue(p) == Some(value)
       case Base(_, valueType) => p.valueType == valueType && p.isBase
       case Override(_, valueType) => p.valueType == valueType && !p.isBase
  }

  predicate ParameterHolds(filter: ParameterFilter, tables: Tables, job: JobRow) {
    exists row :: row in tables.parameters && JobOwns(job, row.projectId, row.runId, row.jobId)
      && ParameterMatch(filter, row)
  }

  predicate ImageHolds(filter: ImageFilter, tables: Tables, job: JobRow) {
    exists row :: row in tables.images && JobOwns(job, row.projectId, row.runId, row.jobId)
      && row.slotKey == filter.slotKey
      && row.assetId == (match filter case BaseImage(_) => None case Asset(_, id) => Some(id))
  }

  predicate PromptHolds(promptId: string, tables: Tables, job: JobRow) {
    exists row :: row in tables.prompts && row.projectId == job.projectId && row.runId == job.runId
      && row.promptVersionId == job.promptVersionId && row.promptId == Some(promptId)
  }

  predicate AssetHolds(assetId: string, tables: Tables, job: JobRow) {
    exists row :: row in tables.assetUses && JobOwns(job, row.projectId, row.runId, row.jobId) && row.assetId == assetId
  }

  predicate JobOwns(job: JobRow, projectId: string, runId: string, jobId: string) {
    projectId == job.projectId && runId == job.runId && jobId == job.jobId
  }

  /** One job meets every job-level filter. */
  predicate JobSatisfies(f: Filters, tables: Tables, job: JobRow) {
    && (f.seed.Some? ==> job.seed == f.seed.value)
    && (f.promptVersionId.Some? ==> job.promptVersionId == f.promptVersionId.value)
    && (f.promptId.Some? ==> PromptHolds(f.promptId.value, tables, job))
    && (forall i :: 0 <= i < |f.parameters| ==> ParameterHolds(f.parameters[i], tables, job))
    && (forall i :: 0 <= i < |f.imageInputs| ==> ImageHolds(f.imageInputs[i], tables, job))
    && (f.assetId.Some? ==> AssetHolds(f.assetId.value, tables, job))
  }

  predicate FiltersJobs(f: Filters) {
    f.seed.Some? || f.promptVersionId.Some? || f.promptId.Some? || f.parameters != [] || f.imageInputs != []
    || f.assetId.Some?
  }

  predicate ProvenanceMatch(f: Filters, row: ProvenanceRow) {
    && (f.workflowVersionId.Some? ==> row.workflowVersionId == f.workflowVersionId)
    && (f.profileVersionId.Some? ==> row.profileVersionId == f.profileVersionId)
    && (f.savedBatchId.Some? ==> row.savedBatchId == f.savedBatchId)
  }

  predicate ProvenanceHolds(f: Filters, tables: Tables, run: RunRow) {
    exists row :: row in tables.provenance && OfRun(run, row.projectId, row.runId) && ProvenanceMatch(f, row)
  }

  predicate FiltersProvenance(f: Filters) {
    f.workflowVersionId.Some? || f.profileVersionId.Some? || f.savedBatchId.Some?
  }

  /** A single job carries all job-level conditions; in the results view, the job that produced the result. */
  predicate SomeJobSatisfies(f: Filters, tables: Tables, c: Candidate, results: bool) {
    exists job :: job in tables.jobs && OfRun(c.run, job.projectId, job.runId) && JobSatisfies(f, tables, job)
      && (results ==> c.result.Some? && job.jobId == c.result.value.jobId)
  }

  predicate FilterHolds(f: Filters, tables: Tables, c: Candidate, results: bool) {
    && (f.createdFrom.Some? ==> c.run.stamp.Some? && c.run.stamp.value >= f.createdFrom.value)
    && (f.createdBefore.Some? ==> c.run.stamp.Some? && c.run.stamp.value < f.createdBefore.value)
    && (FiltersProvenance(f) ==> ProvenanceHolds(f, tables, c.run))
    && (FiltersJobs(f) ==> SomeJobSatisfies(f, tables, c, results))
  }

  /** A run with a matching result also matches in the runs view. */
  lemma MatchingResultMeansMatchingRun(f: Filters, tables: Tables, c: Candidate)
    requires FilterHolds(f, tables, c, true)
    ensures FilterHolds(f, tables, Candidate(c.run, None), false)
  {
    if FiltersJobs(f) {
      var job :| job in tables.jobs && OfRun(c.run, job.projectId, job.runId) && JobSatisfies(f, tables, job)
        && c.result.Some? && job.jobId == c.result.value.jobId;
      assert SomeJobSatisfies(f, tables, Candidate(c.run, None), false);
    }
  }
}
