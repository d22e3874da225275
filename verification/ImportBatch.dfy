/** The life of one external-evidence batch: upload, validate, analyze, materialize. */
module ImportBatch {
  import opened Common
  import opened StoredNames

  const MAX_FILE_BYTES := 15 * 1024 * 1024
  const MAX_AGENT_SERVICES := 50
  const MAX_ANALYSES := 20

  datatype FileRecord = FileRecord(
    source: Source, safeName: string, storedName: string, bytes: nat, sha: string,
    revision: nat, supersedes: Option<string>)

  datatype ValidationStatus = Rejected | ValidatedWithQuarantine | ValidatedWithWarnings | Validated

  datatype BatchStatus = Created | FilesUploaded | Checked(outcome: ValidationStatus) | Analyzed | Materialized

  type FileTable = map<Source, FileRecord>

  /** `computedFrom` records the file revisions the validation read. */
  datatype QualityReport = QualityReport(status: ValidationStatus, computedFrom: FileTable, accepted: nat, total: nat)

  datatype FileRef = FileRef(revision: nat, sha: string, storedName: string)

  datatype Analysis = Analysis(id: string, inputFiles: map<Source, FileRef>)

  /** The uploaded evidence: current files, every revision of each source, and the raw directory. */
  datatype Evidence = Evidence(files: FileTable, history: map<Source, seq<FileRecord>>, raw: map<string, string>)

  /** `scenario.json`: the analysis it came from, the run it was made for and when it was written. */
  datatype Scenario = Scenario(id: string, analysisId: string, run: Option<string>, createdAt: int)

  /** The manifest and the report files of a batch. `analysis` is the manifest's own entry, and `links` are the
      copies of the scenario kept under the runs it was materialized for. */
  datatype Batch = Batch(
    status: BatchStatus, evidence: Evidence, quality: Option<QualityReport>,
    recommendation: Option<Analysis>, analysis: Option<string>, analysisHistory: seq<string>,
    projection: Option<string>, scenario: Option<Scenario>, scenarioId: Option<string>,
    links: map<string, Scenario>)

  const NO_EVIDENCE := Evidence(map[], map[], map[])

  const NEW_BATCH := Batch(Created, NO_EVIDENCE, None, None, None, [], None, None, None, map[])

  /** SHA-256, the scenario id derived from an analysis id, and the naming of stored files. */
  datatype Environment = Environment(
    sha: string -> string, scenarioOf: string -> string, nameOf: (Source, nat, string) -> string)

  /** The environment of the real system: digests are opaque, names are formatted as in StoredNames. */
  function Production(sha: string -> string, scenarioOf: string -> string): Environment {
    Environment(sha, scenarioOf, StoredName)
  }

  /** A stored filename identifies its source and revision. */
  ghost predicate NamesIdentify(env: Environment) {
    forall s, t, r, q, x, y {:trigger env.nameOf(s, r, x), env.nameOf(t, q, y)} ::
      env.nameOf(s, r, x) == env.nameOf(t, q, y) ==> s == t && r == q
  }

  lemma ProductionNamesIdentify(sha: string -> string, scenarioOf: string -> string)
    ensures NamesIdentify(Production(sha, scenarioOf))
  {
    forall s, t, r, q, x, y | StoredName(s, r, x) == StoredName(t, q, y) ensures s == t && r == q {
      StoredNameIdentifies(s, t, r, q, x, y);
    }
  }

  datatype Upload = Upload(source: Source, safeName: string, content: string, bytes: nat, replace: bool)

  /** The validation pipeline's verdict on the current files. */
  datatype Verdict = Verdict(status: ValidationStatus, accepted: nat, total: nat)

  /** What a call to materialize is given and meets: a run, whether that run and the projection can be had, and the
      time. */
  datatype Target = Target(run: Option<string>, runExists: bool, projectionBuilt: bool, at: int)
  {
    /** `if run_id:` */
    predicate NamesRun() { run.Some? && run.value != "" }
  }

  datatype Op =
    | DoUpload(upload: Upload)
    | DoValidate(verdict: Option<Verdict>)                               // None: the pipeline raises
    | DoAnalyze(maxServices: int, analysisId: string, completes: bool)
    | DoMaterialize(target: Target)

  function Refs(files: FileTable): map<Source, FileRef> {
    map s | s in files :: FileRef(files[s].revision, files[s].sha, files[s].storedName)
  }

  function HistoryOf(e: Evidence, s: Source): seq<FileRecord> { if s in e.history then e.history[s] else [] }

  // ------------------------------------------------------------------ the operations as functions

  function UploadError(b: Batch, u: Upload): Option<Error> {
    if u.bytes > MAX_FILE_BYTES || '\0' in u.content then Some(ValueError)
    else if b.status == Materialized then Some(ValueError)
    else if u.source in b.evidence.files && !u.replace then Some(FileExistsError)
    else None
  }

  function NewRecord(e: Evidence, u: Upload, env: Environment): FileRecord {
    var revision := (if u.source in e.files then e.files[u.source].revision else 0) + 1;
    var supersedes := if u.source in e.files then Some(e.files[u.source].sha) else None;
    FileRecord(u.source, u.safeName, env.nameOf(u.source, revision, u.safeName), u.bytes,
               env.sha(u.content), revision, supersedes)
  }

  function WithRecord(e: Evidence, record: FileRecord, content: string): Evidence {
    Evidence(e.files[record.source := record],
             e.history[record.source := HistoryOf(e, record.source) + [record]],
             e.raw[record.storedName := content])
  }

  function Uploaded(b: Batch, u: Upload, env: Environment): Batch {
    b.(evidence := WithRecord(b.evidence, NewRecord(b.evidence, u, env), u.content),
       quality := None, recommendation := None, scenario := None,
       analysis := None, scenarioId := None, status := FilesUploaded)
  }

  function ValidateError(b: Batch, verdict: Option<Verdict>): Option<Error> {
    if b.status == Materialized || verdict.None? then Some(ValueError) else None
  }

  /** A validation that raises has already deleted the downstream reports but not rewritten the manifest. */
  function AfterValidate(b: Batch, verdict: Option<Verdict>): Batch {
    if b.status == Materialized then b else
      var cleared := b.(recommendation := None, projection := None, scenario := None);
      if verdict.None? then cleared else
        var v := verdict.value;
        cleared.(quality := Some(QualityReport(v.status, b.evidence.files, v.accepted, v.total)),
                 analysis := None, scenarioId := None, status := Checked(v.status))
  }

  function AnalyzeError(b: Batch, maxServices: int, completes: bool): Option<Error> {
    if maxServices < 1 || maxServices > MAX_AGENT_SERVICES then Some(ValueError)
    else if b.quality.None? then Some(ValueError)
    else if b.status == Materialized then Some(ValueError)
    else if |b.analysisHistory| >= MAX_ANALYSES then Some(ValueError)
    else if b.quality.value.status == Rejected then Some(ValueError)
    else if !completes then Some(ValueError)
    else None
  }

  function AnalyzedBatch(b: Batch, analysisId: string): Batch {
    b.(recommendation := Some(Analysis(analysisId, Refs(b.evidence.files))),
       analysis := Some(analysisId), analysisHistory := b.analysisHistory + [analysisId], status := Analyzed)
  }

  function MaterializeError(b: Batch, t: Target): Option<Error> {
    if b.recommendation.None? then Some(ValueError)
    else if t.NamesRun() && !t.runExists then Some(FileNotFoundError)
    else if b.quality.None? || !t.projectionBuilt then Some(ValueError)
    else None
  }

  function ScenarioFor(analysisId: string, t: Target, env: Environment): Scenario {
    Scenario(env.scenarioOf(analysisId), analysisId, t.run, t.at)
  }

  function WithScenario(b: Batch, t: Target, scenario: Scenario): Batch {
    b.(projection := Some(scenario.analysisId), scenario := Some(scenario), scenarioId := Some(scenario.id),
       links := if t.NamesRun() then b.links[t.run.value := scenario] else b.links, status := Materialized)
  }

  function MaterializedBatch(b: Batch, t: Target, env: Environment): Batch
    requires b.recommendation.Some?
  {
    WithScenario(b, t, ScenarioFor(b.recommendation.value.id, t, env))
  }

  function ErrorOf(b: Batch, op: Op): Option<Error> {
    match op
    case DoUpload(u) => UploadError(b, u)
    case DoValidate(v) => ValidateError(b, v)
    case DoAnalyze(n, _, completes) => AnalyzeError(b, n, completes)
    case DoMaterialize(t) => MaterializeError(b, t)
  }

  function After(b: Batch, op: Op, env: Environment): Batch {
    if op.DoValidate? then AfterValidate(b, op.verdict)
    else if ErrorOf(b, op).Some? then b
    else match op
      case DoUpload(u) => Uploaded(b, u, env)
      case DoAnalyze(_, id, _) => AnalyzedBatch(b, id)
      case DoMaterialize(t) => MaterializedBatch(b, t, env)
  }

  // ------------------------------------------------------------------ the batch directory, updated in place

  class BatchDirectory {
    const env: Environment
    var status: BatchStatus
    var files: FileTable
    var history: map<Source, seq<FileRecord>>
    var quality: Option<QualityReport>
    var recommendation: Option<Analysis>
    var analysis: Option<string>
    var analysisHistory: seq<string>
    var projection: Option<string>
    var scenario: Option<Scenario>
    var scenarioId: Option<string>
    var links: map<string, Scenario>
    var raw: map<string, string>

    function State(): Batch
      reads this
    {
      Batch(status, Evidence(files, history, raw), quality, recommendation, analysis, analysisHistory,
            projection, scenario, scenarioId, links)
    }

    constructor (sha: string -> string, scenarioOf: string -> string)
      ensures State() == NEW_BATCH && env == Production(sha, scenarioOf)
    {
      env := Production(sha, scenarioOf);
      status, files, history, raw := Created, map[], map[], map[];
      quality, recommendation, analysis, analysisHistory := None, None, None, [];
      projection, scenario, scenarioId, links := None, None, None, map[];
    }

    method AddCsv(u: Upload) returns (r: Result<FileRecord>)
      modifies this
      ensures UploadError(old(State()), u).Some? ==>
                State() == old(State()) && r == Err(UploadError(old(State()), u).value)
      ensures UploadError(old(State()), u).None? ==>
                State() == Uploaded(old(State()), u, env) && r == Ok(NewRecord(old(State()).evidence, u, env))
      ensures u.source in old(files) && !u.replace ==> r.Err? && State() == old(State())
    {
      if u.bytes > MAX_FILE_BYTES || '\0' in u.content { return Err(ValueError); }
      if status == Materialized { return Err(ValueError); }
      if u.source in files && !u.replace { return Err(FileExistsError); }
      var record := StoreRevision(u);
      r := Ok(record);
    }

    /** Writes the next revision's raw file, extends the history and discards every derived report. */
    method StoreRevision(u: Upload) returns (record: FileRecord)
      modifies this
      ensures record == NewRecord(old(State()).evidence, u, env)
      ensures State() == Uploaded(old(State()), u, env)
    {
      var revision, supersedes := 1, None;
      if u.source in files {
        revision, supersedes := files[u.source].revision + 1, Some(files[u.source].sha);
      }
      var storedName := env.nameOf(u.source, revision, u.safeName);
      raw := raw[storedName := u.content];
      record := FileRecord(u.source, u.safeName, storedName, u.bytes, env.sha(u.content), revision, supersedes);
      history := history[u.source := (if u.source in history then history[u.source] else []) + [record]];
      files := files[u.source := record];
      assert record == NewRecord(old(State()).evidence, u, env);
      assert State().evidence == WithRecord(old(State()).evidence, record, u.content);
      DiscardReports();
    }

    method DiscardReports()
      modifies this`quality, this`recommendation, this`scenario, this`analysis, this`scenarioId, this`status
      ensures State() == old(State()).(quality := None, recommendation := None, scenario := None,
                                       analysis := None, scenarioId := None, status := FilesUploaded)
    {
      quality, recommendation, scenario := None, None, None;
      analysis, scenarioId := None, None;
      status := FilesUploaded;
    }

    method Validate(verdict: Option<Verdict>) returns (r: Result<QualityReport>)
      modifies this
      ensures State() == AfterValidate(old(State()), verdict)
      ensures match ValidateError(old(State()), verdict)
              case Some(e) => r == Err(e)
              case None => quality.Some? && r == Ok(quality.value)
    {
      if status == Materialized { return Err(ValueError); }
      ClearDownstream();
      if verdict.None? { return Err(ValueError); }
      var report := QualityReport(verdict.value.status, files, verdict.value.accepted, verdict.value.total);
      RecordQuality(report);
      r := Ok(report);
    }

    method ClearDownstream()
      modifies this`recommendation, this`projection, this`scenario
      ensures State() == old(State()).(recommendation := None, projection := None, scenario := None)
    {
      recommendation, projection, scenario := None, None, None;
    }

    method RecordQuality(report: QualityReport)
      modifies this`quality, this`analysis, this`scenarioId, this`status
      ensures State() == old(State()).(quality := Some(report), analysis := None, scenarioId := None,
                                       status := Checked(report.status))
    {
      quality, analysis, scenarioId := Some(report), None, None;
      status := Checked(report.status);
    }

    method Analyze(maxServices: int, analysisId: string, completes: bool) returns (r: Result<Analysis>)
      modifies this
      ensures match AnalyzeError(old(State()), maxServices, completes)
              case Some(e) => r == Err(e) && State() == old(State())
              case None => State() == AnalyzedBatch(old(State()), analysisId) && r == Ok(recommendation.value)
    {
      if maxServices < 1 || maxServices > MAX_AGENT_SERVICES { return Err(ValueError); }
      if quality.None? { return Err(ValueError); }
      if status == Materialized { return Err(ValueError); }
      if |analysisHistory| >= MAX_ANALYSES { return Err(ValueError); }
      if quality.value.status == Rejected || !completes { return Err(ValueError); }
      var report := Analysis(analysisId, Refs(files));
      recommendation := Some(report);
      status := Analyzed;
      analysis := Some(analysisId);
      analysisHistory := analysisHistory + [analysisId];
      r := Ok(report);
    }

    /** Writes the scenario and, for a named run, its copy there; a materialized batch is materialized again. */
    method Materialize(t: Target) returns (r: Result<Scenario>)
      modifies this
      ensures match MaterializeError(old(State()), t)
              case Some(e) => r == Err(e) && State() == old(State())
              case None => State() == MaterializedBatch(old(State()), t, env) && r == Ok(scenario.value)
    {
      if recommendation.None? { return Err(ValueError); }
      if t.NamesRun() && !t.runExists { return Err(FileNotFoundError); }
      if quality.None? || !t.projectionBuilt { return Err(ValueError); }
      var analysisId := recommendation.value.id;
      var made := Scenario(env.scenarioOf(analysisId), analysisId, t.run, t.at);
      projection, scenario := Some(analysisId), Some(made);
      if t.NamesRun() { links := links[t.run.value := made]; }
      status, scenarioId := Materialized, Some(made.id);
      r := Ok(made);
    }
  }

  // ------------------------------------------------------------------ runs

  function AfterAll(b: Batch, ops: seq<Op>, env: Environment): Batch
    decreases |ops|
  {
    if ops == [] then b else AfterAll(After(b, ops[0], env), ops[1..], env)
  }

  /** The current file of a source is the last entry of its history. */
  ghost predicate FilesAreLatest(e: Evidence) {
    && e.files.Keys == e.history.Keys
    && forall s :: s in e.history ==> e.history[s] != [] && e.files[s] == e.history[s][|e.history[s]| - 1]
  }

  ghost predicate Link(h: seq<FileRecord>, s: Source, k: nat, env: Environment)
    requires k < |h|
  {
    && h[k].source == s
    && h[k].revision == k + 1
    && h[k].storedName == env.nameOf(s, k + 1, h[k].safeName)
    && h[k].supersedes == if k == 0 then None else Some(h[k - 1].sha)
  }

  /** Entry k of a history is revision k + 1 and names the digest of the entry it supersedes. */
  ghost predicate Chained(h: seq<FileRecord>, s: Source, env: Environment) {
    forall k :: 0 <= k < |h| ==> Link(h, s, k, env)
  }

  /** The raw file of entry k is present and has the recorded digest. */
  ghost predicate StoredAt(h: seq<FileRecord>, k: nat, raw: map<string, string>, env: Environment)
    requires k < |h|
  {
    h[k].storedName in raw && env.sha(raw[h[k].storedName]) == h[k].sha
  }

  ghost predicate AllStored(h: seq<FileRecord>, raw: map<string, string>, env: Environment) {
    forall k :: 0 <= k < |h| ==> StoredAt(h, k, raw, env)
  }

  ghost predicate NamedAt(h: seq<FileRecord>, k: nat, name: string) { k < |h| && h[k].storedName == name }

  ghost predicate Names(h: seq<FileRecord>, name: string) { exists k :: NamedAt(h, k, name) }

  ghost predicate Recorded(e: Evidence, name: string) {
    exists s :: s in e.history && Names(e.history[s], name)
  }

  /** The raw directory holds exactly the recorded uploads. */
  ghost predicate RawMatchesHistory(e: Evidence, env: Environment) {
    && (forall s :: s in e.history ==> AllStored(e.history[s], e.raw, env))
    && (forall n :: n in e.raw ==> Recorded(e, n))
  }

  ghost predicate Kept(e: Evidence, env: Environment) {
    && FilesAreLatest(e)
    && (forall s :: s in e.history ==> Chained(e.history[s], s, env))
    && RawMatchesHistory(e, env)
  }

  /** The scenario belongs to the current analysis and stands under the run it was made for. */
  ghost predicate ScenarioFits(b: Batch, analysisId: string, env: Environment) {
    && b.scenario.Some?
    && b.scenario.value.analysisId == analysisId && b.scenario.value.id == env.scenarioOf(analysisId)
    && b.scenarioId == Some(b.scenario.value.id) && b.projection == Some(analysisId)
    && (b.scenario.value.run.Some? && b.scenario.value.run.value != "" ==>
          b.scenario.value.run.value in b.links && b.links[b.scenario.value.run.value] == b.scenario.value)
  }

  /** No report outlives the evidence it was computed from, and the manifest's status agrees with the reports. */
  ghost predicate Fresh(b: Batch, env: Environment) {
    && (b.quality.Some? ==> b.quality.value.computedFrom == b.evidence.files)
    && (b.recommendation.Some? ==>
          && b.quality.Some? && b.quality.value.status != Rejected
          && b.recommendation.value.inputFiles == Refs(b.evidence.files)
          && b.analysisHistory != []
          && b.analysisHistory[|b.analysisHistory| - 1] == b.recommendation.value.id
          && b.status in {Analyzed, Materialized})
    && (b.status.Checked? ==> b.quality.Some? && b.quality.value.status == b.status.outcome)
    && (b.status == Analyzed ==> b.quality.Some? && b.quality.value.status != Rejected)
    && (b.status == Materialized ==>
          b.recommendation.Some? && ScenarioFits(b, b.recommendation.value.id, env))
    && (b.status != Materialized ==> b.scenario.None? && b.projection.None? && b.links == map[])
    && |b.analysisHistory| <= MAX_ANALYSES
  }

  lemma FreshKept(b: Batch, op: Op, env: Environment)
    requires Fresh(b, env)
    ensures Fresh(After(b, op, env), env)
  {
  }

  /** Every raw file is some recorded revision of some source. */
  lemma RecordedAs(e: Evidence, name: string, env: Environment) returns (s: Source, revision: nat, safeName: string)
    requires Kept(e, env) && name in e.raw
    ensures 0 < revision <= |HistoryOf(e, s)| && name == env.nameOf(s, revision, safeName)
  {
    assert Recorded(e, name);
    s :| s in e.history && Names(e.history[s], name);
    var k: nat :| NamedAt(e.history[s], k, name);
    assert Chained(e.history[s], s, env) && Link(e.history[s], s, k, env);
    revision, safeName := k + 1, e.history[s][k].safeName;
  }

  /** A revision beyond the end of its own history has a name no recorded upload has. */
  lemma NextNameIsUnused(e: Evidence, source: Source, revision: nat, safeName: string, env: Environment)
    requires NamesIdentify(env) && Kept(e, env) && revision > |HistoryOf(e, source)|
    ensures env.nameOf(source, revision, safeName) !in e.raw
  {
    if env.nameOf(source, revision, safeName) in e.raw {
      var s, r, x := RecordedAs(e, env.nameOf(source, revision, safeName), env);
    }
  }

  /** The new record continues its source's chain. */
  lemma NewRecordFollows(e: Evidence, u: Upload, env: Environment)
    requires Kept(e, env)
    ensures var record, h := NewRecord(e, u, env), HistoryOf(e, u.source);
            && record.revision == |h| + 1
            && record.supersedes == if h == [] then None else Some(h[|h| - 1].sha)
  {
    var h := HistoryOf(e, u.source);
    if u.source in e.files {
      assert Chained(h, u.source, env) && Link(h, u.source, |h| - 1, env);
    }
  }

  lemma ChainGrows(h: seq<FileRecord>, s: Source, record: FileRecord, env: Environment)
    requires Chained(h, s, env) && record.source == s && record.revision == |h| + 1
    requires record.storedName == env.nameOf(s, |h| + 1, record.safeName)
    requires record.supersedes == if h == [] then None else Some(h[|h| - 1].sha)
    ensures Chained(h + [record], s, env)
  {
    forall k | 0 <= k < |h| + 1 ensures Link(h + [record], s, k, env) {
      if k < |h| { assert Link(h, s, k, env); }
    }
  }

  lemma RecordKeepsChains(e: Evidence, record: FileRecord, content: string, env: Environment)
    requires Kept(e, env)
    requires Chained(HistoryOf(e, record.source) + [record], record.source, env)
    ensures var t := WithRecord(e, record, content);
            FilesAreLatest(t) && forall s :: s in t.history ==> Chained(t.history[s], s, env)
  {
    var t, h := WithRecord(e, record, content), HistoryOf(e, record.source);
    assert t.history[record.source] == h + [record];
    forall s | s in t.history
      ensures t.history[s] != [] && t.files[s] == t.history[s][|t.history[s]| - 1] && Chained(t.history[s], s, env)
    {
      if s != record.source { assert Chained(e.history[s], s, env); }
    }
  }

  lemma StorageGrows(h: seq<FileRecord>, record: FileRecord, content: string, raw: map<string, string>,
                     env: Environment)
    requires AllStored(h, raw, env) && record.storedName !in raw && record.sha == env.sha(content)
    ensures AllStored(h, raw[record.storedName := content], env)
    ensures AllStored(h + [record], raw[record.storedName := content], env)
  {
    var after := raw[record.storedName := content];
    forall k | 0 <= k < |h| ensures StoredAt(h, k, after, env) && StoredAt(h + [record], k, after, env) {
      assert StoredAt(h, k, raw, env);
    }
    assert StoredAt(h + [record], |h|, after, env);
  }

  lemma RecordKeepsRaw(e: Evidence, record: FileRecord, content: string, env: Environment)
    requires RawMatchesHistory(e, env) && record.storedName !in e.raw && record.sha == env.sha(content)
    ensures RawMatchesHistory(WithRecord(e, record, content), env)
  {
    var t, h := WithRecord(e, record, content), HistoryOf(e, record.source);
    forall s | s in t.history ensures AllStored(t.history[s], t.raw, env) {
      StorageGrows(HistoryOf(e, s), record, content, e.raw, env);
    }
    assert NamedAt(t.history[record.source], |h|, record.storedName);
    assert Names(t.history[record.source], record.storedName);
    forall n | n in e.raw ensures Recorded(t, n) {
      assert Recorded(e, n);
      var s :| s in e.history && Names(e.history[s], n);
      var k: nat :| NamedAt(e.history[s], k, n);
      assert NamedAt(t.history[s], k, n);
      assert Names(t.history[s], n);
    }
  }

  /** Recording an upload that follows the chain under an unused name keeps the evidence intact. */
  lemma RecordKeepsEvidence(e: Evidence, record: FileRecord, content: string, env: Environment)
    requires Kept(e, env) && record.storedName !in e.raw && record.sha == env.sha(content)
    requires Chained(HistoryOf(e, record.source) + [record], record.source, env)
    ensures Kept(WithRecord(e, record, content), env)
    ensures Extends(WithRecord(e, record, content), e)
  {
    RecordKeepsChains(e, record, content, env);
    RecordKeepsRaw(e, record, content, env);
  }

  /** Nothing in the histories or raw files of `earlier` was changed or lost. */
  ghost predicate Extends(later: Evidence, earlier: Evidence) {
    && (forall s :: s in earlier.history ==> s in later.history && earlier.history[s] <= later.history[s])
    && (forall n :: n in earlier.raw ==> n in later.raw && later.raw[n] == earlier.raw[n])
  }

  lemma UploadKeepsEvidence(e: Evidence, u: Upload, env: Environment)
    requires NamesIdentify(env) && Kept(e, env)
    ensures Kept(WithRecord(e, NewRecord(e, u, env), u.content), env)
    ensures Extends(WithRecord(e, NewRecord(e, u, env), u.content), e)
  {
    var record, h := NewRecord(e, u, env), HistoryOf(e, u.source);
    NewRecordFollows(e, u, env);
    assert Chained(h, u.source, env);
    ChainGrows(h, u.source, record, env);
    NextNameIsUnused(e, u.source, record.revision, u.safeName, env);
    RecordKeepsEvidence(e, record, u.content, env);
  }

  lemma EvidenceAfter(b: Batch, op: Op, env: Environment)
    ensures After(b, op, env).evidence ==
            if op.DoUpload? && UploadError(b, op.upload).None?
            then WithRecord(b.evidence, NewRecord(b.evidence, op.upload, env), op.upload.content)
            else b.evidence
    ensures b.analysisHistory <= After(b, op, env).analysisHistory
  {
  }

  lemma EvidenceStep(b: Batch, op: Op, env: Environment)
    requires NamesIdentify(env) && Kept(b.evidence, env)
    ensures Kept(After(b, op, env).evidence, env) && Extends(After(b, op, env).evidence, b.evidence)
  {
    EvidenceAfter(b, op, env);
    if op.DoUpload? && UploadError(b, op.upload).None? {
      UploadKeepsEvidence(b.evidence, op.upload, env);
    }
  }

  lemma {:induction false} InvariantAlongRun(b: Batch, ops: seq<Op>, env: Environment)
    requires NamesIdentify(env) && Fresh(b, env) && Kept(b.evidence, env)
    ensures Fresh(AfterAll(b, ops, env), env) && Kept(AfterAll(b, ops, env).evidence, env)
    decreases |ops|
  {
    if ops != [] {
      FreshKept(b, ops[0], env);
      EvidenceStep(b, ops[0], env);
      InvariantAlongRun(After(b, ops[0], env), ops[1..], env);
    }
  }

  /** After any calls on a new batch, every report is fresh and the evidence chain is intact. */
  lemma EveryRunIsFresh(ops: seq<Op>, sha: string -> string, scenarioOf: string -> string)
    ensures var env := Production(sha, scenarioOf);
            var b := AfterAll(NEW_BATCH, ops, env);
            Fresh(b, env) && Kept(b.evidence, env)
  {
    ProductionNamesIdentify(sha, scenarioOf);
    InvariantAlongRun(NEW_BATCH, ops, Production(sha, scenarioOf));
  }

  lemma ExtendsTransitive(a: Evidence, b: Evidence, c: Evidence)
    requires Extends(b, a) && Extends(c, b)
    ensures Extends(c, a)
  {
    forall s | s in a.history ensures s in c.history && a.history[s] <= c.history[s] {
      assert a.history[s] <= b.history[s] <= c.history[s];
    }
  }

  /** Whatever is called, no recorded revision, raw file or analysis entry is ever changed or dropped. */
  lemma {:induction false} EvidenceIsAppendOnly(b: Batch, ops: seq<Op>, env: Environment)
    requires NamesIdentify(env) && Kept(b.evidence, env)
    ensures Extends(AfterAll(b, ops, env).evidence, b.evidence)
    ensures b.analysisHistory <= AfterAll(b, ops, env).analysisHistory
    decreases |ops|
  {
    if ops != [] {
      var t := After(b, ops[0], env);
      EvidenceAfter(b, ops[0], env);
      EvidenceStep(b, ops[0], env);
      EvidenceIsAppendOnly(t, ops[1..], env);
      ExtendsTransitive(b.evidence, t.evidence, AfterAll(b, ops, env).evidence);
    }
  }

  /** No upload of any run reuses a stored filename, so raw evidence is never overwritten. */
  lemma UploadsNeverOverwrite(ops: seq<Op>, u: Upload, sha: string -> string, scenarioOf: string -> string)
    ensures var env := Production(sha, scenarioOf);
            var e := AfterAll(NEW_BATCH, ops, env).evidence;
            NewRecord(e, u, env).storedName !in e.raw && NewRecord(e, u, env).revision == |HistoryOf(e, u.source)| + 1
  {
    var env := Production(sha, scenarioOf);
    var e := AfterAll(NEW_BATCH, ops, env).evidence;
    EveryRunIsFresh(ops, sha, scenarioOf);
    ProductionNamesIdentify(sha, scenarioOf);
    NewRecordFollows(e, u, env);
    NextNameIsUnused(e, u.source, NewRecord(e, u, env).revision, u.safeName, env);
  }
}
