/** What the calls on a batch demand, in terms of the request and the batch: which uploads, analyses, validations and
    materializations take effect, and what a run of calls can therefore contain. */
module BatchRules {
  import opened Common
  import opened StoredNames
  import opened ImportBatch

  /** At most 15 MiB, and text. */
  ghost predicate Clean(u: Upload) { u.bytes <= 15_728_640 && '\0' !in u.content }

  /** The batch is open and does not have the source yet, or is told to replace it. */
  ghost predicate Admits(b: Batch, u: Upload) {
    b.status != Materialized && (u.source in b.evidence.files ==> u.replace)
  }

  /** A source's history gets an entry exactly by a clean upload of that source that the batch admits. */
  lemma HistoryGrowsIff(b: Batch, op: Op, s: Source, env: Environment)
    ensures HistoryOf(After(b, op, env).evidence, s) != HistoryOf(b.evidence, s) <==>
              op.DoUpload? && op.upload.source == s && Clean(op.upload) && Admits(b, op.upload)
  {
    if op.DoUpload? {
      var record := NewRecord(b.evidence, op.upload, env);
      assert |HistoryOf(b.evidence, s) + [record]| == |HistoryOf(b.evidence, s)| + 1;
    }
  }

  /** The record of an upload: what was sent, under its digest, at the end of its source's history. */
  ghost predicate Recorded(b: Batch, u: Upload, t: Batch, env: Environment) {
    && u.source in t.evidence.files
    && t.evidence.files[u.source].source == u.source && t.evidence.files[u.source].safeName == u.safeName
    && t.evidence.files[u.source].bytes == u.bytes && t.evidence.files[u.source].sha == env.sha(u.content)
    && t.evidence.files[u.source].storedName in t.evidence.raw
    && t.evidence.raw[t.evidence.files[u.source].storedName] == u.content
    && HistoryOf(t.evidence, u.source) == HistoryOf(b.evidence, u.source) + [t.evidence.files[u.source]]
  }

  /** An upload that takes effect is recorded, and drops every report. */
  lemma UploadRecords(b: Batch, u: Upload, env: Environment)
    requires Clean(u) && Admits(b, u)
    ensures var t := After(b, DoUpload(u), env);
            && Recorded(b, u, t, env)
            && t.status == FilesUploaded && t.quality == None && t.recommendation == None && t.scenario == None
            && t.analysis == None && t.scenarioId == None && t.analysisHistory == b.analysisHistory
  {
  }

  /** An analysis is recorded exactly when it asks for 1 to 50 services, the agent completes, the files are validated
      and not rejected, the batch is open and has had fewer than 20. */
  lemma AnalysesGrowIff(b: Batch, op: Op, env: Environment)
    ensures After(b, op, env).analysisHistory != b.analysisHistory <==>
              && op.DoAnalyze? && 1 <= op.maxServices <= 50 && op.completes
              && b.quality.Some? && b.quality.value.status != Rejected && b.status != Materialized
              && |b.analysisHistory| < 20
    ensures After(b, op, env).analysisHistory != b.analysisHistory ==>
              After(b, op, env).analysisHistory == b.analysisHistory + [op.analysisId]
              && After(b, op, env).status == Analyzed
  {
    if op.DoAnalyze? { assert |b.analysisHistory + [op.analysisId]| == |b.analysisHistory| + 1; }
  }

  /** An open batch becomes MATERIALIZED exactly when it has a recommendation and a quality report, the projection can
      be built, and no run is named or the named one exists. */
  lemma MaterializesIff(b: Batch, op: Op, env: Environment)
    requires b.status != Materialized
    ensures After(b, op, env).status == Materialized <==>
              && op.DoMaterialize? && b.recommendation.Some? && b.quality.Some? && op.target.projectionBuilt
              && (op.target.run == None || op.target.run == Some("") || op.target.runExists)
  {
  }

  /** A validation takes effect exactly on an open batch: its verdict becomes the report and the status. */
  lemma ValidationRecords(b: Batch, v: Verdict, env: Environment)
    ensures var t := After(b, DoValidate(Some(v)), env);
            if b.status == Materialized then t == b
            else t.quality == Some(QualityReport(v.status, b.evidence.files, v.accepted, v.total))
                 && t.status == Checked(v.status) && t.recommendation == None && t.scenario == None
                 && t.projection == None && t.analysis == None && t.scenarioId == None
                 && t.evidence == b.evidence && t.analysisHistory == b.analysisHistory
  {
  }

  // ------------------------------------------------------------------ runs

  predicate Replacing(op: Op, s: Source) { op.DoUpload? && op.upload.source == s && op.upload.replace }

  function Replacements(ops: seq<Op>, s: Source): nat {
    if ops == [] then 0
    else Replacements(ops[1..], s) + (if Replacing(ops[0], s) then 1 else 0)
  }

  lemma RecordGrows(e: Evidence, record: FileRecord, content: string, s: Source)
    requires FilesAreLatest(e)
    ensures FilesAreLatest(WithRecord(e, record, content))
    ensures HistoryOf(WithRecord(e, record, content), s)
            == if s == record.source then HistoryOf(e, s) + [record] else HistoryOf(e, s)
  {
  }

  /** One call adds at most one revision, and to a source that has one only by replacing it. */
  lemma RevisionStep(b: Batch, op: Op, s: Source, env: Environment)
    requires FilesAreLatest(b.evidence)
    ensures FilesAreLatest(After(b, op, env).evidence)
    ensures |HistoryOf(After(b, op, env).evidence, s)|
            <= |HistoryOf(b.evidence, s)| + (if HistoryOf(b.evidence, s) == [] || Replacing(op, s) then 1 else 0)
  {
    EvidenceAfter(b, op, env);
    HistoryGrowsIff(b, op, s, env);
    if op.DoUpload? { RecordGrows(b.evidence, NewRecord(b.evidence, op.upload, env), op.upload.content, s); }
  }

  lemma {:induction false} RevisionsFrom(b: Batch, ops: seq<Op>, s: Source, env: Environment)
    requires FilesAreLatest(b.evidence)
    ensures |HistoryOf(AfterAll(b, ops, env).evidence, s)|
            <= (if HistoryOf(b.evidence, s) == [] then 1 else |HistoryOf(b.evidence, s)|) + Replacements(ops, s)
    decreases |ops|
  {
    if ops != [] {
      RevisionStep(b, ops[0], s, env);
      RevisionsFrom(After(b, ops[0], env), ops[1..], s, env);
    }
  }

  /** Whatever is called, a source never has more revisions than one and the replacing uploads of it; without any, its
      first file stays the only one. */
  lemma RevisionsNeedReplace(ops: seq<Op>, s: Source, env: Environment)
    ensures |HistoryOf(AfterAll(NEW_BATCH, ops, env).evidence, s)| <= 1 + Replacements(ops, s)
    ensures (forall op :: op in ops ==> !Replacing(op, s)) ==>
              |HistoryOf(AfterAll(NEW_BATCH, ops, env).evidence, s)| <= 1
  {
    RevisionsFrom(NEW_BATCH, ops, s, env);
    if forall op :: op in ops ==> !Replacing(op, s) { NoReplacements(ops, s); }
  }

  lemma {:induction false} NoReplacements(ops: seq<Op>, s: Source)
    requires forall op :: op in ops ==> !Replacing(op, s)
    ensures Replacements(ops, s) == 0
  {
    if ops != [] { NoReplacements(ops[1..], s); }
  }

  /** Everything stored is small enough, and text. */
  ghost predicate AllClean(e: Evidence) {
    && (forall s, k :: s in e.history && 0 <= k < |e.history[s]| ==> e.history[s][k].bytes <= 15_728_640)
    && (forall n :: n in e.raw ==> '\0' !in e.raw[n])
  }

  lemma {:induction false} StoredFilesAreClean(b: Batch, ops: seq<Op>, env: Environment)
    requires AllClean(b.evidence)
    ensures AllClean(AfterAll(b, ops, env).evidence)
    decreases |ops|
  {
    if ops != [] {
      EvidenceAfter(b, ops[0], env);
      StoredFilesAreClean(After(b, ops[0], env), ops[1..], env);
    }
  }

  predicate ProperAnalysis(op: Op) { op.DoAnalyze? && 1 <= op.maxServices <= 50 && op.completes }

  function ProperAnalyses(ops: seq<Op>): nat {
    if ops == [] then 0 else ProperAnalyses(ops[1..]) + (if ProperAnalysis(ops[0]) then 1 else 0)
  }

  /** A run records at most one analysis for each proper request. */
  lemma {:induction false} AnalysesAreRequested(b: Batch, ops: seq<Op>, env: Environment)
    ensures |AfterAll(b, ops, env).analysisHistory| <= |b.analysisHistory| + ProperAnalyses(ops)
    decreases |ops|
  {
    if ops != [] {
      AnalysesGrowIff(b, ops[0], env);
      AnalysesAreRequested(After(b, ops[0], env), ops[1..], env);
    }
  }

  // ------------------------------------------------------------------ errors

  /** The error of a call, in the order of its checks: only an upload without `replace` meets FileExistsError, and only
      materializing for a missing run FileNotFoundError. */
  lemma ErrorIff(b: Batch, op: Op)
    ensures ErrorOf(b, op) == Some(FileExistsError) <==>
              op.DoUpload? && Clean(op.upload) && b.status != Materialized
              && op.upload.source in b.evidence.files && !op.upload.replace
    ensures ErrorOf(b, op) == Some(FileNotFoundError) <==>
              op.DoMaterialize? && b.recommendation.Some? && op.target.run.Some? && op.target.run.value != ""
              && !op.target.runExists
    ensures ErrorOf(b, op).Some? ==> ErrorOf(b, op).value in {ValueError, FileExistsError, FileNotFoundError}
  {
  }
}
