/** Validating the rows of a batch directory: the pipeline's outcome becomes the batch's quality report. */
module BatchValidation {
  import opened Common
  import opened EvidenceRows
  import opened ImportBatch
  import opened EvidenceIntegrity

  /** What a batch learns from the pipeline: nothing when it raised. */
  function VerdictOf(r: Result<Outcome>): Option<ImportBatch.Verdict> {
    if r.Ok? then Some(Verdict(r.value.report.status, r.value.report.accepted, r.value.report.total)) else None
  }

  /** `validate_import_batch` on a directory whose files parse to the given rows and issues. */
  method ValidateDirectory(d: BatchDirectory, raw: seq<Row>, parsed: seq<Issue>, warnings: seq<Issue>)
    returns (r: Result<QualityReport>, outcome: Result<Outcome>)
    modifies d
    ensures old(d.status) == Materialized ==> r == Err(ValueError) && d.State() == old(d.State())
    ensures old(d.status) != Materialized ==> d.State() == AfterValidate(old(d.State()), VerdictOf(outcome))
    ensures old(d.status) != Materialized ==>
              match RaisedError(raw, parsed)
              case Some(e) => r == Err(e) && outcome == Err(e)
              case None =>
                && outcome.Ok? && Complete(outcome.value.trace) && outcome.value.trace.raw == raw
                && outcome.value.trace.parsed == parsed && outcome.value.trace.warnings == warnings
                && Reports(outcome.value.report, outcome.value.trace)
                && r.Ok? && d.quality == Some(r.value) && d.status == Checked(outcome.value.report.status)
                && r.value == QualityReport(outcome.value.report.status, old(d.files), outcome.value.report.accepted,
                                            outcome.value.report.total)
  {
    if d.status == Materialized { return Err(ValueError), Err(ValueError); }
    outcome := ValidateRows(raw, parsed, warnings);
    r := d.Validate(VerdictOf(outcome));
    if outcome.Err? { r := Err(outcome.error); }
  }
}
