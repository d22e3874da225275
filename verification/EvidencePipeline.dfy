/** The validation pipeline of one batch: rows rewritten in place, issues appended, rows accepted or quarantined. */
module EvidencePipeline {
  import opened Common
  import opened Ordering
  import opened StoredNames
  import opened EvidenceRows
  import opened IdentityIndex
  import opened MrLifecycle

  predicate IsIdentity(r: Row) { r.Of(IdentityMap) }
  predicate IsJtrack(r: Row) { r.Of(JtrackEvents) }
  predicate IsTelemetry(r: Row) { r.Of(NxtTelemetry) }
  predicate IsInstall(r: Row) { r.Of(InstallCohort) }

  // ------------------------------------------------------------------ the passes as functions

  /** The first row, in reading order, with the given record id. */
  function FirstWith(rows: seq<Row>, id: string): Option<Row> {
    if rows == [] then None
    else if rows[0].recordId == id then Some(rows[0])
    else FirstWith(rows[1..], id)
  }

  function DuplicateIssues(rows: seq<Row>): seq<Issue> {
    if rows == [] then []
    else
      var before, r := rows[..|rows| - 1], rows[|rows| - 1];
      var first := FirstWith(before, r.recordId);
      DuplicateIssues(before)
      + (if first.Some? then [Issue(DuplicateRecordId(first.value.key), ERROR, Some(r.key))] else [])
  }

  function Identities(rows: seq<Row>, issues: seq<Issue>): seq<Row> {
    Filter(Filter(rows, IsIdentity), Clean(issues))
  }

  /** How the correlation loop treats a row: identity rows are passed over. */
  function Correlated(byService: map<string, Row>, byDevice: map<string, Row>): Row -> Correlation {
    (row: Row) => if IsIdentity(row) then Correlation(row, []) else Correlate(row, byService, byDevice)
  }

  function CorrelationIssues(rows: seq<Row>, treat: Row -> Correlation): seq<Issue> {
    if rows == [] then [] else CorrelationIssues(rows[..|rows| - 1], treat) + treat(rows[|rows| - 1]).issues
  }

  /** Every row replaced by its correlated form. */
  function Rewritten(rows: seq<Row>, treat: Row -> Correlation): (r: seq<Row>)
    ensures |r| == |rows|
  {
    if rows == [] then [] else Rewritten(rows[..|rows| - 1], treat) + [treat(rows[|rows| - 1]).row]
  }

  const MISSING_IDENTITY_MAP := Issue(IdentityMapMissing, ERROR, None)

  /** The lowest and highest physically possible value of a metric. */
  function RangeOf(m: Metric): Option<(real, real)> {
    match m
    case DownstreamRx => Some((-50.0, 50.0))
    case UpstreamTx => Some((0.0, 70.0))
    case Mer => Some((0.0, 70.0))
    case Snr => Some((0.0, 70.0))
    case UncorrectableRatio => Some((0.0, 1.0))
    case PacketLoss => Some((0.0, 100.0))
    case Latency => Some((0.0, 120000.0))
    case Jitter => Some((0.0, 120000.0))
    case OntRx => Some((-60.0, 10.0))
    case OntTx => Some((-20.0, 20.0))
    case Ber => Some((0.0, 1.0))
    case OtherMetric => None
  }

  /** The row reports a value that no such metric can have; not-a-number lies in no range. */
  predicate Implausible(r: Row) {
    var range := RangeOf(r.metric);
    range.Some? && !r.reading.NoNumber?
    && !(r.reading.Number? && range.value.0 <= r.reading.value <= range.value.1)
  }

  function ValueIssues(rows: seq<Row>): seq<Issue> {
    if rows == [] then []
    else
      var before, r := rows[..|rows| - 1], rows[|rows| - 1];
      ValueIssues(before) + ValueIssue(r)
  }

  function ValueIssue(r: Row): seq<Issue> {
    if Implausible(r) then [Issue(ValueImplausible(r.metric), ERROR, Some(r.key))] else []
  }

  // ------------------------------------------------------------------ what makes a validation raise

  /** Normalising the row raises: a declared timestamp leaves the calendar, or the confidence is no number. Only
      `dvsum_caddi_insights` declares confidence as a number and lets it be empty. */
  function ParseError(r: Row): Option<Error> {
    if OffCalendar in r.stamps then Some(OverflowError)
    else if r.confidence == NoNumeral || (r.confidence == Blank && !r.Of(DvsumCaddiInsights)) then Some(ValueError)
    else None
  }

  function TimeCellError(t: TimeCell): Option<Error> {
    match t
    case NotATime => Some(ValueError)
    case OffCalendar => Some(OverflowError)
    case _ => None
  }

  /** Reading when the row's service was installed. */
  function InstallError(r: Row): Option<Error> {
    if IsInstall(r) && r.serviceId != "" then TimeCellError(r.installedAt) else None
  }

  /** Reading when the event happened, where anything but a timestamp counts as no time. */
  function EventError(r: Row): Option<Error> {
    if r.eventTime == OffCalendar then Some(OverflowError) else None
  }

  /** The error of the first row that has one. */
  function FirstError(rows: seq<Row>, check: Row -> Option<Error>): Option<Error> {
    if rows == [] then None
    else
      var before := FirstError(rows[..|rows| - 1], check);
      if before.Some? then before else check(rows[|rows| - 1])
  }

  function TimeError(rows: seq<Row>): Option<Error> {
    var install := FirstError(rows, InstallError);
    if install.Some? then install else FirstError(rows, EventError)
  }

  lemma {:induction false} FirstErrorIff(rows: seq<Row>, check: Row -> Option<Error>)
    ensures FirstError(rows, check).Some? <==> exists r :: r in rows && check(r).Some?
  {
    if rows != [] {
      var n := |rows| - 1;
      assert rows == rows[..n] + [rows[n]];
      FirstErrorIff(rows[..n], check);
    }
  }

  /** Stops at the first row on which the check fails. */
  method FindError(rows: seq<Row>, check: Row -> Option<Error>) returns (e: Option<Error>)
    ensures e == FirstError(rows, check)
  {
    e := None;
    var i := 0;
    while i < |rows| && e.None?
      invariant 0 <= i <= |rows| && e == FirstError(rows[..i], check)
    {
      PrefixStep(rows, i);
      e := check(rows[i]);
      i := i + 1;
    }
    if e.Some? { ErrorStays(rows, i, check); }
    assert rows[..|rows|] == rows;
  }

  lemma {:induction false} ErrorStays(rows: seq<Row>, n: nat, check: Row -> Option<Error>)
    requires n <= |rows| && FirstError(rows[..n], check).Some?
    ensures FirstError(rows, check) == FirstError(rows[..n], check)
    decreases |rows|
  {
    if n < |rows| {
      var m := |rows| - 1;
      assert rows[..m][..n] == rows[..n];
      ErrorStays(rows[..m], n, check);
    } else {
      assert rows[..n] == rows;
    }
  }

  // ------------------------------------------------------------------ the passes over shared rows and issues

  class Validation {
    var rows: seq<Row>
    var issues: seq<Issue>

    constructor (rows: seq<Row>, issues: seq<Issue>)
      ensures this.rows == rows && this.issues == issues
    {
      this.rows, this.issues := rows, issues;
    }

    /** `_duplicate_checks`: remembers the first row of each record id. */
    method DuplicateChecks()
      modifies this`issues
      ensures issues == old(issues) + DuplicateIssues(rows)
    {
      var seen: map<string, Row> := map[];
      for i := 0 to |rows|
        invariant issues == old(issues) + DuplicateIssues(rows[..i])
        invariant forall id :: Lookup(seen, id) == FirstWith(rows[..i], id)
      {
        var row := rows[i];
        NextFirst(rows, i);
        SeenGrows(seen, rows, i);
        assert Lookup(seen, row.recordId) == FirstWith(rows[..i], row.recordId);
        if row.recordId in seen {
          issues := issues + [Issue(DuplicateRecordId(seen[row.recordId].key), ERROR, Some(row.key))];
        } else {
          seen := seen[row.recordId := row];
        }
      }
      assert rows[..|rows|] == rows;
    }

    /** `_correlate_identity`: resolves every non-identity row and rewrites it in place. */
    method CorrelateIdentity() returns (byService: map<string, Row>, byDevice: map<string, Row>)
      modifies this
      ensures Identities(old(rows), old(issues)) == [] ==>
                rows == old(rows) && issues == old(issues) + [MISSING_IDENTITY_MAP]
      ensures Identities(old(rows), old(issues)) != [] ==>
                && IndexesList(byService, byDevice, Identities(old(rows), old(issues)))
                && rows == Rewritten(old(rows), Correlated(byService, byDevice))
                && issues == old(issues) + CorrelationIssues(old(rows), Correlated(byService, byDevice))
    {
      var identities := Identities(rows, issues);
      if identities == [] {
        issues := issues + [MISSING_IDENTITY_MAP];
        byService, byDevice := map[], map[];
        return;
      }
      byService, byDevice := BuildIndexes(identities);
      RewriteRows(Correlated(byService, byDevice));
    }

    /** The correlation loop: each row is replaced by what its treatment makes of it. */
    method RewriteRows(treat: Row -> Correlation)
      modifies this
      ensures rows == Rewritten(old(rows), treat)
      ensures issues == old(issues) + CorrelationIssues(old(rows), treat)
    {
      ghost var before := rows;
      for i := 0 to |rows|
        invariant |rows| == |before| && rows == Rewritten(before[..i], treat) + before[i..]
        invariant issues == old(issues) + CorrelationIssues(before[..i], treat)
      {
        NextTreatment(before, i, treat);
        var c := treat(rows[i]);
        rows := rows[i := c.row];
        issues := issues + c.issues;
      }
      assert before[..|rows|] == before;
    }

    /** `_semantic_value_checks` on telemetry: an error for every value outside its metric's range. */
    method ValueChecks()
      modifies this`issues
      ensures issues == old(issues) + ValueIssues(Filter(rows, IsTelemetry))
    {
      var found := CheckValues(Filter(rows, IsTelemetry));
      issues := issues + found;
    }

    /** `_cross_source_checks` up to the MR sequences: reading the times of installs and of events may raise; otherwise
        the warnings of these and of the other value checks are appended. */
    method CrossSourceChecks(warnings: seq<Issue>) returns (raised: Option<Error>)
      modifies this`issues
      ensures raised == TimeError(rows)
      ensures issues == if raised.Some? then old(issues) else old(issues) + warnings
    {
      raised := FindError(rows, InstallError);
      if raised.Some? { return; }
      raised := FindError(rows, EventError);
      if raised.Some? { return; }
      issues := issues + warnings;
    }

    method JtrackChecks()
      modifies this`issues
      ensures issues == old(issues) + SequenceIssues(Filter(rows, IsJtrack))
    {
      var found := SequenceChecks(Filter(rows, IsJtrack));
      issues := issues + found;
    }
  }

  lemma NextTreatment(before: seq<Row>, i: nat, treat: Row -> Correlation)
    requires i < |before|
    ensures var rows := Rewritten(before[..i], treat) + before[i..];
            && rows[i] == before[i]
            && rows[i := treat(before[i]).row] == Rewritten(before[..i + 1], treat) + before[i + 1..]
    ensures CorrelationIssues(before[..i + 1], treat) == CorrelationIssues(before[..i], treat) + treat(before[i]).issues
  {
    assert before[..i + 1][..i] == before[..i];
  }

  /** The telemetry loop of `_semantic_value_checks`. */
  method CheckValues(telemetry: seq<Row>) returns (found: seq<Issue>)
    ensures found == ValueIssues(telemetry)
  {
    found := [];
    for i := 0 to |telemetry|
      invariant found == ValueIssues(telemetry[..i])
    {
      var row := telemetry[i];
      NextValue(telemetry, i);
      var range := RangeOf(row.metric);
      if range.Some? && row.reading != NoNumber {
        if row.reading == NotANumber || row.reading.value < range.value.0 || range.value.1 < row.reading.value {
          found := found + [Issue(ValueImplausible(row.metric), ERROR, Some(row.key))];
        }
      }
    }
    assert telemetry[..|telemetry|] == telemetry;
  }

  lemma NextValue(rows: seq<Row>, i: nat)
    requires i < |rows|
    ensures ValueIssues(rows[..i + 1])
            == ValueIssues(rows[..i]) + ValueIssue(rows[i])
  {
    assert rows[..i + 1][..i] == rows[..i];
  }

  lemma NextFirst(rows: seq<Row>, i: nat)
    requires i < |rows|
    ensures DuplicateIssues(rows[..i + 1]) == DuplicateIssues(rows[..i]) +
              (var first := FirstWith(rows[..i], rows[i].recordId);
               if first.Some? then [Issue(DuplicateRecordId(first.value.key), ERROR, Some(rows[i].key))] else [])
  {
    assert rows[..i + 1][..i] == rows[..i];
  }

  lemma SeenGrows(seen: map<string, Row>, rows: seq<Row>, i: nat)
    requires i < |rows| && forall id :: Lookup(seen, id) == FirstWith(rows[..i], id)
    ensures var after := if rows[i].recordId in seen then seen else seen[rows[i].recordId := rows[i]];
            forall id :: Lookup(after, id) == FirstWith(rows[..i + 1], id)
  {
    var after := if rows[i].recordId in seen then seen else seen[rows[i].recordId := rows[i]];
    assert rows[..i + 1] == rows[..i] + [rows[i]];
    forall id ensures Lookup(after, id) == FirstWith(rows[..i + 1], id) {
      FirstOfAppend(rows[..i], rows[i], id);
      assert Lookup(seen, id) == FirstWith(rows[..i], id);
    }
  }

  lemma {:induction false} FirstOfAppend(rows: seq<Row>, row: Row, id: string)
    ensures FirstWith(rows + [row], id) ==
              if FirstWith(rows, id).Some? then FirstWith(rows, id) else if row.recordId == id then Some(row) else None
  {
    if rows == [] {
      assert rows + [row] == [row];
      assert [row][1..] == [];
    } else {
      assert (rows + [row])[0] == rows[0] && (rows + [row])[1..] == rows[1..] + [row];
      FirstOfAppend(rows[1..], row, id);
    }
  }
}
