/** Accepting and quarantining rows, and what holds of every accepted row. */
module EvidenceIntegrity {
  import opened Common
  import opened Ordering
  import opened StoredNames
  import opened EvidenceRows
  import opened IdentityIndex
  import opened MrLifecycle
  import opened EvidencePipeline
  import opened ImportBatch

  // ------------------------------------------------------------------ dispositions

  datatype Disposition = Accepted | AcceptedWithWarning | Quarantined

  datatype Counts = Counts(accepted: nat, withWarning: nat, quarantined: nat)
  {
    function Of(d: Disposition): nat {
      match d
      case Accepted => accepted
      case AcceptedWithWarning => withWarning
      case Quarantined => quarantined
    }
  }

  function DispositionOf(row: Row, issues: seq<Issue>): Disposition {
    if HasError(row.key, issues) then Quarantined
    else if HasWarning(row.key, issues) then AcceptedWithWarning
    else Accepted
  }

  /** The order in which the sources are defined. */
  function Position(s: Source): nat {
    match s
    case IdentityMap => 0
    case NxtTelemetry => 1
    case NxtAlarms => 2
    case DvsumCaddiInsights => 3
    case GenesysInteractions => 4
    case JtrackEvents => 5
    case InstallCohort => 6
  }

  function SourceAt(n: nat): (s: Source)
    requires n < 7
    ensures Position(s) == n
  {
    if n == 0 then IdentityMap else if n == 1 then NxtTelemetry else if n == 2 then NxtAlarms
    else if n == 3 then DvsumCaddiInsights else if n == 4 then GenesysInteractions
    else if n == 5 then JtrackEvents else InstallCohort
  }

  lemma Positions(n: nat)
    requires n < 7
    ensures forall s :: Position(s) < n + 1 <==> Position(s) < n || s == SourceAt(n)
    ensures forall s :: Position(s) < 7
  {
  }

  function OfSource(s: Source): Row -> bool { (r: Row) => r.Of(s) }

  /** Rows of the first `n` sources. */
  function Before(n: nat): Row -> bool { (r: Row) => Position(r.key.source) < n }

  /** The accepted rows of each source, in reading order. */
  function AcceptedOf(rows: seq<Row>, issues: seq<Issue>, s: Source): seq<Row> {
    Filter(Filter(rows, OfSource(s)), Clean(issues))
  }

  /** The rows with the given disposition. */
  function Disposed(issues: seq<Issue>, d: Disposition): Row -> bool { (r: Row) => DispositionOf(r, issues) == d }

  lemma FileOne(rows: seq<Row>, issues: seq<Issue>, i: nat)
    requires i < |rows|
    ensures Filter(rows[..i + 1], Clean(issues))
            == Filter(rows[..i], Clean(issues))
               + (if DispositionOf(rows[i], issues) == Quarantined then [] else [rows[i]])
  {
    assert rows[..i + 1] == rows[..i] + [rows[i]];
    FilterAppend(rows[..i], [rows[i]], Clean(issues));
  }

  lemma CountNext(rows: seq<Row>, i: nat, p: Row -> bool)
    requires i < |rows|
    ensures Count(rows[..i + 1], p) == Count(rows[..i], p) + (if p(rows[i]) then 1 else 0)
  {
    assert rows[..i + 1] == rows[..i] + [rows[i]];
    FilterAppend(rows[..i], [rows[i]], p);
  }

  /** Every row has one disposition, and the accepted ones have one of two. */
  lemma {:induction false} DispositionsPartition(rows: seq<Row>, issues: seq<Issue>)
    ensures Count(rows, Disposed(issues, Accepted)) + Count(rows, Disposed(issues, AcceptedWithWarning))
            == Count(rows, Clean(issues))
    ensures Count(rows, Clean(issues)) + Count(rows, Disposed(issues, Quarantined)) == |rows|
  {
    if rows != [] { DispositionsPartition(rows[1..], issues); }
  }

  function Tally(c: Counts, d: Disposition): Counts {
    match d
    case Accepted => c.(accepted := c.accepted + 1)
    case AcceptedWithWarning => c.(withWarning := c.withWarning + 1)
    case Quarantined => c.(quarantined := c.quarantined + 1)
  }

  /** One source's part of `_write_normalized`: file each row as accepted or quarantined and tally it. */
  method FileSource(rows: seq<Row>, issues: seq<Issue>, counts: Counts) returns (accepted: seq<Row>, after: Counts)
    ensures accepted == Filter(rows, Clean(issues))
    ensures forall d :: after.Of(d) == counts.Of(d) + Count(rows, Disposed(issues, d))
  {
    accepted, after := [], counts;
    for i := 0 to |rows|
      invariant accepted == Filter(rows[..i], Clean(issues))
      invariant forall d :: after.Of(d) == counts.Of(d) + Count(rows[..i], Disposed(issues, d))
    {
      var disposition := DispositionOf(rows[i], issues);
      FileOne(rows, issues, i);
      forall d { CountNext(rows, i, Disposed(issues, d)); }
      if disposition != Quarantined { accepted := accepted + [rows[i]]; }
      after := Tally(after, disposition);
    }
    assert rows[..|rows|] == rows;
  }

  lemma CountOfHead(rows: seq<Row>, within: Row -> bool, p: Row -> bool)
    requires rows != []
    ensures Count(Filter(rows, within), p)
            == Count(Filter(rows[1..], within), p) + (if within(rows[0]) && p(rows[0]) then 1 else 0)
  {
    if within(rows[0]) { assert Filter(rows, within)[1..] == Filter(rows[1..], within); }
  }

  lemma {:induction false} NextSource(rows: seq<Row>, n: nat, p: Row -> bool)
    requires n < 7
    ensures Count(Filter(rows, Before(n + 1)), p)
            == Count(Filter(rows, Before(n)), p) + Count(Filter(rows, OfSource(SourceAt(n))), p)
  {
    if rows != [] {
      NextSource(rows[1..], n, p);
      CountOfHead(rows, Before(n + 1), p);
      CountOfHead(rows, OfSource(SourceAt(n)), p);
      CountOfHead(rows, Before(n), p);
      Positions(n);
    }
  }

  /** The first `n` sources have the files that `accepted` says. */
  ghost predicate FiledUpTo(files: map<Source, seq<Row>>, accepted: Source -> seq<Row>, n: nat) {
    forall s :: Position(s) < n ==> s in files && files[s] == accepted(s)
  }

  lemma FiledNext(files: map<Source, seq<Row>>, accepted: Source -> seq<Row>, n: nat)
    requires n < 7 && FiledUpTo(files, accepted, n)
    ensures FiledUpTo(files[SourceAt(n) := accepted(SourceAt(n))], accepted, n + 1)
  {
    Positions(n);
  }

  lemma FiledAll(files: map<Source, seq<Row>>, accepted: Source -> seq<Row>)
    requires FiledUpTo(files, accepted, 7)
    ensures forall s :: s in files && files[s] == accepted(s)
  {
    Positions(0);
  }

  function AcceptedFrom(rows: seq<Row>, issues: seq<Issue>): Source -> seq<Row> {
    (s: Source) => AcceptedOf(rows, issues, s)
  }

  /** The counts are those of the rows. */
  ghost predicate CountsRight(counts: Counts, rows: seq<Row>, issues: seq<Issue>) {
    forall d :: counts.Of(d) == Count(rows, Disposed(issues, d))
  }

  lemma CountsStart(rows: seq<Row>, issues: seq<Issue>)
    ensures CountsRight(Counts(0, 0, 0), Filter(rows, Before(0)), issues)
  {
    FilterNone(rows, Before(0));
  }

  lemma CountsNext(counts: Counts, after: Counts, rows: seq<Row>, issues: seq<Issue>, n: nat)
    requires n < 7 && CountsRight(counts, Filter(rows, Before(n)), issues)
    requires forall d :: after.Of(d) == counts.Of(d) + Count(Filter(rows, OfSource(SourceAt(n))), Disposed(issues, d))
    ensures CountsRight(after, Filter(rows, Before(n + 1)), issues)
  {
    forall d ensures after.Of(d) == Count(Filter(rows, Before(n + 1)), Disposed(issues, d)) {
      NextSource(rows, n, Disposed(issues, d));
    }
  }

  lemma CountsAll(counts: Counts, rows: seq<Row>, issues: seq<Issue>)
    requires CountsRight(counts, Filter(rows, Before(7)), issues)
    ensures CountsRight(counts, rows, issues)
  {
    FilterAll(rows, Before(7));
  }

  /** `_write_normalized`: every row of every source is filed exactly once and counted by its disposition. */
  method WriteNormalized(rows: seq<Row>, issues: seq<Issue>)
    returns (files: map<Source, seq<Row>>, counts: Counts)
    ensures forall s :: s in files && files[s] == AcceptedOf(rows, issues, s)
    ensures CountsRight(counts, rows, issues)
  {
    files, counts := map[], Counts(0, 0, 0);
    ghost var filed := AcceptedFrom(rows, issues);
    CountsStart(rows, issues);
    for n := 0 to 7
      invariant FiledUpTo(files, filed, n)
      invariant CountsRight(counts, Filter(rows, Before(n)), issues)
    {
      FiledNext(files, filed, n);
      var accepted, after := FileSource(Filter(rows, OfSource(SourceAt(n))), issues, counts);
      CountsNext(counts, after, rows, issues, n);
      counts := after;
      files := files[SourceAt(n) := accepted];
    }
    CountsAll(counts, rows, issues);
    FiledAll(files, filed);
    forall s ensures files[s] == AcceptedOf(rows, issues, s) { assert filed(s) == AcceptedOf(rows, issues, s); }
  }

  // ------------------------------------------------------------------ the validation report

  /** What the parser guarantees: rows are known apart by their keys, an identity row's record id is its service id,
      whose absence is an error, and an install row's one declared timestamp is its install time. */
  ghost predicate ParserOutput(rows: seq<Row>, parsed: seq<Issue>) {
    && DistinctBy(rows, Key)
    && (forall r :: r in rows && IsIdentity(r) && !HasError(r.key, parsed) ==>
          r.serviceId != "" && r.recordId == r.serviceId)
    && (forall r :: r in rows && IsInstall(r) ==> r.stamps == [r.installedAt])
    && NoIdentityMapIssue(parsed)
  }

  ghost predicate NoIdentityMapIssue(issues: seq<Issue>) {
    forall i :: 0 <= i < |issues| ==> issues[i].code != IdentityMapMissing
  }

  /** What the value checks on other sources and the cross-source checks raise: no errors. */
  ghost predicate OnlyWarnings(issues: seq<Issue>) {
    forall i :: 0 <= i < |issues| ==> issues[i].severity != ERROR && issues[i].code != IdentityMapMissing
  }

  predicate IdentityMissing(issues: seq<Issue>) {
    exists i :: 0 <= i < |issues| && issues[i].code == IdentityMapMissing
  }

  predicate AnySeverity(issues: seq<Issue>, severity: Severity) {
    exists i :: 0 <= i < |issues| && issues[i].severity == severity
  }

  function StatusOf(acceptedRows: nat, issues: seq<Issue>): ValidationStatus {
    if acceptedRows == 0 || IdentityMissing(issues) then Rejected
    else if AnySeverity(issues, ERROR) then ValidatedWithQuarantine
    else if AnySeverity(issues, WARNING) then ValidatedWithWarnings
    else Validated
  }

  datatype Report = Report(status: ValidationStatus, total: nat, accepted: nat, quarantined: nat, dispositions: Counts,
                           files: map<Source, seq<Row>>, rows: seq<Row>, issues: seq<Issue>)

  /** A validation from start to end: what the parser delivered, what the other checks warned of, the final
      rows and issues, and the indexes that were built on the way. */
  datatype Trace = Trace(raw: seq<Row>, parsed: seq<Issue>, warnings: seq<Issue>, rows: seq<Row>,
                         issues: seq<Issue>, byService: map<string, Row>, byDevice: map<string, Row>)
  {
    /** The issues known when identities are selected, and the identities selected. */
    function Early(): seq<Issue> { parsed + DuplicateIssues(raw) }

    function Selected(): seq<Row> { Identities(raw, Early()) }

    function Correlations(): seq<Issue> {
      if Selected() == [] then [MISSING_IDENTITY_MAP] else CorrelationIssues(raw, Correlated(byService, byDevice))
    }

    function Findings(): seq<Issue> { ValueIssues(Filter(rows, IsTelemetry)) + warnings }

    function Sequences(): seq<Issue> { SequenceIssues(Filter(rows, IsJtrack)) }
  }

  /** Every pass has run, in order. */
  ghost predicate Complete(t: Trace) {
    && t.issues == t.Early() + t.Correlations() + t.Findings() + t.Sequences()
    && (t.Selected() == [] ==> t.rows == t.raw)
    && (t.Selected() != [] ==>
          IndexesList(t.byService, t.byDevice, t.Selected())
          && t.rows == Rewritten(t.raw, Correlated(t.byService, t.byDevice)))
  }

  /** The identities that the rows are resolved against. */
  function IdentitiesOf(raw: seq<Row>, parsed: seq<Issue>): seq<Row> { Identities(raw, parsed + DuplicateIssues(raw)) }

  /** The service that a parsed row carries once rows have been correlated. */
  function FinalService(row: Row, identities: seq<Row>): string {
    var identity := FoundIn(row, identities);
    if identities != [] && !IsIdentity(row) && identity.Some? then identity.value.serviceId else row.serviceId
  }

  /** What reading the install time of a parsed row raises once rows have been correlated. */
  function FinalInstallError(identities: seq<Row>): Row -> Option<Error> {
    (row: Row) => InstallError(row.(serviceId := FinalService(row, identities)))
  }

  /** What validating the rows raises, if anything: the parser over all rows, then the install times, then the event
      times. */
  function RaisedError(raw: seq<Row>, parsed: seq<Issue>): Option<Error> {
    var parse, install := FirstError(raw, ParseError), FirstError(raw, FinalInstallError(IdentitiesOf(raw, parsed)));
    if parse.Some? then parse else if install.Some? then install else FirstError(raw, EventError)
  }

  /** Rows and issues once identities have been correlated. */
  ghost predicate Begun(raw: seq<Row>, parsed: seq<Issue>, rows: seq<Row>, issues: seq<Issue>,
                        byService: map<string, Row>, byDevice: map<string, Row>)
  {
    var identities, early := IdentitiesOf(raw, parsed), parsed + DuplicateIssues(raw);
    if identities == [] then rows == raw && issues == early + [MISSING_IDENTITY_MAP]
    else
      && IndexesList(byService, byDevice, identities)
      && rows == Rewritten(raw, Correlated(byService, byDevice))
      && issues == early + CorrelationIssues(raw, Correlated(byService, byDevice))
  }

  method BeginPasses(raw: seq<Row>, parsed: seq<Issue>)
    returns (run: Validation, byService: map<string, Row>, byDevice: map<string, Row>)
    ensures fresh(run) && Begun(raw, parsed, run.rows, run.issues, byService, byDevice)
  {
    run := new Validation(raw, parsed);
    run.DuplicateChecks();
    byService, byDevice := run.CorrelateIdentity();
  }

  lemma Regroup(begun: seq<Issue>, values: seq<Issue>, warnings: seq<Issue>, last: seq<Issue>, all: seq<Issue>)
    requires all == begun + values + warnings + last
    ensures all == begun + (values + warnings) + last
  {
  }

  lemma BegunIssues(t: Trace, begun: seq<Issue>)
    requires Begun(t.raw, t.parsed, t.rows, begun, t.byService, t.byDevice)
    ensures begun == t.Early() + t.Correlations()
  {
  }

  /** The remaining issues complete the trace. */
  lemma CompletesTrace(t: Trace, begun: seq<Issue>, values: seq<Issue>)
    requires Begun(t.raw, t.parsed, t.rows, begun, t.byService, t.byDevice)
    requires values == ValueIssues(Filter(t.rows, IsTelemetry))
    requires t.issues == begun + values + t.warnings + t.Sequences()
    ensures Complete(t)
  {
    BegunIssues(t, begun);
    Regroup(begun, values, t.warnings, t.Sequences(), t.issues);
  }

  /** The passes of `validate_import_batch` in their order, over shared rows and issues. */
  method RunPasses(raw: seq<Row>, parsed: seq<Issue>, warnings: seq<Issue>) returns (r: Result<Trace>)
    ensures match RaisedError(raw, parsed)
            case Some(e) => r == Err(e)
            case None => r.Ok? && r.value.raw == raw && r.value.parsed == parsed && r.value.warnings == warnings
                         && Complete(r.value)
  {
    var raised := FindError(raw, ParseError);
    if raised.Some? { return Err(raised.value); }
    var run, byService, byDevice := BeginPasses(raw, parsed);
    ghost var begun := run.issues;
    FinalTimeErrors(raw, IdentitiesOf(raw, parsed), run.rows, byService, byDevice);
    run.ValueChecks();
    raised := run.CrossSourceChecks(warnings);
    if raised.Some? { return Err(raised.value); }
    run.JtrackChecks();
    var t := Trace(raw, parsed, warnings, run.rows, run.issues, byService, byDevice);
    CompletesTrace(t, begun, ValueIssues(Filter(run.rows, IsTelemetry)));
    r := Ok(t);
  }

  datatype Outcome = Outcome(report: Report, trace: Trace)

  /** The report files and counts the trace's rows by its issues. */
  ghost predicate Reports(report: Report, t: Trace) {
    && report.rows == t.rows && report.issues == t.issues
    && (forall s :: s in report.files && report.files[s] == AcceptedOf(report.rows, report.issues, s))
    && report.accepted == Count(report.rows, Clean(report.issues))
    && CountsRight(report.dispositions, report.rows, report.issues)
    && report.status == StatusOf(report.accepted, report.issues)
    && report.accepted + report.quarantined == report.total == |t.raw|
  }

  /** `validate_import_batch` on parsed rows: the passes, then filing and the verdict, unless a pass raises. */
  method ValidateRows(raw: seq<Row>, parsed: seq<Issue>, warnings: seq<Issue>) returns (r: Result<Outcome>)
    ensures match RaisedError(raw, parsed)
            case Some(e) => r == Err(e)
            case None =>
              r.Ok? && Reports(r.value.report, r.value.trace) && Complete(r.value.trace)
              && r.value.trace.raw == raw && r.value.trace.parsed == parsed && r.value.trace.warnings == warnings
  {
    var passes := RunPasses(raw, parsed, warnings);
    if passes.Err? { return Err(passes.error); }
    var t := passes.value;
    CompleteKeepsSize(t);
    var report := FileReport(t);
    r := Ok(Outcome(report, t));
  }

  lemma CompleteKeepsSize(t: Trace)
    requires Complete(t)
    ensures |t.rows| == |t.raw|
  {
  }

  method FileReport(t: Trace) returns (report: Report)
    requires |t.rows| == |t.raw|
    ensures Reports(report, t)
  {
    var files, counts := WriteNormalized(t.rows, t.issues);
    DispositionsPartition(t.rows, t.issues);
    assert counts.Of(Accepted) == counts.accepted && counts.Of(AcceptedWithWarning) == counts.withWarning;
    var accepted := counts.accepted + counts.withWarning;
    report := Report(StatusOf(accepted, t.issues), |t.rows|, accepted, |t.rows| - accepted, counts, files, t.rows,
                     t.issues);
  }

  lemma {:induction false} SameErrors(a: seq<Row>, b: seq<Row>, f: Row -> Option<Error>, g: Row -> Option<Error>)
    requires |a| == |b| && forall i :: 0 <= i < |a| ==> f(a[i]) == g(b[i])
    ensures FirstError(a, f) == FirstError(b, g)
  {
    if a != [] { SameErrors(a[..|a| - 1], b[..|b| - 1], f, g); }
  }

  /** A rewritten row has the service that its identity gives it, and the times of the parsed row. */
  lemma CorrelatedService(row: Row, byService: map<string, Row>, byDevice: map<string, Row>, identities: seq<Row>)
    requires IndexesList(byService, byDevice, identities) && identities != []
    ensures var after := Correlated(byService, byDevice)(row).row;
            && after.serviceId == FinalService(row, identities) && after.key == row.key
            && after.installedAt == row.installedAt && after.eventTime == row.eventTime
  {
    ResolvedIsFound(row, byService, byDevice, identities);
  }

  /** The time checks find on the correlated rows what the parsed rows say they will. */
  lemma FinalTimeErrors(raw: seq<Row>, identities: seq<Row>, rows: seq<Row>, byService: map<string, Row>,
                        byDevice: map<string, Row>)
    requires identities == [] ==> rows == raw
    requires identities != [] ==>
               IndexesList(byService, byDevice, identities) && rows == Rewritten(raw, Correlated(byService, byDevice))
    ensures FirstError(rows, InstallError) == FirstError(raw, FinalInstallError(identities))
    ensures FirstError(rows, EventError) == FirstError(raw, EventError)
  {
    forall i | 0 <= i < |raw|
      ensures |rows| == |raw| && InstallError(rows[i]) == FinalInstallError(identities)(raw[i])
              && EventError(rows[i]) == EventError(raw[i])
    {
      if identities != [] {
        RewrittenAt(raw, byService, byDevice, i);
        CorrelatedService(raw[i], byService, byDevice, identities);
      }
    }
    SameErrors(rows, raw, InstallError, FinalInstallError(identities));
    SameErrors(rows, raw, EventError, EventError);
  }

  // ------------------------------------------------------------------ where errors can come from

  lemma {:induction false} RewrittenAt(raw: seq<Row>, byService: map<string, Row>, byDevice: map<string, Row>, i: nat)
    requires i < |raw|
    ensures Rewritten(raw, Correlated(byService, byDevice))[i] == Correlated(byService, byDevice)(raw[i]).row
    ensures HasError(raw[i].key, Correlated(byService, byDevice)(raw[i]).issues) ==>
              HasError(raw[i].key, CorrelationIssues(raw, Correlated(byService, byDevice)))
  {
    var n := |raw| - 1;
    ErrorsAdd(raw[i].key, CorrelationIssues(raw[..n], Correlated(byService, byDevice)),
              Correlated(byService, byDevice)(raw[n]).issues);
    if i < n { RewrittenAt(raw[..n], byService, byDevice, i); }
  }

  lemma RewrittenKeepsIdentity(raw: seq<Row>, byService: map<string, Row>, byDevice: map<string, Row>, i: nat)
    requires i < |raw|
    ensures var r := Rewritten(raw, Correlated(byService, byDevice))[i];
            r.key == raw[i].key && r.recordId == raw[i].recordId && (IsIdentity(raw[i]) ==> r == raw[i])
  {
    RewrittenAt(raw, byService, byDevice, i);
    CorrelateKeepsIdentity(raw[i], byService, byDevice);
  }

  lemma {:induction false} CorrelationSparesIdentities(raw: seq<Row>, byService: map<string, Row>,
                                                       byDevice: map<string, Row>, key: RowKey)
    requires key.source == IdentityMap
    ensures !HasError(key, CorrelationIssues(raw, Correlated(byService, byDevice)))
    ensures NoIdentityMapIssue(CorrelationIssues(raw, Correlated(byService, byDevice)))
  {
    if raw != [] {
      var n := |raw| - 1;
      CorrelationSparesIdentities(raw[..n], byService, byDevice, key);
      CorrelateKeepsIdentity(raw[n], byService, byDevice);
      ErrorsAdd(key, CorrelationIssues(raw[..n], Correlated(byService, byDevice)),
                Correlated(byService, byDevice)(raw[n]).issues);
    }
  }

  /** Some row before place `j` has its record id. */
  ghost predicate Repeats(raw: seq<Row>, j: nat)
    requires j < |raw|
  {
    exists i :: 0 <= i < j && raw[i].recordId == raw[j].recordId
  }

  lemma {:induction false} FirstWithFinds(rows: seq<Row>, id: string)
    ensures FirstWith(rows, id).Some? <==> exists i :: 0 <= i < |rows| && rows[i].recordId == id
  {
    if rows != [] {
      FirstWithFinds(rows[1..], id);
      if i :| 0 <= i < |rows| && rows[i].recordId == id {
        if i > 0 { assert rows[1..][i - 1] == rows[i]; }
      }
    }
  }

  function DuplicateIssue(before: seq<Row>, r: Row): seq<Issue> {
    var first := FirstWith(before, r.recordId);
    if first.Some? then [Issue(DuplicateRecordId(first.value.key), ERROR, Some(r.key))] else []
  }

  lemma DuplicateIssueErrs(before: seq<Row>, r: Row, key: RowKey)
    ensures HasError(key, DuplicateIssue(before, r)) <==>
              key == r.key && exists i :: 0 <= i < |before| && before[i].recordId == r.recordId
  {
    FirstWithFinds(before, r.recordId);
    var issues := DuplicateIssue(before, r);
    if issues != [] { assert issues[0].severity == ERROR && issues[0].at == Some(r.key); }
  }

  lemma {:induction false} DuplicateIssuesName(raw: seq<Row>, key: RowKey)
    requires forall r :: r in raw ==> r.key != key
    ensures !HasError(key, DuplicateIssues(raw))
  {
    if raw != [] {
      var n := |raw| - 1;
      DuplicateIssuesName(raw[..n], key);
      assert raw[n] in raw;
      DuplicateIssueErrs(raw[..n], raw[n], key);
      ErrorsAdd(key, DuplicateIssues(raw[..n]), DuplicateIssue(raw[..n], raw[n]));
    }
  }

  lemma RepeatsInPrefix(raw: seq<Row>, n: nat, j: nat)
    requires j < |raw| && n <= |raw|
    ensures j < n ==> (Repeats(raw[..n], j) <==> Repeats(raw, j))
    ensures j == n ==> ((exists i :: 0 <= i < n && raw[..n][i].recordId == raw[j].recordId) <==> Repeats(raw, j))
  {
    assert forall i :: 0 <= i < n ==> raw[..n][i] == raw[i];
    if Repeats(raw, j) {
      var i :| 0 <= i < j && raw[i].recordId == raw[j].recordId;
      assert j <= n ==> raw[..n][i].recordId == raw[j].recordId;
    }
  }

  /** The second of two rows with one record id is in error. */
  lemma {:induction false} DuplicateIsError(raw: seq<Row>, j: nat)
    requires j < |raw| && Repeats(raw, j)
    ensures HasError(raw[j].key, DuplicateIssues(raw))
  {
    var n := |raw| - 1;
    RepeatsInPrefix(raw, n, j);
    ErrorsAdd(raw[j].key, DuplicateIssues(raw[..n]), DuplicateIssue(raw[..n], raw[n]));
    DuplicateIssueErrs(raw[..n], raw[n], raw[j].key);
    if j < n { DuplicateIsError(raw[..n], j); }
  }

  /** The duplicate pass puts a row in error exactly when an earlier row has its record id. */
  lemma {:induction false} DuplicateErrorIff(raw: seq<Row>, j: nat)
    requires DistinctBy(raw, Key) && j < |raw|
    ensures HasError(raw[j].key, DuplicateIssues(raw)) <==> Repeats(raw, j)
  {
    var n := |raw| - 1;
    DistinctPrefix(raw, n, Key);
    RepeatsInPrefix(raw, n, j);
    ErrorsAdd(raw[j].key, DuplicateIssues(raw[..n]), DuplicateIssue(raw[..n], raw[n]));
    DuplicateIssueErrs(raw[..n], raw[n], raw[j].key);
    if j < n {
      assert raw[..n][j] in raw[..n];
      DuplicateErrorIff(raw[..n], j);
    } else {
      DuplicateIssuesName(raw[..n], raw[n].key);
    }
  }

  lemma {:induction false} DuplicatesAreNotMapIssues(raw: seq<Row>)
    ensures NoIdentityMapIssue(DuplicateIssues(raw))
  {
    if raw != [] { DuplicatesAreNotMapIssues(raw[..|raw| - 1]); }
  }

  lemma {:induction false} ScanIsNotMapIssue(events: seq<Row>)
    ensures NoIdentityMapIssue(ScanIssues(events))
  {
    if events != [] { ScanIsNotMapIssue(events[..|events| - 1]); }
  }

  lemma {:induction false} SequencesAreNotMapIssues(rows: seq<Row>, ids: seq<string>)
    ensures NoIdentityMapIssue(IssuesFor(rows, ids))
  {
    if ids != [] {
      SequencesAreNotMapIssues(rows, ids[..|ids| - 1]);
      ScanIsNotMapIssue(EventsOf(rows, ids[|ids| - 1]));
    }
  }

  // ------------------------------------------------------------------ what holds of accepted rows

  lemma ErrorSources(t: Trace, key: RowKey)
    requires Complete(t)
    ensures HasError(key, t.issues) <==>
              HasError(key, t.parsed) || HasError(key, DuplicateIssues(t.raw)) || HasError(key, t.Correlations())
              || HasError(key, t.Findings()) || HasError(key, t.Sequences())
  {
    ErrorsAdd(key, t.parsed, DuplicateIssues(t.raw));
    ErrorsAdd(key, t.Early(), t.Correlations());
    ErrorsAdd(key, t.Early() + t.Correlations(), t.Findings());
    ErrorsAdd(key, t.Early() + t.Correlations() + t.Findings(), t.Sequences());
  }

  lemma {:induction false} ValueIssuesNameRows(rows: seq<Row>, key: RowKey)
    requires forall r :: r in rows ==> r.key != key
    ensures !HasError(key, ValueIssues(rows))
  {
    if rows != [] {
      var n := |rows| - 1;
      ValueIssuesNameRows(rows[..n], key);
      assert rows[n] in rows;
      ErrorsAdd(key, ValueIssues(rows[..n]), ValueIssue(rows[n]));
    }
  }

  lemma {:induction false} ValueIssuesAreNotMapIssues(rows: seq<Row>)
    ensures NoIdentityMapIssue(ValueIssues(rows))
  {
    if rows != [] { ValueIssuesAreNotMapIssues(rows[..|rows| - 1]); }
  }

  /** The value checks put no row but telemetry in error. */
  lemma FindingsAreTelemetry(t: Trace, key: RowKey)
    requires OnlyWarnings(t.warnings) && key.source != NxtTelemetry
    ensures !HasError(key, t.Findings()) && NoIdentityMapIssue(t.Findings())
  {
    var telemetry := Filter(t.rows, IsTelemetry);
    ValueIssuesNameRows(telemetry, key);
    ValueIssuesAreNotMapIssues(telemetry);
    NoMapIssueAppend(ValueIssues(telemetry), t.warnings);
    ErrorsAdd(key, ValueIssues(telemetry), t.warnings);
  }

  /** The final row at a place is the parsed row there, perhaps rewritten. */
  lemma SamePlaces(t: Trace)
    requires Complete(t)
    ensures |t.rows| == |t.raw|
    ensures forall i :: 0 <= i < |t.raw| ==>
              t.rows[i].key == t.raw[i].key && t.rows[i].recordId == t.raw[i].recordId
              && (IsIdentity(t.raw[i]) ==> t.rows[i] == t.raw[i])
  {
    forall i | 0 <= i < |t.raw| && t.Selected() != []
      ensures t.rows[i].key == t.raw[i].key && t.rows[i].recordId == t.raw[i].recordId
              && (IsIdentity(t.raw[i]) ==> t.rows[i] == t.raw[i])
    {
      RewrittenKeepsIdentity(t.raw, t.byService, t.byDevice, i);
    }
  }

  /** Accepted rows have pairwise distinct record ids. */
  lemma AcceptedRecordIdsDistinct(t: Trace)
    requires Complete(t)
    ensures DistinctBy(Filter(t.rows, Clean(t.issues)), RecordId)
  {
    SamePlaces(t);
    forall i, j | 0 <= i < j < |t.rows| && Clean(t.issues)(t.rows[j])
      ensures RecordId(t.rows[i]) != RecordId(t.rows[j])
    {
      ErrorSources(t, t.rows[j].key);
      if t.raw[i].recordId == t.raw[j].recordId { DuplicateIsError(t.raw, j); }
    }
    FilterDistinctKept(t.rows, Clean(t.issues), RecordId);
  }

  lemma {:induction false} FilterDistinctKept(s: seq<Row>, p: Row -> bool, key: Row -> string)
    requires forall i, j :: 0 <= i < j < |s| && p(s[j]) ==> key(s[i]) != key(s[j])
    ensures DistinctBy(Filter(s, p), key)
  {
    if s != [] {
      FilterDistinctKept(s[1..], p, key);
      forall x | x in Filter(s[1..], p) ensures key(x) != key(s[0]) {
        var k :| 0 <= k < |s[1..]| && s[1..][k] == x;
        assert s[k + 1] == x;
      }
    }
  }

  /** An identity row is accepted exactly when it was selected for the indexes. */
  lemma SelectedAreAccepted(t: Trace, r: Row)
    requires Complete(t) && OnlyWarnings(t.warnings)
    ensures r in t.Selected() <==> r in t.rows && IsIdentity(r) && !HasError(r.key, t.issues)
  {
    SamePlaces(t);
    if IsIdentity(r) {
      IdentityPlaces(t, r);
      ErrorSources(t, r.key);
      FindingsAreTelemetry(t, r.key);
      ErrorsAdd(r.key, t.parsed, DuplicateIssues(t.raw));
      CorrelationSparesIdentities(t.raw, t.byService, t.byDevice, r.key);
      var jtrack := Filter(t.rows, IsJtrack);
      SequenceNamesItsRows(jtrack, MrIds(jtrack), r.key);
      assert !HasError(r.key, [MISSING_IDENTITY_MAP]);
    }
  }

  lemma SameMembership(a: seq<Row>, b: seq<Row>, r: Row)
    requires |a| == |b| && forall i :: 0 <= i < |a| ==> (a[i] == r <==> b[i] == r)
    ensures r in a <==> r in b
  {
  }

  lemma IdentityPlaces(t: Trace, r: Row)
    requires Complete(t) && IsIdentity(r)
    ensures r in t.raw <==> r in t.rows
  {
    SamePlaces(t);
    forall i | 0 <= i < |t.raw| ensures t.raw[i] == r <==> t.rows[i] == r {
      assert t.rows[i].key == t.raw[i].key;
    }
    SameMembership(t.raw, t.rows, r);
  }

  /** No two selected identities share a service. */
  lemma SelectedServicesUnique(t: Trace)
    requires Complete(t) && ParserOutput(t.raw, t.parsed) && OnlyWarnings(t.warnings)
    ensures forall a, b :: a in t.Selected() && b in t.Selected() && a.serviceId == b.serviceId ==> a == b
    ensures forall a :: a in t.Selected() ==> a.serviceId != ""
  {
    AcceptedRecordIdsDistinct(t);
    var accepted := Filter(t.rows, Clean(t.issues));
    forall a | a in t.Selected() ensures a in accepted && a.recordId == a.serviceId && a.serviceId != "" {
      SelectedAreAccepted(t, a);
      ErrorsAdd(a.key, t.parsed, DuplicateIssues(t.raw));
      assert a in t.raw;
    }
    forall a, b | a in t.Selected() && b in t.Selected() && a.serviceId == b.serviceId ensures a == b {
      DistinctByMember(accepted, RecordId, a, b);
    }
  }

  /** The service index returns, for every accepted identity row, that row, which no other accepted identity row
      shares its service with. */
  lemma ServiceIndexIsExact(t: Trace, identity: Row)
    requires Complete(t) && ParserOutput(t.raw, t.parsed) && OnlyWarnings(t.warnings)
    requires identity in t.rows && IsIdentity(identity) && !HasError(identity.key, t.issues)
    ensures Lookup(t.byService, identity.serviceId) == Some(identity)
    ensures forall d ::
              (d in t.rows && IsIdentity(d) && !HasError(d.key, t.issues) && d.serviceId == identity.serviceId)
              ==> d == identity
  {
    SelectedAreAccepted(t, identity);
    SelectedServicesUnique(t);
    UniqueServiceLookup(t.byService, t.byDevice, t.Selected(), identity);
    forall d | d in t.rows && IsIdentity(d) && !HasError(d.key, t.issues) && d.serviceId == identity.serviceId
      ensures d == identity
    {
      SelectedAreAccepted(t, d);
    }
  }

  /** Every accepted row that is not an identity agrees with an accepted identity row. */
  lemma AcceptedRowsResolve(t: Trace, r: Row) returns (identity: Row)
    requires Complete(t) && OnlyWarnings(t.warnings) && t.Selected() != []
    requires r in t.rows && !IsIdentity(r) && !HasError(r.key, t.issues)
    ensures identity in t.rows && IsIdentity(identity) && !HasError(identity.key, t.issues)
    ensures Agrees(r, identity)
  {
    SamePlaces(t);
    var i :| 0 <= i < |t.rows| && t.rows[i] == r;
    RewrittenAt(t.raw, t.byService, t.byDevice, i);
    ErrorSources(t, r.key);
    identity := CleanCorrelationAgrees(t.raw[i], t.byService, t.byDevice, t.Selected());
    SelectedAreAccepted(t, identity);
  }

  lemma NoMapIssueAppend(a: seq<Issue>, b: seq<Issue>)
    requires NoIdentityMapIssue(a) && NoIdentityMapIssue(b)
    ensures NoIdentityMapIssue(a + b)
  {
  }

  /** The missing-map issue is raised exactly when no identity row was selected. */
  lemma MapIssueIffNoneSelected(t: Trace)
    requires Complete(t) && ParserOutput(t.raw, t.parsed) && OnlyWarnings(t.warnings)
    ensures IdentityMissing(t.issues) <==> t.Selected() == []
  {
    if t.Selected() == [] {
      var n := |t.Early()|;
      assert t.issues[n] == MISSING_IDENTITY_MAP;
    } else {
      DuplicatesAreNotMapIssues(t.raw);
      CorrelationSparesIdentities(t.raw, t.byService, t.byDevice, RowKey(IdentityMap, "", 0));
      var jtrack := Filter(t.rows, IsJtrack);
      SequencesAreNotMapIssues(jtrack, MrIds(jtrack));
      FindingsAreTelemetry(t, RowKey(IdentityMap, "", 0));
      NoMapIssueAppend(t.parsed, DuplicateIssues(t.raw));
      NoMapIssueAppend(t.Early(), t.Correlations());
      NoMapIssueAppend(t.Early() + t.Correlations(), t.Findings());
      NoMapIssueAppend(t.Early() + t.Correlations() + t.Findings(), t.Sequences());
    }
  }

  /** Every identity row of the import, if there is one at all, is in error. */
  ghost predicate NoSoundIdentity(t: Trace) {
    forall r :: r in t.rows && IsIdentity(r) ==> HasError(r.key, t.issues)
  }

  /** A selected identity makes the batch acceptable; without one every identity row is in error. */
  lemma SelectionDecides(t: Trace)
    requires Complete(t) && OnlyWarnings(t.warnings)
    ensures t.Selected() != [] ==> Count(t.rows, Clean(t.issues)) > 0
    ensures t.Selected() == [] <==> NoSoundIdentity(t)
  {
    if t.Selected() != [] {
      var d := t.Selected()[0];
      SelectedAreAccepted(t, d);
      assert d in Filter(t.rows, Clean(t.issues));
    } else {
      forall r | r in t.rows && IsIdentity(r) ensures HasError(r.key, t.issues) { SelectedAreAccepted(t, r); }
    }
  }

  lemma RejectedWhen(accepted: nat, issues: seq<Issue>)
    ensures StatusOf(accepted, issues) == Rejected <==> accepted == 0 || IdentityMissing(issues)
  {
  }

  /** A batch is rejected exactly when all its identity rows, if any, are in error. */
  lemma RejectedIffNoIdentity(t: Trace)
    requires Complete(t) && ParserOutput(t.raw, t.parsed) && OnlyWarnings(t.warnings)
    ensures StatusOf(Count(t.rows, Clean(t.issues)), t.issues) == Rejected <==> NoSoundIdentity(t)
  {
    MapIssueIffNoneSelected(t);
    SelectionDecides(t);
    RejectedWhen(Count(t.rows, Clean(t.issues)), t.issues);
  }

  /** The rows of a batch that was not rejected: distinct record ids, and each row that is not an identity
      carries the service of exactly one accepted identity row and agrees with its values. */
  lemma ReferentialIntegrity(t: Trace, r: Row)
    requires Complete(t) && ParserOutput(t.raw, t.parsed) && OnlyWarnings(t.warnings)
    requires StatusOf(Count(t.rows, Clean(t.issues)), t.issues) != Rejected
    requires r in t.rows && !IsIdentity(r) && !HasError(r.key, t.issues)
    ensures DistinctBy(Filter(t.rows, Clean(t.issues)), RecordId)
    ensures exists d :: d in t.rows && IsIdentity(d) && !HasError(d.key, t.issues) && Agrees(r, d)
                        && Lookup(t.byService, r.serviceId) == Some(d)
  {
    AcceptedRecordIdsDistinct(t);
    MapIssueIffNoneSelected(t);
    var d := AcceptedRowsResolve(t, r);
    ServiceIndexIsExact(t, d);
  }

  /** `eligible_as_of`: the event is not known to be later than the analysis boundary. */
  predicate Eligible(r: Row, asOf: Option<int>) {
    !(asOf.Some? && r.eventTime.Instant? && r.eventTime.at > asOf.value)
  }

  /** The rows that the open report of one service is made from: accepted, eligible, and of that service. */
  function ReportedRows(issues: seq<Issue>, asOf: Option<int>, service: string): Row -> bool {
    (r: Row) => Clean(issues)(r) && Eligible(r, asOf) && r.serviceId == service
  }

  /** The row is an accepted event of the request for the service, and not known to be later than the boundary. */
  ghost predicate ReportedEvent(t: Trace, asOf: Option<int>, service: string, mr: string, r: Row) {
    && r in t.rows && r.key.source == JtrackEvents && r.mrId == mr && r.serviceId == service
    && !HasError(r.key, t.issues)
    && (asOf.Some? && r.eventTime.Instant? ==> r.eventTime.at <= asOf.value)
  }

  /** In the pipeline as a whole, for any analysis boundary and service: an MR with known statuses is reported open
      exactly when it has events to report and none of them is CLOSED or REJECTED. */
  lemma AcceptedMrEventsOpenReport(t: Trace, asOf: Option<int>, service: string, mr: string)
    requires Complete(t) && ParserOutput(t.raw, t.parsed)
    requires AllKnown(Filter(t.rows, IsJtrack), mr)
    ensures ReportedOpen(Filter(Filter(t.rows, IsJtrack), ReportedRows(t.issues, asOf, service)), mr) <==>
              (exists r :: ReportedEvent(t, asOf, service, mr, r))
              && (forall r :: ReportedEvent(t, asOf, service, mr, r) ==> r.status != CLOSED && r.status != REJECTED)
  {
    var reported := Filter(Filter(t.rows, IsJtrack), ReportedRows(t.issues, asOf, service));
    ReportHolds(t, asOf, service, mr);
    ReportedMembers(t, asOf, service, mr, reported);
    ReportRestated(t, asOf, service, mr, reported, ReportedOpen(reported, mr));
  }

  lemma ReportedMembers(t: Trace, asOf: Option<int>, service: string, mr: string, reported: seq<Row>)
    requires reported == Filter(Filter(t.rows, IsJtrack), ReportedRows(t.issues, asOf, service))
    ensures forall r :: ReportedEvent(t, asOf, service, mr, r) <==> r in reported && r.mrId == mr
  {
    forall r ensures ReportedEvent(t, asOf, service, mr, r) <==> r in reported && r.mrId == mr {
      assert r in Filter(t.rows, IsJtrack) <==> r in t.rows && r.key.source == JtrackEvents;
      assert r in reported <==> r in Filter(t.rows, IsJtrack) && ReportedRows(t.issues, asOf, service)(r);
      assert ReportedRows(t.issues, asOf, service)(r) <==>
               Clean(t.issues)(r) && Eligible(r, asOf) && r.serviceId == service;
      assert Clean(t.issues)(r) <==> !HasError(r.key, t.issues);
    }
  }

  lemma ReportRestated(t: Trace, asOf: Option<int>, service: string, mr: string, reported: seq<Row>, open: bool)
    requires forall r :: ReportedEvent(t, asOf, service, mr, r) <==> r in reported && r.mrId == mr
    requires open <==> (exists r :: r in reported && r.mrId == mr)
                       && (forall r :: r in reported && r.mrId == mr ==> !ClosedOrRejected(r))
    ensures open <==> (exists r :: ReportedEvent(t, asOf, service, mr, r))
                      && (forall r :: ReportedEvent(t, asOf, service, mr, r) ==>
                            r.status != CLOSED && r.status != REJECTED)
  {
  }

  lemma ReportHolds(t: Trace, asOf: Option<int>, service: string, mr: string)
    requires Complete(t) && ParserOutput(t.raw, t.parsed)
    requires AllKnown(Filter(t.rows, IsJtrack), mr)
    ensures var reported := Filter(Filter(t.rows, IsJtrack), ReportedRows(t.issues, asOf, service));
            ReportedOpen(reported, mr) <==>
              (exists r :: r in reported && r.mrId == mr)
              && (forall r :: r in reported && r.mrId == mr ==> !ClosedOrRejected(r))
  {
    var jtrack := Filter(t.rows, IsJtrack);
    SamePlaces(t);
    assert DistinctBy(t.rows, Key) by {
      forall i, j | 0 <= i < j < |t.rows| ensures Key(t.rows[i]) != Key(t.rows[j]) {
        assert Key(t.raw[i]) != Key(t.raw[j]);
      }
    }
    FilterKeepsDistinct(t.rows, IsJtrack, Key);
    forall r | r in jtrack && Clean(t.issues)(r) ensures !HasError(r.key, SequenceIssues(jtrack)) {
      ErrorSources(t, r.key);
    }
    OpenExactlyWhenNoneFinal(jtrack, ReportedRows(t.issues, asOf, service), mr);
  }
}
