/** What the verdict on an import means, in terms of its issues and counts. */
module EvidenceVerdict {
  import opened Common
  import opened Ordering
  import opened EvidenceRows
  import opened IdentityIndex
  import opened MrLifecycle
  import opened EvidencePipeline
  import opened EvidenceIntegrity
  import opened EvidenceAcceptance
  import opened ImportBatch

  ghost predicate SomeIssue(issues: seq<Issue>, severity: Severity) {
    exists i :: i in issues && i.severity == severity
  }

  predicate SomeIssueAt(issues: seq<Issue>, severity: Severity, key: RowKey) {
    exists i :: i in issues && i.severity == severity && i.at == Some(key)
  }

  ghost predicate MapMissing(issues: seq<Issue>) { exists i :: i in issues && i.code == IdentityMapMissing }

  lemma Membership(issues: seq<Issue>)
    ensures forall i :: i in issues <==> exists k :: 0 <= k < |issues| && issues[k] == i
  {
  }

  lemma ReadIssues(issues: seq<Issue>)
    ensures forall s :: AnySeverity(issues, s) <==> SomeIssue(issues, s)
    ensures IdentityMissing(issues) <==> MapMissing(issues)
  {
    Membership(issues);
  }

  lemma ReadIssuesAt(issues: seq<Issue>, key: RowKey)
    ensures HasError(key, issues) <==> SomeIssueAt(issues, ERROR, key)
    ensures HasWarning(key, issues) <==> SomeIssueAt(issues, WARNING, key)
  {
    Membership(issues);
  }

  /** The verdict: rejected without accepted rows or without an identity map, otherwise as good as its worst issue. */
  lemma VerdictIff(report: Report, t: Trace)
    requires Reports(report, t)
    ensures report.status == Rejected <==> report.accepted == 0 || MapMissing(t.issues)
    ensures report.status == ValidatedWithQuarantine <==>
              report.accepted > 0 && !MapMissing(t.issues) && SomeIssue(t.issues, ERROR)
    ensures report.status == ValidatedWithWarnings <==>
              report.accepted > 0 && !MapMissing(t.issues)
              && !SomeIssue(t.issues, ERROR) && SomeIssue(t.issues, WARNING)
    ensures report.status == Validated <==>
              report.accepted > 0 && !MapMissing(t.issues)
              && !SomeIssue(t.issues, ERROR) && !SomeIssue(t.issues, WARNING)
  {
    ReadIssues(t.issues);
  }

  /** The disposition of a row: quarantined with an error, accepted with a warning when it has only that. */
  lemma DispositionIff(row: Row, issues: seq<Issue>)
    ensures DispositionOf(row, issues) == Quarantined <==> SomeIssueAt(issues, ERROR, row.key)
    ensures DispositionOf(row, issues) == AcceptedWithWarning <==>
              !SomeIssueAt(issues, ERROR, row.key) && SomeIssueAt(issues, WARNING, row.key)
  {
    ReadIssuesAt(issues, row.key);
  }

  function FaultedBy(issues: seq<Issue>): Row -> bool { (r: Row) => SomeIssueAt(issues, ERROR, r.key) }

  /** The quarantined rows are those that some error names. */
  lemma QuarantineCountsErrors(report: Report, t: Trace)
    requires Reports(report, t) && Complete(t)
    ensures report.quarantined == Count(t.rows, FaultedBy(t.issues)) == report.dispositions.quarantined
    ensures report.dispositions.accepted + report.dispositions.withWarning == report.accepted
  {
    CompleteKeepsSize(t);
    DispositionsPartition(t.rows, t.issues);
    forall r | r in t.rows ensures Disposed(t.issues, Quarantined)(r) == FaultedBy(t.issues)(r) {
      ReadIssuesAt(t.issues, r.key);
    }
    FilterCongruent(t.rows, Disposed(t.issues, Quarantined), FaultedBy(t.issues));
    assert report.dispositions.Of(Quarantined) == report.dispositions.quarantined;
    assert report.dispositions.Of(Accepted) == report.dispositions.accepted;
    assert report.dispositions.Of(AcceptedWithWarning) == report.dispositions.withWarning;
  }

  lemma SomeFaulted(rows: seq<Row>, issues: seq<Issue>)
    ensures Count(rows, FaultedBy(issues)) > 0 <==> exists r :: r in rows && FaultedBy(issues)(r)
  {
    var faulted := Filter(rows, FaultedBy(issues));
    if faulted != [] { assert faulted[0] in faulted; }
    if r :| r in rows && FaultedBy(issues)(r) { assert r in faulted; }
  }

  // ------------------------------------------------------------------ errors without a row

  /** Every error of the issues names one of the rows. */
  ghost predicate ErrorsName(issues: seq<Issue>, rows: seq<Row>) {
    forall i :: i in issues && i.severity == ERROR ==> exists r :: r in rows && i.at == Some(r.key)
  }

  lemma NamedAmong(issues: seq<Issue>, few: seq<Row>, many: seq<Row>)
    requires ErrorsName(issues, few) && forall r :: r in few ==> r in many
    ensures ErrorsName(issues, many)
  {
  }

  lemma OwnNamed(issues: seq<Issue>, rows: seq<Row>, r: Row)
    requires OwnIssues(issues, r.key) && r in rows
    ensures ErrorsName(issues, rows)
  {
    Membership(issues);
  }

  lemma NamedAppend(a: seq<Issue>, b: seq<Issue>, rows: seq<Row>)
    requires ErrorsName(a, rows) && ErrorsName(b, rows)
    ensures ErrorsName(a + b, rows)
  {
    assert forall i :: i in a + b <==> i in a || i in b;
  }

  lemma {:induction false} DuplicatesNamed(rows: seq<Row>, n: nat)
    requires n <= |rows|
    ensures ErrorsName(DuplicateIssues(rows[..n]), rows)
  {
    if n > 0 {
      DuplicatesNamed(rows, n - 1);
      assert rows[..n][..n - 1] == rows[..n - 1] && rows[n - 1] in rows;
      var first := FirstWith(rows[..n - 1], rows[n - 1].recordId);
      var own := if first.Some? then [Issue(DuplicateRecordId(first.value.key), ERROR, Some(rows[n - 1].key))] else [];
      OwnNamed(own, rows, rows[n - 1]);
      NamedAppend(DuplicateIssues(rows[..n - 1]), own, rows);
    }
  }

  lemma {:induction false} CorrelationsNamed(rows: seq<Row>, treat: Row -> Correlation, n: nat)
    requires n <= |rows| && OwnTreatment(rows, treat)
    ensures ErrorsName(CorrelationIssues(rows[..n], treat), rows)
  {
    if n > 0 {
      CorrelationsNamed(rows, treat, n - 1);
      assert rows[..n][..n - 1] == rows[..n - 1] && rows[n - 1] in rows;
      OwnNamed(treat(rows[n - 1]).issues, rows, rows[n - 1]);
      NamedAppend(CorrelationIssues(rows[..n - 1], treat), treat(rows[n - 1]).issues, rows);
    }
  }

  lemma {:induction false} ValuesNamed(rows: seq<Row>, n: nat)
    requires n <= |rows|
    ensures ErrorsName(ValueIssues(rows[..n]), rows)
  {
    if n > 0 {
      ValuesNamed(rows, n - 1);
      assert rows[..n][..n - 1] == rows[..n - 1] && rows[n - 1] in rows;
      OwnNamed(ValueIssue(rows[n - 1]), rows, rows[n - 1]);
      NamedAppend(ValueIssues(rows[..n - 1]), ValueIssue(rows[n - 1]), rows);
    }
  }

  lemma {:induction false} ScanNamed(events: seq<Row>, n: nat)
    requires n <= |events|
    ensures ErrorsName(ScanIssues(events[..n]), events)
  {
    if n > 0 {
      ScanNamed(events, n - 1);
      assert events[..n][..n - 1] == events[..n - 1] && events[n - 1] in events;
      OwnNamed(MrLifecycle.Verdict(events[n - 1], Peak(events[..n - 1])), events, events[n - 1]);
      NamedAppend(ScanIssues(events[..n - 1]), MrLifecycle.Verdict(events[n - 1], Peak(events[..n - 1])), events);
    }
  }

  lemma {:induction false} SequencesNamed(rows: seq<Row>, ids: seq<string>, n: nat)
    requires n <= |ids|
    ensures ErrorsName(IssuesFor(rows, ids[..n]), rows)
  {
    if n > 0 {
      var events := EventsOf(rows, ids[n - 1]);
      SequencesNamed(rows, ids, n - 1);
      assert ids[..n][..n - 1] == ids[..n - 1] && events[..|events|] == events;
      ScanNamed(events, |events|);
      EventsMembers(rows, ids[n - 1]);
      NamedAmong(ScanIssues(events), events, rows);
      NamedAppend(IssuesFor(rows, ids[..n - 1]), ScanIssues(events), rows);
    }
  }

  /** Rows at the same places have the same keys, so what names the ones names the others. */
  lemma NamedAcross(issues: seq<Issue>, raw: seq<Row>, rows: seq<Row>)
    requires ErrorsName(issues, raw) && |raw| == |rows| && forall i :: 0 <= i < |raw| ==> raw[i].key == rows[i].key
    ensures ErrorsName(issues, rows)
  {
    forall i | i in issues && i.severity == ERROR ensures exists r :: r in rows && i.at == Some(r.key) {
      var r :| r in raw && i.at == Some(r.key);
      var k :| 0 <= k < |raw| && raw[k] == r;
      assert rows[k] in rows;
    }
  }

  lemma WarningsNamed(warnings: seq<Issue>, rows: seq<Row>)
    requires OnlyWarnings(warnings)
    ensures ErrorsName(warnings, rows)
  {
    Membership(warnings);
  }

  lemma CorrelatedNamed(raw: seq<Row>, byService: map<string, Row>, byDevice: map<string, Row>)
    ensures ErrorsName(CorrelationIssues(raw, Correlated(byService, byDevice)), raw)
  {
    var treat := Correlated(byService, byDevice);
    forall r | r in raw ensures OwnIssues(treat(r).issues, r.key) { CorrelateKeepsIdentity(r, byService, byDevice); }
    CorrelationsNamed(raw, treat, |raw|);
    assert raw[..|raw|] == raw;
  }

  lemma EarlyNamed(t: Trace)
    requires Complete(t) && t.Selected() != []
    ensures ErrorsName(DuplicateIssues(t.raw) + t.Correlations(), t.rows)
  {
    assert t.raw[..|t.raw|] == t.raw;
    DuplicatesNamed(t.raw, |t.raw|);
    CorrelatedNamed(t.raw, t.byService, t.byDevice);
    NamedAppend(DuplicateIssues(t.raw), t.Correlations(), t.raw);
    SamePlaces(t);
    NamedAcross(DuplicateIssues(t.raw) + t.Correlations(), t.raw, t.rows);
  }

  lemma LateNamed(t: Trace)
    requires OnlyWarnings(t.warnings)
    ensures ErrorsName(t.Findings() + t.Sequences(), t.rows)
  {
    var telemetry, jtrack := Filter(t.rows, IsTelemetry), Filter(t.rows, IsJtrack);
    assert telemetry[..|telemetry|] == telemetry && MrIds(jtrack)[..|MrIds(jtrack)|] == MrIds(jtrack);
    ValuesNamed(telemetry, |telemetry|);
    SequencesNamed(jtrack, MrIds(jtrack), |MrIds(jtrack)|);
    NamedAmong(ValueIssues(telemetry), telemetry, t.rows);
    NamedAmong(t.Sequences(), jtrack, t.rows);
    WarningsNamed(t.warnings, t.rows);
    NamedAppend(ValueIssues(telemetry), t.warnings, t.rows);
    NamedAppend(t.Findings(), t.Sequences(), t.rows);
  }

  lemma IssueParts(t: Trace, i: Issue)
    requires Complete(t)
    ensures i in t.issues <==> i in t.parsed || i in DuplicateIssues(t.raw) + t.Correlations()
                               || i in t.Findings() + t.Sequences()
  {
  }

  /** A quarantined row rules out every better verdict, and VALIDATED means that nothing is quarantined or warned of. */
  lemma QuarantineShows(report: Report, t: Trace)
    requires Reports(report, t) && Complete(t)
    ensures report.quarantined > 0 && report.status != Rejected ==> report.status == ValidatedWithQuarantine
    ensures report.status == Validated ==> report.quarantined == 0 && !SomeIssue(t.issues, WARNING)
  {
    VerdictIff(report, t);
    QuarantineCountsErrors(report, t);
    SomeFaulted(t.rows, t.issues);
    if r :| r in t.rows && FaultedBy(t.issues)(r) { assert SomeIssue(t.issues, ERROR); }
  }

  /** An import that is not rejected is VALIDATED_WITH_QUARANTINE exactly when the parser reported an error or some row
      is quarantined. */
  lemma QuarantineVerdictIff(report: Report, t: Trace)
    requires Reports(report, t) && Complete(t) && ParserOutput(t.raw, t.parsed) && OnlyWarnings(t.warnings)
    requires report.status != Rejected
    ensures report.status == ValidatedWithQuarantine <==> SomeIssue(t.parsed, ERROR) || report.quarantined > 0
  {
    VerdictIff(report, t);
    QuarantineShows(report, t);
    QuarantineCountsErrors(report, t);
    SomeFaulted(t.rows, t.issues);
    ReadIssues(t.issues);
    MapIssueIffNoneSelected(t);
    EarlyNamed(t);
    LateNamed(t);
    if i :| i in t.parsed && i.severity == ERROR { IssueParts(t, i); }
    if i :| i in t.issues && i.severity == ERROR && i !in t.parsed {
      IssueParts(t, i);
      var r :| r in t.rows && i.at == Some(r.key);
      assert FaultedBy(t.issues)(r);
    }
  }
}
