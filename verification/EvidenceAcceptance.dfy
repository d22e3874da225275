/** Exactly which rows an import accepts. */
module EvidenceAcceptance {
  import opened Common
  import opened Ordering
  import opened StoredNames
  import opened EvidenceRows
  import opened IdentityIndex
  import opened MrLifecycle
  import opened EvidencePipeline
  import opened EvidenceIntegrity

  // ------------------------------------------------------------------ pass by pass

  lemma OwnErrors(issues: seq<Issue>, key: RowKey, other: RowKey)
    requires OwnIssues(issues, key) && key != other
    ensures !HasError(other, issues)
  {
  }

  /** Whatever a treatment does, it only finds fault with the row it treats. */
  ghost predicate OwnTreatment(raw: seq<Row>, treat: Row -> Correlation) {
    forall r :: r in raw ==> OwnIssues(treat(r).issues, r.key)
  }

  lemma {:induction false} TreatmentNamesRows(raw: seq<Row>, treat: Row -> Correlation, key: RowKey)
    requires OwnTreatment(raw, treat) && forall r :: r in raw ==> r.key != key
    ensures !HasError(key, CorrelationIssues(raw, treat))
  {
    if raw != [] {
      var n := |raw| - 1;
      assert raw[n] in raw;
      TreatmentNamesRows(raw[..n], treat, key);
      OwnErrors(treat(raw[n]).issues, raw[n].key, key);
      ErrorsAdd(key, CorrelationIssues(raw[..n], treat), treat(raw[n]).issues);
    }
  }

  lemma LastTreated(raw: seq<Row>, n: nat, treat: Row -> Correlation)
    requires |raw| == n + 1 && OwnTreatment(raw[..n], treat) && forall r :: r in raw[..n] ==> r.key != raw[n].key
    ensures HasError(raw[n].key, CorrelationIssues(raw, treat)) <==> HasError(raw[n].key, treat(raw[n]).issues)
  {
    TreatmentNamesRows(raw[..n], treat, raw[n].key);
    ErrorsAdd(raw[n].key, CorrelationIssues(raw[..n], treat), treat(raw[n]).issues);
  }

  lemma EarlierTreated(raw: seq<Row>, n: nat, key: RowKey, treat: Row -> Correlation)
    requires |raw| == n + 1 && OwnIssues(treat(raw[n]).issues, raw[n].key) && raw[n].key != key
    ensures HasError(key, CorrelationIssues(raw, treat)) <==> HasError(key, CorrelationIssues(raw[..n], treat))
  {
    OwnErrors(treat(raw[n]).issues, raw[n].key, key);
    ErrorsAdd(key, CorrelationIssues(raw[..n], treat), treat(raw[n]).issues);
  }

  /** The loop puts a row in error exactly when treating that row does. */
  lemma {:induction false} TreatedErrorIff(raw: seq<Row>, treat: Row -> Correlation, j: nat)
    requires DistinctBy(raw, Key) && OwnTreatment(raw, treat) && j < |raw|
    ensures HasError(raw[j].key, CorrelationIssues(raw, treat)) <==> HasError(raw[j].key, treat(raw[j]).issues)
  {
    var n := |raw| - 1;
    DistinctPrefix(raw, n, Key);
    assert raw[n] in raw;
    if j < n {
      assert raw[..n][j] in raw[..n];
      EarlierTreated(raw, n, raw[j].key, treat);
      TreatedErrorIff(raw[..n], treat, j);
    } else {
      LastTreated(raw, n, treat);
    }
  }

  /** The correlation loop puts a row in error exactly when correlating that row does. */
  lemma CorrelationErrorIff(raw: seq<Row>, byService: map<string, Row>, byDevice: map<string, Row>, j: nat)
    requires DistinctBy(raw, Key) && j < |raw|
    ensures HasError(raw[j].key, CorrelationIssues(raw, Correlated(byService, byDevice)))
            <==> HasError(raw[j].key, Correlated(byService, byDevice)(raw[j]).issues)
  {
    forall r | r in raw ensures OwnIssues(Correlated(byService, byDevice)(r).issues, r.key) {
      CorrelateKeepsIdentity(r, byService, byDevice);
    }
    TreatedErrorIff(raw, Correlated(byService, byDevice), j);
  }

  /** The value checks put a telemetry row in error exactly when its value is implausible. */
  lemma {:induction false} ValueErrorIff(rows: seq<Row>, j: nat)
    requires DistinctBy(rows, Key) && j < |rows|
    ensures HasError(rows[j].key, ValueIssues(rows)) <==> Implausible(rows[j])
  {
    var n := |rows| - 1;
    var own := ValueIssue(rows[n]);
    DistinctPrefix(rows, n, Key);
    ErrorsAdd(rows[j].key, ValueIssues(rows[..n]), own);
    if j < n {
      assert rows[..n][j] in rows[..n];
      ValueErrorIff(rows[..n], j);
    } else {
      ValueIssuesNameRows(rows[..n], rows[n].key);
      assert own != [] ==> own[0].at == Some(rows[n].key);
    }
  }

  /** In the event order of its MR the row stands behind an event of strictly higher rank. */
  ghost predicate FallsBack(jtrack: seq<Row>, r: Row) {
    var events := EventsOf(jtrack, r.mrId);
    exists i :: 0 <= i < |events| && events[i] == r && Regresses(events, i)
  }

  lemma EventPlace(jtrack: seq<Row>, r: Row) returns (i: nat)
    requires r in jtrack
    ensures i < |EventsOf(jtrack, r.mrId)| && EventsOf(jtrack, r.mrId)[i] == r
  {
    EventsMembers(jtrack, r.mrId);
    i :| i < |EventsOf(jtrack, r.mrId)| && EventsOf(jtrack, r.mrId)[i] == r;
  }

  lemma SequenceErrorIff(jtrack: seq<Row>, r: Row)
    requires DistinctBy(jtrack, Key) && r in jtrack
    ensures HasError(r.key, SequenceIssues(jtrack)) <==> FallsBack(jtrack, r)
  {
    var i := EventPlace(jtrack, r);
    FlaggedExactlyWhenRegressing(jtrack, r.mrId, i);
    if k :| 0 <= k < |EventsOf(jtrack, r.mrId)| && EventsOf(jtrack, r.mrId)[k] == r
            && Regresses(EventsOf(jtrack, r.mrId), k)
    {
      FlaggedExactlyWhenRegressing(jtrack, r.mrId, k);
    }
  }

  // ------------------------------------------------------------------ the whole pipeline

  /** The row is no identity row and either has no single identity or contradicts it; without any sound identity row
      nothing is correlated. */
  ghost predicate Uncorrelated(t: Trace, raw: Row) {
    !IsIdentity(raw) && t.Selected() != [] &&
    var identity := ResolvedTo(raw, t.byService, t.byDevice);
    identity.None? || Contradicts(raw, identity.value)
  }

  lemma CorrelationDecides(t: Trace, j: nat)
    requires Complete(t) && DistinctBy(t.raw, Key) && j < |t.raw|
    ensures HasError(t.raw[j].key, t.Correlations()) <==> Uncorrelated(t, t.raw[j])
  {
    if t.Selected() == [] {
      assert t.Correlations()[0].at == None;
    } else {
      CorrelationErrorIff(t.raw, t.byService, t.byDevice, j);
      CorrelateErrorIff(t.raw[j], t.byService, t.byDevice);
    }
  }

  lemma RowsKeepKeys(t: Trace)
    requires Complete(t) && DistinctBy(t.raw, Key)
    ensures DistinctBy(t.rows, Key)
  {
    SamePlaces(t);
    forall i, j | 0 <= i < j < |t.rows| ensures Key(t.rows[i]) != Key(t.rows[j]) {
      assert Key(t.raw[i]) != Key(t.raw[j]);
    }
  }

  lemma FindingsDecide(t: Trace, r: Row)
    requires DistinctBy(t.rows, Key) && OnlyWarnings(t.warnings) && r in t.rows
    ensures HasError(r.key, t.Findings()) <==> IsTelemetry(r) && Implausible(r)
  {
    var telemetry := Filter(t.rows, IsTelemetry);
    ErrorsAdd(r.key, ValueIssues(telemetry), t.warnings);
    if IsTelemetry(r) {
      FilterKeepsDistinct(t.rows, IsTelemetry, Key);
      assert r in telemetry;
      var j :| 0 <= j < |telemetry| && telemetry[j] == r;
      ValueErrorIff(telemetry, j);
    } else {
      FindingsAreTelemetry(t, r.key);
    }
  }

  lemma SequencesDecide(t: Trace, r: Row)
    requires DistinctBy(t.rows, Key) && r in t.rows
    ensures HasError(r.key, t.Sequences()) <==> IsJtrack(r) && FallsBack(Filter(t.rows, IsJtrack), r)
  {
    var jtrack := Filter(t.rows, IsJtrack);
    FilterKeepsDistinct(t.rows, IsJtrack, Key);
    if IsJtrack(r) {
      assert r in jtrack;
      SequenceErrorIff(jtrack, r);
    } else {
      SequenceNamesItsRows(jtrack, MrIds(jtrack), r.key);
    }
  }

  /** What keeps the row at place `j` out of the accepted ones. */
  ghost predicate Faulty(t: Trace, j: nat)
    requires j < |t.raw| && j < |t.rows|
  {
    || HasError(t.raw[j].key, t.parsed)
    || Repeats(t.raw, j)
    || Uncorrelated(t, t.raw[j])
    || (IsTelemetry(t.rows[j]) && Implausible(t.rows[j]))
    || (IsJtrack(t.rows[j]) && FallsBack(Filter(t.rows, IsJtrack), t.rows[j]))
  }

  /** A row is quarantined exactly when the parser faulted it, an earlier row has its record id, it does not correlate,
      its value is implausible, or it takes its MR back. */
  lemma QuarantinedIff(t: Trace, j: nat)
    requires Complete(t) && ParserOutput(t.raw, t.parsed) && OnlyWarnings(t.warnings)
    requires j < |t.raw| && |t.rows| == |t.raw|
    ensures HasError(t.rows[j].key, t.issues) <==> Faulty(t, j)
  {
    var r := t.rows[j];
    SamePlaces(t);
    RowsKeepKeys(t);
    assert r.key == t.raw[j].key && r in t.rows;
    ErrorSources(t, r.key);
    DuplicateErrorIff(t.raw, j);
    CorrelationDecides(t, j);
    FindingsDecide(t, r);
    SequencesDecide(t, r);
  }

  /** An identity row is accepted exactly when the parser passed it and no earlier row has its service as record id:
      of several validity periods of one service only the first survives. */
  lemma IdentityAcceptedIff(t: Trace, j: nat)
    requires Complete(t) && ParserOutput(t.raw, t.parsed) && OnlyWarnings(t.warnings)
    requires j < |t.raw| && |t.rows| == |t.raw| && IsIdentity(t.raw[j])
    ensures !HasError(t.rows[j].key, t.issues) <==>
              !HasError(t.raw[j].key, t.parsed)
              && forall i :: 0 <= i < j ==> t.raw[i].recordId != t.raw[j].serviceId
  {
    SamePlaces(t);
    QuarantinedIff(t, j);
    assert t.raw[j] in t.raw && t.rows[j] == t.raw[j];
  }

  // ------------------------------------------------------------------ two validity periods

  /** Of two sound identity rows of one service, for two validity periods, say, one is accepted. */
  method ImportTwoPeriods(first: Row, second: Row) returns (r: Result<Outcome>)
    requires IsIdentity(first) && IsIdentity(second) && first.key != second.key
    requires first.serviceId == first.recordId == second.serviceId == second.recordId && first.serviceId != ""
    requires ParseError(first) == ParseError(second) == EventError(first) == EventError(second) == None
    ensures r.Ok? && r.value.report.accepted == r.value.report.quarantined == 1
    ensures IdentityMap in r.value.report.files && r.value.report.files[IdentityMap] == [first]
  {
    r := ValidateRows([first, second], [], []);
    NoErrorRaised(first, second);
    FirstPeriodOnly(r.value.trace, first, second);
  }

  lemma NoErrorRaised(first: Row, second: Row)
    requires IsIdentity(first) && IsIdentity(second)
    requires ParseError(first) == ParseError(second) == EventError(first) == EventError(second) == None
    ensures RaisedError([first, second], []) == None
  {
    var raw := [first, second];
    FirstErrorIff(raw, ParseError);
    FirstErrorIff(raw, FinalInstallError(IdentitiesOf(raw, [])));
    FirstErrorIff(raw, EventError);
  }

  lemma FirstPeriodOnly(t: Trace, first: Row, second: Row)
    requires Complete(t) && t.raw == [first, second] && t.parsed == t.warnings == []
    requires IsIdentity(first) && IsIdentity(second) && first.key != second.key
    requires first.serviceId == first.recordId == second.serviceId == second.recordId && first.serviceId != ""
    ensures AcceptedOf(t.rows, t.issues, IdentityMap) == [first] && Count(t.rows, Clean(t.issues)) == 1
  {
    RowsAreRaw(t, first, second);
    FirstPeriodAccepted(t, first, second);
    FirstIsFiled(first, second, t.issues);
  }

  lemma FirstIsFiled(first: Row, second: Row, issues: seq<Issue>)
    requires IsIdentity(first) && IsIdentity(second) && Clean(issues)(first) && !Clean(issues)(second)
    ensures AcceptedOf([first, second], issues, IdentityMap) == [first]
    ensures Count([first, second], Clean(issues)) == 1
  {
    FilterAll([first, second], OfSource(IdentityMap));
    FilterPair(first, second, Clean(issues));
  }

  lemma RowsAreRaw(t: Trace, first: Row, second: Row)
    requires Complete(t) && t.raw == [first, second] && IsIdentity(first) && IsIdentity(second)
    ensures t.rows == [first, second]
  {
    SamePlaces(t);
    assert t.raw[0] == first && t.raw[1] == second;
  }

  lemma FilterPair(a: Row, b: Row, p: Row -> bool)
    requires p(a) && !p(b)
    ensures Filter([a, b], p) == [a]
  {
    assert [a, b][1..] == [b];
  }

  lemma FirstPeriodAccepted(t: Trace, first: Row, second: Row)
    requires Complete(t) && t.raw == t.rows == [first, second] && t.parsed == t.warnings == []
    requires IsIdentity(first) && IsIdentity(second) && first.key != second.key
    requires first.serviceId == first.recordId == second.serviceId == second.recordId && first.serviceId != ""
    ensures Clean(t.issues)(first) && !Clean(t.issues)(second)
  {
    PeriodsParsed(first, second);
    IdentityAcceptedIff(t, 0);
    IdentityAcceptedIff(t, 1);
    assert t.raw[0].recordId == t.raw[1].serviceId;
  }

  lemma PeriodsParsed(first: Row, second: Row)
    requires IsIdentity(first) && IsIdentity(second) && first.key != second.key
    requires first.serviceId == first.recordId == second.serviceId == second.recordId && first.serviceId != ""
    ensures ParserOutput([first, second], [])
  {
  }

  // ------------------------------------------------------------------ when a validation raises

  /** The row carries a service once rows have been correlated: its own, or that of the identity it resolves to. */
  ghost predicate CarriesService(row: Row, identities: seq<Row>) {
    row.serviceId != "" || (identities != [] && FoundIn(row, identities).Some?)
  }

  /** The row makes the validation raise. */
  ghost predicate Fatal(row: Row, identities: seq<Row>) {
    || OffCalendar in row.stamps
    || row.confidence == NoNumeral
    || (row.confidence == Blank && row.key.source != DvsumCaddiInsights)
    || (row.key.source == InstallCohort && row.installedAt == NotATime && CarriesService(row, identities))
    || row.eventTime == OffCalendar
  }

  lemma FinalServiceIff(row: Row, identities: seq<Row>)
    requires !IsIdentity(row) && forall d :: d in identities ==> d.serviceId != ""
    ensures FinalService(row, identities) != "" <==> CarriesService(row, identities)
  {
    FoundIsListed(row, identities);
  }

  lemma IdentitiesHaveService(raw: seq<Row>, parsed: seq<Issue>)
    requires ParserOutput(raw, parsed)
    ensures forall d :: d in IdentitiesOf(raw, parsed) ==> d.serviceId != ""
  {
    forall d | d in IdentitiesOf(raw, parsed) ensures d.serviceId != "" {
      ErrorsAdd(d.key, parsed, DuplicateIssues(raw));
    }
  }

  lemma FatalIff(row: Row, identities: seq<Row>)
    requires IsInstall(row) ==> row.stamps == [row.installedAt]
    requires forall d :: d in identities ==> d.serviceId != ""
    ensures ParseError(row).Some? || FinalInstallError(identities)(row).Some? || EventError(row).Some?
            <==> Fatal(row, identities)
  {
    if IsInstall(row) {
      FinalServiceIff(row, identities);
      assert row.installedAt == OffCalendar ==> row.stamps[0] == OffCalendar;
    }
  }

  /** A validation raises, filing and reporting nothing, exactly when some row makes it: a declared timestamp or the
      event time leaves the calendar, a confidence cell is no number, or an install row that has or gets a service has
      an install time that is no timestamp. */
  lemma RaisesIff(raw: seq<Row>, parsed: seq<Issue>)
    requires ParserOutput(raw, parsed)
    ensures RaisedError(raw, parsed).Some? <==> exists r :: r in raw && Fatal(r, IdentitiesOf(raw, parsed))
  {
    var identities := IdentitiesOf(raw, parsed);
    IdentitiesHaveService(raw, parsed);
    FirstErrorIff(raw, ParseError);
    FirstErrorIff(raw, FinalInstallError(identities));
    FirstErrorIff(raw, EventError);
    forall r | r in raw
      ensures ParseError(r).Some? || FinalInstallError(identities)(r).Some? || EventError(r).Some?
              <==> Fatal(r, identities)
    {
      FatalIff(r, identities);
    }
  }

  lemma {:induction false} FirstErrorHasRow(rows: seq<Row>, check: Row -> Option<Error>) returns (r: Row)
    requires FirstError(rows, check).Some?
    ensures r in rows && check(r) == FirstError(rows, check)
  {
    var n := |rows| - 1;
    if FirstError(rows[..n], check).Some? { r := FirstErrorHasRow(rows[..n], check); } else { r := rows[n]; }
  }

  /** A time off the calendar raises OverflowError, an unreadable one or a confidence that is no number ValueError, and
      nothing else is raised. */
  lemma RaisedForAReason(raw: seq<Row>, parsed: seq<Issue>) returns (r: Row)
    requires RaisedError(raw, parsed).Some?
    ensures r in raw
    ensures match RaisedError(raw, parsed).value
            case OverflowError => OffCalendar in r.stamps || OffCalendar in {r.installedAt, r.eventTime}
            case ValueError =>
              r.confidence in {NoNumeral, Blank} || (r.key.source == InstallCohort && r.installedAt == NotATime)
            case _ => false
  {
    var installs := FinalInstallError(IdentitiesOf(raw, parsed));
    if FirstError(raw, ParseError).Some? {
      r := FirstErrorHasRow(raw, ParseError);
    } else if FirstError(raw, installs).Some? {
      r := FirstErrorHasRow(raw, installs);
    } else {
      r := FirstErrorHasRow(raw, EventError);
    }
  }

  lemma FirstErrorPair(a: Row, b: Row, check: Row -> Option<Error>)
    ensures FirstError([a], check) == check(a)
    ensures FirstError([a, b], check) == if check(a).Some? then check(a) else check(b)
  {
    assert [a, b][..1] == [a] && [a][..0] == [];
  }

  /** An install row that names its service and whose time is no timestamp stops an import that would otherwise be
      read to the end, although the parser has faulted that row alone. */
  lemma OneInstallStopsImport(identity: Row, install: Row, parsed: seq<Issue>)
    requires ParserOutput([identity, install], parsed)
    requires IsIdentity(identity) && ParseError(identity) == EventError(identity) == None
    requires IsInstall(install) && ParseError(install) == EventError(install) == None
    requires install.serviceId != "" && install.installedAt == NotATime
    ensures RaisedError([identity, install], parsed) == Some(ValueError)
    ensures RaisedError([identity], parsed) == None
  {
    var identities := IdentitiesOf([identity, install], parsed);
    FirstErrorPair(identity, install, ParseError);
    FirstErrorPair(identity, install, EventError);
    FirstErrorPair(identity, install, FinalInstallError(identities));
    FirstErrorPair(identity, install, FinalInstallError(IdentitiesOf([identity], parsed)));
    IdentitiesHaveService([identity, install], parsed);
    FinalServiceIff(install, identities);
  }

  /** An identity row, and an install row of its service without a timezone in its time. */
  function PlainIdentity(file: string, service: string): Row {
    Row(RowKey(IdentityMap, file, 2), service, service, service, service, "", "", "", "", false, "", "", CREATED,
        OtherMetric, NoNumber, [], NoColumn, NoTime, NoTime)
  }

  function UnzonedInstall(file: string, service: string): Row {
    PlainIdentity(file, service).(key := RowKey(InstallCohort, file, 2), stamps := [NotATime], installedAt := NotATime,
                                  eventTime := NotATime)
  }

  /** The parser passes the identity and faults the install row. */
  lemma InstallFaulted(identity: Row, install: Row, parsed: seq<Issue>)
    requires parsed == [Issue(Other("INVALID_TIMESTAMP"), ERROR, Some(install.key))] && identity.key != install.key
    requires IsIdentity(identity) && identity.recordId == identity.serviceId != ""
    requires IsInstall(install) && install.stamps == [install.installedAt]
    ensures ParserOutput([identity, install], parsed)
    ensures !HasError(identity.key, parsed) && HasError(install.key, parsed)
  {
    assert parsed[0].at == Some(install.key);
  }

  lemma WitnessRows(file: string, service: string)
    ensures var identity, install := PlainIdentity(file, service), UnzonedInstall(file, service);
            && IsIdentity(identity) && ParseError(identity) == EventError(identity) == None
            && IsInstall(install) && ParseError(install) == EventError(install) == None
  {
  }

  /** Such an import. */
  lemma UnzonedInstallStopsImport(file: string, service: string) returns (parsed: seq<Issue>)
    requires service != ""
    ensures ParserOutput([PlainIdentity(file, service), UnzonedInstall(file, service)], parsed)
    ensures !HasError(PlainIdentity(file, service).key, parsed) && HasError(UnzonedInstall(file, service).key, parsed)
    ensures RaisedError([PlainIdentity(file, service), UnzonedInstall(file, service)], parsed) == Some(ValueError)
  {
    var identity, install := PlainIdentity(file, service), UnzonedInstall(file, service);
    parsed := [Issue(Other("INVALID_TIMESTAMP"), ERROR, Some(install.key))];
    WitnessRows(file, service);
    InstallFaulted(identity, install, parsed);
    OneInstallStopsImport(identity, install, parsed);
  }
}
