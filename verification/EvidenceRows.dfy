/** Normalised evidence rows and the quality issues raised against them. */
module EvidenceRows {
  import opened Common
  import opened StoredNames

  /** A row is known by its source, its file and its line. */
  datatype RowKey = RowKey(source: Source, file: string, number: nat)

  /** The upper-cased status of an event; `Unlisted` is any other text. */
  datatype MrStatus = CREATED | ACCEPTED | ASSIGNED | REPAIRED | CLOSED | REJECTED | CANCELLED | Unlisted(text: string)

  datatype Field = DeviceId | Technology | DelimiterType | DelimiterId

  /** A telemetry metric with a physical range; `OtherMetric` is any other name. */
  datatype Metric =
    | DownstreamRx | UpstreamTx | Mer | Snr | UncorrectableRatio | PacketLoss | Latency | Jitter
    | OntRx | OntTx | Ber | OtherMetric

  /** A metric's value: absent or no number at all, not-a-number, or a number. */
  datatype Reading = NoNumber | NotANumber | Number(value: real)

  /** A timestamp cell: empty; no timestamp with a timezone; one that leaves the calendar in UTC; or an instant. */
  datatype TimeCell = NoTime | NotATime | OffCalendar | Instant(at: int)

  /** The `confidence` cell: no such column, empty, no numeral, or a numeral. */
  datatype Confidence = NoColumn | Blank | NoNumeral | Numeral

  /** The cells the checks read; an absent cell is the empty string and `mac` is already lower-cased.
      `stamps` are the cells that the source declares as timestamps, and `eventTime` is the first non-empty one of
      observed_at, event_at, generated_at, opened_at and installed_at. */
  datatype Row = Row(
    key: RowKey, recordId: string, serviceId: string,
    deviceId: string, technology: string, delimiterType: string, delimiterId: string,
    mac: string, serial: string, matched: bool,
    mrId: string, eventAt: string, status: MrStatus, metric: Metric, reading: Reading,
    stamps: seq<TimeCell>, confidence: Confidence, installedAt: TimeCell, eventTime: TimeCell)
  {
    function Get(f: Field): string {
      match f
      case DeviceId => deviceId
      case Technology => technology
      case DelimiterType => delimiterType
      case DelimiterId => delimiterId
    }

    predicate Of(source: Source) { key.source == source }
  }

  datatype Severity = INFO | WARNING | ERROR

  datatype IssueCode =
    | DuplicateRecordId(first: RowKey)
    | IdentityMapMissing
    | ServiceDeviceConflict
    | IdentityNotResolved
    | FieldMismatch(field: Field)
    | StatusUnknown
    | LifecycleOutOfOrder
    | ValueImplausible(metric: Metric)
    | Other(name: string)

  datatype Issue = Issue(code: IssueCode, severity: Severity, at: Option<RowKey>)

  function Key(r: Row): RowKey { r.key }
  function RecordId(r: Row): string { r.recordId }

  /** Whether some ERROR issue names the row. */
  predicate HasError(key: RowKey, issues: seq<Issue>) {
    exists i :: 0 <= i < |issues| && issues[i].severity == ERROR && issues[i].at == Some(key)
  }

  predicate HasWarning(key: RowKey, issues: seq<Issue>) {
    exists i :: 0 <= i < |issues| && issues[i].severity == WARNING && issues[i].at == Some(key)
  }

  lemma ErrorsAdd(key: RowKey, a: seq<Issue>, b: seq<Issue>)
    ensures HasError(key, a + b) <==> HasError(key, a) || HasError(key, b)
  {
    if HasError(key, a) {
      var i :| 0 <= i < |a| && a[i].severity == ERROR && a[i].at == Some(key);
      assert (a + b)[i] == a[i];
    }
    if HasError(key, b) {
      var i :| 0 <= i < |b| && b[i].severity == ERROR && b[i].at == Some(key);
      assert (a + b)[|a| + i] == b[i];
    }
    if HasError(key, a + b) {
      var i :| 0 <= i < |a + b| && (a + b)[i].severity == ERROR && (a + b)[i].at == Some(key);
      assert i < |a| ==> a[i] == (a + b)[i];
      assert i >= |a| ==> b[i - |a|] == (a + b)[i];
    }
  }

  function Clean(issues: seq<Issue>): Row -> bool { (r: Row) => !HasError(r.key, issues) }
}
