/** The identity indexes and the correlation of one evidence row against them. */
module IdentityIndex {
  import opened Common
  import opened Ordering
  import opened EvidenceRows

  /** The tokens under which an identity row is filed in the device index. */
  predicate FiledUnder(row: Row, token: string) {
    token != "" && (token == row.deviceId || token == row.mac || token == row.serial)
  }

  function HasService(service: string): Row -> bool { (r: Row) => service != "" && r.serviceId == service }

  function HasToken(token: string): Row -> bool { (r: Row) => FiledUnder(r, token) }

  function Lookup(index: map<string, Row>, key: string): Option<Row> {
    if key in index then Some(index[key]) else None
  }

  function File(index: map<string, Row>, token: string, row: Row): map<string, Row> {
    if token != "" then index[token := row] else index
  }

  /** Index lookups agree with searching the list, for services and for device tokens. */
  ghost predicate IndexesList(byService: map<string, Row>, byDevice: map<string, Row>, rows: seq<Row>) {
    && (forall k :: Lookup(byService, k) == LastWhere(rows, HasService(k)))
    && (forall k :: Lookup(byDevice, k) == LastWhere(rows, HasToken(k)))
  }

  /** Adding a row to the end of the list changes a lookup exactly when the row is a hit. */
  lemma SearchGrows(rows: seq<Row>, row: Row, hit: Row -> bool)
    ensures LastWhere(rows + [row], hit) == if hit(row) then Some(row) else LastWhere(rows, hit)
  {
    assert (rows + [row])[..|rows|] == rows;
  }

  function FileDevice(index: map<string, Row>, row: Row): map<string, Row> {
    File(File(File(index, row.deviceId, row), row.mac, row), row.serial, row)
  }

  lemma IndexGrows(byService: map<string, Row>, byDevice: map<string, Row>, rows: seq<Row>, row: Row)
    requires IndexesList(byService, byDevice, rows)
    ensures IndexesList(File(byService, row.serviceId, row), FileDevice(byDevice, row), rows + [row])
  {
    forall k ensures Lookup(File(byService, row.serviceId, row), k) == LastWhere(rows + [row], HasService(k)) {
      SearchGrows(rows, row, HasService(k));
    }
    forall k ensures Lookup(FileDevice(byDevice, row), k) == LastWhere(rows + [row], HasToken(k)) {
      SearchGrows(rows, row, HasToken(k));
    }
  }

  /** `_identity_indexes`: later rows overwrite earlier ones. */
  method BuildIndexes(identities: seq<Row>) returns (byService: map<string, Row>, byDevice: map<string, Row>)
    ensures IndexesList(byService, byDevice, identities)
  {
    byService, byDevice := map[], map[];
    for i := 0 to |identities|
      invariant IndexesList(byService, byDevice, identities[..i])
    {
      var row := identities[i];
      assert identities[..i + 1] == identities[..i] + [row];
      IndexGrows(byService, byDevice, identities[..i], row);
      byService := File(byService, row.serviceId, row);
      byDevice := FileDevice(byDevice, row);
    }
    assert identities[..|identities|] == identities;
  }

  // ------------------------------------------------------------------ correlating one row

  function Fill(value: string, identity: string): string { if value == "" then identity else value }

  /** The row rewritten to carry its identity's service and the identity's values where it had none. */
  function Adopt(row: Row, identity: Row): Row {
    row.(serviceId := identity.serviceId, matched := true,
         deviceId := Fill(row.deviceId, identity.deviceId),
         technology := Fill(row.technology, identity.technology),
         delimiterType := Fill(row.delimiterType, identity.delimiterType),
         delimiterId := Fill(row.delimiterId, identity.delimiterId))
  }

  predicate Disagrees(row: Row, identity: Row, f: Field) {
    row.Get(f) != "" && identity.Get(f) != "" && row.Get(f) != identity.Get(f)
  }

  function MismatchIssue(row: Row, identity: Row, f: Field): seq<Issue> {
    if Disagrees(row, identity, f)
    then [Issue(FieldMismatch(f), if f == DelimiterId then WARNING else ERROR, Some(row.key))]
    else []
  }

  function MismatchIssues(row: Row, identity: Row): seq<Issue> {
    MismatchIssue(row, identity, DeviceId) + MismatchIssue(row, identity, Technology)
    + MismatchIssue(row, identity, DelimiterType) + MismatchIssue(row, identity, DelimiterId)
  }

  /** The first of the row's device, MAC and serial values that some identity is filed under. */
  function DeviceMatch(row: Row, byDevice: map<string, Row>): Option<Row> {
    if row.deviceId in byDevice then Some(byDevice[row.deviceId])
    else if row.mac in byDevice then Some(byDevice[row.mac])
    else Lookup(byDevice, row.serial)
  }

  datatype Correlation = Correlation(row: Row, issues: seq<Issue>)

  function Correlate(row: Row, byService: map<string, Row>, byDevice: map<string, Row>): Correlation {
    var service, device := Lookup(byService, row.serviceId), DeviceMatch(row, byDevice);
    if service.Some? && device.Some? && service != device then
      Correlation(row, [Issue(ServiceDeviceConflict, ERROR, Some(row.key))])
    else if service.None? && device.None? then
      Correlation(row, [Issue(IdentityNotResolved, ERROR, Some(row.key))])
    else
      var identity := if service.Some? then service.value else device.value;
      Correlation(Adopt(row, identity), MismatchIssues(row, identity))
  }

  /** The row carries its identity's service and, wherever the identity has a value, the identity's
      device, technology and delimiter type. */
  ghost predicate Agrees(row: Row, identity: Row) {
    && row.serviceId == identity.serviceId
    && forall f :: f in {DeviceId, Technology, DelimiterType} && identity.Get(f) != "" ==> row.Get(f) == identity.Get(f)
  }

  lemma MismatchIsError(row: Row, identity: Row, f: Field)
    requires f != DelimiterId && Disagrees(row, identity, f)
    ensures HasError(row.key, MismatchIssues(row, identity))
  {
    var issues := MismatchIssues(row, identity);
    var issue := Issue(FieldMismatch(f), ERROR, Some(row.key));
    assert issue in issues;
    var i :| 0 <= i < |issues| && issues[i] == issue;
  }

  lemma OneErrorIsEnough(issue: Issue, key: RowKey)
    requires issue.severity == ERROR && issue.at == Some(key)
    ensures HasError(key, [issue])
  {
    assert [issue][0] == issue;
  }

  lemma UnresolvedIsError(row: Row, byService: map<string, Row>, byDevice: map<string, Row>)
    ensures var service, device := Lookup(byService, row.serviceId), DeviceMatch(row, byDevice);
            (service.Some? && device.Some? && service != device) || (service.None? && device.None?) ==>
              HasError(row.key, Correlate(row, byService, byDevice).issues)
  {
    OneErrorIsEnough(Issue(ServiceDeviceConflict, ERROR, Some(row.key)), row.key);
    OneErrorIsEnough(Issue(IdentityNotResolved, ERROR, Some(row.key)), row.key);
  }

  /** The identity a row resolves to: None when its service and device point to two, or to none. */
  function ResolvedTo(row: Row, byService: map<string, Row>, byDevice: map<string, Row>): Option<Row> {
    var service, device := Lookup(byService, row.serviceId), DeviceMatch(row, byDevice);
    if service.Some? && device.Some? && service != device then None
    else if service.Some? then service
    else device
  }

  /** The same by searching the identities: by service, then by device, MAC and serial. */
  function FoundByDevice(row: Row, identities: seq<Row>): Option<Row> {
    var device, mac := LastWhere(identities, HasToken(row.deviceId)), LastWhere(identities, HasToken(row.mac));
    if device.Some? then device else if mac.Some? then mac else LastWhere(identities, HasToken(row.serial))
  }

  function FoundIn(row: Row, identities: seq<Row>): Option<Row> {
    var service, device := LastWhere(identities, HasService(row.serviceId)), FoundByDevice(row, identities);
    if service.Some? && device.Some? && service != device then None
    else if service.Some? then service
    else device
  }

  /** Resolving through the indexes is resolving by search. */
  lemma ResolvedIsFound(row: Row, byService: map<string, Row>, byDevice: map<string, Row>, identities: seq<Row>)
    requires IndexesList(byService, byDevice, identities)
    ensures ResolvedTo(row, byService, byDevice) == FoundIn(row, identities)
  {
    assert Lookup(byService, row.serviceId) == LastWhere(identities, HasService(row.serviceId));
    assert Lookup(byDevice, row.deviceId) == LastWhere(identities, HasToken(row.deviceId));
    assert Lookup(byDevice, row.mac) == LastWhere(identities, HasToken(row.mac));
    assert Lookup(byDevice, row.serial) == LastWhere(identities, HasToken(row.serial));
  }

  lemma FoundIsListed(row: Row, identities: seq<Row>)
    ensures FoundIn(row, identities).Some? ==> FoundIn(row, identities).value in identities
  {
    LastWhereFinds(identities, HasService(row.serviceId));
    LastWhereFinds(identities, HasToken(row.deviceId));
    LastWhereFinds(identities, HasToken(row.mac));
    LastWhereFinds(identities, HasToken(row.serial));
  }

  /** The row has a device, technology or delimiter type other than its identity's. */
  predicate Contradicts(row: Row, identity: Row) {
    || Disagrees(row, identity, DeviceId)
    || Disagrees(row, identity, Technology)
    || Disagrees(row, identity, DelimiterType)
  }

  lemma MismatchErrorIff(row: Row, identity: Row, f: Field)
    ensures HasError(row.key, MismatchIssue(row, identity, f)) <==> f != DelimiterId && Disagrees(row, identity, f)
  {
    var issues := MismatchIssue(row, identity, f);
    if issues != [] { assert issues[0].at == Some(row.key); }
  }

  lemma MismatchesErrorIff(row: Row, identity: Row)
    ensures HasError(row.key, MismatchIssues(row, identity)) <==> Contradicts(row, identity)
  {
    var a, b := MismatchIssue(row, identity, DeviceId), MismatchIssue(row, identity, Technology);
    var c, d := MismatchIssue(row, identity, DelimiterType), MismatchIssue(row, identity, DelimiterId);
    MismatchErrorIff(row, identity, DeviceId);
    MismatchErrorIff(row, identity, Technology);
    MismatchErrorIff(row, identity, DelimiterType);
    MismatchErrorIff(row, identity, DelimiterId);
    ErrorsAdd(row.key, a, b);
    ErrorsAdd(row.key, a + b, c);
    ErrorsAdd(row.key, a + b + c, d);
  }

  /** Correlating puts a row in error exactly when it resolves to no single identity or contradicts the one it has. */
  lemma CorrelateErrorIff(row: Row, byService: map<string, Row>, byDevice: map<string, Row>)
    ensures var identity := ResolvedTo(row, byService, byDevice);
            HasError(row.key, Correlate(row, byService, byDevice).issues)
            <==> identity.None? || Contradicts(row, identity.value)
  {
    var identity := ResolvedTo(row, byService, byDevice);
    if identity.Some? {
      MismatchesErrorIff(row, identity.value);
    } else {
      UnresolvedIsError(row, byService, byDevice);
    }
  }

  /** A row that correlates without an error agrees with an identity of the list. */
  lemma CleanCorrelationAgrees(row: Row, byService: map<string, Row>, byDevice: map<string, Row>, rows: seq<Row>)
    returns (identity: Row)
    requires IndexesList(byService, byDevice, rows)
    requires !HasError(row.key, Correlate(row, byService, byDevice).issues)
    ensures identity in rows && Agrees(Correlate(row, byService, byDevice).row, identity)
  {
    var c := Correlate(row, byService, byDevice);
    var service, device := Lookup(byService, row.serviceId), DeviceMatch(row, byDevice);
    UnresolvedIsError(row, byService, byDevice);
    identity := if service.Some? then service.value else device.value;
    LastWhereFinds(rows, HasService(row.serviceId));
    LastWhereFinds(rows, HasToken(row.deviceId));
    LastWhereFinds(rows, HasToken(row.mac));
    LastWhereFinds(rows, HasToken(row.serial));
    assert Lookup(byDevice, row.deviceId) == LastWhere(rows, HasToken(row.deviceId));
    assert Lookup(byDevice, row.mac) == LastWhere(rows, HasToken(row.mac));
    forall f | f in {DeviceId, Technology, DelimiterType} && identity.Get(f) != ""
      ensures c.row.Get(f) == identity.Get(f)
    {
      if Disagrees(row, identity, f) { MismatchIsError(row, identity, f); }
    }
  }

  /** When no two rows share a service, the service index returns the one row that has it. */
  lemma UniqueServiceLookup(byService: map<string, Row>, byDevice: map<string, Row>, rows: seq<Row>, row: Row)
    requires IndexesList(byService, byDevice, rows) && row in rows && row.serviceId != ""
    requires forall a, b :: a in rows && b in rows && a.serviceId == b.serviceId ==> a == b
    ensures Lookup(byService, row.serviceId) == Some(row)
  {
    LastWhereFinds(rows, HasService(row.serviceId));
  }

  /** Every issue names the row and none says that the map is missing. */
  ghost predicate OwnIssues(issues: seq<Issue>, key: RowKey) {
    forall i :: 0 <= i < |issues| ==> issues[i].at == Some(key) && issues[i].code != IdentityMapMissing
  }

  lemma OwnConcat(a: seq<Issue>, b: seq<Issue>, c: seq<Issue>, d: seq<Issue>, key: RowKey)
    requires OwnIssues(a, key) && OwnIssues(b, key) && OwnIssues(c, key) && OwnIssues(d, key)
    ensures OwnIssues(a + b + c + d, key)
  {
    var all := a + b + c + d;
    forall i | 0 <= i < |all| ensures all[i] in a || all[i] in b || all[i] in c || all[i] in d {}
  }

  lemma MismatchesAreOwn(row: Row, identity: Row)
    ensures OwnIssues(MismatchIssues(row, identity), row.key)
  {
    OwnConcat(MismatchIssue(row, identity, DeviceId), MismatchIssue(row, identity, Technology),
              MismatchIssue(row, identity, DelimiterType), MismatchIssue(row, identity, DelimiterId), row.key);
  }

  lemma CorrelateKeepsIdentity(row: Row, byService: map<string, Row>, byDevice: map<string, Row>)
    ensures var c := Correlate(row, byService, byDevice);
            c.row.key == row.key && c.row.recordId == row.recordId && OwnIssues(c.issues, row.key)
  {
    var identity := ResolvedTo(row, byService, byDevice);
    if identity.Some? { MismatchesAreOwn(row, identity.value); }
  }
}
