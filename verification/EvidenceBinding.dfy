/** Which service an accepted row ends up with, and what else correlation may change, in terms of the rows alone. */
module EvidenceBinding {
  import opened Common
  import opened Ordering
  import opened EvidenceRows
  import opened IdentityIndex
  import opened EvidencePipeline
  import opened EvidenceIntegrity
  import opened EvidenceAcceptance

  ghost predicate Sound(t: Trace) {
    Complete(t) && ParserOutput(t.raw, t.parsed) && OnlyWarnings(t.warnings) && |t.rows| == |t.raw|
  }

  ghost predicate AcceptedIdentity(t: Trace, d: Row) { d in t.rows && IsIdentity(d) && !HasError(d.key, t.issues) }

  /** The row at place `j` is no identity row, and is accepted. */
  ghost predicate AcceptedAt(t: Trace, j: nat)
    requires j < |t.rows|
  {
    !IsIdentity(t.rows[j]) && !HasError(t.rows[j].key, t.issues)
  }

  /** The identity has the token as its device id, MAC or serial. */
  ghost predicate Carries(d: Row, token: string) {
    token != "" && (token == d.deviceId || token == d.mac || token == d.serial)
  }

  ghost predicate OnlyCarrier(t: Trace, d: Row, token: string) {
    && AcceptedIdentity(t, d) && Carries(d, token)
    && forall e :: AcceptedIdentity(t, e) && Carries(e, token) ==> e == d
  }

  ghost predicate NoCarrier(t: Trace, token: string) { forall d :: AcceptedIdentity(t, d) ==> !Carries(d, token) }

  /** The device of a parsed row is that of the identity: by its device id, failing that its MAC, failing that its
      serial. */
  ghost predicate DeviceOf(t: Trace, x: Row, d: Row) {
    || OnlyCarrier(t, d, x.deviceId)
    || (NoCarrier(t, x.deviceId) && OnlyCarrier(t, d, x.mac))
    || (NoCarrier(t, x.deviceId) && NoCarrier(t, x.mac) && OnlyCarrier(t, d, x.serial))
  }

  ghost predicate KnownService(t: Trace, service: string) {
    exists d :: AcceptedIdentity(t, d) && d.serviceId == service
  }

  lemma LastOfOne(rows: seq<Row>, p: Row -> bool, d: Row)
    requires d in rows && p(d) && forall e :: e in rows && p(e) ==> e == d
    ensures LastWhere(rows, p) == Some(d)
  {
    LastWhereFinds(rows, p);
  }

  lemma SelectedMembers(t: Trace)
    requires Sound(t)
    ensures forall d :: d in t.Selected() <==> AcceptedIdentity(t, d)
  {
    forall d ensures d in t.Selected() <==> AcceptedIdentity(t, d) { SelectedAreAccepted(t, d); }
  }

  lemma TokenFound(t: Trace, token: string, d: Row)
    requires Sound(t) && t.Selected() != [] && OnlyCarrier(t, d, token)
    ensures Lookup(t.byDevice, token) == Some(d)
  {
    SelectedMembers(t);
    forall e | e in t.Selected() && HasToken(token)(e) ensures e == d { assert Carries(e, token); }
    LastOfOne(t.Selected(), HasToken(token), d);
  }

  lemma TokenMissed(t: Trace, token: string)
    requires Sound(t) && t.Selected() != [] && NoCarrier(t, token)
    ensures Lookup(t.byDevice, token) == None
  {
    SelectedMembers(t);
    LastWhereFinds(t.Selected(), HasToken(token));
    forall e | e in t.Selected() ensures !HasToken(token)(e) { assert !Carries(e, token); }
  }

  lemma DeviceFound(t: Trace, x: Row, d: Row)
    requires Sound(t) && t.Selected() != [] && DeviceOf(t, x, d)
    ensures DeviceMatch(x, t.byDevice) == Some(d)
  {
    if OnlyCarrier(t, d, x.deviceId) {
      TokenFound(t, x.deviceId, d);
    } else {
      TokenMissed(t, x.deviceId);
      if OnlyCarrier(t, d, x.mac) {
        TokenFound(t, x.mac, d);
      } else {
        TokenMissed(t, x.mac);
        TokenFound(t, x.serial, d);
      }
    }
  }

  lemma ServiceSearched(t: Trace, service: string, d: Row)
    requires Sound(t) && t.Selected() != []
    ensures AcceptedIdentity(t, d) && d.serviceId == service ==> Lookup(t.byService, service) == Some(d)
    ensures !KnownService(t, service) ==> Lookup(t.byService, service) == None
  {
    if AcceptedIdentity(t, d) && d.serviceId == service { ServiceIndexIsExact(t, d); }
    LastWhereFinds(t.Selected(), HasService(service));
    var found := Lookup(t.byService, service);
    if found.Some? { SelectedAreAccepted(t, found.value); }
  }

  /** An accepted row is the parsed row after adopting the one identity it resolves to. */
  lemma AcceptedIsAdopted(t: Trace, j: nat) returns (d: Row)
    requires Sound(t) && t.Selected() != [] && j < |t.rows| && AcceptedAt(t, j)
    ensures ResolvedTo(t.raw[j], t.byService, t.byDevice) == Some(d) && t.rows[j] == Adopt(t.raw[j], d)
    ensures AcceptedIdentity(t, d)
  {
    SamePlaces(t);
    CorrelationDecides(t, j);
    ErrorSources(t, t.raw[j].key);
    RewrittenAt(t.raw, t.byService, t.byDevice, j);
    d := ResolvedTo(t.raw[j], t.byService, t.byDevice).value;
    ResolvedIsFound(t.raw[j], t.byService, t.byDevice, t.Selected());
    FoundIsListed(t.raw[j], t.Selected());
    SelectedAreAccepted(t, d);
  }

  /** A row that names a known service keeps it, if it is accepted at all. */
  lemma ServiceIsKept(t: Trace, j: nat)
    requires Sound(t) && t.Selected() != [] && j < |t.rows| && AcceptedAt(t, j)
    requires KnownService(t, t.raw[j].serviceId)
    ensures t.rows[j].serviceId == t.raw[j].serviceId
  {
    var d := AcceptedIsAdopted(t, j);
    var e :| AcceptedIdentity(t, e) && e.serviceId == t.raw[j].serviceId;
    ServiceSearched(t, t.raw[j].serviceId, e);
  }

  /** A row whose device is that of an identity gets that identity's service, if it is accepted at all: in particular
      it is not when it names another known service. */
  lemma DeviceBinds(t: Trace, j: nat, d: Row)
    requires Sound(t) && t.Selected() != [] && j < |t.rows| && AcceptedAt(t, j) && DeviceOf(t, t.raw[j], d)
    ensures t.rows[j].serviceId == d.serviceId
    ensures KnownService(t, t.raw[j].serviceId) ==> t.raw[j].serviceId == d.serviceId
  {
    var e := AcceptedIsAdopted(t, j);
    DeviceFound(t, t.raw[j], d);
    ServiceSearched(t, t.raw[j].serviceId, e);
    if KnownService(t, t.raw[j].serviceId) { ServiceIsKept(t, j); }
  }

  lemma NothingFound(t: Trace, x: Row)
    requires Sound(t) && t.Selected() != [] && !KnownService(t, x.serviceId)
    requires NoCarrier(t, x.deviceId) && NoCarrier(t, x.mac) && NoCarrier(t, x.serial)
    ensures ResolvedTo(x, t.byService, t.byDevice) == None
  {
    ServiceSearched(t, x.serviceId, x);
    TokenMissed(t, x.deviceId);
    TokenMissed(t, x.mac);
    TokenMissed(t, x.serial);
  }

  /** A row with neither a known service nor a known device is quarantined. */
  lemma StrangersAreQuarantined(t: Trace, j: nat)
    requires Sound(t) && t.Selected() != [] && j < |t.rows| && !IsIdentity(t.rows[j])
    requires !KnownService(t, t.raw[j].serviceId)
    requires NoCarrier(t, t.raw[j].deviceId) && NoCarrier(t, t.raw[j].mac) && NoCarrier(t, t.raw[j].serial)
    ensures HasError(t.rows[j].key, t.issues)
  {
    NothingFound(t, t.raw[j]);
    if AcceptedAt(t, j) { var d := AcceptedIsAdopted(t, j); }
  }

  /** What correlation leaves: the row's own value where it had one, else the identity's. */
  function OwnElse(own: string, other: string): string { if own != "" then own else other }

  /** Correlation fills gaps and never overwrites: an accepted row has the service of an accepted identity, that
      identity's device, technology and delimiter where it had none, and otherwise what the parser read. */
  lemma OwnValuesAreKept(t: Trace, j: nat) returns (d: Row)
    requires Sound(t) && t.Selected() != [] && j < |t.rows| && AcceptedAt(t, j)
    ensures AcceptedIdentity(t, d)
    ensures var x := t.raw[j];
            t.rows[j] == x.(serviceId := d.serviceId, matched := true,
                            deviceId := OwnElse(x.deviceId, d.deviceId),
                            technology := OwnElse(x.technology, d.technology),
                            delimiterType := OwnElse(x.delimiterType, d.delimiterType),
                            delimiterId := OwnElse(x.delimiterId, d.delimiterId))
  {
    d := AcceptedIsAdopted(t, j);
  }

  // ------------------------------------------------------------------ readings

  /** The readings that a telemetry row may report: none at all, or a number that the metric can have. */
  ghost predicate Believable(m: Metric, reading: Reading) {
    || m == OtherMetric || reading == NoNumber
    || (reading.Number? &&
        var v := reading.value;
        if m in {UncorrectableRatio, Ber} then 0.0 <= v <= 1.0
        else if m == PacketLoss then 0.0 <= v <= 100.0
        else if m in {Latency, Jitter} then 0.0 <= v <= 120000.0
        else if m in {UpstreamTx, Mer, Snr} then 0.0 <= v <= 70.0
        else if m == DownstreamRx then -50.0 <= v <= 50.0
        else if m == OntRx then -60.0 <= v <= 10.0
        else -20.0 <= v <= 20.0)
  }

  lemma BelievableIff(r: Row)
    ensures Believable(r.metric, r.reading) <==> !Implausible(r)
  {
  }

  /** Accepted telemetry is believable, and unbelievable telemetry is quarantined whatever else is right with it. */
  lemma AcceptedReadingsAreBelievable(t: Trace, j: nat)
    requires Sound(t) && j < |t.rows| && IsTelemetry(t.rows[j]) && !HasError(t.rows[j].key, t.issues)
    ensures Believable(t.rows[j].metric, t.rows[j].reading)
  {
    QuarantinedIff(t, j);
    BelievableIff(t.rows[j]);
  }

  /** A telemetry row that the parser passes, with an id of its own and an identity it agrees with, is quarantined only
      for an unbelievable reading. */
  lemma OnlyReadingsAtFault(t: Trace, j: nat)
    requires Sound(t) && j < |t.rows| && IsTelemetry(t.rows[j]) && HasError(t.rows[j].key, t.issues)
    requires !HasError(t.raw[j].key, t.parsed) && !Repeats(t.raw, j) && !Uncorrelated(t, t.raw[j])
    ensures !Believable(t.rows[j].metric, t.rows[j].reading)
  {
    QuarantinedIff(t, j);
    BelievableIff(t.rows[j]);
  }
}
