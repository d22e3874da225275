/** The stored filename of an uploaded extract: `<source>__v<revision:03d>__<safe name>`. */
module StoredNames {

  datatype Source =
    | IdentityMap
    | NxtTelemetry
    | NxtAlarms
    | DvsumCaddiInsights
    | GenesysInteractions
    | JtrackEvents
    | InstallCohort
  {
    function Name(): string {
      match this
      case IdentityMap => "identity_map"
      case NxtTelemetry => "nxt_telemetry"
      case NxtAlarms => "nxt_alarms"
      case DvsumCaddiInsights => "dvsum_caddi_insights"
      case GenesysInteractions => "genesys_interactions"
      case JtrackEvents => "jtrack_events"
      case InstallCohort => "install_cohort"
    }
  }

  function Decimal(n: nat): string {
    if n < 10 then [(48 + n) as char] else Decimal(n / 10) + [(48 + n % 10) as char]
  }

  /** `f"{n:03d}"`. */
  function Padded(n: nat): string {
    if n < 10 then "00" + Decimal(n) else if n < 100 then "0" + Decimal(n) else Decimal(n)
  }

  function StoredName(source: Source, revision: nat, safeName: string): string {
    source.Name() + "__v" + Padded(revision) + "__" + safeName
  }

  predicate AllDigits(s: string) { forall c :: c in s ==> '0' <= c <= '9' }

  /** The number a string of digits denotes. */
  function Parsed(s: string): int {
    if s == [] then 0 else 10 * Parsed(s[..|s| - 1]) + (s[|s| - 1] as int - 48)
  }

  lemma {:induction false} DecimalRoundTrip(n: nat)
    ensures AllDigits(Decimal(n)) && Parsed(Decimal(n)) == n
  {
    if n >= 10 {
      DecimalRoundTrip(n / 10);
      var head, last := Decimal(n / 10), (48 + n % 10) as char;
      assert (head + [last])[..|head|] == head;
    } else {
      assert Decimal(n)[..0] == [];
    }
  }

  lemma {:induction false} LeadingZero(s: string)
    ensures Parsed("0" + s) == Parsed(s)
  {
    var t := "0" + s;
    if s == [] {
      assert t[..0] == [];
    } else {
      LeadingZero(s[..|s| - 1]);
      assert t[..|t| - 1] == "0" + s[..|s| - 1];
    }
  }

  /** Padding loses nothing: the revision can be read back. */
  lemma PaddedRoundTrip(n: nat)
    ensures AllDigits(Padded(n)) && Parsed(Padded(n)) == n
  {
    DecimalRoundTrip(n);
    LeadingZero(Decimal(n));
    LeadingZero("0" + Decimal(n));
    assert "00" + Decimal(n) == "0" + ("0" + Decimal(n));
  }

  lemma UnderscoreEndsDigits(a: string, b: string, x: string, y: string)
    requires AllDigits(b) && a + "__" + x == b + "__" + y
    ensures |a| >= |b|
  {
    var s, t := a + "__" + x, b + "__" + y;
    assert s[|a|] == '_';
    forall i | 0 <= i < |b| ensures t[i] != '_' {
      assert t[i] == b[i] && b[i] in b;
    }
  }

  /** A run of digits ended by an underscore is determined by the whole string. */
  lemma DigitsThenUnderscore(a: string, b: string, x: string, y: string)
    requires AllDigits(a) && AllDigits(b) && a + "__" + x == b + "__" + y
    ensures a == b
  {
    UnderscoreEndsDigits(a, b, x, y);
    UnderscoreEndsDigits(b, a, y, x);
    assert a == (a + "__" + x)[..|a|] && b == (b + "__" + y)[..|b|];
  }

  lemma CancelPrefix(p: string, x: string, y: string)
    requires p + x == p + y
    ensures x == y
  {
    assert x == (p + x)[|p|..] && y == (p + y)[|p|..];
  }

  /** The names of the sources differ within their first five characters. */
  lemma SourceFromPrefix(s: Source, t: Source, x: string, y: string)
    requires s.Name() + x == t.Name() + y
    ensures s == t
  {
    var a, b := s.Name() + x, t.Name() + y;
    assert forall i :: 0 <= i < 5 ==> a[i] == s.Name()[i] && b[i] == t.Name()[i];
    assert s.Name()[0] == t.Name()[0] && s.Name()[1] == t.Name()[1] && s.Name()[4] == t.Name()[4];
  }

  function RevisionPart(revision: nat, safeName: string): string {
    "__v" + (Padded(revision) + "__" + safeName)
  }

  lemma Reassociate(name: string, digits: string, safeName: string)
    ensures name + "__v" + digits + "__" + safeName == name + ("__v" + (digits + "__" + safeName))
  {
  }

  lemma RevisionFromPart(r: nat, q: nat, x: string, y: string)
    requires RevisionPart(r, x) == RevisionPart(q, y)
    ensures r == q
  {
    CancelPrefix("__v", Padded(r) + "__" + x, Padded(q) + "__" + y);
    PaddedRoundTrip(r);
    PaddedRoundTrip(q);
    DigitsThenUnderscore(Padded(r), Padded(q), x, y);
  }

  /** Two uploads share a stored filename only if they are the same revision of the same source. */
  lemma StoredNameIdentifies(s: Source, t: Source, r: nat, q: nat, x: string, y: string)
    requires StoredName(s, r, x) == StoredName(t, q, y)
    ensures s == t && r == q
  {
    Reassociate(s.Name(), Padded(r), x);
    Reassociate(t.Name(), Padded(q), y);
    SourceFromPrefix(s, t, RevisionPart(r, x), RevisionPart(q, y));
    CancelPrefix(s.Name(), RevisionPart(r, x), RevisionPart(q, y));
    RevisionFromPart(r, q, x, y);
  }

  /** Revisions are written with three digits at least. */
  lemma {:induction false} DecimalDigits(n: nat)
    ensures |Decimal(n)| >= 1
    ensures n < 10 ==> |Decimal(n)| == 1
    ensures 10 <= n < 100 ==> |Decimal(n)| == 2
    ensures n >= 100 ==> |Decimal(n)| >= 3
  {
    if n >= 10 { DecimalDigits(n / 10); }
  }

  /** A stored name is the source, the revision in at least three digits, and the safe name, set apart by underscores.
      */
  lemma StoredNameReads(s: Source, revision: nat, safeName: string) returns (digits: string)
    ensures StoredName(s, revision, safeName) == s.Name() + "__v" + digits + "__" + safeName
    ensures AllDigits(digits) && Parsed(digits) == revision && |digits| >= 3 && (revision < 1000 ==> |digits| == 3)
  {
    digits := Padded(revision);
    PaddedRoundTrip(revision);
    DecimalDigits(revision);
    DecimalDigits(revision / 10);
    DecimalDigits(revision / 100);
  }
}
