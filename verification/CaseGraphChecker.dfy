/** `_validate_case_graph`: issues are collected pass by pass, and any issue rejects the graph. */
module CaseGraphChecker {
  import opened Common
  import opened Ordering
  import opened CaseGraph

  datatype GraphIssue =
    | DuplicateKeys(keys: set<string>)
    | NoService(caseId: string)
    | NoTruthDomain(caseId: string)
    | NoSubscriber(caseId: string)
    | DelimiterDisagrees(caseId: string)
    | TechnologyDisagrees(caseId: string)
    | NoRootIncident(caseId: string)
    | IncidentServiceMismatch(caseId: string)
    | IncidentCaseMismatch(caseId: string)
    | NoDecision(caseId: string)
    | NoAction(caseId: string)
    | OrphanCase(caseId: string)
    | CrossCaseService(caseId: string)
    | CrossCaseIncident(caseId: string)
    | MissingWorkOrder(mr: Cell)
    | MissingValidation(resolution: Cell)
    | CrossCaseValidation(resolution: Cell)
    | NonPassingValidation(resolution: Cell)
    | UnresolvedIncident(incident: string)

  // ------------------------------------------------------------------ duplicates

  function Occurrences<T(!new)>(rows: seq<T>, key: T -> Cell, k: string): nat { Count(rows, Keyed(key, k)) }

  /** `_duplicate_values`: the non-empty keys counted more than once. */
  method DuplicateValues<T(!new)>(rows: seq<T>, key: T -> Cell) returns (duplicates: set<string>)
    ensures forall k :: k in duplicates <==> k != "" && Occurrences(rows, key, k) > 1
    ensures duplicates == {} <==> NoDuplicates(rows, key)
  {
    var counts: map<string, nat> := map[];
    for i := 0 to |rows|
      invariant forall k :: (if k in counts then counts[k] else 0)
                            == if k == "" then 0 else Occurrences(rows[..i], key, k)
    {
      var value := key(rows[i]).OrEmpty();
      forall k ensures Occurrences(rows[..i + 1], key, k)
                       == Occurrences(rows[..i], key, k) + (if k == value then 1 else 0) {
        assert rows[..i + 1] == rows[..i] + [rows[i]];
        FilterAppend(rows[..i], [rows[i]], Keyed(key, k));
      }
      if value != "" { counts := counts[value := (if value in counts then counts[value] else 0) + 1]; }
    }
    assert rows[..|rows|] == rows;
    duplicates := set k | k in counts && counts[k] > 1;
    forall k ensures k in duplicates <==> k != "" && Occurrences(rows, key, k) > 1 {
      assert (if k in counts then counts[k] else 0) == if k == "" then 0 else Occurrences(rows, key, k);
    }
    DuplicatesMeaning(rows, key, duplicates);
  }

  lemma DuplicatesMeaning<T(!new)>(rows: seq<T>, key: T -> Cell, duplicates: set<string>)
    requires forall k :: k in duplicates <==> k != "" && Occurrences(rows, key, k) > 1
    ensures duplicates == {} <==> NoDuplicates(rows, key)
  {
    if k :| k in duplicates {
      TwoOccurrences(rows, key, k);
    }
    if i, j :| 0 <= i < j < |rows| && key(rows[i]).OrEmpty() != "" && key(rows[i]).OrEmpty() == key(rows[j]).OrEmpty() {
      CountTwice(rows, key, i, j);
    }
  }

  lemma TwoOccurrences<T(!new)>(rows: seq<T>, key: T -> Cell, k: string)
    requires Occurrences(rows, key, k) > 1
    ensures exists i, j :: 0 <= i < j < |rows| && key(rows[i]).OrEmpty() == k && key(rows[j]).OrEmpty() == k
  {
    var i, j := FilterPositions(rows, Keyed(key, k), 0, 1);
    assert Filter(rows, Keyed(key, k))[0] in Filter(rows, Keyed(key, k));
    assert Filter(rows, Keyed(key, k))[1] in Filter(rows, Keyed(key, k));
  }

  lemma CountTwice<T(!new)>(rows: seq<T>, key: T -> Cell, i: nat, j: nat)
    requires i < j < |rows| && key(rows[i]).OrEmpty() == key(rows[j]).OrEmpty()
    ensures Occurrences(rows, key, key(rows[i]).OrEmpty()) > 1
  {
    var p := Keyed(key, key(rows[i]).OrEmpty());
    assert rows == rows[..j] + rows[j..];
    FilterAppend(rows[..j], rows[j..], p);
    assert rows[..j][i] in rows[..j] && rows[j..][0] in rows[j..];
    assert rows[i] in Filter(rows[..j], p) && rows[j] in Filter(rows[j..], p);
  }

  // ------------------------------------------------------------------ the passes

  method CheckManifest(g: Graph, m: Manifest) returns (issues: seq<GraphIssue>)
    ensures issues == [] <==> ManifestSound(g, m)
  {
    var caseId, service, root := m.caseId.OrEmpty(), m.serviceId.OrEmpty(), m.rootIncidentId.OrEmpty();
    if service == "" { return [NoService(caseId)]; }
    issues := if m.truthDomain.OrEmpty() == "" then [NoTruthDomain(caseId)] else [];
    if service !in g.subscribers {
      issues := issues + [NoSubscriber(caseId)];
    } else {
      var subscriber := g.subscribers[service];
      if subscriber.delimiterId.OrEmpty() != m.delimiterId.OrEmpty() {
        issues := issues + [DelimiterDisagrees(caseId)];
      }
      if subscriber.technology.OrEmpty() != m.technology.OrEmpty() {
        issues := issues + [TechnologyDisagrees(caseId)];
      }
    }
    var incidentById := Index(g.incidents, IncidentKey);
    if root !in incidentById {
      issues := issues + [NoRootIncident(caseId)];
    } else {
      var incident := incidentById[root];
      if incident.serviceId.OrEmpty() != service { issues := issues + [IncidentServiceMismatch(caseId)]; }
      if incident.caseId.OrEmpty() != m.rootCaseId.OrEmpty() { issues := issues + [IncidentCaseMismatch(caseId)]; }
    }
    if !(exists c :: c in g.decisions && c.OrEmpty() == caseId) { issues := issues + [NoDecision(caseId)]; }
    if !(exists c :: c in g.actions && c.OrEmpty() == caseId) { issues := issues + [NoAction(caseId)]; }
  }

  ghost predicate AllSound(g: Graph, byCase: map<string, Manifest>) {
    forall k :: k in byCase ==> ManifestSound(g, byCase[k])
  }

  method CheckManifests(g: Graph) returns (issues: seq<GraphIssue>)
    ensures issues == [] <==> AllSound(g, Index(g.manifests, CaseOf))
  {
    var manifestByCase := Index(g.manifests, CaseOf);
    var todo := manifestByCase.Keys;
    issues := [];
    while todo != {}
      invariant todo <= manifestByCase.Keys
      invariant issues == [] <==> forall k :: k in manifestByCase && k !in todo ==> ManifestSound(g, manifestByCase[k])
      decreases |todo|
    {
      var k :| k in todo;
      var found := CheckManifest(g, manifestByCase[k]);
      issues := issues + found;
      todo := todo - {k};
    }
  }

  /** `check_case_local`, for any dataset whose rows have a place in the graph. */
  method CheckLocal<T(!new)>(g: Graph, rows: seq<T>, place: T -> Place) returns (issues: seq<GraphIssue>)
    ensures issues == [] <==> forall row :: row in rows ==> Local(g, place(row))
  {
    var manifestByCase := Index(g.manifests, CaseOf);
    issues := [];
    for i := 0 to |rows|
      invariant issues == [] <==> forall k :: 0 <= k < i ==> Local(g, place(rows[k]))
    {
      var p := place(rows[i]);
      var caseId, service, incident := p.caseId.OrEmpty(), p.serviceId.OrEmpty(), p.incidentId.OrEmpty();
      if caseId !in manifestByCase {
        issues := issues + [OrphanCase(caseId)];
      } else {
        var manifest := manifestByCase[caseId];
        if service != "" && service != manifest.serviceId.OrEmpty() {
          issues := issues + [CrossCaseService(caseId)];
        }
        if incident != "" && incident != manifest.rootIncidentId.OrEmpty() {
          issues := issues + [CrossCaseIncident(caseId)];
        }
      }
    }
  }

  method CheckMrs(g: Graph) returns (issues: seq<GraphIssue>)
    ensures issues == [] <==> forall m :: m in g.mrs ==> MrSound(g, m)
  {
    var workById := Index(g.workOrders, WorkOrderKey);
    issues := [];
    for i := 0 to |g.mrs|
      invariant issues == [] <==> forall k :: 0 <= k < i ==> MrSound(g, g.mrs[k])
    {
      var order := g.mrs[i].workOrderId.OrEmpty();
      if order != "" && order !in workById { issues := issues + [MissingWorkOrder(g.mrs[i].id)]; }
    }
  }

  method CheckResolutions(g: Graph) returns (issues: seq<GraphIssue>)
    ensures issues == [] <==> forall r :: r in g.resolutions ==> ResolutionSound(g, r)
  {
    var validationById := Index(g.validations, ValidationKey);
    issues := [];
    for i := 0 to |g.resolutions|
      invariant issues == [] <==> forall k :: 0 <= k < i ==> ResolutionSound(g, g.resolutions[k])
    {
      var r := g.resolutions[i];
      var ref := r.validationRef.OrEmpty();
      if ref !in validationById {
        issues := issues + [MissingValidation(r.id)];
      } else if validationById[ref].place.caseId.OrEmpty() != r.place.caseId.OrEmpty() {
        issues := issues + [CrossCaseValidation(r.id)];
      } else {
        var failures := ValidationResult(Some(validationById[ref]));
        if failures != [] { issues := issues + [NonPassingValidation(r.id)]; }
      }
    }
  }

  method CheckClosedIncidents(g: Graph) returns (issues: seq<GraphIssue>)
    ensures issues == [] <==>
              forall k :: k in Index(g.incidents, IncidentKey) && Index(g.incidents, IncidentKey)[k].closed ==>
                HasResolution(g, k)
  {
    var incidentById := Index(g.incidents, IncidentKey);
    var resolvedIncidents :=
      set r | r in g.resolutions && r.place.incidentId.OrEmpty() != "" :: r.place.incidentId.OrEmpty();
    var todo := incidentById.Keys;
    issues := [];
    while todo != {}
      invariant todo <= incidentById.Keys
      invariant issues == [] <==>
                  forall k :: k in incidentById && k !in todo && incidentById[k].closed ==> HasResolution(g, k)
      decreases |todo|
    {
      var k :| k in todo;
      IndexMember(g.incidents, IncidentKey, k);
      if incidentById[k].closed && k !in resolvedIncidents { issues := issues + [UnresolvedIncident(k)]; }
      todo := todo - {k};
    }
  }

  // ------------------------------------------------------------------ closure validations

  datatype ClosureIssue =
    | RecordMissing
    | ServiceTestNotPassed
    | TelemetryNotStable
    | ChecklistMissing
    | CheckMissing(check: Check)
    | CheckFailed(check: Check)

  const CHECKS := [OriginalSymptomAbsent, ServiceTestPassed, TelemetryStable, RepairActionsDocumented,
                   RequiredMeasurementsCaptured]

  function Position(c: Check): (k: nat)
    ensures k < |CHECKS| && CHECKS[k] == c
  {
    match c
    case OriginalSymptomAbsent => 0
    case ServiceTestPassed => 1
    case TelemetryStable => 2
    case RepairActionsDocumented => 3
    case RequiredMeasurementsCaptured => 4
  }

  /** `_validation_result`: a record passes exactly when it raises no closure issue. */
  method ValidationResult(v: Option<Validation>) returns (issues: seq<ClosureIssue>)
    ensures issues == [] <==> v.Some? && Passing(v.value)
  {
    if v.None? { return [RecordMissing]; }
    issues := if v.value.serviceTestPass then [] else [ServiceTestNotPassed];
    if !v.value.stable { issues := issues + [TelemetryNotStable]; }
    if v.value.checklist.None? { return issues + [ChecklistMissing]; }
    var checklist := v.value.checklist.value;
    for i := 0 to |CHECKS|
      invariant issues == [] <==> v.value.serviceTestPass && v.value.stable
                                  && forall k :: 0 <= k < i ==> CHECKS[k] in checklist && checklist[CHECKS[k]]
    {
      if CHECKS[i] !in checklist {
        issues := issues + [CheckMissing(CHECKS[i])];
      } else if !checklist[CHECKS[i]] {
        issues := issues + [CheckFailed(CHECKS[i])];
      }
    }
    if issues == [] {
      forall c: Check ensures c in checklist && checklist[c] { assert CHECKS[Position(c)] == c; }
    }
  }

  // ------------------------------------------------------------------ the whole checker

  lemma UniqueIsIndexed<T(!new)>(rows: seq<T>, key: T -> Cell, row: T)
    requires NoDuplicates(rows, key) && row in rows && key(row).OrEmpty() != ""
    ensures key(row).OrEmpty() in Index(rows, key) && Index(rows, key)[key(row).OrEmpty()] == row
  {
    var k := key(row).OrEmpty();
    IndexMember(rows, key, k);
    var i :| 0 <= i < |rows| && rows[i] == row;
    var j :| 0 <= j < |rows| && rows[j] == Index(rows, key)[k];
    assert i == j;
  }

  /** With distinct case ids, checking the indexed manifests is checking every manifest that has a case id. */
  lemma IndexedManifests(g: Graph)
    requires NoDuplicates(g.manifests, CaseOf)
    ensures AllSound(g, Index(g.manifests, CaseOf))
            <==> (forall m :: m in g.manifests && m.caseId.OrEmpty() != "" ==> ManifestSound(g, m))
  {
    forall m | m in g.manifests && m.caseId.OrEmpty() != ""
      ensures m.caseId.OrEmpty() in Index(g.manifests, CaseOf) && Index(g.manifests, CaseOf)[m.caseId.OrEmpty()] == m
    {
      UniqueIsIndexed(g.manifests, CaseOf, m);
    }
    forall k | k in Index(g.manifests, CaseOf)
      ensures Index(g.manifests, CaseOf)[k] in g.manifests && Index(g.manifests, CaseOf)[k].caseId.OrEmpty() == k != ""
    {
      IndexMember(g.manifests, CaseOf, k);
    }
  }

  /** The checker accepts exactly the sound graphs. */
  method ValidateCaseGraph(g: Graph) returns (r: Result<nat>)
    ensures r.Ok? <==> Sound(g)
    ensures r.Ok? ==> r.value == |Index(g.manifests, CaseOf)|
    ensures r.Err? ==> r.error == IntegrityError
  {
    var duplicateCases := DuplicateValues(g.manifests, CaseOf);
    var duplicateOrders := DuplicateValues(g.workOrders, WorkOrderKey);
    var a := CheckManifests(g);
    var b := CheckLocal(g, g.workOrders, WorkOrderPlace);
    var c := CheckLocal(g, g.mrs, MrPlace);
    var d := CheckLocal(g, g.validations, ValidationPlace);
    var e := CheckLocal(g, g.resolutions, ResolutionPlace);
    var f := CheckMrs(g);
    var h := CheckResolutions(g);
    var i := CheckClosedIncidents(g);
    var issues := (if duplicateCases == {} then [] else [DuplicateKeys(duplicateCases)])
                  + (if duplicateOrders == {} then [] else [DuplicateKeys(duplicateOrders)])
                  + a + b + c + d + e + f + h + i;
    if duplicateCases == {} { IndexedManifests(g); }
    r := if issues == [] then Ok(|Index(g.manifests, CaseOf)|) else Err(IntegrityError);
  }
}
