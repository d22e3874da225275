/** Projecting an accepted case graph: the cases built from it, and the reconciliation of identifier sets. */
module DispatchProjection {
  import opened Common
  import opened Ordering
  import opened CaseGraph
  import opened CaseGraphChecker

  datatype Case = Case(caseId: string, workOrderIds: seq<string>, mrIds: seq<string>)

  predicate EarlierManifest(a: Manifest, b: Manifest) { StrLe(a.time, b.time) }
  predicate EarlierWorkOrder(a: WorkOrder, b: WorkOrder) { StrLe(a.time, b.time) }
  predicate EarlierMr(a: Mr, b: Mr) { StrLe(a.time, b.time) }

  function InCase<T(!new)>(place: T -> Place, caseId: string): T -> bool {
    (row: T) => place(row).caseId.OrDefault() == caseId
  }

  /** `_records_by_case`, looked up at one case: its records in time order, none for an empty case id. */
  function RecordsOf<T(!new)>(rows: seq<T>, place: T -> Place, le: (T, T) -> bool, caseId: string): seq<T> {
    if caseId == "" then [] else Sorted(Filter(rows, InCase(place, caseId)), le)
  }

  function WorkOrderId(w: WorkOrder): string { w.id.Str() }
  function MrId(m: Mr): string { m.id.Str() }

  function CaseFor(g: Graph, m: Manifest): Case {
    var caseId := m.caseId.OrDefault();
    Case(caseId,
         Map(RecordsOf(g.workOrders, WorkOrderPlace, EarlierWorkOrder, caseId), WorkOrderId),
         Map(RecordsOf(g.mrs, MrPlace, EarlierMr, caseId), MrId))
  }

  predicate Subscribed(g: Graph, m: Manifest) { m.serviceId.OrDefault() in g.subscribers }

  /** The delimiter group whose planning site the case is placed at. */
  function GroupOf(g: Graph, m: Manifest): string
    requires Subscribed(g, m)
  {
    var group := g.subscribers[m.serviceId.OrDefault()].delimiterId.OrEmpty();
    if group == "" then m.serviceId.OrDefault() else group
  }

  function CaseIn(g: Graph): Manifest -> Case { (m: Manifest) => CaseFor(g, m) }

  /** One case per manifest, in the order of their record times. */
  function CasesOf(g: Graph): seq<Case> { Map(Sorted(g.manifests, EarlierManifest), CaseIn(g)) }

  /** The case can be costed: its service has a subscriber row and its group a planning site. */
  predicate Placeable(g: Graph, sited: set<string>, m: Manifest) { Subscribed(g, m) && GroupOf(g, m) in sited }

  ghost predicate AllPlaceable(g: Graph, sited: set<string>, ms: seq<Manifest>) {
    forall m :: m in ms ==> Placeable(g, sited, m)
  }

  lemma AllPlaceableAppend(g: Graph, sited: set<string>, ms: seq<Manifest>, m: Manifest)
    ensures AllPlaceable(g, sited, ms + [m]) <==> AllPlaceable(g, sited, ms) && Placeable(g, sited, m)
  {
    assert m in ms + [m];
    assert forall x :: x in ms + [m] <==> x in ms || x == m;
  }

  /** The case loop, for any way of describing a case: stops at the first manifest that cannot be placed. */
  method PlaceAll(g: Graph, sited: set<string>, ordered: seq<Manifest>, caseOf: Manifest -> Case)
    returns (r: Result<seq<Case>>)
    ensures r.Ok? <==> AllPlaceable(g, sited, ordered)
    ensures r.Ok? ==> r.value == Map(ordered, caseOf)
    ensures r.Err? ==> r.error == KeyError || r.error == IntegrityError
    ensures r.Err? && (forall m :: m in ordered ==> Subscribed(g, m)) ==> r.error == IntegrityError
    ensures r.Err? && (forall m :: m in ordered && Subscribed(g, m) ==> GroupOf(g, m) in sited) ==> r.error == KeyError
  {
    var cases: seq<Case> := [];
    for i := 0 to |ordered|
      invariant cases == Map(ordered[..i], caseOf)
      invariant AllPlaceable(g, sited, ordered[..i])
    {
      var m := ordered[i];
      assert m in ordered;
      if !Subscribed(g, m) { return Err(KeyError); }
      if GroupOf(g, m) !in sited { return Err(IntegrityError); }
      MapAppend(ordered[..i], m, caseOf);
      AllPlaceableAppend(g, sited, ordered[..i], m);
      PrefixStep(ordered, i);
      cases := cases + [caseOf(m)];
    }
    assert ordered[..|ordered|] == ordered;
    r := Ok(cases);
  }

  /** The projection of a graph's manifests in time order; `sited` are the groups that have a planning site. */
  method Project(g: Graph, sited: set<string>) returns (r: Result<seq<Case>>)
    ensures r.Ok? <==> AllPlaceable(g, sited, g.manifests)
    ensures r.Ok? ==> r.value == CasesOf(g)
    ensures r.Err? ==> r.error == KeyError || r.error == IntegrityError
    ensures r.Err? && (forall m :: m in g.manifests ==> Subscribed(g, m)) ==> r.error == IntegrityError
    ensures r.Err? && (forall m :: m in g.manifests && Subscribed(g, m) ==> GroupOf(g, m) in sited) ==>
              r.error == KeyError
  {
    var ordered := Sorted(g.manifests, EarlierManifest);
    SameElements(ordered, g.manifests);
    r := PlaceAll(g, sited, ordered, CaseIn(g));
  }

  // ------------------------------------------------------------------ reconciliation

  function SourceIds<T(!new,==)>(rows: seq<T>, key: T -> Cell): set<string> {
    set row | row in rows && key(row).OrEmpty() != "" :: key(row).OrEmpty()
  }

  function ProjectedIds(cases: seq<Case>, ids: Case -> seq<string>): set<string> {
    set c, id | c in cases && id in ids(c) && id != "" :: id
  }

  function WorkOrdersOf(c: Case): seq<string> { c.workOrderIds }
  function MrsOf(c: Case): seq<string> { c.mrIds }

  datatype Reconciliation = Reconciliation(
    missingWorkOrders: set<string>, orphanedWorkOrders: set<string>, duplicateWorkOrders: set<string>,
    missingMrs: set<string>, orphanedMrs: set<string>, mrRevisions: set<string>)
  {
    predicate AllIdentifierSetsMatch() {
      missingWorkOrders == orphanedWorkOrders == duplicateWorkOrders == missingMrs == orphanedMrs == {}
    }
  }

  method Reconcile(g: Graph, cases: seq<Case>) returns (r: Reconciliation)
    ensures r.missingWorkOrders == SourceIds(g.workOrders, WorkOrderKey) - ProjectedIds(cases, WorkOrdersOf)
    ensures r.orphanedWorkOrders == ProjectedIds(cases, WorkOrdersOf) - SourceIds(g.workOrders, WorkOrderKey)
    ensures r.duplicateWorkOrders == {} <==> NoDuplicates(g.workOrders, WorkOrderKey)
    ensures r.missingMrs == SourceIds(g.mrs, MrKey) - ProjectedIds(cases, MrsOf)
    ensures r.orphanedMrs == ProjectedIds(cases, MrsOf) - SourceIds(g.mrs, MrKey)
  {
    var duplicates := DuplicateValues(g.workOrders, WorkOrderKey);
    var revisions := DuplicateValues(g.mrs, MrKey);
    var projectedOrders, sourceOrders := ProjectedIds(cases, WorkOrdersOf), SourceIds(g.workOrders, WorkOrderKey);
    var projectedMrs, sourceMrs := ProjectedIds(cases, MrsOf), SourceIds(g.mrs, MrKey);
    r := Reconciliation(sourceOrders - projectedOrders, projectedOrders - sourceOrders, duplicates,
                        sourceMrs - projectedMrs, projectedMrs - sourceMrs, revisions);
  }

  /** Every row carries an id, or its absence is masked by a row whose id reads "None". */
  ghost predicate IdsPresent<T(!new)>(rows: seq<T>, key: T -> Cell) {
    forall row :: row in rows ==> key(row).Text? || "None" in SourceIds(rows, key)
  }

  /** The case id of a local record names a manifest under which the record is grouped. */
  lemma LocalRecordIsGrouped<T(!new)>(g: Graph, rows: seq<T>, place: T -> Place, le: (T, T) -> bool, row: T)
    returns (m: Manifest)
    requires row in rows && Local(g, place(row))
    ensures m in g.manifests && row in RecordsOf(rows, place, le, m.caseId.OrDefault())
  {
    var k := place(row).caseId.OrEmpty();
    IndexMember(g.manifests, CaseOf, k);
    m := Index(g.manifests, CaseOf)[k];
    SameElements(Sorted(Filter(rows, InCase(place, k)), le), Filter(rows, InCase(place, k)));
    assert row in Filter(rows, InCase(place, k));
  }

  lemma RecordsAreRows<T(!new)>(rows: seq<T>, place: T -> Place, le: (T, T) -> bool, caseId: string)
    ensures forall row :: row in RecordsOf(rows, place, le, caseId) ==> row in rows
  {
    SameElements(Sorted(Filter(rows, InCase(place, caseId)), le), Filter(rows, InCase(place, caseId)));
  }

  lemma MapMember<A(!new), B(!new)>(s: seq<A>, f: A -> B)
    ensures forall x :: x in s ==> f(x) in Map(s, f)
    ensures forall y :: y in Map(s, f) ==> exists x :: x in s && f(x) == y
  {
    forall x | x in s ensures f(x) in Map(s, f) {
      var i :| 0 <= i < |s| && s[i] == x;
      assert Map(s, f)[i] == f(x);
    }
    forall y | y in Map(s, f) ensures exists x :: x in s && f(x) == y {
      var i :| 0 <= i < |Map(s, f)| && Map(s, f)[i] == y;
      assert s[i] in s && f(s[i]) == y;
    }
  }

  /** The cases list, for any dataset of local records, exactly the ids its rows print. */
  lemma ProjectedIdsAreRowIds<T(!new)>(g: Graph, rows: seq<T>, key: T -> Cell, place: T -> Place,
                                       le: (T, T) -> bool, shown: T -> string, ids: Case -> seq<string>)
    requires forall row :: row in rows ==> Local(g, place(row)) && shown(row) == key(row).Str()
    requires forall m :: m in g.manifests ==>
               ids(CaseFor(g, m)) == Map(RecordsOf(rows, place, le, m.caseId.OrDefault()), shown)
    ensures ProjectedIds(CasesOf(g), ids) == set row | row in rows && key(row).Str() != "" :: key(row).Str()
  {
    var cases, printed := CasesOf(g), set row | row in rows && key(row).Str() != "" :: key(row).Str();
    var caseFor := CaseIn(g);
    var ordered := Sorted(g.manifests, EarlierManifest);
    SameElements(ordered, g.manifests);
    MapMember(ordered, caseFor);
    forall id | id in ProjectedIds(cases, ids) ensures id in printed {
      var c :| c in cases && id in ids(c) && id != "";
      var m :| m in ordered && caseFor(m) == c;
      var records := RecordsOf(rows, place, le, m.caseId.OrDefault());
      MapMember(records, shown);
      RecordsAreRows(rows, place, le, m.caseId.OrDefault());
      var row :| row in records && shown(row) == id;
      assert row in rows;
    }
    forall row | row in rows && key(row).Str() != "" ensures key(row).Str() in ProjectedIds(cases, ids) {
      var m := LocalRecordIsGrouped(g, rows, place, le, row);
      var records := RecordsOf(rows, place, le, m.caseId.OrDefault());
      MapMember(records, shown);
      assert caseFor(m) in cases;
      assert shown(row) in ids(caseFor(m));
    }
  }

  lemma IdSetsMatch<T(!new)>(rows: seq<T>, key: T -> Cell, projected: set<string>)
    requires projected == set row | row in rows && key(row).Str() != "" :: key(row).Str()
    ensures SourceIds(rows, key) <= projected
    ensures projected == SourceIds(rows, key) <==> IdsPresent(rows, key)
  {
    var source := SourceIds(rows, key);
    forall row | row in rows && key(row).OrEmpty() != "" ensures key(row).OrEmpty() in projected {
      assert key(row).Str() == key(row).OrEmpty();
    }
    forall row | row in rows && !key(row).Text? ensures "None" in projected {
      assert key(row).Str() == "None";
    }
    if IdsPresent(rows, key) {
      forall row | row in rows && key(row).Str() != "" ensures key(row).Str() in source {
        if key(row).Text? { assert key(row).OrEmpty() == key(row).Str(); }
      }
    }
  }

  /** Of an accepted graph, the identifier sets reconcile exactly when no work order or MR lacks its id. */
  lemma AcceptedGraphsReconcile(g: Graph)
    requires Sound(g)
    ensures SourceIds(g.workOrders, WorkOrderKey) <= ProjectedIds(CasesOf(g), WorkOrdersOf)
    ensures SourceIds(g.mrs, MrKey) <= ProjectedIds(CasesOf(g), MrsOf)
    ensures ProjectedIds(CasesOf(g), WorkOrdersOf) == SourceIds(g.workOrders, WorkOrderKey)
            <==> IdsPresent(g.workOrders, WorkOrderKey)
    ensures ProjectedIds(CasesOf(g), MrsOf) == SourceIds(g.mrs, MrKey) <==> IdsPresent(g.mrs, MrKey)
  {
    ProjectedIdsAreRowIds(g, g.workOrders, WorkOrderKey, WorkOrderPlace, EarlierWorkOrder, WorkOrderId, WorkOrdersOf);
    ProjectedIdsAreRowIds(g, g.mrs, MrKey, MrPlace, EarlierMr, MrId, MrsOf);
    IdSetsMatch(g.workOrders, WorkOrderKey, ProjectedIds(CasesOf(g), WorkOrdersOf));
    IdSetsMatch(g.mrs, MrKey, ProjectedIds(CasesOf(g), MrsOf));
  }

  /** Check, project, reconcile: the whole path, with `all_identifier_sets_match` decided by the ids alone. */
  method BuildProjection(g: Graph, sited: set<string>) returns (r: Result<Reconciliation>)
    ensures r.Ok? <==> Sound(g) && AllPlaceable(g, sited, g.manifests)
    ensures r.Ok? ==> (r.value.AllIdentifierSetsMatch() <==>
                         IdsPresent(g.workOrders, WorkOrderKey) && IdsPresent(g.mrs, MrKey))
  {
    var verified := ValidateCaseGraph(g);
    if verified.Err? { return Err(verified.error); }
    var cases := Project(g, sited);
    if cases.Err? { return Err(cases.error); }
    var reconciliation := Reconcile(g, cases.value);
    AcceptedGraphsReconcile(g);
    r := Ok(reconciliation);
  }

  /** An accepted graph whose groups are sited can be projected exactly when the manifests without a case id,
      which the checker never sees, have a subscriber row too. */
  lemma AcceptedGraphsProject(g: Graph, sited: set<string>)
    requires Sound(g)
    requires forall m :: m in g.manifests && Subscribed(g, m) ==> GroupOf(g, m) in sited
    ensures AllPlaceable(g, sited, g.manifests) <==>
              forall m :: m in g.manifests && m.caseId.OrEmpty() == "" ==> Subscribed(g, m)
  {
    forall m | m in g.manifests && m.caseId.OrEmpty() != "" ensures Subscribed(g, m) {
      assert ManifestSound(g, m);
      assert m.serviceId.OrDefault() == m.serviceId.OrEmpty();
    }
  }

  // ------------------------------------------------------------------ closed incidents

  /** A resolution of the incident cites an existing validation of its own case that passes in full, and that
      case is rooted at the incident. */
  ghost predicate Resolved(g: Graph, incident: string) {
    exists r :: r in g.resolutions && r.place.incidentId.OrEmpty() == incident && ResolutionSound(g, r)
                && Local(g, r.place)
                && Index(g.manifests, CaseOf)[r.place.caseId.OrEmpty()].rootIncidentId.OrEmpty() == incident
  }

  /** The row that the index keeps for the incident's id is CLOSED. */
  ghost predicate IndexedClosed(g: Graph, incident: string) {
    incident in Index(g.incidents, IncidentKey) && Index(g.incidents, IncidentKey)[incident].closed
  }

  lemma NamedIsResolved(g: Graph, incident: string)
    requires Sound(g) && incident != "" && HasResolution(g, incident)
    ensures Resolved(g, incident)
  {
    var r :| r in g.resolutions && r.place.incidentId.OrEmpty() == incident;
    assert ResolutionSound(g, r) && Local(g, r.place);
  }

  /** In an accepted graph every incident that the index shows as CLOSED is resolved. */
  lemma ClosedIncidentsAreResolved(g: Graph, incident: string)
    requires Sound(g) && IndexedClosed(g, incident)
    ensures Resolved(g, incident)
  {
    IndexMember(g.incidents, IncidentKey, incident);
    NamedIsResolved(g, incident);
  }

  /** The index keeps an open row for the incident's id. */
  ghost predicate Shadowed(g: Graph, i: Incident) {
    i.incidentId.OrEmpty() in Index(g.incidents, IncidentKey)
    && !Index(g.incidents, IncidentKey)[i.incidentId.OrEmpty()].closed
  }

  /** Every CLOSED row is resolved exactly when each has an id and those shadowed by an open row are still named by a
      resolution. */
  lemma EveryClosedRowResolvedIff(g: Graph)
    requires Sound(g)
    ensures (forall i :: i in g.incidents && i.closed ==>
               i.incidentId.OrEmpty() != "" && Resolved(g, i.incidentId.OrEmpty()))
            <==>
            (forall i :: i in g.incidents && i.closed ==>
               i.incidentId.OrEmpty() != "" && (Shadowed(g, i) ==> HasResolution(g, i.incidentId.OrEmpty())))
  {
    forall i | i in g.incidents && i.closed && i.incidentId.OrEmpty() != ""
      ensures Resolved(g, i.incidentId.OrEmpty()) <==> (Shadowed(g, i) ==> HasResolution(g, i.incidentId.OrEmpty()))
    {
      IndexMember(g.incidents, IncidentKey, i.incidentId.OrEmpty());
      if !Shadowed(g, i) { ClosedIncidentsAreResolved(g, i.incidentId.OrEmpty()); }
      if HasResolution(g, i.incidentId.OrEmpty()) { NamedIsResolved(g, i.incidentId.OrEmpty()); }
    }
  }
}
