/** The case-graph checker that guards the dispatch projection, and the projection's identifier sets. */
module CaseGraph {
  import opened Common
  import opened Ordering

  // ------------------------------------------------------------------ rows with optional cells

  /** A JSON cell: absent, null, or text. */
  datatype Cell = Missing | Null | Text(s: string)
  {
    /** `str(row.get(key) or "")` */
    function OrEmpty(): string { if Text? then s else "" }

    /** `str(row.get(key, ""))` */
    function OrDefault(): string { if Missing? then "" else if Null? then "None" else s }

    /** `str(row.get(key))` */
    function Str(): string { if Text? then s else "None" }
  }

  datatype Manifest = Manifest(
    caseId: Cell, serviceId: Cell, rootIncidentId: Cell, rootCaseId: Cell, truthDomain: Cell,
    delimiterId: Cell, technology: Cell, time: string)

  datatype Subscriber = Subscriber(delimiterId: Cell, technology: Cell)

  datatype Incident = Incident(incidentId: Cell, serviceId: Cell, caseId: Cell, closed: bool)

  /** The part of a record that places it in the graph. */
  datatype Place = Place(caseId: Cell, serviceId: Cell, incidentId: Cell)

  datatype WorkOrder = WorkOrder(id: Cell, place: Place, time: string)

  datatype Mr = Mr(id: Cell, workOrderId: Cell, place: Place, time: string)

  datatype Check =
    | OriginalSymptomAbsent
    | ServiceTestPassed
    | TelemetryStable
    | RepairActionsDocumented
    | RequiredMeasurementsCaptured

  /** `checklist` is None when the field is not a mapping; a check maps to whether its value is `True`. */
  datatype Validation = Validation(
    id: Cell, place: Place, serviceTestPass: bool, stable: bool, checklist: Option<map<Check, bool>>)

  datatype Resolution = Resolution(id: Cell, validationRef: Cell, place: Place)

  datatype Graph = Graph(
    manifests: seq<Manifest>, subscribers: map<string, Subscriber>, incidents: seq<Incident>,
    decisions: seq<Cell>, actions: seq<Cell>,   // the case ids of the rows
    workOrders: seq<WorkOrder>, mrs: seq<Mr>, validations: seq<Validation>, resolutions: seq<Resolution>)

  // ------------------------------------------------------------------ indexes

  /** `_index`: the last row of each non-empty key. */
  function Index<T(!new)>(rows: seq<T>, key: T -> Cell): map<string, T> {
    if rows == [] then map[]
    else
      var before, row := Index(rows[..|rows| - 1], key), rows[|rows| - 1];
      if key(row).OrEmpty() == "" then before else before[key(row).OrEmpty() := row]
  }

  function Keyed<T(!new)>(key: T -> Cell, k: string): T -> bool { (row: T) => key(row).OrEmpty() == k }

  /** Looking a key up is searching the rows from the end. */
  lemma {:induction false} IndexIsSearch<T(!new)>(rows: seq<T>, key: T -> Cell, k: string)
    ensures k in Index(rows, key) <==> k != "" && LastWhere(rows, Keyed(key, k)).Some?
    ensures k in Index(rows, key) ==> Some(Index(rows, key)[k]) == LastWhere(rows, Keyed(key, k))
  {
    if rows != [] { IndexIsSearch(rows[..|rows| - 1], key, k); }
  }

  lemma IndexMember<T(!new)>(rows: seq<T>, key: T -> Cell, k: string)
    ensures k in Index(rows, key) ==>
              Index(rows, key)[k] in rows && key(Index(rows, key)[k]).OrEmpty() == k && k != ""
    ensures k !in Index(rows, key) && k != "" ==> forall row :: row in rows ==> key(row).OrEmpty() != k
  {
    IndexIsSearch(rows, key, k);
    LastWhereFinds(rows, Keyed(key, k));
  }

  /** No two rows share a non-empty key: what an empty `_duplicate_values` means. */
  ghost predicate NoDuplicates<T(!new)>(rows: seq<T>, key: T -> Cell) {
    forall i, j :: 0 <= i < j < |rows| && key(rows[i]).OrEmpty() != "" ==>
      key(rows[i]).OrEmpty() != key(rows[j]).OrEmpty()
  }

  function CaseOf(m: Manifest): Cell { m.caseId }
  function IncidentKey(i: Incident): Cell { i.incidentId }
  function WorkOrderKey(w: WorkOrder): Cell { w.id }
  function MrKey(m: Mr): Cell { m.id }
  function ValidationKey(v: Validation): Cell { v.id }
  function WorkOrderPlace(w: WorkOrder): Place { w.place }
  function MrPlace(m: Mr): Place { m.place }
  function ValidationPlace(v: Validation): Place { v.place }
  function ResolutionPlace(r: Resolution): Place { r.place }

  // ------------------------------------------------------------------ what a sound graph is

  /** `_validation_result`: the service test passed, telemetry is stable and every closure check is True. */
  predicate Passing(v: Validation) {
    && v.serviceTestPass
    && v.stable
    && v.checklist.Some?
    && forall c: Check :: c in v.checklist.value && v.checklist.value[c]
  }

  ghost predicate ManifestSound(g: Graph, m: Manifest) {
    var service, root := m.serviceId.OrEmpty(), m.rootIncidentId.OrEmpty();
    && service != "" && m.truthDomain.OrEmpty() != ""
    && service in g.subscribers
    && g.subscribers[service].delimiterId.OrEmpty() == m.delimiterId.OrEmpty()
    && g.subscribers[service].technology.OrEmpty() == m.technology.OrEmpty()
    && root in Index(g.incidents, IncidentKey)
    && Index(g.incidents, IncidentKey)[root].serviceId.OrEmpty() == service
    && Index(g.incidents, IncidentKey)[root].caseId.OrEmpty() == m.rootCaseId.OrEmpty()
    && (exists c :: c in g.decisions && c.OrEmpty() == m.caseId.OrEmpty())
    && (exists c :: c in g.actions && c.OrEmpty() == m.caseId.OrEmpty())
  }

  /** The record belongs to a known case and names no other service or root incident. */
  ghost predicate Local(g: Graph, p: Place) {
    var cases := Index(g.manifests, CaseOf);
    && p.caseId.OrEmpty() in cases
    && (p.serviceId.OrEmpty() != "" ==> p.serviceId.OrEmpty() == cases[p.caseId.OrEmpty()].serviceId.OrEmpty())
    && (p.incidentId.OrEmpty() != "" ==> p.incidentId.OrEmpty() == cases[p.caseId.OrEmpty()].rootIncidentId.OrEmpty())
  }

  ghost predicate MrSound(g: Graph, m: Mr) {
    m.workOrderId.OrEmpty() != "" ==> m.workOrderId.OrEmpty() in Index(g.workOrders, WorkOrderKey)
  }

  /** The resolution cites an existing validation of its own case that passes in full. */
  ghost predicate ResolutionSound(g: Graph, r: Resolution) {
    var validations, ref := Index(g.validations, ValidationKey), r.validationRef.OrEmpty();
    && ref in validations
    && validations[ref].place.caseId.OrEmpty() == r.place.caseId.OrEmpty()
    && Passing(validations[ref])
  }

  ghost predicate HasResolution(g: Graph, incident: string) {
    exists r :: r in g.resolutions && r.place.incidentId.OrEmpty() == incident
  }

  ghost predicate Sound(g: Graph) {
    && NoDuplicates(g.manifests, CaseOf)
    && NoDuplicates(g.workOrders, WorkOrderKey)
    && (forall m :: m in g.manifests && m.caseId.OrEmpty() != "" ==> ManifestSound(g, m))
    && (forall w :: w in g.workOrders ==> Local(g, w.place))
    && (forall m :: m in g.mrs ==> Local(g, m.place) && MrSound(g, m))
    && (forall v :: v in g.validations ==> Local(g, v.place))
    && (forall r :: r in g.resolutions ==> Local(g, r.place) && ResolutionSound(g, r))
    && (forall k :: k in Index(g.incidents, IncidentKey) && Index(g.incidents, IncidentKey)[k].closed ==>
          HasResolution(g, k))
  }
}
