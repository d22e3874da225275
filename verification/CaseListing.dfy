/** What the projection lists: every manifest once, by time, with the records of its case by time; and which manifests
    it cannot place. */
module CaseListing {
  import opened Common
  import opened Ordering
  import opened CaseGraph
  import opened DispatchProjection
  import opened RelationalIntegrity

  /** How the cell is printed where it is looked up, and where it is listed. */
  function Printed(c: Cell, absent: string): string {
    match c
    case Missing => absent
    case Null => "None"
    case Text(s) => s
  }

  predicate EarlierOrder(a: WorkOrder, b: WorkOrder) { StrLe(a.time, b.time) }
  predicate EarlierRequest(a: Mr, b: Mr) { StrLe(a.time, b.time) }
  predicate EarlierCase(a: Manifest, b: Manifest) { StrLe(a.time, b.time) }

  function OrderOf(caseId: string): WorkOrder -> bool { (w: WorkOrder) => Printed(w.place.caseId, "") == caseId }
  function RequestOf(caseId: string): Mr -> bool { (m: Mr) => Printed(m.place.caseId, "") == caseId }
  function OrderId(w: WorkOrder): string { Printed(w.id, "None") }
  function RequestId(m: Mr): string { Printed(m.id, "None") }

  lemma TimeOrder<T(!new)>(time: T -> string, le: (T, T) -> bool)
    requires forall a, b :: le(a, b) == StrLe(time(a), time(b))
    ensures TotalPreorder(le)
  {
    forall a, b ensures le(a, b) || le(b, a) { StrLeTotal(time(a), time(b)); }
    forall a, b, c | le(a, b) && le(b, c) ensures le(a, c) { StrLeTransitive(time(a), time(b), time(c)); }
  }

  lemma OrdersOfCase(caseId: string)
    ensures forall w :: OrderOf(caseId)(w) == InCase(WorkOrderPlace, caseId)(w)
  {
    forall w: WorkOrder ensures OrderOf(caseId)(w) == InCase(WorkOrderPlace, caseId)(w) {
      assert WorkOrderPlace(w).caseId.OrDefault() == Printed(w.place.caseId, "");
    }
  }

  lemma RequestsOfCase(caseId: string)
    ensures forall r :: RequestOf(caseId)(r) == InCase(MrPlace, caseId)(r)
  {
    forall r: Mr ensures RequestOf(caseId)(r) == InCase(MrPlace, caseId)(r) {
      assert MrPlace(r).caseId.OrDefault() == Printed(r.place.caseId, "");
    }
  }

  /** Sorting the rows of one kind by time. */
  lemma RowsByTime<T(!new)>(rows: seq<T>, mine: T -> bool, same: T -> bool, le: (T, T) -> bool)
    requires TotalPreorder(le) && forall r :: mine(r) == same(r)
    ensures SortedBy(Sorted(Filter(rows, same), le), le)
    ensures multiset(Sorted(Filter(rows, same), le)) == multiset(Filter(rows, mine))
  {
    FilterCongruent(rows, mine, same);
    SortedIsSorted(Filter(rows, same), le);
  }

  lemma SameOrder<T(!new)>(s: seq<T>, le: (T, T) -> bool, order: (T, T) -> bool)
    requires SortedBy(s, le) && forall a, b :: le(a, b) ==> order(a, b)
    ensures SortedBy(s, order)
  {
  }

  lemma PrintedIds(orders: seq<WorkOrder>, requests: seq<Mr>)
    ensures Map(orders, WorkOrderId) == Map(orders, OrderId) && Map(requests, MrId) == Map(requests, RequestId)
  {
  }

  lemma OrdersListed(g: Graph, caseId: string) returns (orders: seq<WorkOrder>)
    ensures orders == Sorted(Filter(g.workOrders, InCase(WorkOrderPlace, caseId)), EarlierWorkOrder)
    ensures SortedBy(orders, EarlierOrder) && multiset(orders) == multiset(Filter(g.workOrders, OrderOf(caseId)))
  {
    orders := Sorted(Filter(g.workOrders, InCase(WorkOrderPlace, caseId)), EarlierWorkOrder);
    OrdersOfCase(caseId);
    TimeOrder((w: WorkOrder) => w.time, EarlierWorkOrder);
    RowsByTime(g.workOrders, OrderOf(caseId), InCase(WorkOrderPlace, caseId), EarlierWorkOrder);
    SameOrder(orders, EarlierWorkOrder, EarlierOrder);
  }

  lemma RequestsListed(g: Graph, caseId: string) returns (requests: seq<Mr>)
    ensures requests == Sorted(Filter(g.mrs, InCase(MrPlace, caseId)), EarlierMr)
    ensures SortedBy(requests, EarlierRequest) && multiset(requests) == multiset(Filter(g.mrs, RequestOf(caseId)))
  {
    requests := Sorted(Filter(g.mrs, InCase(MrPlace, caseId)), EarlierMr);
    RequestsOfCase(caseId);
    TimeOrder((r: Mr) => r.time, EarlierMr);
    RowsByTime(g.mrs, RequestOf(caseId), InCase(MrPlace, caseId), EarlierMr);
    SameOrder(requests, EarlierMr, EarlierRequest);
  }

  /** A case with an id lists the work orders and the MRs of that case, each once and by time, under their printed
      ids. */
  lemma CaseListsItsRecords(g: Graph, m: Manifest) returns (orders: seq<WorkOrder>, requests: seq<Mr>)
    requires Printed(m.caseId, "") != ""
    ensures var caseId, c := Printed(m.caseId, ""), CaseFor(g, m);
            && c.caseId == caseId
            && c.workOrderIds == Map(orders, OrderId) && SortedBy(orders, EarlierOrder)
            && multiset(orders) == multiset(Filter(g.workOrders, OrderOf(caseId)))
            && c.mrIds == Map(requests, RequestId) && SortedBy(requests, EarlierRequest)
            && multiset(requests) == multiset(Filter(g.mrs, RequestOf(caseId)))
  {
    orders := OrdersListed(g, Printed(m.caseId, ""));
    requests := RequestsListed(g, Printed(m.caseId, ""));
    PrintedIds(orders, requests);
  }

  /** A case without an id lists nothing. */
  lemma NamelessCaseListsNothing(g: Graph, m: Manifest)
    requires Printed(m.caseId, "") == ""
    ensures CaseFor(g, m) == Case("", [], [])
  {
    assert Map([], WorkOrderId) == [] && Map([], MrId) == [];
  }

  /** The projection has one case for each manifest, by time. */
  lemma CasesAreManifests(g: Graph) returns (ordered: seq<Manifest>)
    ensures multiset(ordered) == multiset(g.manifests) && SortedBy(ordered, EarlierCase)
    ensures |CasesOf(g)| == |ordered|
    ensures forall k :: 0 <= k < |ordered| ==> CasesOf(g)[k] == CaseFor(g, ordered[k])
  {
    ordered := Sorted(g.manifests, EarlierManifest);
    TimeOrder((m: Manifest) => m.time, EarlierManifest);
    SortedIsSorted(g.manifests, EarlierManifest);
  }

  /** A manifest can be placed exactly when its service, as printed, has a subscriber, and that subscriber's
      delimiter, or the service when it has none, has a planning site. */
  lemma PlaceableIff(g: Graph, sited: set<string>, m: Manifest)
    ensures Placeable(g, sited, m) <==>
              var service := Printed(m.serviceId, "");
              && service in g.subscribers
              && (var delimiter := g.subscribers[service].delimiterId;
                  (if Blank(delimiter) then service else Printed(delimiter, "")) in sited)
  {
  }
}
