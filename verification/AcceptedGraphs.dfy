/** What the case-graph checker lets through: accepted graphs in which less holds than the projection assumes, and the
    exact conditions under which it does hold. */
module AcceptedGraphs {
  import opened Common
  import opened CaseGraph
  import opened DispatchProjection

  // ------------------------------------------------------------------ graphs of two cases with one root

  const ROOT_CASE := Manifest(Text("C"), Text("S"), Text("I"), Text("C"), Text("T"), Text("D"), Text("H"), "")

  const REPEAT_CASE := ROOT_CASE.(caseId := Text("E"))

  const ROOT := Incident(Text("I"), Text("S"), Text("C"), false)

  const HERE := Place(Text("C"), Text("S"), Text("I"))

  const THERE := HERE.(caseId := Text("E"))

  /** Two complete cases of one root incident, and the records that are given. */
  function TwoCases(strays: seq<Manifest>, shadowed: seq<Incident>, workOrders: seq<WorkOrder>, mrs: seq<Mr>,
                    validations: seq<Validation>, resolutions: seq<Resolution>): Graph
  {
    Graph([ROOT_CASE, REPEAT_CASE] + strays, map["S" := Subscriber(Text("D"), Text("H"))], shadowed + [ROOT],
          [Text("C"), Text("E")], [Text("C"), Text("E")], workOrders, mrs, validations, resolutions)
  }

  lemma IndexLast<T(!new)>(rows: seq<T>, row: T, key: T -> Cell)
    ensures Index(rows + [row], key)
            == if key(row).OrEmpty() == "" then Index(rows, key) else Index(rows, key)[key(row).OrEmpty() := row]
  {
    assert (rows + [row])[..|rows|] == rows;
  }

  lemma {:induction false} IndexSkips<T(!new)>(rows: seq<T>, strays: seq<T>, key: T -> Cell)
    requires forall t :: t in strays ==> key(t).OrEmpty() == ""
    ensures Index(rows + strays, key) == Index(rows, key)
  {
    if strays == [] {
      assert rows + strays == rows;
    } else {
      var n := |strays| - 1;
      assert strays == strays[..n] + [strays[n]] && rows + strays == (rows + strays[..n]) + [strays[n]];
      IndexLast(rows + strays[..n], strays[n], key);
      IndexSkips(rows, strays[..n], key);
    }
  }

  lemma IndexTwo<T(!new)>(a: T, b: T, key: T -> Cell)
    requires key(a).OrEmpty() != "" && key(b).OrEmpty() != ""
    ensures Index([a], key) == map[key(a).OrEmpty() := a]
    ensures Index([a, b], key) == map[key(a).OrEmpty() := a, key(b).OrEmpty() := b]
  {
    IndexLast([], a, key);
    IndexLast([a], b, key);
    assert [] + [a] == [a] && [a] + [b] == [a, b];
  }

  /** The strays have no case id, and the other incident rows stand under the root's id. */
  ghost predicate Apart(strays: seq<Manifest>, shadowed: seq<Incident>) {
    && (forall m :: m in strays ==> m.caseId.OrEmpty() == "")
    && (forall i :: i in shadowed ==> i.incidentId.OrEmpty() == "I")
  }

  lemma {:induction false} AllUnderRoot(shadowed: seq<Incident>)
    requires forall i :: i in shadowed ==> i.incidentId.OrEmpty() == "I"
    ensures Index(shadowed, IncidentKey).Keys <= {"I"}
  {
    if shadowed != [] { AllUnderRoot(shadowed[..|shadowed| - 1]); }
  }

  /** The two cases and the root incident are what the graph's indexes hold. */
  ghost predicate Indexed(g: Graph) {
    && Index(g.manifests, CaseOf) == map["C" := ROOT_CASE, "E" := REPEAT_CASE]
    && Index(g.incidents, IncidentKey) == map["I" := ROOT]
  }

  lemma TwoCasesIndexed(strays: seq<Manifest>, shadowed: seq<Incident>, g: Graph)
    requires Apart(strays, shadowed)
    requires g.manifests == [ROOT_CASE, REPEAT_CASE] + strays && g.incidents == shadowed + [ROOT]
    ensures Indexed(g)
  {
    IndexTwo(ROOT_CASE, REPEAT_CASE, CaseOf);
    IndexSkips([ROOT_CASE, REPEAT_CASE], strays, CaseOf);
    IndexLast(shadowed, ROOT, IncidentKey);
    AllUnderRoot(shadowed);
  }

  lemma CaseIsSound(g: Graph, m: Manifest)
    requires Indexed(g) && (m == ROOT_CASE || m == REPEAT_CASE)
    requires g.subscribers == map["S" := Subscriber(Text("D"), Text("H"))]
    requires g.decisions == [Text("C"), Text("E")] && g.actions == [Text("C"), Text("E")]
    ensures ManifestSound(g, m)
  {
    assert g.decisions[0] in g.decisions && g.decisions[1] in g.decisions;
  }

  lemma CasesDiffer(strays: seq<Manifest>, manifests: seq<Manifest>)
    requires manifests == [ROOT_CASE, REPEAT_CASE] + strays
    requires forall m :: m in strays ==> m.caseId.OrEmpty() == ""
    ensures NoDuplicates(manifests, CaseOf)
  {
    forall j | 2 <= j < |manifests| ensures CaseOf(manifests[j]).OrEmpty() == "" { assert manifests[j] in strays; }
  }

  ghost predicate AtHome(p: Place) { p == HERE || p == THERE }

  /** Of such a graph only the given records have to be checked. */
  lemma TwoCasesSound(strays: seq<Manifest>, shadowed: seq<Incident>, workOrders: seq<WorkOrder>, mrs: seq<Mr>,
                      validations: seq<Validation>, resolutions: seq<Resolution>, g: Graph)
    requires Apart(strays, shadowed) && g == TwoCases(strays, shadowed, workOrders, mrs, validations, resolutions)
    requires NoDuplicates(workOrders, WorkOrderKey)
    requires forall w :: w in workOrders ==> AtHome(w.place)
    requires forall m :: m in mrs ==> AtHome(m.place) && MrSound(g, m)
    requires forall v :: v in validations ==> AtHome(v.place)
    requires forall r :: r in resolutions ==> AtHome(r.place) && ResolutionSound(g, r)
    ensures Sound(g) && Indexed(g)
  {
    TwoCasesIndexed(strays, shadowed, g);
    CasesDiffer(strays, g.manifests);
    forall m | m in g.manifests && m.caseId.OrEmpty() != "" ensures ManifestSound(g, m) { CaseIsSound(g, m); }
    assert Local(g, HERE) && Local(g, THERE);
  }

  // ------------------------------------------------------------------ ids

  /** An accepted graph whose only work order has no id: it is projected as `None`, which no row is called. */
  lemma UnnamedWorkOrderBreaksMatch() returns (g: Graph)
    ensures Sound(g) && |g.workOrders| == 1 && g.workOrders[0].id == Null
    ensures ProjectedIds(CasesOf(g), WorkOrdersOf) != SourceIds(g.workOrders, WorkOrderKey)
  {
    var w := WorkOrder(Null, HERE, "");
    g := TwoCases([], [], [w], [], [], []);
    TwoCasesSound([], [], [w], [], [], [], g);
    AcceptedGraphsReconcile(g);
    NoIdsPresent(g.workOrders, w);
  }

  lemma NoIdsPresent(rows: seq<WorkOrder>, w: WorkOrder)
    requires rows == [w] && w.id == Null
    ensures !IdsPresent(rows, WorkOrderKey)
  {
    assert w in rows && SourceIds(rows, WorkOrderKey) == {};
  }

  /** An accepted graph with a manifest that has neither a case id nor a subscriber: no planning sites save it. */
  lemma StrayManifestCannotBePlaced() returns (g: Graph)
    ensures Sound(g) && forall sited :: !AllPlaceable(g, sited, g.manifests)
  {
    g := WithStray(ROOT_CASE.(caseId := Missing, serviceId := Text("X")));
  }

  lemma WithStray(stray: Manifest) returns (g: Graph)
    requires stray.caseId == Missing && stray.serviceId == Text("X")
    ensures Sound(g) && forall sited :: !AllPlaceable(g, sited, g.manifests)
  {
    g := TwoCases([stray], [], [], [], [], []);
    TwoCasesSound([stray], [], [], [], [], [], g);
    assert "X" != "S";
    UnplaceableAmong(g, [ROOT_CASE, REPEAT_CASE], stray);
  }

  lemma UnplaceableAmong(g: Graph, others: seq<Manifest>, stray: Manifest)
    requires g.manifests == others + [stray] && !Subscribed(g, stray)
    ensures forall sited :: !AllPlaceable(g, sited, g.manifests)
  {
    forall sited ensures !AllPlaceable(g, sited, g.manifests) { AllPlaceableAppend(g, sited, others, stray); }
  }

  /** An accepted graph in which the CLOSED root incident, shadowed by a later open row, has no resolution. */
  lemma ShadowedClosureEscapes() returns (g: Graph, i: Incident)
    ensures Sound(g) && g.resolutions == []
    ensures i in g.incidents && i.closed && i.incidentId.OrEmpty() != "" && Shadowed(g, i)
    ensures !Resolved(g, i.incidentId.OrEmpty())
  {
    i := ROOT.(closed := true);
    g := TwoCases([], [i], [], [], [], []);
    TwoCasesSound([], [i], [], [], [], [], g);
    assert g.incidents[0] == i;
  }

  // ------------------------------------------------------------------ the work order that an MR cites

  /** The MR cites a work order, and that work order belongs to another case. */
  ghost predicate CitesForeignOrder(g: Graph, m: Mr) {
    var orders := Index(g.workOrders, WorkOrderKey);
    m.workOrderId.OrEmpty() in orders
    && orders[m.workOrderId.OrEmpty()].place.caseId.OrEmpty() != m.place.caseId.OrEmpty()
  }

  /** An accepted graph in which an MR of one case cites the work order of another. */
  lemma ForeignOrderIsAccepted() returns (g: Graph, m: Mr)
    ensures Sound(g) && m in g.mrs && CitesForeignOrder(g, m)
  {
    var w := WorkOrder(Text("W"), HERE, "");
    m := Mr(Text("M"), Text("W"), THERE, "");
    g := TwoCases([], [], [w], [m], [], []);
    IndexTwo(w, w, WorkOrderKey);
    assert g.workOrders == [w];
    TwoCasesSound([], [], [w], [m], [], [], g);
  }

  /** `h` differs from `g` in field records only. */
  ghost predicate SameCases(g: Graph, h: Graph) {
    && h.manifests == g.manifests && h.subscribers == g.subscribers && h.incidents == g.incidents
    && h.decisions == g.decisions && h.actions == g.actions
  }

  /** A non-empty id longer than that of any of the work orders. */
  function FreshId(rows: seq<WorkOrder>): (id: string)
    ensures id != "" && forall w :: w in rows ==> |w.id.OrEmpty()| < |id|
  {
    if rows == [] then "#"
    else
      var id := FreshId(rows[1..]);
      if |rows[0].id.OrEmpty()| < |id| then id else rows[0].id.OrEmpty() + "#"
  }

  function WithForeign(g: Graph, w: WorkOrder, m: Mr): Graph {
    g.(workOrders := g.workOrders + [w], mrs := g.mrs + [m])
  }

  lemma FreshKeepsDistinct(rows: seq<WorkOrder>, w: WorkOrder)
    requires NoDuplicates(rows, WorkOrderKey) && w.id == Text(FreshId(rows))
    ensures NoDuplicates(rows + [w], WorkOrderKey)
  {
    forall i | 0 <= i < |rows| ensures WorkOrderKey(rows[i]).OrEmpty() != WorkOrderKey(w).OrEmpty() {
      assert rows[i] in rows;
    }
  }

  /** A work order under a fresh id in one case and an MR citing it in another leave an accepted graph accepted. */
  lemma ForeignOrderFits(g: Graph, w: WorkOrder, m: Mr)
    requires Sound(g) && Local(g, w.place) && Local(g, m.place)
    requires w.id == m.workOrderId == Text(FreshId(g.workOrders))
    requires w.place.caseId.OrEmpty() != m.place.caseId.OrEmpty()
    ensures Sound(WithForeign(g, w, m)) && SameCases(g, WithForeign(g, w, m))
    ensures m in WithForeign(g, w, m).mrs && CitesForeignOrder(WithForeign(g, w, m), m)
  {
    var h := WithForeign(g, w, m);
    FreshKeepsDistinct(g.workOrders, w);
    SameChecks(g, h);
    ForeignRecordsFit(g, w, m, h);
    CitesFresh(g, w, m, h);
  }

  lemma CitesFresh(g: Graph, w: WorkOrder, m: Mr, h: Graph)
    requires h == WithForeign(g, w, m) && w.id == m.workOrderId == Text(FreshId(g.workOrders))
    requires w.place.caseId.OrEmpty() != m.place.caseId.OrEmpty()
    ensures m in h.mrs && CitesForeignOrder(h, m)
  {
    IndexLast(g.workOrders, w, WorkOrderKey);
  }

  /** The field records of the larger graph are in place, and each MR still finds its work order. */
  lemma ForeignRecordsFit(g: Graph, w: WorkOrder, m: Mr, h: Graph)
    requires Sound(g) && Local(g, w.place) && Local(g, m.place) && h == WithForeign(g, w, m)
    requires w.id == m.workOrderId == Text(FreshId(g.workOrders))
    ensures forall x :: x in h.mrs ==> Local(h, x.place) && MrSound(h, x)
    ensures forall x :: x in h.workOrders ==> Local(h, x.place)
  {
    IndexLast(g.workOrders, w, WorkOrderKey);
    SameChecks(g, h);
    forall x | x in h.mrs ensures Local(h, x.place) && MrSound(h, x) {
      assert x in g.mrs || x == m;
    }
    forall x | x in h.workOrders ensures Local(h, x.place) {
      assert x in g.workOrders || x == w;
    }
  }

  /** What the checker asks of manifests, places and resolutions does not involve work orders and MRs. */
  lemma SameChecks(g: Graph, h: Graph)
    requires SameCases(g, h) && h.validations == g.validations && h.resolutions == g.resolutions
    ensures forall m :: ManifestSound(g, m) ==> ManifestSound(h, m)
    ensures forall p :: Local(g, p) ==> Local(h, p)
    ensures forall r :: ResolutionSound(g, r) ==> ResolutionSound(h, r)
    ensures forall k :: HasResolution(g, k) ==> HasResolution(h, k)
  {
  }

  /** For these cases the checker lets no MR cite the work order of another case, whatever the field records. */
  ghost predicate RulesOutForeign(g: Graph) {
    forall h, m :: SameCases(g, h) && Sound(h) && m in h.mrs ==> !CitesForeignOrder(h, m)
  }

  lemma OneKey(keys: set<string>)
    ensures |keys| <= 1 <==> forall k, l :: k in keys && l in keys ==> k == l
  {
    if k, l :| k in keys && l in keys && k != l {
      assert {k, l} <= keys && keys == {k, l} + (keys - {k, l});
      assert |{k, l}| == 2;
    }
    if |keys| > 1 {
      var k :| k in keys;
      var rest := keys - {k};
      assert keys == {k} + rest;
      var l :| l in rest;
    }
  }

  lemma ForeignNeedsTwoCases(h: Graph, m: Mr)
    requires Sound(h) && m in h.mrs && CitesForeignOrder(h, m)
    ensures exists k, l :: k in Index(h.manifests, CaseOf) && l in Index(h.manifests, CaseOf) && k != l
  {
    IndexMember(h.workOrders, WorkOrderKey, m.workOrderId.OrEmpty());
    var w := Index(h.workOrders, WorkOrderKey)[m.workOrderId.OrEmpty()];
    assert Local(h, w.place) && Local(h, m.place);
  }

  /** The checker rules out foreign work orders for the cases of an accepted graph exactly when it indexes at most one
      of them. */
  lemma ForeignRuledOutIff(g: Graph)
    requires Sound(g)
    ensures RulesOutForeign(g) <==> |Index(g.manifests, CaseOf).Keys| <= 1
  {
    var cases := Index(g.manifests, CaseOf);
    OneKey(cases.Keys);
    if k, l :| k in cases && l in cases && k != l {
      var w, m := Foreign(g, Place(Text(k), Missing, Missing), Place(Text(l), Missing, Missing));
      assert !RulesOutForeign(g);
    } else {
      forall h, m | SameCases(g, h) && Sound(h) && m in h.mrs ensures !CitesForeignOrder(h, m) {
        if CitesForeignOrder(h, m) { ForeignNeedsTwoCases(h, m); }
      }
    }
  }

  lemma Foreign(g: Graph, a: Place, b: Place) returns (w: WorkOrder, m: Mr)
    requires Sound(g) && Local(g, a) && Local(g, b) && a.caseId.OrEmpty() != b.caseId.OrEmpty()
    ensures w.place == a && m.place == b && w.id == m.workOrderId == Text(FreshId(g.workOrders))
    ensures Sound(WithForeign(g, w, m)) && SameCases(g, WithForeign(g, w, m))
    ensures m in WithForeign(g, w, m).mrs && CitesForeignOrder(WithForeign(g, w, m), m)
  {
    w := WorkOrder(Text(FreshId(g.workOrders)), a, "");
    m := Mr(Null, w.id, b, "");
    ForeignOrderFits(g, w, m);
  }

  // ------------------------------------------------------------------ telling them by service

  /** No two cases share a service. */
  ghost predicate OneCasePerService(g: Graph) {
    var cases := Index(g.manifests, CaseOf);
    forall k, l :: k in cases && l in cases && cases[k].serviceId.OrEmpty() == cases[l].serviceId.OrEmpty() ==> k == l
  }

  /** The service of the MR and that of the work order it cites. */
  function OwnService(m: Mr): string { m.place.serviceId.OrEmpty() }

  function CitedService(g: Graph, m: Mr): string {
    var orders := Index(g.workOrders, WorkOrderKey);
    if m.workOrderId.OrEmpty() in orders then orders[m.workOrderId.OrEmpty()].place.serviceId.OrEmpty() else ""
  }

  /** For these cases, whatever the field records: where an accepted MR and the order it cites both name a service,
      different services are what makes the order foreign. */
  ghost predicate ServicesTell(g: Graph) {
    forall h, m :: SameCases(g, h) && Sound(h) && m in h.mrs && OwnService(m) != "" && CitedService(h, m) != "" ==>
      (CitesForeignOrder(h, m) <==> CitedService(h, m) != OwnService(m))
  }

  lemma ForeignIffServiceDiffers(h: Graph, m: Mr)
    requires Sound(h) && OneCasePerService(h) && m in h.mrs && OwnService(m) != "" && CitedService(h, m) != ""
    ensures CitesForeignOrder(h, m) <==> CitedService(h, m) != OwnService(m)
  {
    IndexMember(h.workOrders, WorkOrderKey, m.workOrderId.OrEmpty());
    var w := Index(h.workOrders, WorkOrderKey)[m.workOrderId.OrEmpty()];
    assert Local(h, w.place) && Local(h, m.place);
  }

  /** Services tell foreign work orders from own ones exactly when no two cases share a service. */
  lemma ServicesTellIff(g: Graph)
    requires Sound(g)
    ensures ServicesTell(g) <==> OneCasePerService(g)
  {
    var cases := Index(g.manifests, CaseOf);
    if OneCasePerService(g) {
      forall h, m | SameCases(g, h) && Sound(h) && m in h.mrs && OwnService(m) != "" && CitedService(h, m) != ""
        ensures CitesForeignOrder(h, m) <==> CitedService(h, m) != OwnService(m)
      {
        ForeignIffServiceDiffers(h, m);
      }
    } else {
      var k, l :| k in cases && l in cases && cases[k].serviceId.OrEmpty() == cases[l].serviceId.OrEmpty() && k != l;
      SharedServiceHides(g, k, l);
    }
  }

  lemma SharedServiceHides(g: Graph, k: string, l: string)
    requires Sound(g) && k in Index(g.manifests, CaseOf) && l in Index(g.manifests, CaseOf) && k != l
    requires Index(g.manifests, CaseOf)[k].serviceId.OrEmpty() == Index(g.manifests, CaseOf)[l].serviceId.OrEmpty()
    ensures !ServicesTell(g)
  {
    IndexMember(g.manifests, CaseOf, k);
    var service := Index(g.manifests, CaseOf)[k].serviceId.OrEmpty();
    assert ManifestSound(g, Index(g.manifests, CaseOf)[k]);
    var w, m := Foreign(g, Place(Text(k), Text(service), Missing), Place(Text(l), Text(service), Missing));
    IndexLast(g.workOrders, w, WorkOrderKey);
    assert CitedService(WithForeign(g, w, m), m) == service == OwnService(m);
  }

  // ------------------------------------------------------------------ whether a resolved case counts as validated

  function ValidationCase(v: Validation): Cell { v.place.caseId }

  /** The `validated` that the projection computes for a case: of its last validation row. */
  predicate ProjectedValidated(g: Graph, caseId: string) {
    caseId in Index(g.validations, ValidationCase) && Passing(Index(g.validations, ValidationCase)[caseId])
  }

  /** Row `j` is a validation of the case, and no later row is. */
  ghost predicate LastOfCase(rows: seq<Validation>, caseId: string, j: nat) {
    && j < |rows| && rows[j].place.caseId.OrEmpty() == caseId
    && forall k :: j < k < |rows| ==> rows[k].place.caseId.OrEmpty() != caseId
  }

  lemma {:induction false} IndexIsLastOfCase(rows: seq<Validation>, caseId: string) returns (j: nat)
    requires caseId in Index(rows, ValidationCase)
    ensures LastOfCase(rows, caseId, j) && Index(rows, ValidationCase)[caseId] == rows[j]
  {
    var n := |rows| - 1;
    IndexMember(rows, ValidationCase, caseId);
    if ValidationCase(rows[n]).OrEmpty() == caseId {
      j := n;
    } else {
      j := IndexIsLastOfCase(rows[..n], caseId);
    }
  }

  lemma LastOfCaseUnique(rows: seq<Validation>, caseId: string, i: nat, j: nat)
    requires LastOfCase(rows, caseId, i) && LastOfCase(rows, caseId, j)
    ensures i == j
  {
  }

  /** A passing validation with the given id stands before place `j`. */
  ghost predicate PassedBefore(rows: seq<Validation>, id: string, j: nat)
    requires j <= |rows|
  {
    exists i :: 0 <= i < j && rows[i].id.OrEmpty() == id && Passing(rows[i])
  }

  /** The case's last validation row fails, behind a passing one with the given id. */
  ghost predicate FailsLast(rows: seq<Validation>, caseId: string, id: string) {
    exists j: nat :: LastOfCase(rows, caseId, j) && !Passing(rows[j]) && PassedBefore(rows, id, j)
  }

  lemma FailureFollowsCited(rows: seq<Validation>, caseId: string, cited: Validation, j: nat)
    requires LastOfCase(rows, caseId, j) && cited in rows && cited.place.caseId.OrEmpty() == caseId
    requires Passing(cited) && !Passing(rows[j])
    ensures PassedBefore(rows, cited.id.OrEmpty(), j)
  {
    var i :| 0 <= i < |rows| && rows[i] == cited;
  }

  /** In an accepted graph a resolved case is projected as not validated exactly when a failing validation of the case
      stands last, behind the passing one that the resolution cites. */
  lemma ResolvedButNotValidatedIff(g: Graph, r: Resolution)
    requires Sound(g) && r in g.resolutions
    ensures !ProjectedValidated(g, r.place.caseId.OrEmpty())
            <==> FailsLast(g.validations, r.place.caseId.OrEmpty(), r.validationRef.OrEmpty())
  {
    var rows, caseId, ref := g.validations, r.place.caseId.OrEmpty(), r.validationRef.OrEmpty();
    assert ResolutionSound(g, r) && Local(g, r.place);
    IndexMember(rows, ValidationKey, ref);
    IndexMember(g.manifests, CaseOf, caseId);
    var cited := Index(rows, ValidationKey)[ref];
    assert ValidationCase(cited).OrEmpty() == caseId;
    IndexMember(rows, ValidationCase, caseId);
    var j := IndexIsLastOfCase(rows, caseId);
    if !Passing(rows[j]) { FailureFollowsCited(rows, caseId, cited, j); }
    if k: nat :| LastOfCase(rows, caseId, k) && !Passing(rows[k]) && PassedBefore(rows, ref, k) {
      LastOfCaseUnique(rows, caseId, j, k);
    }
  }

  const ALL_PASSED: map<Check, bool> :=
    map[OriginalSymptomAbsent := true, ServiceTestPassed := true, TelemetryStable := true,
        RepairActionsDocumented := true, RequiredMeasurementsCaptured := true]

  lemma EveryCheckPassed(c: Check)
    ensures c in ALL_PASSED && ALL_PASSED[c]
  {
    match c
    case OriginalSymptomAbsent =>
    case ServiceTestPassed =>
    case TelemetryStable =>
    case RepairActionsDocumented =>
    case RequiredMeasurementsCaptured =>
  }

  /** An accepted graph with such a case: a failing validation follows the one its resolution cites. */
  lemma LaterFailureHidesResolution() returns (g: Graph, r: Resolution)
    ensures Sound(g) && r in g.resolutions && !ProjectedValidated(g, r.place.caseId.OrEmpty())
  {
    var passed := Validation(Text("V"), HERE, true, true, Some(ALL_PASSED));
    var failed := passed.(id := Text("F"), stable := false);
    r := Resolution(Text("R"), Text("V"), HERE);
    g := TwoCases([], [], [], [], [passed, failed], [r]);
    IndexTwo(passed, failed, ValidationKey);
    IndexTwo(passed, failed, ValidationCase);
    assert g.validations == [passed, failed];
    forall c: Check ensures c in ALL_PASSED && ALL_PASSED[c] { EveryCheckPassed(c); }
    TwoCasesSound([], [], [], [], [passed, failed], [r], g);
  }
}
