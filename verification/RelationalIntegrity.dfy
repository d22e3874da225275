/** What the case-graph checker accepts, in terms of the rows alone: no indexes, and cells compared as texts. */
module RelationalIntegrity {
  import opened Common
  import opened CaseGraph
  import opened CaseGraphChecker

  /** The cell has no text: it is absent, null or empty. */
  predicate Blank(c: Cell) { !c.Text? || c.s == "" }

  predicate SameText(a: Cell, b: Cell) { if Blank(a) then Blank(b) else b.Text? && a.s == b.s }

  /** The cell is blank, or says what the other one does. */
  predicate Fits(a: Cell, b: Cell) { Blank(a) || SameText(a, b) }

  lemma TextIsOrEmpty(a: Cell, b: Cell)
    ensures Blank(a) <==> a.OrEmpty() == ""
    ensures SameText(a, b) <==> a.OrEmpty() == b.OrEmpty()
  {
  }

  lemma TextsAreOrEmpty()
    ensures forall a: Cell :: Blank(a) <==> a.OrEmpty() == ""
    ensures forall a: Cell, b: Cell :: SameText(a, b) <==> a.OrEmpty() == b.OrEmpty()
  {
    forall a: Cell, b: Cell ensures SameText(a, b) <==> a.OrEmpty() == b.OrEmpty() { TextIsOrEmpty(a, b); }
  }

  /** No two rows have the same id, blank ones aside. */
  ghost predicate IdsDiffer<T(!new)>(rows: seq<T>, key: T -> Cell) {
    forall i, j :: 0 <= i < j < |rows| && !Blank(key(rows[i])) ==> !SameText(key(rows[i]), key(rows[j]))
  }

  // ------------------------------------------------------------------ the links

  ghost predicate RootOf(m: Manifest, i: Incident) {
    && !Blank(m.rootIncidentId) && SameText(i.incidentId, m.rootIncidentId)
    && SameText(i.serviceId, m.serviceId) && SameText(i.caseId, m.rootCaseId)
  }

  /** The manifest names a service and a truth domain; its subscriber agrees with it in delimiter and technology, its
      root incident in service and case; and its case has a decision and an action. */
  ghost predicate ManifestLinked(g: Graph, m: Manifest) {
    && !Blank(m.serviceId) && !Blank(m.truthDomain)
    && m.serviceId.s in g.subscribers
    && SameText(g.subscribers[m.serviceId.s].delimiterId, m.delimiterId)
    && SameText(g.subscribers[m.serviceId.s].technology, m.technology)
    && (exists i :: i in g.incidents && RootOf(m, i))
    && (exists c :: c in g.decisions && SameText(c, m.caseId))
    && (exists c :: c in g.actions && SameText(c, m.caseId))
  }

  ghost predicate HomeOf(p: Place, m: Manifest) {
    !Blank(p.caseId) && SameText(m.caseId, p.caseId) && Fits(p.serviceId, m.serviceId)
    && Fits(p.incidentId, m.rootIncidentId)
  }

  ghost predicate PlaceLinked(g: Graph, p: Place) { exists m :: m in g.manifests && HomeOf(p, m) }

  ghost predicate MrLinked(g: Graph, m: Mr) {
    Blank(m.workOrderId) || exists w :: w in g.workOrders && SameText(w.id, m.workOrderId)
  }

  ghost predicate Ticked(v: Validation, c: Check) {
    v.checklist.Some? && c in v.checklist.value && v.checklist.value[c]
  }

  /** The validation passed: service test, stability, and each of the five closure checks. */
  ghost predicate Passed(v: Validation) {
    && v.serviceTestPass && v.stable
    && Ticked(v, OriginalSymptomAbsent) && Ticked(v, ServiceTestPassed) && Ticked(v, TelemetryStable)
    && Ticked(v, RepairActionsDocumented) && Ticked(v, RequiredMeasurementsCaptured)
  }

  ghost predicate ProofOf(r: Resolution, v: Validation) {
    !Blank(r.validationRef) && SameText(v.id, r.validationRef) && SameText(v.place.caseId, r.place.caseId) && Passed(v)
  }

  ghost predicate ResolutionLinked(g: Graph, r: Resolution) { exists v :: v in g.validations && ProofOf(r, v) }

  ghost predicate ClosureLinked(g: Graph, i: Incident) {
    exists r :: r in g.resolutions && SameText(r.place.incidentId, i.incidentId)
  }

  /** Case and work-order ids differ, and every row finds the rows it refers to. */
  ghost predicate RowsLinked(g: Graph) {
    && IdsDiffer(g.manifests, CaseOf) && IdsDiffer(g.workOrders, WorkOrderKey)
    && (forall m :: m in g.manifests && !Blank(m.caseId) ==> ManifestLinked(g, m))
    && (forall w :: w in g.workOrders ==> PlaceLinked(g, w.place))
    && (forall m :: m in g.mrs ==> PlaceLinked(g, m.place) && MrLinked(g, m))
    && (forall v :: v in g.validations ==> PlaceLinked(g, v.place))
    && (forall r :: r in g.resolutions ==> PlaceLinked(g, r.place) && ResolutionLinked(g, r))
  }

  /** And every closed incident with an id is named by a resolution. */
  ghost predicate Linked(g: Graph) {
    RowsLinked(g) && forall i :: i in g.incidents && i.closed && !Blank(i.incidentId) ==> ClosureLinked(g, i)
  }

  // ------------------------------------------------------------------ index and rows

  lemma DifferIff<T(!new)>(rows: seq<T>, key: T -> Cell)
    ensures IdsDiffer(rows, key) <==> NoDuplicates(rows, key)
  {
    TextsAreOrEmpty();
  }

  /** With different ids, what the index holds under a text is the one row with that id. */
  lemma IndexedRow<T(!new)>(rows: seq<T>, key: T -> Cell, row: T)
    requires NoDuplicates(rows, key)
    ensures row in rows && key(row).OrEmpty() != "" <==>
              key(row).OrEmpty() in Index(rows, key) && Index(rows, key)[key(row).OrEmpty()] == row
  {
    IndexMember(rows, key, key(row).OrEmpty());
    if row in rows && key(row).OrEmpty() != "" { UniqueIsIndexed(rows, key, row); }
  }

  ghost predicate RootIndexed(g: Graph, m: Manifest) {
    var root, incidents := m.rootIncidentId.OrEmpty(), Index(g.incidents, IncidentKey);
    && root in incidents && incidents[root].serviceId.OrEmpty() == m.serviceId.OrEmpty()
    && incidents[root].caseId.OrEmpty() == m.rootCaseId.OrEmpty()
  }

  lemma RootIff(g: Graph, m: Manifest)
    ensures RootIndexed(g, m) ==> exists i :: i in g.incidents && RootOf(m, i)
    ensures NoDuplicates(g.incidents, IncidentKey) && (exists i :: i in g.incidents && RootOf(m, i)) ==>
              RootIndexed(g, m)
  {
    var root := m.rootIncidentId.OrEmpty();
    TextsAreOrEmpty();
    IndexMember(g.incidents, IncidentKey, root);
    if RootIndexed(g, m) { assert RootOf(m, Index(g.incidents, IncidentKey)[root]); }
    if i :| NoDuplicates(g.incidents, IncidentKey) && i in g.incidents && RootOf(m, i) {
      IndexedRow(g.incidents, IncidentKey, i);
    }
  }

  lemma TextFound(cells: seq<Cell>, c: Cell)
    ensures (exists d :: d in cells && SameText(d, c)) <==> exists d :: d in cells && d.OrEmpty() == c.OrEmpty()
  {
    TextsAreOrEmpty();
  }

  lemma ManifestIff(g: Graph, m: Manifest)
    ensures ManifestSound(g, m) ==> ManifestLinked(g, m)
    ensures NoDuplicates(g.incidents, IncidentKey) && ManifestLinked(g, m) ==> ManifestSound(g, m)
  {
    RootIff(g, m);
    TextFound(g.decisions, m.caseId);
    TextFound(g.actions, m.caseId);
    TextsAreOrEmpty();
  }

  lemma PlaceIff(g: Graph, p: Place)
    requires NoDuplicates(g.manifests, CaseOf)
    ensures PlaceLinked(g, p) <==> Local(g, p)
  {
    TextsAreOrEmpty();
    IndexMember(g.manifests, CaseOf, p.caseId.OrEmpty());
    if m :| m in g.manifests && HomeOf(p, m) { IndexedRow(g.manifests, CaseOf, m); }
    if Local(g, p) { assert HomeOf(p, Index(g.manifests, CaseOf)[p.caseId.OrEmpty()]); }
  }

  lemma MrIff(g: Graph, m: Mr)
    ensures MrLinked(g, m) <==> MrSound(g, m)
  {
    TextsAreOrEmpty();
    IndexMember(g.workOrders, WorkOrderKey, m.workOrderId.OrEmpty());
  }

  lemma PassedIff(v: Validation)
    ensures Passed(v) <==> Passing(v)
  {
    if Passed(v) {
      forall c: Check ensures c in v.checklist.value && v.checklist.value[c] {
        assert c.OriginalSymptomAbsent? || c.ServiceTestPassed? || c.TelemetryStable? || c.RepairActionsDocumented?
               || c.RequiredMeasurementsCaptured?;
      }
    }
    if Passing(v) {
      assert Ticked(v, OriginalSymptomAbsent) && Ticked(v, ServiceTestPassed) && Ticked(v, TelemetryStable);
      assert Ticked(v, RepairActionsDocumented) && Ticked(v, RequiredMeasurementsCaptured);
    }
  }

  lemma ResolutionIff(g: Graph, r: Resolution)
    ensures ResolutionSound(g, r) ==> ResolutionLinked(g, r)
    ensures NoDuplicates(g.validations, ValidationKey) && ResolutionLinked(g, r) ==> ResolutionSound(g, r)
  {
    var ref := r.validationRef.OrEmpty();
    TextsAreOrEmpty();
    IndexMember(g.validations, ValidationKey, ref);
    if v :| NoDuplicates(g.validations, ValidationKey) && v in g.validations && ProofOf(r, v) {
      IndexedRow(g.validations, ValidationKey, v);
      PassedIff(v);
    }
    if ResolutionSound(g, r) {
      PassedIff(Index(g.validations, ValidationKey)[ref]);
      assert ProofOf(r, Index(g.validations, ValidationKey)[ref]);
    }
  }

  lemma ClosureIff(g: Graph, i: Incident)
    ensures ClosureLinked(g, i) <==> HasResolution(g, i.incidentId.OrEmpty())
  {
    TextsAreOrEmpty();
  }

  lemma ClosuresIff(g: Graph)
    requires NoDuplicates(g.incidents, IncidentKey)
    ensures (forall i :: i in g.incidents && i.closed && !Blank(i.incidentId) ==> ClosureLinked(g, i))
            <==> (forall k :: k in Index(g.incidents, IncidentKey) && Index(g.incidents, IncidentKey)[k].closed ==>
                    HasResolution(g, k))
  {
    var incidents := Index(g.incidents, IncidentKey);
    TextsAreOrEmpty();
    forall k | k in incidents ensures incidents[k] in g.incidents && incidents[k].incidentId.OrEmpty() == k != "" {
      IndexMember(g.incidents, IncidentKey, k);
    }
    forall i | i in g.incidents && !Blank(i.incidentId)
      ensures i.incidentId.OrEmpty() in incidents && incidents[i.incidentId.OrEmpty()] == i
    {
      IndexedRow(g.incidents, IncidentKey, i);
    }
    forall i ensures ClosureLinked(g, i) <==> HasResolution(g, i.incidentId.OrEmpty()) { ClosureIff(g, i); }
  }

  lemma RowsIff(g: Graph)
    requires NoDuplicates(g.manifests, CaseOf)
    ensures forall p :: PlaceLinked(g, p) <==> Local(g, p)
    ensures forall m :: MrLinked(g, m) <==> MrSound(g, m)
    ensures forall m :: ManifestSound(g, m) ==> ManifestLinked(g, m)
    ensures forall r :: ResolutionSound(g, r) ==> ResolutionLinked(g, r)
  {
    forall p ensures PlaceLinked(g, p) <==> Local(g, p) { PlaceIff(g, p); }
    forall m ensures MrLinked(g, m) <==> MrSound(g, m) { MrIff(g, m); }
    forall m ensures ManifestSound(g, m) ==> ManifestLinked(g, m) { ManifestIff(g, m); }
    forall r ensures ResolutionSound(g, r) ==> ResolutionLinked(g, r) { ResolutionIff(g, r); }
  }

  /** In an accepted graph every row finds the rows it refers to, whatever ids repeat. */
  lemma SoundIsLinked(g: Graph)
    requires Sound(g)
    ensures RowsLinked(g)
  {
    DifferIff(g.manifests, CaseOf);
    DifferIff(g.workOrders, WorkOrderKey);
    RowsIff(g);
    TextsAreOrEmpty();
  }

  lemma LinkedIsSound(g: Graph)
    requires Linked(g) && NoDuplicates(g.incidents, IncidentKey) && NoDuplicates(g.validations, ValidationKey)
    ensures Sound(g)
  {
    DifferIff(g.manifests, CaseOf);
    DifferIff(g.workOrders, WorkOrderKey);
    RowsIff(g);
    forall m | ManifestLinked(g, m) ensures ManifestSound(g, m) { ManifestIff(g, m); }
    forall r | ResolutionLinked(g, r) ensures ResolutionSound(g, r) { ResolutionIff(g, r); }
    ClosuresIff(g);
    TextsAreOrEmpty();
  }

  /** Where no two incidents and no two validations share an id, the checker accepts exactly the graphs in which every
      row finds the rows it refers to and every closed incident is named by a resolution. */
  lemma SoundIffLinked(g: Graph)
    requires IdsDiffer(g.incidents, IncidentKey) && IdsDiffer(g.validations, ValidationKey)
    ensures Sound(g) <==> Linked(g)
  {
    DifferIff(g.incidents, IncidentKey);
    DifferIff(g.validations, ValidationKey);
    if Sound(g) {
      SoundIsLinked(g);
      ClosuresIff(g);
    }
    if Linked(g) { LinkedIsSound(g); }
  }
}
