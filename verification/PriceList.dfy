/** What a case costs and takes, written out in cents and minutes, and what one more kilometre or minute changes. */
module PriceList {
  import opened Common
  import opened Ordering
  import opened CostLedger
  import opened CostProperties

  /** Hourly rates in cents: 55 dollars for a clean crew, 140 for a plant crew. */
  function Hourly(crew: Crew): int { match crew case Clean => 55_00 case Dirty => 140_00 }

  /** Whole minutes from one timestamp to another, none when one is missing or they are in the wrong order. */
  function MinutesBetween(start: Option<int>, end: Option<int>): Option<int> {
    if start.Some? && end.Some? && start.value <= end.value then Some(RoundDiv(end.value - start.value, 60)) else None
  }

  /** One way, as the work order records it. */
  function DriveMinutes(w: WorkOrder): int { MinutesBetween(w.dispatchedAt, w.arrivedAt).GetOr(0) }

  function SiteMinutes(crew: Crew, w: WorkOrder): int {
    MinutesBetween(w.arrivedAt, w.completedAt).GetOr(match crew case Clean => 90 case Dirty => 180)
  }

  function Metres(w: WorkOrder): int { if w.roadMetres.Some? then Max(w.roadMetres.value, 0) else 0 }

  function IfSo(b: Option<bool>, cents: int): int { if b == Some(true) then cents else 0 }

  /** An executed visit: 8 minutes of planning at 50 dollars an hour, the drive there and back at the crew's rate and 60
      cents a kilometre, 180 dollars for a ferry, the time on site, and 220 dollars for a night. */
  function VisitPrice(crew: Crew): WorkOrder -> int {
    (w: WorkOrder) =>
      6_67
      + RoundDiv(Hourly(crew) * (2 * DriveMinutes(w)) * 1000 + 2 * Metres(w) * 60 * 60, 60 * 1000)
      + IfSo(w.ferryUsed, 180_00)
      + RoundDiv(Hourly(crew) * SiteMinutes(crew, w), 60)
      + IfSo(w.overnightUsed, 220_00)
  }

  function VisitTime(crew: Crew): WorkOrder -> int {
    (w: WorkOrder) => 8 + 2 * DriveMinutes(w) + SiteMinutes(crew, w)
  }

  /** A forecast visit, from the planning route: 45 cents a road minute each way for the vehicle. */
  function ForecastPrice(crew: Crew, route: Route): int {
    6_67
    + RoundDiv(Hourly(crew) * (2 * route.oneWayMinutes) + 90 * 60 * route.roadMinutes, 60)
    + (if route.requiresFerry then 180_00 else 0)
    + (match crew case Clean => 82_50 case Dirty => 420_00)
    + (if route.sameDayFeasible then 0 else 220_00)
  }

  function ForecastTime(crew: Crew, route: Route): int {
    8 + 2 * route.oneWayMinutes + (match crew case Clean => 90 case Dirty => 180)
  }

  /** The crew: as the first work order says, or without one as the action does. */
  function Sent(c: CaseFacts, workOrders: seq<WorkOrder>): Crew {
    if workOrders != [] then (if workOrders[0].plantCrew then Dirty else Clean)
    else if c.action == DispatchClean || c.action == CpeSwap then Clean
    else Dirty
  }

  /** Triage, root-cause analysis and, for a human decision, a review. */
  function OpeningPrice(c: CaseFacts): int { 18_75 + (if c.humanRequired then 13_00 else 0) }

  /** Validation and closure, if they happened or are still to come. */
  function ClosingPrice(c: CaseFacts): int {
    (if c.executed && !c.validated then 0 else 9_00) + (if c.executed && !c.closed then 0 else 6_00)
  }

  /** Preparing and reviewing the handover to the plant. */
  function HandoverPrice(c: CaseFacts, crew: Crew): int {
    if c.action != CreateMr && c.action != PlantRepair then 0
    else match crew case Clean => 35_42 case Dirty => 70_83
  }

  function PartsPrice(c: CaseFacts): int {
    if c.action == CpeSwap then 85_00
    else match c.domain
      case Cpe => 85_00
      case DropCable => 40_00
      case PremiseWiring => 40_00
      case PonOdp => 260_00
      case HfcTap => 120_00
      case Plant => if c.pon then 260_00 else 120_00
      case SharedNetwork => if c.pon then 260_00 else 120_00
      case OtherDomain => 0
  }

  function IsDispatch(a: Action): bool { a == DispatchClean || a == CpeSwap || a == CreateMr || a == PlantRepair }

  // ------------------------------------------------------------------ single lines

  lemma SumOne(a: Line, f: Line -> int)
    ensures Sum([a], f) == f(a)
  {
    assert [a][1..] == [];
  }

  lemma SumTwo(a: Line, b: Line, f: Line -> int)
    ensures Sum([a, b], f) == f(a) + f(b)
  {
    assert [a, b] == [a] + [b];
    SumAppend([a], [b], f);
    SumOne(a, f);
    SumOne(b, f);
  }

  lemma FourSums(start: seq<Line>, ferry: seq<Line>, site: seq<Line>, night: seq<Line>, f: Line -> int)
    ensures Sum(start + ferry + site + night, f) == Sum(start, f) + Sum(ferry, f) + Sum(site, f) + Sum(night, f)
  {
    SumAppend(start + ferry + site, night, f);
    SumAppend(start + ferry, site, f);
    SumAppend(start, ferry, f);
  }

  lemma SameTimes(w: WorkOrder)
    ensures w.OneWay() == MinutesBetween(w.dispatchedAt, w.arrivedAt)
    ensures w.OnSiteTime() == MinutesBetween(w.arrivedAt, w.completedAt)
  {
  }

  lemma ExecutedTravelPrice(w: WorkOrder, crew: Crew)
    ensures ExecutedTravel(w, crew).cents
            == RoundDiv(Hourly(crew) * (2 * DriveMinutes(w)) * 1000 + 2 * Metres(w) * 60 * 60, 60 * 1000)
  {
    SameTimes(w);
  }

  lemma OnSitePrice(route: Route, crew: Crew, w: WorkOrder)
    ensures OnSiteLine(true, crew, w).cents == RoundDiv(Hourly(crew) * SiteMinutes(crew, w), 60)
    ensures OnSiteLine(false, crew, w).cents == match crew case Clean => 82_50 case Dirty => 420_00
  {
    SameTimes(w);
  }

  lemma OptionalPrices(executed: bool, route: Route, w: WorkOrder)
    ensures Sum(FerryLines(executed, route, w), Cents)
            == if executed then IfSo(w.ferryUsed, 180_00) else if route.requiresFerry then 180_00 else 0
    ensures Sum(OvernightLines(executed, route, w), Cents)
            == if executed then IfSo(w.overnightUsed, 220_00) else if route.sameDayFeasible then 0 else 220_00
  {
    SumOne(Line(Ferry, 0, 18000, Condition(executed)), Cents);
    SumOne(Line(Overnight, 0, 22000, Condition(executed)), Cents);
  }

  lemma VisitSum(executed: bool, route: Route, crew: Crew, w: WorkOrder)
    ensures Sum(VisitLines(executed, route, crew)(w), Cents)
            == 6_67 + TravelLine(executed, route, crew, w).cents + Sum(FerryLines(executed, route, w), Cents)
               + OnSiteLine(executed, crew, w).cents + Sum(OvernightLines(executed, route, w), Cents)
  {
    var planning, travel := Standard(DispatchPlanning, 5000, 8), TravelLine(executed, route, crew, w);
    SumTwo(planning, travel, Cents);
    SumOne(OnSiteLine(executed, crew, w), Cents);
    FourSums([planning, travel], FerryLines(executed, route, w), [OnSiteLine(executed, crew, w)],
             OvernightLines(executed, route, w), Cents);
  }

  lemma VisitCosts(route: Route, crew: Crew, w: WorkOrder)
    ensures Sum(VisitLines(true, route, crew)(w), Cents) == VisitPrice(crew)(w)
  {
    VisitSum(true, route, crew, w);
    ExecutedTravelPrice(w, crew);
    OnSitePrice(route, crew, w);
    OptionalPrices(true, route, w);
  }

  lemma VisitTakes(route: Route, crew: Crew, w: WorkOrder)
    ensures Sum(VisitLines(true, route, crew)(w), Minutes) == VisitTime(crew)(w)
  {
    VisitCounts(true, route, crew, w, OnSite);
    SameTimes(w);
  }

  /** A forecast visit costs and takes what the route says. */
  lemma ForecastCosts(route: Route, crew: Crew, w: WorkOrder)
    ensures Sum(VisitLines(false, route, crew)(w), Cents) == ForecastPrice(crew, route)
  {
    VisitSum(false, route, crew, w);
    OnSitePrice(route, crew, w);
    OptionalPrices(false, route, w);
  }

  lemma ForecastTakes(route: Route, crew: Crew, w: WorkOrder)
    ensures Sum(VisitLines(false, route, crew)(w), Minutes) == ForecastTime(crew, route)
  {
    VisitCounts(false, route, crew, w, OnSite);
  }

  // ------------------------------------------------------------------ the parts of a case

  lemma OpeningSums(c: CaseFacts)
    ensures Sum(Opening(c), Cents) == OpeningPrice(c)
    ensures Sum(Opening(c), Minutes) == 25 + (if c.humanRequired then 12 else 0)
  {
    var start, review := [Standard(Triage, 4500, 10), Standard(Rca, 4500, 15)], Standard(GovernanceReview, 6500, 12);
    SumTwo(start[0], start[1], Cents);
    SumTwo(start[0], start[1], Minutes);
    SumAppend(start, [review], Cents);
    SumAppend(start, [review], Minutes);
    SumOne(review, Cents);
    SumOne(review, Minutes);
    assert start + [] == start;
  }

  lemma ClosingSums(c: CaseFacts)
    ensures Sum(Closing(c), Cents) == ClosingPrice(c)
    ensures Sum(Closing(c), Minutes) == (if c.executed && !c.validated then 0 else 12)
                                        + (if c.executed && !c.closed then 0 else 8)
  {
    var validation, closure := Standard(Validation, 4500, 12), Standard(Closure, 4500, 8);
    var first := if c.validated || !c.executed then [validation] else [];
    var second := if c.closed || !c.executed then [closure] else [];
    SumAppend(first, second, Cents);
    SumAppend(first, second, Minutes);
    SumOne(validation, Cents);
    SumOne(validation, Minutes);
    SumOne(closure, Cents);
    SumOne(closure, Minutes);
  }

  lemma HandoverSums(c: CaseFacts, crew: Crew)
    ensures Sum(Handover(c, crew), Cents) == HandoverPrice(c, crew)
    ensures Sum(Handover(c, crew), Minutes) == if c.action == CreateMr || c.action == PlantRepair then 40 else 0
  {
    SumTwo(Standard(HandoffPackage, CrewRate(crew), 25), Standard(HandoffReview, 5000, 15), Cents);
    SumTwo(Standard(HandoffPackage, CrewRate(crew), 25), Standard(HandoffReview, 5000, 15), Minutes);
  }

  lemma PartsSums(c: CaseFacts)
    ensures Sum(PartsLines(c), Cents) == PartsPrice(c) && Sum(PartsLines(c), Minutes) == 0
  {
    if PartsCents(c).Some? {
      SumOne(Line(Parts, 0, PartsCents(c).value, NoDuration), Cents);
      SumOne(Line(Parts, 0, PartsCents(c).value, NoDuration), Minutes);
    }
  }

  lemma ThreeSums(a: seq<Line>, b: seq<Line>, z: seq<Line>, f: Line -> int)
    ensures Sum(a + b + z, f) == Sum(a, f) + Sum(b, f) + Sum(z, f)
  {
    SumAppend(a + b, z, f);
    SumAppend(a, b, f);
  }

  // ------------------------------------------------------------------ a case

  /** The visits that are costed: the work orders, or one without any record. */
  function Visits(workOrders: seq<WorkOrder>): seq<WorkOrder> {
    if workOrders != [] then workOrders else [WorkOrder(None, None, None, None, None, None, false)]
  }

  function VisitsPrice(c: CaseFacts, route: Route, workOrders: seq<WorkOrder>): int {
    var crew := Sent(c, workOrders);
    if c.executed then Sum(Visits(workOrders), VisitPrice(crew)) else ForecastPrice(crew, route)
  }

  function VisitsTime(c: CaseFacts, route: Route, workOrders: seq<WorkOrder>): int {
    var crew := Sent(c, workOrders);
    if c.executed then Sum(Visits(workOrders), VisitTime(crew)) else ForecastTime(crew, route)
  }

  /** The action itself: visits with handover and parts, or remote work, or a manual review. */
  function ActionPrice(c: CaseFacts, route: Route, workOrders: seq<WorkOrder>): int {
    if IsDispatch(c.action)
    then HandoverPrice(c, Sent(c, workOrders)) + VisitsPrice(c, route, workOrders) + PartsPrice(c)
    else if c.action == RemoteRepair then 18_75
    else if c.action == CollectEvidence then 11_25
    else 13_00
  }

  function ActionTime(c: CaseFacts, route: Route, workOrders: seq<WorkOrder>): int {
    if IsDispatch(c.action)
    then (if c.action == CreateMr || c.action == PlantRepair then 40 else 0) + VisitsTime(c, route, workOrders)
    else if c.action == RemoteRepair then 25
    else if c.action == CollectEvidence then 15
    else 12
  }

  lemma ExecutedSums(route: Route, crew: Crew, visits: seq<WorkOrder>)
    ensures Sum(FlatMap(visits, VisitLines(true, route, crew)), Cents) == Sum(visits, VisitPrice(crew))
    ensures Sum(FlatMap(visits, VisitLines(true, route, crew)), Minutes) == Sum(visits, VisitTime(crew))
  {
    forall w { VisitCosts(route, crew, w); }
    forall w { VisitTakes(route, crew, w); }
    FlatMapSum(visits, VisitLines(true, route, crew), Cents, VisitPrice(crew));
    FlatMapSum(visits, VisitLines(true, route, crew), Minutes, VisitTime(crew));
  }

  lemma FlatMapOne<A(!new), B(!new)>(x: A, f: A -> seq<B>)
    ensures FlatMap([x], f) == f(x)
  {
    assert [x][..0] == [];
  }

  lemma VisitsSums(c: CaseFacts, route: Route, workOrders: seq<WorkOrder>, lines: seq<Line>)
    requires lines == FlatMap(VisitsOf(c.executed, workOrders), VisitLines(c.executed, route, Sent(c, workOrders)))
    ensures Sum(lines, Cents) == VisitsPrice(c, route, workOrders)
    ensures Sum(lines, Minutes) == VisitsTime(c, route, workOrders)
  {
    var crew := Sent(c, workOrders);
    if c.executed {
      ExecutedSums(route, crew, Visits(workOrders));
    } else {
      FlatMapOne(NO_RECORD, VisitLines(false, route, crew));
      ForecastCosts(route, crew, NO_RECORD);
      ForecastTakes(route, crew, NO_RECORD);
    }
  }

  lemma DispatchSums(c: CaseFacts, route: Route, workOrders: seq<WorkOrder>)
    requires IsDispatch(c.action)
    ensures Sum(DispatchLines(c, route, workOrders), Cents) == ActionPrice(c, route, workOrders)
    ensures Sum(DispatchLines(c, route, workOrders), Minutes) == ActionTime(c, route, workOrders)
  {
    var crew := Sent(c, workOrders);
    var visits := FlatMap(VisitsOf(c.executed, workOrders), VisitLines(c.executed, route, crew));
    assert crew == CrewOf(c.action, workOrders);
    VisitsSums(c, route, workOrders, visits);
    HandoverSums(c, crew);
    PartsSums(c);
    ThreeSums(Handover(c, crew), visits, PartsLines(c), Cents);
    ThreeSums(Handover(c, crew), visits, PartsLines(c), Minutes);
  }

  lemma ActionSums(c: CaseFacts, route: Route, workOrders: seq<WorkOrder>)
    ensures Sum(Middle(c, route, workOrders), Cents) == ActionPrice(c, route, workOrders)
    ensures Sum(Middle(c, route, workOrders), Minutes) == ActionTime(c, route, workOrders)
  {
    var middle := Middle(c, route, workOrders);
    if IsDispatch(c.action) {
      DispatchSums(c, route, workOrders);
    } else {
      SumOne(middle[0], Cents);
      SumOne(middle[0], Minutes);
    }
  }

  /** What any case costs and takes: opening, action and closing, executed or forecast, priced line by line. */
  lemma CaseIsPriced(c: CaseFacts, route: Route, workOrders: seq<WorkOrder>)
    ensures var r := Projection(c, route, workOrders);
            && r.totalCents == OpeningPrice(c) + ActionPrice(c, route, workOrders) + ClosingPrice(c)
            && r.totalMinutes == 25 + (if c.humanRequired then 12 else 0) + ActionTime(c, route, workOrders)
                                 + (if c.executed && !c.validated then 0 else 12)
                                 + (if c.executed && !c.closed then 0 else 8)
  {
    OpeningSums(c);
    ActionSums(c, route, workOrders);
    ClosingSums(c);
    ThreeSums(Opening(c), Middle(c, route, workOrders), Closing(c), Cents);
    ThreeSums(Opening(c), Middle(c, route, workOrders), Closing(c), Minutes);
  }

  // ------------------------------------------------------------------ a kilometre more, two minutes later

  lemma {:induction false} SumUpdate(s: seq<WorkOrder>, k: nat, w: WorkOrder, f: WorkOrder -> int)
    requires k < |s|
    ensures Sum(s[k := w], f) == Sum(s, f) - f(s[k]) + f(w)
  {
    if k > 0 {
      SumUpdate(s[1..], k - 1, w, f);
      assert s[k := w][1..] == s[1..][k - 1 := w];
    } else {
      assert s[k := w][1..] == s[1..];
    }
  }

  /** Another work order in place of one, for the same crew, changes the totals by what the two visits differ in. */
  lemma WorkOrderReplaced(c: CaseFacts, route: Route, workOrders: seq<WorkOrder>, k: nat, w: WorkOrder)
    requires c.executed && IsDispatch(c.action) && k < |workOrders| && w.plantCrew == workOrders[k].plantCrew
    ensures var a, b, crew := Projection(c, route, workOrders), Projection(c, route, workOrders[k := w]),
                              Sent(c, workOrders);
            && b.totalCents == a.totalCents - VisitPrice(crew)(workOrders[k]) + VisitPrice(crew)(w)
            && b.totalMinutes == a.totalMinutes - VisitTime(crew)(workOrders[k]) + VisitTime(crew)(w)
  {
    var crew := Sent(c, workOrders);
    assert Sent(c, workOrders[k := w]) == crew;
    CaseIsPriced(c, route, workOrders);
    CaseIsPriced(c, route, workOrders[k := w]);
    SumUpdate(workOrders, k, w, VisitPrice(crew));
    SumUpdate(workOrders, k, w, VisitTime(crew));
  }

  lemma TotalsShift(c: CaseFacts, route: Route, workOrders: seq<WorkOrder>, k: nat, w: WorkOrder, cents: int,
                    minutes: int)
    requires c.executed && IsDispatch(c.action) && k < |workOrders| && w.plantCrew == workOrders[k].plantCrew
    requires VisitPrice(Sent(c, workOrders))(w) == VisitPrice(Sent(c, workOrders))(workOrders[k]) + cents
    requires VisitTime(Sent(c, workOrders))(w) == VisitTime(Sent(c, workOrders))(workOrders[k]) + minutes
    ensures Projection(c, route, workOrders[k := w]).totalCents == Projection(c, route, workOrders).totalCents + cents
    ensures Projection(c, route, workOrders[k := w]).totalMinutes
            == Projection(c, route, workOrders).totalMinutes + minutes
  {
    WorkOrderReplaced(c, route, workOrders, k, w);
  }

  lemma RoundsWithKilometre(n: int)
    ensures RoundDiv(n + 2 * 1000 * 60 * 60, 60 * 1000) == RoundDiv(n, 60 * 1000) + 1_20
  {
  }

  lemma RoundsWithMinutes(seconds: int)
    ensures RoundDiv(seconds + 120, 60) == RoundDiv(seconds, 60) + 2
    ensures RoundDiv(seconds - 120, 60) == RoundDiv(seconds, 60) - 2
  {
  }

  lemma LongerVisit(crew: Crew, w: WorkOrder, longer: WorkOrder)
    requires w.roadMetres.Some? && w.roadMetres.value >= 0
    requires longer == w.(roadMetres := Some(w.roadMetres.value + 1000))
    ensures VisitPrice(crew)(longer) == VisitPrice(crew)(w) + 1_20 && VisitTime(crew)(longer) == VisitTime(crew)(w)
  {
    var labour := Hourly(crew) * (2 * DriveMinutes(w)) * 1000;
    assert DriveMinutes(longer) == DriveMinutes(w) && SiteMinutes(crew, longer) == SiteMinutes(crew, w);
    assert Metres(longer) == Metres(w) + 1000;
    RoundsWithKilometre(labour + 2 * Metres(w) * 60 * 60);
  }

  lemma LaterVisit(crew: Crew, w: WorkOrder, late: WorkOrder)
    requires w.dispatchedAt.Some? && w.arrivedAt.Some? && w.completedAt.Some?
    requires w.dispatchedAt.value <= w.arrivedAt.value && w.arrivedAt.value + 120 <= w.completedAt.value
    requires late == w.(arrivedAt := Some(w.arrivedAt.value + 120))
    ensures VisitTime(crew)(late) == VisitTime(crew)(w) + 2
  {
    RoundsWithMinutes(w.arrivedAt.value - w.dispatchedAt.value);
    RoundsWithMinutes(w.completedAt.value - w.arrivedAt.value);
    assert DriveMinutes(late) == DriveMinutes(w) + 2;
    assert SiteMinutes(crew, late) == SiteMinutes(crew, w) - 2;
  }

  /** One kilometre more on one executed work order costs 1 dollar 20 more, whatever else is on the ledger. */
  lemma KilometreCosts(c: CaseFacts, route: Route, workOrders: seq<WorkOrder>, k: nat, longer: WorkOrder)
    requires c.executed && IsDispatch(c.action) && k < |workOrders|
    requires workOrders[k].roadMetres.Some? && workOrders[k].roadMetres.value >= 0
    requires longer == workOrders[k].(roadMetres := Some(workOrders[k].roadMetres.value + 1000))
    ensures Projection(c, route, workOrders[k := longer]).totalCents
            == Projection(c, route, workOrders).totalCents + 1_20
    ensures Projection(c, route, workOrders[k := longer]).totalMinutes == Projection(c, route, workOrders).totalMinutes
  {
    LongerVisit(Sent(c, workOrders), workOrders[k], longer);
    TotalsShift(c, route, workOrders, k, longer, 1_20, 0);
  }

  /** Arriving two minutes later takes four minutes more of travel and two less on site. */
  lemma ArrivingLater(c: CaseFacts, route: Route, workOrders: seq<WorkOrder>, k: nat, late: WorkOrder)
    requires c.executed && IsDispatch(c.action) && k < |workOrders|
    requires var w := workOrders[k];
             w.dispatchedAt.Some? && w.arrivedAt.Some? && w.completedAt.Some?
             && w.dispatchedAt.value <= w.arrivedAt.value && w.arrivedAt.value + 120 <= w.completedAt.value
    requires late == workOrders[k].(arrivedAt := Some(workOrders[k].arrivedAt.value + 120))
    ensures Projection(c, route, workOrders[k := late]).totalMinutes
            == Projection(c, route, workOrders).totalMinutes + 2
  {
    WorkOrderReplaced(c, route, workOrders, k, late);
    LaterVisit(Sent(c, workOrders), workOrders[k], late);
  }

  // ------------------------------------------------------------------ records and provenance

  /** The durations that the work orders record, in order. */
  function DriveKnown(w: WorkOrder): seq<int> {
    if MinutesBetween(w.dispatchedAt, w.arrivedAt).Some? then [MinutesBetween(w.dispatchedAt, w.arrivedAt).value]
    else []
  }

  function SiteKnown(w: WorkOrder): seq<int> {
    if MinutesBetween(w.arrivedAt, w.completedAt).Some? then [MinutesBetween(w.arrivedAt, w.completedAt).value] else []
  }

  /** Nothing is missing from the work order. */
  predicate FullyRecorded(w: WorkOrder) {
    && DriveKnown(w) != [] && SiteKnown(w) != [] && w.ferryUsed.Some? && w.overnightUsed.Some?
    && w.roadMetres.Some? && w.roadMetres.value >= 0
  }

  lemma CompleteIff(w: WorkOrder)
    ensures w.Complete() <==> FullyRecorded(w)
    ensures Known(w.OneWay()) == DriveKnown(w) && Known(w.OnSiteTime()) == SiteKnown(w)
  {
    SameTimes(w);
  }

  /** The running durations and the completeness of executed visits are those of their work orders. */
  lemma {:induction false} TallyIsOfRecords(route: Route, visits: seq<WorkOrder>)
    ensures var t := Tallied(true, route, visits);
            && t.travelMinutes == FlatMap(visits, DriveKnown) && t.onSiteMinutes == FlatMap(visits, SiteKnown)
            && (t.complete <==> forall w :: w in visits ==> FullyRecorded(w))
  {
    if visits != [] {
      var n := |visits| - 1;
      TallyIsOfRecords(route, visits[..n]);
      CompleteIff(visits[n]);
      assert forall w :: w in visits <==> w in visits[..n] || w == visits[n];
    }
  }

  /** Where the numbers of a ledger may come from. */
  ghost predicate Honest(executed: bool, l: Line) {
    if executed then l.provenance !in {PlanningRoute, RouteCondition}
    else l.provenance !in {WorkOrderEconomics, WorkOrderTimestamps, AssumedMissing}
  }

  lemma {:induction false} FlatMapHonest(executed: bool, visits: seq<WorkOrder>, f: WorkOrder -> seq<Line>)
    requires forall w, l :: w in visits && l in f(w) ==> Honest(executed, l)
    ensures forall l :: l in FlatMap(visits, f) ==> Honest(executed, l)
  {
    if visits != [] {
      assert visits[|visits| - 1] in visits;
      FlatMapHonest(executed, visits[..|visits| - 1], f);
    }
  }

  lemma VisitIsHonest(executed: bool, route: Route, crew: Crew, w: WorkOrder)
    ensures forall l :: l in VisitLines(executed, route, crew)(w) ==> Honest(executed, l)
  {
  }

  lemma DispatchIsHonest(c: CaseFacts, route: Route, workOrders: seq<WorkOrder>)
    ensures forall l :: l in DispatchLines(c, route, workOrders) ==> Honest(c.executed, l)
  {
    var crew, visits := CrewOf(c.action, workOrders), VisitsOf(c.executed, workOrders);
    forall w, l | w in visits && l in VisitLines(c.executed, route, crew)(w) ensures Honest(c.executed, l) {
      VisitIsHonest(c.executed, route, crew, w);
    }
    FlatMapHonest(c.executed, visits, VisitLines(c.executed, route, crew));
  }

  lemma FrameIsHonest(c: CaseFacts)
    ensures forall l :: l in Opening(c) || l in Closing(c) ==> Honest(c.executed, l)
  {
    forall l | l in Opening(c) ensures l.provenance == AssumedStandard {}
    forall l | l in Closing(c) ensures l.provenance == AssumedStandard {}
  }

  lemma MiddleIsHonest(c: CaseFacts, route: Route, workOrders: seq<WorkOrder>)
    ensures forall l :: l in Middle(c, route, workOrders) ==> Honest(c.executed, l)
  {
    if c.action.Dispatches() { DispatchIsHonest(c, route, workOrders); }
  }

  /** No number on the ledger of executed work comes from the planning route, and none on a forecast from a record. */
  lemma ProvenanceIsHonest(c: CaseFacts, route: Route, workOrders: seq<WorkOrder>)
    ensures forall l :: l in Projection(c, route, workOrders).lines ==> Honest(c.executed, l)
  {
    FrameIsHonest(c);
    MiddleIsHonest(c, route, workOrders);
  }

  /** On-site time is said to be recorded exactly when it is. */
  lemma OnSiteProvenance(crew: Crew, w: WorkOrder)
    ensures OnSiteLine(true, crew, w).provenance
            == if SiteKnown(w) != [] then WorkOrderTimestamps else AssumedMissing
    ensures OnSiteLine(true, crew, w).minutes == SiteMinutes(crew, w)
  {
    SameTimes(w);
  }
}
