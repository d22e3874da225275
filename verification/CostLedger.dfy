/** The cost ledger of one case: executed work is costed from its work orders, other work from the planning route.
    Money is in cents, timestamps in seconds, road distance in metres. CostProperties says what the ledger keeps. */
module CostLedger {
  import opened Common
  import opened Ordering

  datatype Action = RemoteRepair | CollectEvidence | DispatchClean | CpeSwap | CreateMr | PlantRepair | OtherAction
  {
    predicate Dispatches() { this in {DispatchClean, CpeSwap, CreateMr, PlantRepair} }

    predicate HandsOver() { this in {CreateMr, PlantRepair} }
  }

  datatype Domain = Cpe | DropCable | PremiseWiring | PonOdp | HfcTap | Plant | SharedNetwork | OtherDomain

  datatype Crew = Clean | Dirty

  datatype Step =
    | Triage | Rca | GovernanceReview | RemoteAction | EvidenceCollection | HandoffPackage | HandoffReview
    | DispatchPlanning | Travel | Ferry | OnSite | Overnight | Parts | ManualReview | Validation | Closure

  datatype Provenance =
    | AssumedStandard | WorkOrderEconomics | WorkOrderTimestamps | AssumedMissing | PlanningRoute
    | RouteCondition | NoDuration

  datatype Line = Line(step: Step, minutes: int, cents: int, provenance: Provenance)

  function Minutes(l: Line): int { l.minutes }
  function Cents(l: Line): int { l.cents }

  datatype Route = Route(oneWayMinutes: nat, roadMinutes: nat, requiresFerry: bool, sameDayFeasible: bool)

  /** What a generated work order records; a missing or malformed field is None. */
  datatype WorkOrder = WorkOrder(
    dispatchedAt: Option<int>, arrivedAt: Option<int>, completedAt: Option<int>, roadMetres: Option<int>,
    ferryUsed: Option<bool>, overnightUsed: Option<bool>, plantCrew: bool)
  {
    predicate UsedFerry() { ferryUsed == Some(true) }

    predicate UsedOvernight() { overnightUsed == Some(true) }

    function OneWay(): Option<nat> { DurationMinutes(dispatchedAt, arrivedAt) }

    function OnSiteTime(): Option<nat> { DurationMinutes(arrivedAt, completedAt) }

    predicate Complete() {
      OneWay().Some? && OnSiteTime().Some? && roadMetres.Some? && roadMetres.value >= 0
      && ferryUsed.Some? && overnightUsed.Some?
    }
  }

  /** The visit assumed when executed work left no work order: an empty record. */
  const NO_RECORD := WorkOrder(None, None, None, None, None, None, false)

  function DurationMinutes(start: Option<int>, end: Option<int>): Option<nat> {
    if start.None? || end.None? || end.value < start.value then None
    else Some(RoundDiv(end.value - start.value, 60))
  }

  datatype CaseFacts = CaseFacts(
    action: Action, executed: bool, domain: Domain, pon: bool, humanRequired: bool, validated: bool, closed: bool)

  // ------------------------------------------------------------------ rates and single lines

  /** Labour for a number of minutes at an hourly rate in cents. */
  function Labour(hourly: int, minutes: int): int { RoundDiv(hourly * minutes, 60) }

  function CrewRate(crew: Crew): int { if crew == Clean then 5500 else 14000 }

  function StandardOnSite(crew: Crew): int { if crew == Clean then 90 else 180 }

  function Standard(step: Step, hourly: int, minutes: int): Line {
    Line(step, minutes, Labour(hourly, minutes), AssumedStandard)
  }

  function CrewOf(action: Action, workOrders: seq<WorkOrder>): Crew {
    if workOrders != [] then (if workOrders[0].plantCrew then Dirty else Clean)
    else if action in {DispatchClean, CpeSwap} then Clean
    else Dirty
  }

  function PartsCents(c: CaseFacts): Option<int> {
    if c.action == CpeSwap || c.domain == Cpe then Some(8500)
    else if c.domain in {DropCable, PremiseWiring} then Some(4000)
    else if c.domain == PonOdp || (c.domain in {Plant, SharedNetwork} && c.pon) then Some(26000)
    else if c.domain == HfcTap || c.domain in {Plant, SharedNetwork} then Some(12000)
    else None
  }

  function PartsLines(c: CaseFacts): seq<Line> {
    if PartsCents(c).Some? then [Line(Parts, 0, PartsCents(c).value, NoDuration)] else []
  }

  // ------------------------------------------------------------------ the ledger as a function

  function Opening(c: CaseFacts): seq<Line> {
    [Standard(Triage, 4500, 10), Standard(Rca, 4500, 15)]
    + (if c.humanRequired then [Standard(GovernanceReview, 6500, 12)] else [])
  }

  function Handover(c: CaseFacts, crew: Crew): seq<Line> {
    if c.action.HandsOver()
    then [Standard(HandoffPackage, CrewRate(crew), 25), Standard(HandoffReview, 5000, 15)]
    else []
  }

  /** Round-trip labour plus both directions of road distance at 60 cents a kilometre. */
  function ExecutedTravel(w: WorkOrder, crew: Crew): Line {
    var roundTrip := 2 * w.OneWay().GetOr(0);
    var metres := if w.roadMetres.Some? && w.roadMetres.value >= 0 then w.roadMetres.value else 0;
    Line(Travel, roundTrip, RoundDiv(CrewRate(crew) * roundTrip * 1000 + 7200 * metres, 60000), WorkOrderEconomics)
  }

  function ForecastTravel(route: Route, crew: Crew): Line {
    var roundTrip := 2 * route.oneWayMinutes;
    Line(Travel, roundTrip, RoundDiv(CrewRate(crew) * roundTrip + 5400 * route.roadMinutes, 60), PlanningRoute)
  }

  predicate TakesFerry(executed: bool, route: Route, w: WorkOrder) {
    if executed then w.UsedFerry() else route.requiresFerry
  }

  predicate StaysOvernight(executed: bool, route: Route, w: WorkOrder) {
    if executed then w.UsedOvernight() else !route.sameDayFeasible
  }

  function OnSiteLine(executed: bool, crew: Crew, w: WorkOrder): Line {
    if executed && w.OnSiteTime().Some?
    then Line(OnSite, w.OnSiteTime().value, Labour(CrewRate(crew), w.OnSiteTime().value), WorkOrderTimestamps)
    else Line(OnSite, StandardOnSite(crew), Labour(CrewRate(crew), StandardOnSite(crew)),
              if executed then AssumedMissing else AssumedStandard)
  }

  function Condition(executed: bool): Provenance { if executed then WorkOrderEconomics else RouteCondition }

  function TravelLine(executed: bool, route: Route, crew: Crew, w: WorkOrder): Line {
    if executed then ExecutedTravel(w, crew) else ForecastTravel(route, crew)
  }

  function FerryLines(executed: bool, route: Route, w: WorkOrder): seq<Line> {
    if TakesFerry(executed, route, w) then [Line(Ferry, 0, 18000, Condition(executed))] else []
  }

  function OvernightLines(executed: bool, route: Route, w: WorkOrder): seq<Line> {
    if StaysOvernight(executed, route, w) then [Line(Overnight, 0, 22000, Condition(executed))] else []
  }

  /** The lines of one visit, executed or forecast. */
  function VisitLines(executed: bool, route: Route, crew: Crew): WorkOrder -> seq<Line> {
    (w: WorkOrder) =>
      [Standard(DispatchPlanning, 5000, 8), TravelLine(executed, route, crew, w)] + FerryLines(executed, route, w)
      + [OnSiteLine(executed, crew, w)] + OvernightLines(executed, route, w)
  }

  /** `work_orders if executed and work_orders else [{}]` */
  function VisitsOf(executed: bool, workOrders: seq<WorkOrder>): seq<WorkOrder> {
    if executed && workOrders != [] then workOrders else [NO_RECORD]
  }

  function FlatMap<A(!new), B(!new)>(s: seq<A>, f: A -> seq<B>): seq<B> {
    if s == [] then [] else FlatMap(s[..|s| - 1], f) + f(s[|s| - 1])
  }

  function DispatchLines(c: CaseFacts, route: Route, workOrders: seq<WorkOrder>): seq<Line> {
    var crew := CrewOf(c.action, workOrders);
    Handover(c, crew)
    + FlatMap(VisitsOf(c.executed, workOrders), VisitLines(c.executed, route, crew))
    + PartsLines(c)
  }

  function Middle(c: CaseFacts, route: Route, workOrders: seq<WorkOrder>): seq<Line> {
    if c.action == RemoteRepair then [Standard(RemoteAction, 4500, 25)]
    else if c.action == CollectEvidence then [Standard(EvidenceCollection, 4500, 15)]
    else if c.action.Dispatches() then DispatchLines(c, route, workOrders)
    else [Standard(ManualReview, 6500, 12)]
  }

  function Closing(c: CaseFacts): seq<Line> {
    (if c.validated || !c.executed then [Standard(Validation, 4500, 12)] else [])
    + (if c.closed || !c.executed then [Standard(Closure, 4500, 8)] else [])
  }

  function Ledger(c: CaseFacts, route: Route, workOrders: seq<WorkOrder>): seq<Line> {
    Opening(c) + Middle(c, route, workOrders) + Closing(c)
  }

  // ------------------------------------------------------------------ the projection

  function Known(time: Option<nat>): seq<int> { if time.Some? then [time.value] else [] }

  function One(b: bool): nat { if b then 1 else 0 }

  /** What the visits add up to, besides ledger lines. */
  datatype Tally = Tally(
    executedFerries: nat, forecastFerries: nat, executedOvernights: nat, forecastOvernights: nat,
    travelMinutes: seq<int>, onSiteMinutes: seq<int>, complete: bool)

  const NO_TALLY := Tally(0, 0, 0, 0, [], [], true)

  /** One visit's effect on the tally. */
  function Advance(executed: bool, route: Route, t: Tally, w: WorkOrder): Tally {
    var ferry, overnight := One(TakesFerry(executed, route, w)), One(StaysOvernight(executed, route, w));
    if executed then
      t.(executedFerries := t.executedFerries + ferry, executedOvernights := t.executedOvernights + overnight,
         travelMinutes := t.travelMinutes + Known(w.OneWay()), onSiteMinutes := t.onSiteMinutes + Known(w.OnSiteTime()),
         complete := t.complete && w.Complete())
    else
      t.(forecastFerries := t.forecastFerries + ferry, forecastOvernights := t.forecastOvernights + overnight)
  }

  function Tallied(executed: bool, route: Route, visits: seq<WorkOrder>): Tally {
    if visits == [] then NO_TALLY
    else Advance(executed, route, Tallied(executed, route, visits[..|visits| - 1]), visits[|visits| - 1])
  }

  datatype CostResult = CostResult(
    lines: seq<Line>, totalMinutes: int, totalCents: int,
    truckRolls: nat, executedTruckRolls: nat, forecastTruckRolls: nat, tally: Tally)

  function TallyOf(c: CaseFacts, route: Route, workOrders: seq<WorkOrder>): Tally {
    if c.action.Dispatches() then Tallied(c.executed, route, VisitsOf(c.executed, workOrders)) else NO_TALLY
  }

  function TruckRolls(c: CaseFacts, workOrders: seq<WorkOrder>): nat {
    if c.action.Dispatches() then |VisitsOf(c.executed, workOrders)| else 0
  }

  function Projection(c: CaseFacts, route: Route, workOrders: seq<WorkOrder>): CostResult {
    var lines, rolls := Ledger(c, route, workOrders), TruckRolls(c, workOrders);
    CostResult(lines, Sum(lines, Minutes), Sum(lines, Cents), rolls,
               if c.executed then rolls else 0, if c.executed then 0 else rolls, TallyOf(c, route, workOrders))
  }

  lemma FlatMapStep<A(!new), B(!new)>(s: seq<A>, i: nat, f: A -> seq<B>)
    requires i < |s|
    ensures FlatMap(s[..i + 1], f) == FlatMap(s[..i], f) + f(s[i])
  {
    assert s[..i + 1][..i] == s[..i];
  }

  /** The lines that a visit may and must have, and its minutes. */
  ghost predicate VisitShape(lines: seq<Line>, executed: bool, route: Route, crew: Crew, w: WorkOrder) {
    && LineCount(lines, OnSite) == 1
    && LineCount(lines, Ferry) == One(TakesFerry(executed, route, w))
    && LineCount(lines, Overnight) == One(StaysOvernight(executed, route, w))
    && Sum(lines, Minutes) == 8 + VisitTravel(executed, route, w) + VisitOnSite(executed, crew, w)
  }

  function VisitTravel(executed: bool, route: Route, w: WorkOrder): int {
    2 * (if executed then w.OneWay().GetOr(0) else route.oneWayMinutes)
  }

  function VisitOnSite(executed: bool, crew: Crew, w: WorkOrder): int {
    if executed then w.OnSiteTime().GetOr(StandardOnSite(crew)) else StandardOnSite(crew)
  }

  function Is(step: Step): Line -> bool { (l: Line) => l.step == step }

  function LineCount(lines: seq<Line>, step: Step): nat { Count(lines, Is(step)) }

  lemma CountAppend(a: seq<Line>, b: seq<Line>, step: Step)
    ensures LineCount(a + b, step) == LineCount(a, step) + LineCount(b, step)
  {
    FilterAppend(a, b, Is(step));
  }

  /** The four parts of a visit and what they add up to. */
  lemma PartsAdd(start: seq<Line>, ferry: seq<Line>, site: seq<Line>, night: seq<Line>, step: Step)
    ensures LineCount(start + ferry + site + night, step)
            == LineCount(start, step) + LineCount(ferry, step) + LineCount(site, step) + LineCount(night, step)
    ensures Sum(start + ferry + site + night, Minutes)
            == Sum(start, Minutes) + Sum(ferry, Minutes) + Sum(site, Minutes) + Sum(night, Minutes)
  {
    CountAppend(start + ferry + site, night, step);
    CountAppend(start + ferry, site, step);
    CountAppend(start, ferry, step);
    SumAppend(start + ferry + site, night, Minutes);
    SumAppend(start + ferry, site, Minutes);
    SumAppend(start, ferry, Minutes);
  }

  lemma CountPair(a: Line, b: Line, step: Step)
    ensures LineCount([a], step) == One(a.step == step)
    ensures LineCount([a, b], step) == One(a.step == step) + One(b.step == step)
    ensures Sum([a, b], Minutes) == a.minutes + b.minutes && Sum([a], Minutes) == a.minutes
  {
    assert [a, b] == [a] + [b];
    CountAppend([a], [b], step);
    SumAppend([a], [b], Minutes);
  }

  /** A visit has one on-site line, a ferry or overnight line exactly when its record or the route says so, and lasts
      as long as planning, travel and site work. */
  lemma VisitHasShape(executed: bool, route: Route, crew: Crew, w: WorkOrder)
    ensures VisitShape(VisitLines(executed, route, crew)(w), executed, route, crew, w)
  {
    VisitCounts(executed, route, crew, w, OnSite);
    VisitCounts(executed, route, crew, w, Ferry);
    VisitCounts(executed, route, crew, w, Overnight);
  }

  function Expected(executed: bool, route: Route, w: WorkOrder, step: Step): nat {
    if step == Ferry then One(TakesFerry(executed, route, w))
    else if step == Overnight then One(StaysOvernight(executed, route, w))
    else 1
  }

  ghost predicate Counted(step: Step) { step == Ferry || step == Overnight || step == OnSite }

  lemma VisitCounts(executed: bool, route: Route, crew: Crew, w: WorkOrder, step: Step)
    requires Counted(step)
    ensures var lines := VisitLines(executed, route, crew)(w);
            && LineCount(lines, step) == Expected(executed, route, w, step)
            && Sum(lines, Minutes) == 8 + VisitTravel(executed, route, w) + VisitOnSite(executed, crew, w)
  {
    OptionalLines(executed, route, w, step);
    FixedLine(executed, route, crew, w, step);
    PartsAdd([Standard(DispatchPlanning, 5000, 8), TravelLine(executed, route, crew, w)],
             FerryLines(executed, route, w), [OnSiteLine(executed, crew, w)], OvernightLines(executed, route, w), step);
  }

  lemma OptionalLines(executed: bool, route: Route, w: WorkOrder, step: Step)
    ensures LineCount(FerryLines(executed, route, w), step) == One(TakesFerry(executed, route, w) && step == Ferry)
    ensures LineCount(OvernightLines(executed, route, w), step)
            == One(StaysOvernight(executed, route, w) && step == Overnight)
    ensures Sum(FerryLines(executed, route, w), Minutes) == Sum(OvernightLines(executed, route, w), Minutes) == 0
  {
    CountPair(Line(Ferry, 0, 18000, Condition(executed)), Line(Overnight, 0, 22000, Condition(executed)), step);
    CountPair(Line(Overnight, 0, 22000, Condition(executed)), Line(Ferry, 0, 18000, Condition(executed)), step);
  }

  lemma FixedLine(executed: bool, route: Route, crew: Crew, w: WorkOrder, step: Step)
    requires Counted(step)
    ensures var start := [Standard(DispatchPlanning, 5000, 8), TravelLine(executed, route, crew, w)];
            LineCount(start, step) == 0 && Sum(start, Minutes) == 8 + VisitTravel(executed, route, w)
    ensures var site := [OnSiteLine(executed, crew, w)];
            LineCount(site, step) == One(step == OnSite) && Sum(site, Minutes) == VisitOnSite(executed, crew, w)
  {
    CountPair(Standard(DispatchPlanning, 5000, 8), TravelLine(executed, route, crew, w), step);
    CountPair(OnSiteLine(executed, crew, w), TravelLine(executed, route, crew, w), step);
  }

  /** One turn of the visit loop. */
  method CostVisit(executed: bool, route: Route, crew: Crew, w: WorkOrder) returns (lines: seq<Line>)
    ensures lines == VisitLines(executed, route, crew)(w)
    ensures VisitShape(lines, executed, route, crew, w)
  {
    var onSite, overnight;
    lines := [Standard(DispatchPlanning, 5000, 8)];
    if executed {
      lines := lines + [ExecutedTravel(w, crew)];
      if w.UsedFerry() { lines := lines + [Line(Ferry, 0, 18000, WorkOrderEconomics)]; }
      onSite := Line(OnSite, StandardOnSite(crew), Labour(CrewRate(crew), StandardOnSite(crew)), AssumedMissing);
      if w.OnSiteTime().Some? {
        onSite := Line(OnSite, w.OnSiteTime().value, Labour(CrewRate(crew), w.OnSiteTime().value), WorkOrderTimestamps);
      }
      overnight := w.UsedOvernight();
    } else {
      lines := lines + [ForecastTravel(route, crew)];
      if route.requiresFerry { lines := lines + [Line(Ferry, 0, 18000, RouteCondition)]; }
      onSite := Line(OnSite, StandardOnSite(crew), Labour(CrewRate(crew), StandardOnSite(crew)), AssumedStandard);
      overnight := !route.sameDayFeasible;
    }
    assert lines == [Standard(DispatchPlanning, 5000, 8), TravelLine(executed, route, crew, w)]
                    + FerryLines(executed, route, w);
    assert onSite == OnSiteLine(executed, crew, w);
    lines := lines + [onSite];
    if overnight {
      lines := lines + [Line(Overnight, 0, 22000, if executed then WorkOrderEconomics else RouteCondition)];
    }
    VisitHasShape(executed, route, crew, w);
  }

  lemma TalliedStep(executed: bool, route: Route, visits: seq<WorkOrder>, i: nat)
    requires i < |visits|
    ensures Tallied(executed, route, visits[..i + 1])
            == Advance(executed, route, Tallied(executed, route, visits[..i]), visits[i])
  {
    assert visits[..i + 1][..i] == visits[..i];
  }

  /** The visit loop, with the branch on executed work inside it. */
  method CostVisits(executed: bool, route: Route, crew: Crew, visits: seq<WorkOrder>)
    returns (lines: seq<Line>, tally: Tally)
    ensures lines == FlatMap(visits, VisitLines(executed, route, crew))
    ensures tally == Tallied(executed, route, visits)
  {
    lines, tally := [], NO_TALLY;
    for i := 0 to |visits|
      invariant lines == FlatMap(visits[..i], VisitLines(executed, route, crew))
      invariant tally == Tallied(executed, route, visits[..i])
    {
      FlatMapStep(visits, i, VisitLines(executed, route, crew));
      TalliedStep(executed, route, visits, i);
      var visitLines := CostVisit(executed, route, crew, visits[i]);
      lines := lines + visitLines;
      tally := Advance(executed, route, tally, visits[i]);
    }
    assert visits[..|visits|] == visits;
  }

  method CostDispatch(c: CaseFacts, route: Route, workOrders: seq<WorkOrder>)
    returns (lines: seq<Line>, tally: Tally, rolls: nat)
    requires c.action.Dispatches()
    ensures lines == DispatchLines(c, route, workOrders)
    ensures tally == TallyOf(c, route, workOrders) && rolls == TruckRolls(c, workOrders)
  {
    var visits := if c.executed && workOrders != [] then workOrders else [NO_RECORD];
    var crew := CrewOf(c.action, workOrders);
    var visitLines;
    visitLines, tally := CostVisits(c.executed, route, crew, visits);
    lines, rolls := Handover(c, crew) + visitLines + PartsLines(c), |visits|;
  }

  /** `_cost_projection`: opening lines, the action's lines, closing lines, then the totals over all of them. */
  method CostProjection(c: CaseFacts, route: Route, workOrders: seq<WorkOrder>) returns (r: CostResult)
    ensures r == Projection(c, route, workOrders)
  {
    var lines, tally, rolls := Opening(c), NO_TALLY, 0;
    if c.action == RemoteRepair {
      lines := lines + [Standard(RemoteAction, 4500, 25)];
    } else if c.action == CollectEvidence {
      lines := lines + [Standard(EvidenceCollection, 4500, 15)];
    } else if c.action.Dispatches() {
      var visitLines;
      visitLines, tally, rolls := CostDispatch(c, route, workOrders);
      lines := lines + visitLines;
    } else {
      lines := lines + [Standard(ManualReview, 6500, 12)];
    }
    lines := lines + Closing(c);
    r := CostResult(lines, Sum(lines, Minutes), Sum(lines, Cents), rolls,
                    if c.executed then rolls else 0, if c.executed then 0 else rolls, tally);
  }
}
