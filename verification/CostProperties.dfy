/** What the cost ledger keeps: independence of the route, additivity over visits, counters that match lines. */
module CostProperties {
  import opened Common
  import opened Ordering
  import opened CostLedger

  // ------------------------------------------------------------------ independence

  lemma {:induction false} FlatMapCongruent<A(!new), B(!new)>(s: seq<A>, f: A -> seq<B>, g: A -> seq<B>)
    requires forall x :: x in s ==> f(x) == g(x)
    ensures FlatMap(s, f) == FlatMap(s, g)
  {
    if s != [] {
      assert s[|s| - 1] in s;
      FlatMapCongruent(s[..|s| - 1], f, g);
    }
  }

  /** An executed visit does not look at the route. */
  lemma ExecutedVisitIgnoresRoute(r1: Route, r2: Route, crew: Crew, w: WorkOrder, t: Tally)
    ensures VisitLines(true, r1, crew)(w) == VisitLines(true, r2, crew)(w)
    ensures Advance(true, r1, t, w) == Advance(true, r2, t, w)
  {
  }

  lemma {:induction false} ExecutedTallyIgnoresRoute(r1: Route, r2: Route, visits: seq<WorkOrder>)
    ensures Tallied(true, r1, visits) == Tallied(true, r2, visits)
  {
    if visits != [] { ExecutedTallyIgnoresRoute(r1, r2, visits[..|visits| - 1]); }
  }

  lemma ExecutedDispatchIgnoresRoute(c: CaseFacts, r1: Route, r2: Route, workOrders: seq<WorkOrder>)
    requires c.executed
    ensures DispatchLines(c, r1, workOrders) == DispatchLines(c, r2, workOrders)
    ensures TallyOf(c, r1, workOrders) == TallyOf(c, r2, workOrders)
  {
    var crew, visits := CrewOf(c.action, workOrders), VisitsOf(true, workOrders);
    forall w | w in visits ensures VisitLines(true, r1, crew)(w) == VisitLines(true, r2, crew)(w) {
      ExecutedVisitIgnoresRoute(r1, r2, crew, w, NO_TALLY);
    }
    FlatMapCongruent(visits, VisitLines(true, r1, crew), VisitLines(true, r2, crew));
    ExecutedTallyIgnoresRoute(r1, r2, visits);
  }

  /** Once work has executed, no planning route changes its ledger, totals or counts. */
  lemma ExecutedCostIgnoresRoute(c: CaseFacts, r1: Route, r2: Route, workOrders: seq<WorkOrder>)
    requires c.executed
    ensures Projection(c, r1, workOrders) == Projection(c, r2, workOrders)
  {
    ExecutedDispatchIgnoresRoute(c, r1, r2, workOrders);
    assert Middle(c, r1, workOrders) == Middle(c, r2, workOrders);
  }

  /** A forecast reads nothing of the work orders but the crew they name. */
  lemma ForecastIgnoresExecution(c: CaseFacts, route: Route, a: seq<WorkOrder>, b: seq<WorkOrder>)
    requires !c.executed && CrewOf(c.action, a) == CrewOf(c.action, b)
    ensures Projection(c, route, a) == Projection(c, route, b)
  {
  }

  lemma {:induction false} TallyIsOneSided(executed: bool, route: Route, visits: seq<WorkOrder>)
    ensures var t := Tallied(executed, route, visits);
            if executed then t.forecastFerries == 0 && t.forecastOvernights == 0
            else t.executedFerries == 0 && t.executedOvernights == 0 && t.travelMinutes == [] && t.onSiteMinutes == []
  {
    if visits != [] { TallyIsOneSided(executed, route, visits[..|visits| - 1]); }
  }

  /** A dispatch is counted on one side only: executed or forecast, never both, never neither. */
  lemma TruckRollsOnOneSide(c: CaseFacts, route: Route, workOrders: seq<WorkOrder>)
    ensures var r := Projection(c, route, workOrders);
            && r.truckRolls == r.executedTruckRolls + r.forecastTruckRolls
            && (c.action.Dispatches() ==> (r.executedTruckRolls > 0) != (r.forecastTruckRolls > 0))
            && (!c.action.Dispatches() ==> r.truckRolls == 0)
            && (c.executed ==> r.tally.forecastFerries == 0 && r.tally.forecastOvernights == 0)
            && (!c.executed ==> r.tally.executedFerries == 0 && r.tally.executedOvernights == 0)
  {
    TallyIsOneSided(c.executed, route, VisitsOf(c.executed, workOrders));
  }

  // ------------------------------------------------------------------ totals, visit by visit

  lemma {:induction false} FlatMapSum<A(!new)>(s: seq<A>, f: A -> seq<Line>, g: Line -> int, h: A -> int)
    requires forall x :: x in s ==> Sum(f(x), g) == h(x)
    ensures Sum(FlatMap(s, f), g) == Sum(s, h)
  {
    if s != [] {
      var n := |s| - 1;
      assert s == s[..n] + [s[n]];
      FlatMapSum(s[..n], f, g, h);
      SumAppend(FlatMap(s[..n], f), f(s[n]), g);
      SumAppend(s[..n], [s[n]], h);
      assert s[n] in s;
    }
  }

  /** What one executed visit costs and takes, from its work order alone. */
  function VisitCents(route: Route, crew: Crew): WorkOrder -> int {
    (w: WorkOrder) => Sum(VisitLines(true, route, crew)(w), Cents)
  }

  function VisitMinutes(crew: Crew): WorkOrder -> int {
    (w: WorkOrder) => 8 + 2 * w.OneWay().GetOr(0) + w.OnSiteTime().GetOr(StandardOnSite(crew))
  }

  /** The lines of an executed dispatch that do not depend on its visits. */
  function FixedLines(c: CaseFacts, crew: Crew): seq<Line> {
    Opening(c) + Handover(c, crew) + PartsLines(c) + Closing(c)
  }

  /** The cost of an executed dispatch is its fixed part plus what each visit costs by itself, and its time the fixed
      part plus planning, travel and site work of each visit. */
  lemma ExecutedCostIsAdditive(c: CaseFacts, route: Route, workOrders: seq<WorkOrder>)
    requires c.executed && c.action.Dispatches()
    ensures var r, crew, visits := Projection(c, route, workOrders), CrewOf(c.action, workOrders),
                                   VisitsOf(true, workOrders);
            && r.totalCents == Sum(FixedLines(c, crew), Cents) + Sum(visits, VisitCents(route, crew))
            && r.totalMinutes == Sum(FixedLines(c, crew), Minutes) + Sum(visits, VisitMinutes(crew))
  {
    var crew, visits := CrewOf(c.action, workOrders), VisitsOf(true, workOrders);
    forall w | w in visits ensures Sum(VisitLines(true, route, crew)(w), Minutes) == VisitMinutes(crew)(w) {
      VisitHasShape(true, route, crew, w);
    }
    FlatMapSum(visits, VisitLines(true, route, crew), Cents, VisitCents(route, crew));
    FlatMapSum(visits, VisitLines(true, route, crew), Minutes, VisitMinutes(crew));
    LedgerSum(c, route, workOrders, Cents);
    LedgerSum(c, route, workOrders, Minutes);
  }

  lemma LedgerSum(c: CaseFacts, route: Route, workOrders: seq<WorkOrder>, f: Line -> int)
    requires c.executed && c.action.Dispatches()
    ensures var crew := CrewOf(c.action, workOrders);
            Sum(Ledger(c, route, workOrders), f)
            == Sum(FixedLines(c, crew), f) + Sum(FlatMap(VisitsOf(true, workOrders), VisitLines(true, route, crew)), f)
  {
    var crew := CrewOf(c.action, workOrders);
    var visitLines := FlatMap(VisitsOf(true, workOrders), VisitLines(true, route, crew));
    FiveSums(Opening(c), Handover(c, crew), visitLines, PartsLines(c), Closing(c), f);
  }

  lemma FiveSums(a: seq<Line>, b: seq<Line>, v: seq<Line>, p: seq<Line>, z: seq<Line>, f: Line -> int)
    ensures Sum(a + (b + v + p) + z, f) == Sum(a + b + p + z, f) + Sum(v, f)
  {
    SumAppend(a + (b + v + p), z, f);
    SumAppend(a, b + v + p, f);
    SumAppend(b + v, p, f);
    SumAppend(b, v, f);
    SumAppend(a + b + p, z, f);
    SumAppend(a + b, p, f);
    SumAppend(a, b, f);
  }

  // ------------------------------------------------------------------ counts

  predicate FerryUsed(w: WorkOrder) { w.UsedFerry() }
  predicate OvernightUsed(w: WorkOrder) { w.UsedOvernight() }
  predicate EconomicsComplete(w: WorkOrder) { w.Complete() }
  predicate TravelKnown(w: WorkOrder) { w.OneWay().Some? }

  lemma CountStep(s: seq<WorkOrder>, p: WorkOrder -> bool)
    requires s != []
    ensures Count(s, p) == Count(s[..|s| - 1], p) + One(p(s[|s| - 1]))
    ensures Count(s[..|s| - 1], p) <= |s| - 1
  {
    assert s == s[..|s| - 1] + [s[|s| - 1]];
    FilterAppend(s[..|s| - 1], [s[|s| - 1]], p);
  }

  /** The running counters of executed visits count flags, and the visits are complete when each one is. */
  lemma {:induction false} ExecutedTallyCounts(route: Route, visits: seq<WorkOrder>)
    ensures var t := Tallied(true, route, visits);
            && t.executedFerries == Count(visits, FerryUsed)
            && t.executedOvernights == Count(visits, OvernightUsed)
            && |t.travelMinutes| == Count(visits, TravelKnown)
            && (t.complete <==> Count(visits, EconomicsComplete) == |visits|)
  {
    if visits != [] {
      ExecutedTallyCounts(route, visits[..|visits| - 1]);
      CountStep(visits, FerryUsed);
      CountStep(visits, OvernightUsed);
      CountStep(visits, TravelKnown);
      CountStep(visits, EconomicsComplete);
    }
  }

  /** Executed ferry and overnight counts are the numbers of visits flagged so. */
  lemma ExecutedCountsAreFlags(c: CaseFacts, route: Route, workOrders: seq<WorkOrder>)
    requires c.executed && c.action.Dispatches()
    ensures var r := Projection(c, route, workOrders);
            && r.tally.executedFerries == Count(workOrders, FerryUsed)
            && r.tally.executedOvernights == Count(workOrders, OvernightUsed)
            && r.executedTruckRolls == Max(|workOrders|, 1)
  {
    ExecutedTallyCounts(route, VisitsOf(true, workOrders));
  }

  /** Visiting in another order, with the same crew, costs and takes the same. */
  lemma VisitOrderDoesNotMatter(c: CaseFacts, route: Route, a: seq<WorkOrder>, b: seq<WorkOrder>)
    requires c.executed && c.action.Dispatches()
    requires multiset(a) == multiset(b) && CrewOf(c.action, a) == CrewOf(c.action, b)
    ensures Projection(c, route, a).totalCents == Projection(c, route, b).totalCents
    ensures Projection(c, route, a).totalMinutes == Projection(c, route, b).totalMinutes
    ensures Projection(c, route, a).executedTruckRolls == Projection(c, route, b).executedTruckRolls
    ensures Projection(c, route, a).tally.executedFerries == Projection(c, route, b).tally.executedFerries
    ensures Projection(c, route, a).tally.executedOvernights == Projection(c, route, b).tally.executedOvernights
  {
    var crew, x, y := CrewOf(c.action, a), VisitsOf(true, a), VisitsOf(true, b);
    SameElements(a, b);
    ExecutedCostIsAdditive(c, route, a);
    ExecutedCostIsAdditive(c, route, b);
    SumPermutation(x, y, VisitCents(route, crew));
    SumPermutation(x, y, VisitMinutes(crew));
    ExecutedTallyCounts(route, x);
    ExecutedTallyCounts(route, y);
    SameCount(x, y, FerryUsed);
    SameCount(x, y, OvernightUsed);
  }

  lemma SameCount(a: seq<WorkOrder>, b: seq<WorkOrder>, p: WorkOrder -> bool)
    requires multiset(a) == multiset(b)
    ensures Count(a, p) == Count(b, p)
  {
    FilterPermutation(a, b, p);
    SameElements(Filter(a, p), Filter(b, p));
  }

  // ------------------------------------------------------------------ counters and ledger lines

  lemma CountOther(lines: seq<Line>, step: Step)
    requires forall l :: l in lines ==> l.step != step
    ensures LineCount(lines, step) == 0
  {
    FilterNone(lines, Is(step));
  }

  /** What the counters say of a step. */
  function CounterOf(t: Tally, rolls: nat, step: Step): nat {
    if step == Ferry then t.executedFerries + t.forecastFerries
    else if step == Overnight then t.executedOvernights + t.forecastOvernights
    else rolls
  }

  lemma {:induction false} VisitLinesMatchTally(executed: bool, route: Route, crew: Crew, visits: seq<WorkOrder>,
                                                step: Step)
    requires Counted(step)
    ensures LineCount(FlatMap(visits, VisitLines(executed, route, crew)), step)
            == CounterOf(Tallied(executed, route, visits), |visits|, step)
  {
    if visits != [] {
      var n := |visits| - 1;
      VisitLinesMatchTally(executed, route, crew, visits[..n], step);
      VisitCounts(executed, route, crew, visits[n], step);
      CountAppend(FlatMap(visits[..n], VisitLines(executed, route, crew)), VisitLines(executed, route, crew)(visits[n]),
                  step);
    }
  }

  /** The lines before and after the action, and those of an action without a visit. */
  lemma FrameLines(c: CaseFacts, step: Step)
    requires Counted(step)
    ensures LineCount(Opening(c), step) == 0 && LineCount(Closing(c), step) == 0
  {
    var opening, closing := Opening(c), Closing(c);
    assert forall l :: l in opening ==> l.step in {Triage, Rca, GovernanceReview};
    assert forall l :: l in closing ==> l.step in {Validation, Closure};
    CountOther(opening, step);
    CountOther(closing, step);
  }

  lemma PlainLines(c: CaseFacts, route: Route, workOrders: seq<WorkOrder>, step: Step)
    requires Counted(step) && !c.action.Dispatches()
    ensures LineCount(Middle(c, route, workOrders), step) == 0
  {
    var lines := Middle(c, route, workOrders);
    assert |lines| == 1 && !Counted(lines[0].step);
    CountOther(lines, step);
  }

  lemma MiddleOfDispatch(c: CaseFacts, route: Route, workOrders: seq<WorkOrder>)
    requires c.action.Dispatches()
    ensures Middle(c, route, workOrders) == DispatchLines(c, route, workOrders)
  {
  }

  lemma MiddleLineCounts(c: CaseFacts, route: Route, workOrders: seq<WorkOrder>, step: Step)
    requires Counted(step)
    ensures LineCount(Middle(c, route, workOrders), step)
            == CounterOf(TallyOf(c, route, workOrders), TruckRolls(c, workOrders), step)
  {
    if c.action.Dispatches() {
      DispatchLineCounts(c, route, workOrders, step);
      MiddleOfDispatch(c, route, workOrders);
    } else {
      PlainLines(c, route, workOrders, step);
    }
  }

  lemma DispatchLineCounts(c: CaseFacts, route: Route, workOrders: seq<WorkOrder>, step: Step)
    requires Counted(step) && c.action.Dispatches()
    ensures LineCount(DispatchLines(c, route, workOrders), step)
            == CounterOf(TallyOf(c, route, workOrders), TruckRolls(c, workOrders), step)
  {
    var crew, visits := CrewOf(c.action, workOrders), VisitsOf(c.executed, workOrders);
    var visitLines := FlatMap(visits, VisitLines(c.executed, route, crew));
    CountAppend(Handover(c, crew) + visitLines, PartsLines(c), step);
    CountAppend(Handover(c, crew), visitLines, step);
    CountOther(Handover(c, crew), step);
    CountOther(PartsLines(c), step);
    VisitLinesMatchTally(c.executed, route, crew, visits, step);
  }

  /** The ledger shows exactly as many ferry, overnight and on-site lines as the counters claim. */
  lemma CountersMatchLedger(c: CaseFacts, route: Route, workOrders: seq<WorkOrder>, step: Step)
    requires Counted(step)
    ensures var r := Projection(c, route, workOrders);
            LineCount(r.lines, step) == CounterOf(r.tally, r.truckRolls, step)
  {
    FrameLines(c, step);
    MiddleLineCounts(c, route, workOrders, step);
    CountFramed(Opening(c), Middle(c, route, workOrders), Closing(c), step);
  }

  lemma CountFramed(a: seq<Line>, middle: seq<Line>, z: seq<Line>, step: Step)
    requires LineCount(a, step) == 0 && LineCount(z, step) == 0
    ensures LineCount(a + middle + z, step) == LineCount(middle, step)
  {
    CountAppend(a + middle, z, step);
    CountAppend(a, middle, step);
  }

  // ------------------------------------------------------------------ the summary over cases

  datatype CostedCase = CostedCase(executed: bool, totalCents: int, executedTruckRolls: nat, forecastTruckRolls: nat)

  function TotalCents(x: CostedCase): int { x.totalCents }
  function ExecutedRolls(x: CostedCase): int { x.executedTruckRolls }
  function ForecastRolls(x: CostedCase): int { x.forecastTruckRolls }
  function AllRolls(x: CostedCase): int { x.executedTruckRolls + x.forecastTruckRolls }
  predicate IsExecuted(x: CostedCase) { x.executed }
  predicate IsForecast(x: CostedCase) { !x.executed }

  datatype Summary = Summary(
    combinedCents: int, executedCents: int, forecastCents: int, executedCases: nat, forecastCases: nat,
    executedRolls: int, forecastRolls: int, exposure: int)

  /** `_summary`: the forecast cost is what the executed cost leaves of the total. */
  function Summarise(cases: seq<CostedCase>): Summary {
    var total, executed := Sum(cases, TotalCents), Sum(Filter(cases, IsExecuted), TotalCents);
    Summary(total, executed, total - executed, Count(cases, IsExecuted), Count(cases, IsForecast),
            Sum(cases, ExecutedRolls), Sum(cases, ForecastRolls), Sum(cases, ExecutedRolls) + Sum(cases, ForecastRolls))
  }

  /** That remainder is the cost of the forecast cases, and both bases together cover every case once. */
  lemma {:induction false} SummaryPartitions(cases: seq<CostedCase>)
    ensures Summarise(cases).forecastCents == Sum(Filter(cases, IsForecast), TotalCents)
    ensures Summarise(cases).executedCases + Summarise(cases).forecastCases == |cases|
    ensures Summarise(cases).exposure == Sum(cases, AllRolls)
  {
    if cases != [] {
      SummaryPartitions(cases[1..]);
    }
  }
}
