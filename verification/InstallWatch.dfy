/** The 24-hour install watch: scenario plans, health, lifecycle and the episode summary.
    Durations are in microseconds; plan offsets are in quarter hours. */
module InstallWatch {
  import opened Common
  import opened Ordering

  datatype Scenario =
    | HealthyHfc | HealthyPon | RemoteStabilized | PersistentHfc | PersistentPon | WifiImpairment
    | CommonCauseHfc | LateActionExtension | ActiveGreen | ActiveAmber | ActiveRed
  {
    predicate PlansIncident() { this in {PersistentHfc, PersistentPon, CommonCauseHfc, ActiveRed} }
  }

  datatype Health = GREEN | AMBER | RED

  datatype Lifecycle = PendingBaseline | Active | Recovering | Passed24h | PromotedToIncident | Invalidated

  /** When the planned events happen, in quarter hours after the start; None when they do not. */
  datatype Plan = Plan(
    finding: Option<nat>, contact: Option<nat>, remoteAction: Option<nat>, incident: Option<nat>,
    dispatch: Option<nat>, mr: Option<nat>, repair: Option<nat>, stable: Option<nat>)

  const NO_PLAN := Plan(None, None, None, None, None, None, None, None)

  function EventPlan(s: Scenario): Plan {
    match s
    case RemoteStabilized =>
      NO_PLAN.(finding := Some(8), contact := Some(12), remoteAction := Some(16), stable := Some(18))
    case WifiImpairment => NO_PLAN.(finding := Some(4), contact := Some(6), remoteAction := Some(8), stable := Some(10))
    case PersistentHfc => Plan(Some(4), Some(16), Some(10), Some(12), Some(20), Some(28), Some(48), Some(50))
    case PersistentPon => Plan(Some(4), Some(16), Some(10), Some(12), Some(20), Some(28), Some(48), Some(50))
    case CommonCauseHfc => Plan(Some(3), Some(8), None, Some(6), Some(12), Some(16), Some(32), Some(34))
    case LateActionExtension =>
      NO_PLAN.(finding := Some(80), contact := Some(84), remoteAction := Some(92), stable := Some(94))
    case ActiveAmber => NO_PLAN.(finding := Some(8), contact := Some(12))
    case ActiveRed => NO_PLAN.(finding := Some(4), contact := Some(8), incident := Some(12))
    case _ => NO_PLAN
  }

  function ScenarioFor(index: nat, hfc: bool): Scenario {
    match index
    case 0 => if hfc then HealthyHfc else HealthyPon
    case 1 => if hfc then HealthyHfc else HealthyPon
    case 2 => RemoteStabilized
    case 3 => PersistentHfc
    case 4 => PersistentPon
    case 5 => WifiImpairment
    case 6 => if hfc then CommonCauseHfc else HealthyPon
    case 7 => if hfc then CommonCauseHfc else HealthyPon
    case 8 => LateActionExtension
    case 9 => ActiveGreen
    case 10 => ActiveAmber
    case 11 => ActiveRed
    case _ => if hfc then HealthyHfc else HealthyPon
  }

  function Quarters(n: int): int { n * 900_000_000 }

  /** Whether a planned event has happened by the given age. */
  predicate Reached(event: Option<nat>, age: int) { event.Some? && age >= Quarters(event.value) }

  function StartOffset(s: Scenario): int {
    match s
    case ActiveGreen => Quarters(48)
    case ActiveAmber => Quarters(72)
    case ActiveRed => Quarters(80)
    case _ => 0
  }

  /** The age of the last observation: whole minutes. */
  function ObservedAge(age: nat): nat { age / 60_000_000 * 60_000_000 }

  function HealthAt(s: Scenario, age: int): Health {
    var plan := EventPlan(s);
    if !Reached(plan.finding, age) then GREEN
    else if Reached(plan.stable, age) then GREEN
    else if Reached(plan.incident, age) then RED
    else if s == ActiveRed then RED
    else AMBER
  }

  // ------------------------------------------------------------------ one episode

  datatype ActionKind = RemoteReprovision | CleanBoots | CreateMr | AccessRepair | ValidateStability

  datatype ActionRow = ActionRow(kind: ActionKind, at: int, serviceAffecting: bool)

  function Planned(kind: ActionKind, event: Option<nat>, affecting: bool): seq<ActionRow> {
    if event.Some? then [ActionRow(kind, Quarters(event.value), affecting)] else []
  }

  function ActionRows(s: Scenario): seq<ActionRow> {
    var plan := EventPlan(s);
    Planned(RemoteReprovision, plan.remoteAction, true) + Planned(CleanBoots, plan.dispatch, false)
    + Planned(CreateMr, plan.mr, false) + Planned(AccessRepair, plan.repair, true)
    + Planned(ValidateStability, plan.stable, false)
  }

  function Executed(age: int): ActionRow -> bool { (a: ActionRow) => a.at <= age }

  predicate Affecting(a: ActionRow) { a.serviceAffecting }

  /** The latest time among the rows, None for none. */
  function Latest(rows: seq<ActionRow>): Option<int> {
    if rows == [] then None
    else
      var rest := Latest(rows[1..]);
      if rest.Some? && rest.value >= rows[0].at then rest else Some(rows[0].at)
  }

  /** When the watch matures: 24 hours, or the stability tail after the last service-affecting action. */
  function EffectiveMaturity(executed: seq<ActionRow>, tail: int): int {
    var last := Latest(Filter(executed, Affecting));
    if last.None? then Quarters(96) else Max(Quarters(96), last.value + tail)
  }

  function LifecycleOf(s: Scenario, age: int, health: Health, maturity: int, incident: Option<string>): Lifecycle {
    var plan := EventPlan(s);
    if incident.Some? && age >= Quarters(plan.incident.GetOr(0)) then PromotedToIncident
    else if age >= maturity && health == GREEN then Passed24h
    else if plan.remoteAction.Some? && health == GREEN then (if age < maturity then Recovering else Passed24h)
    else Active
  }

  datatype Outcome =
    | PassedWithoutIntervention | PassedAfterRemoteStabilization | PromotedToRootIncident | WatchInProgress

  datatype Episode = Episode(
    id: string, serviceId: string, scenario: Scenario, start: nat, age: nat, maturity: int,
    lifecycle: Lifecycle, health: Health,
    incident: Option<string>, executed: seq<ActionRow>, outcome: Outcome)

  /** The part of an install that does not depend on when it is looked at. */
  datatype Install = Install(id: string, serviceId: string, scenario: Scenario, incidentId: string)

  /** Age of the episode when the watch is viewed `asOf` after its base. */
  function AgeAt(s: Scenario, asOf: nat): nat { asOf - Min(StartOffset(s), asOf) }

  function EpisodeAt(i: Install, asOf: nat, tail: int): Episode {
    var age := AgeAt(i.scenario, asOf);
    var health := HealthAt(i.scenario, ObservedAge(age));
    var incident := if i.scenario.PlansIncident() && Reached(EventPlan(i.scenario).incident, age)
                    then Some(i.incidentId) else None;
    var executed := Filter(ActionRows(i.scenario), Executed(age));
    var maturity := EffectiveMaturity(executed, tail);
    var lifecycle := LifecycleOf(i.scenario, age, health, maturity, incident);
    var outcome := if lifecycle == Passed24h then (if executed == [] then PassedWithoutIntervention
                                                   else PassedAfterRemoteStabilization)
                   else if lifecycle == PromotedToIncident then PromotedToRootIncident
                   else WatchInProgress;
    Episode(i.id, i.serviceId, i.scenario, Min(StartOffset(i.scenario), asOf), age, maturity, lifecycle, health,
            incident, executed, outcome)
  }

  // ------------------------------------------------------------------ lifecycle over growing time

  /** Rounding the age down to whole minutes moves no planned event: they all fall on whole minutes. */
  lemma ObservationSeesEvents(event: Option<nat>, age: nat)
    ensures Reached(event, ObservedAge(age)) <==> Reached(event, age)
  {
    if event.Some? { MinutesReach(event.value * 15, age); }
  }

  lemma MinutesReach(minutes: nat, age: nat)
    ensures ObservedAge(age) >= minutes * 60_000_000 <==> age >= minutes * 60_000_000
  {
    var q := age / 60_000_000;
    assert age == q * 60_000_000 + age % 60_000_000;
  }

  lemma HealthFromAge(s: Scenario, age: nat)
    ensures HealthAt(s, ObservedAge(age)) == HealthAt(s, age)
  {
    var plan := EventPlan(s);
    ObservationSeesEvents(plan.finding, age);
    ObservationSeesEvents(plan.stable, age);
    ObservationSeesEvents(plan.incident, age);
  }

  lemma AgeGrows(s: Scenario, early: nat, late: nat)
    requires early <= late
    ensures AgeAt(s, early) <= AgeAt(s, late)
  {
  }

  predicate WithinDay(event: Option<nat>) { event.Some? ==> event.value < 96 }

  /** Every plan is over before hour 24. */
  lemma PlansEndWithinDay(s: Scenario)
    ensures var p := EventPlan(s);
            && WithinDay(p.remoteAction) && WithinDay(p.dispatch) && WithinDay(p.mr) && WithinDay(p.repair)
            && WithinDay(p.stable) && WithinDay(p.incident)
  {
  }

  lemma PlannedWithinDay(kind: ActionKind, event: Option<nat>, affecting: bool)
    requires WithinDay(event)
    ensures forall a :: a in Planned(kind, event, affecting) ==> a.at < Quarters(96)
  {
  }

  /** Every action of every plan is over before hour 24. */
  lemma ActionsBeforeDayEnds(s: Scenario)
    ensures forall a :: a in ActionRows(s) ==> a.at < Quarters(96)
  {
    var plan := EventPlan(s);
    PlansEndWithinDay(s);
    PlannedWithinDay(RemoteReprovision, plan.remoteAction, true);
    PlannedWithinDay(CleanBoots, plan.dispatch, false);
    PlannedWithinDay(CreateMr, plan.mr, false);
    PlannedWithinDay(AccessRepair, plan.repair, true);
    PlannedWithinDay(ValidateStability, plan.stable, false);
  }

  /** From hour 24 on, the executed actions and therefore the maturity no longer change. */
  lemma MaturitySettles(s: Scenario, age: int, later: int, tail: int)
    requires Quarters(96) <= age <= later
    ensures Filter(ActionRows(s), Executed(age)) == Filter(ActionRows(s), Executed(later))
    ensures EffectiveMaturity(Filter(ActionRows(s), Executed(age)), tail)
            == EffectiveMaturity(Filter(ActionRows(s), Executed(later)), tail)
  {
    ActionsBeforeDayEnds(s);
    FilterCongruent(ActionRows(s), Executed(age), Executed(later));
  }

  lemma {:induction false} LatestIsMaximum(rows: seq<ActionRow>)
    ensures Latest(rows).None? <==> rows == []
    ensures Latest(rows).Some? ==> forall a :: a in rows ==> a.at <= Latest(rows).value
    ensures Latest(rows).Some? ==> exists a :: a in rows && a.at == Latest(rows).value
  {
    if rows != [] {
      LatestIsMaximum(rows[1..]);
      assert rows[0] in rows;
      assert forall a :: a in rows ==> a == rows[0] || a in rows[1..];
    }
  }

  /** A passed watch is green, has no incident, and is at least 24 hours and one full tail past every executed
      service-affecting action. */
  lemma PassedMeansStable(i: Install, asOf: nat, tail: int)
    requires EpisodeAt(i, asOf, tail).lifecycle == Passed24h
    ensures var e := EpisodeAt(i, asOf, tail);
            && e.health == GREEN && e.incident == None
            && e.age >= e.maturity >= Quarters(96)
            && forall a :: a in e.executed && a.serviceAffecting ==> e.age >= a.at + tail
  {
    var e := EpisodeAt(i, asOf, tail);
    LatestIsMaximum(Filter(e.executed, Affecting));
    forall a | a in e.executed && a.serviceAffecting ensures e.age >= a.at + tail {
      assert a in Filter(e.executed, Affecting);
    }
  }

  /** Which scenarios are green at or after hour 24, and for how long: for ever. */
  lemma GreenAfterDayStays(s: Scenario, age: int, later: int)
    requires Quarters(96) <= age <= later && HealthAt(s, age) == GREEN
    ensures HealthAt(s, later) == GREEN
  {
  }

  /** PASSED_24H and PROMOTED_TO_INCIDENT are absorbing: looking at the watch later finds the same state. */
  lemma VerdictsAreFinal(i: Install, early: nat, late: nat, tail: int)
    requires early <= late
    requires EpisodeAt(i, early, tail).lifecycle in {Passed24h, PromotedToIncident}
    ensures EpisodeAt(i, late, tail).lifecycle == EpisodeAt(i, early, tail).lifecycle
    ensures EpisodeAt(i, late, tail).incident == EpisodeAt(i, early, tail).incident
  {
    var s, e, l := i.scenario, EpisodeAt(i, early, tail), EpisodeAt(i, late, tail);
    AgeGrows(s, early, late);
    HealthFromAge(s, e.age);
    HealthFromAge(s, l.age);
    if e.lifecycle == Passed24h {
      PassedMeansStable(i, early, tail);
      MaturitySettles(s, e.age, l.age, tail);
      GreenAfterDayStays(s, e.age, l.age);
      NoLateIncident(s, e.age, l.age);
    }
  }

  /** No incident is planned for later than hour 24. */
  lemma NoLateIncident(s: Scenario, age: int, later: int)
    requires Quarters(96) <= age <= later
    ensures Reached(EventPlan(s).incident, age) == Reached(EventPlan(s).incident, later)
  {
  }

  lemma MaturityBound(s: Scenario, age: int, tail: nat)
    ensures EffectiveMaturity(Filter(ActionRows(s), Executed(age)), tail) <= Quarters(96) + tail
  {
    var affecting := Filter(Filter(ActionRows(s), Executed(age)), Affecting);
    ActionsBeforeDayEnds(s);
    LatestIsMaximum(affecting);
  }

  lemma HealthAfterDay(s: Scenario, age: int)
    requires age >= Quarters(96)
    ensures HealthAt(s, age) == if s == ActiveAmber then AMBER else if s == ActiveRed then RED else GREEN
    ensures Reached(EventPlan(s).incident, age) == s.PlansIncident()
  {
  }

  /** Seen late enough, every install has a verdict, except one whose impairment no plan ever repairs. */
  lemma WatchesSettle(i: Install, asOf: nat, tail: nat)
    requires asOf >= StartOffset(i.scenario) + Quarters(96) + tail
    ensures EpisodeAt(i, asOf, tail).lifecycle ==
              if i.scenario.PlansIncident() then PromotedToIncident
              else if i.scenario == ActiveAmber then Active
              else Passed24h
  {
    var s, age := i.scenario, AgeAt(i.scenario, asOf);
    HealthFromAge(s, age);
    HealthAfterDay(s, age);
    MaturityBound(s, age, tail);
  }

  // ------------------------------------------------------------------ the watch over a cohort

  function Look(asOf: nat, tail: int): Install -> Episode { (i: Install) => EpisodeAt(i, asOf, tail) }

  function EpisodeId(e: Episode): string { e.id }
  function EpisodeService(e: Episode): string { e.serviceId }

  /** The ids that executed actions of a kind carry. */
  function IdsOfKind(e: Episode, kind: ActionKind, prefix: string): seq<string> {
    if exists a :: a in e.executed && a.kind == kind then [prefix + e.id] else []
  }

  function WorkOrderIds(e: Episode): seq<string> { IdsOfKind(e, CleanBoots, "WO-") }
  function MrIds(e: Episode): seq<string> { IdsOfKind(e, CreateMr, "MR-") }

  /** Half an hour after the planned repair, once that has come. */
  function ClosingTime(e: Episode): Option<int> {
    var repair := EventPlan(e.scenario).repair;
    if repair.Some? && e.age >= Quarters(repair.value + 2) then Some(e.start + Quarters(repair.value + 2)) else None
  }

  /** An incident; it is CLOSED when it has a closing time. */
  datatype RootIncident = RootIncident(
    openedAt: int, closedAt: Option<int>,
    services: seq<string>, episodes: seq<string>, workOrders: seq<string>, mrs: seq<string>)

  /** The incident as its first episode opens it. */
  function Opened(e: Episode): RootIncident {
    RootIncident(e.start + Quarters(EventPlan(e.scenario).incident.GetOr(0)), ClosingTime(e), [], [], [], [])
  }

  function Joined(i: RootIncident, e: Episode): RootIncident {
    i.(services := i.services + [e.serviceId], episodes := i.episodes + [e.id],
       workOrders := i.workOrders + WorkOrderIds(e), mrs := i.mrs + MrIds(e))
  }

  /** The episodes promoted to the given root incident. */
  function PromotedTo(incident: string): Episode -> bool {
    (e: Episode) => e.lifecycle == PromotedToIncident && e.incident == Some(incident)
  }

  /** The incident that its episodes make, one by one. */
  function IncidentOf(members: seq<Episode>): RootIncident
    requires members != []
  {
    var n := |members| - 1;
    Joined(if n == 0 then Opened(members[0]) else IncidentOf(members[..n]), members[n])
  }

  function Gathered(members: seq<Episode>, ids: Episode -> seq<string>): seq<string> {
    if members == [] then [] else Gathered(members[..|members| - 1], ids) + ids(members[|members| - 1])
  }

  /** The incident has the times its first episode gave it and lists every episode's service, id, work orders and
      MRs. */
  lemma {:induction false} IncidentLists(members: seq<Episode>)
    requires members != []
    ensures var i := IncidentOf(members);
            && i.openedAt == Opened(members[0]).openedAt && i.closedAt == ClosingTime(members[0])
            && i.services == Map(members, EpisodeService) && i.episodes == Map(members, EpisodeId)
            && i.workOrders == Gathered(members, WorkOrderIds) && i.mrs == Gathered(members, MrIds)
  {
    var n := |members| - 1;
    assert members == members[..n] + [members[n]];
    MapAppend(members[..n], members[n], EpisodeService);
    MapAppend(members[..n], members[n], EpisodeId);
    if n > 0 { IncidentLists(members[..n]); }
  }

  /** The incident is open exactly when some episode was promoted to it, and is made of those episodes in order. */
  ghost predicate GroupRight(incidents: map<string, RootIncident>, episodes: seq<Episode>, k: string) {
    var members := Filter(episodes, PromotedTo(k));
    if k in incidents then members != [] && incidents[k] == IncidentOf(members) else members == []
  }

  ghost predicate GroupedByIncident(incidents: map<string, RootIncident>, episodes: seq<Episode>) {
    forall k :: GroupRight(incidents, episodes, k)
  }

  lemma IncidentGrows(members: seq<Episode>, e: Episode)
    ensures IncidentOf(members + [e]) == Joined(if members == [] then Opened(e) else IncidentOf(members), e)
  {
    assert (members + [e])[..|members|] == members;
  }

  lemma GroupStep(incidents: map<string, RootIncident>, episodes: seq<Episode>, e: Episode, k: string)
    requires GroupRight(incidents, episodes, k)
    ensures GroupRight(WithEpisode(incidents, e), episodes + [e], k)
  {
    var members := Filter(episodes, PromotedTo(k));
    FilterAppend(episodes, [e], PromotedTo(k));
    if PromotedTo(k)(e) {
      IncidentGrows(members, e);
      assert Filter(episodes + [e], PromotedTo(k)) == members + [e];
    } else {
      assert Filter(episodes + [e], PromotedTo(k)) == members;
    }
  }

  lemma GroupingGrows(incidents: map<string, RootIncident>, episodes: seq<Episode>, e: Episode)
    requires GroupedByIncident(incidents, episodes)
    ensures GroupedByIncident(WithEpisode(incidents, e), episodes + [e])
  {
    forall k ensures GroupRight(WithEpisode(incidents, e), episodes + [e], k) {
      assert GroupRight(incidents, episodes, k);
      GroupStep(incidents, episodes, e, k);
    }
  }

  /** Promotion is idempotent per incident: the first episode opens it and later ones join it. */
  function WithEpisode(incidents: map<string, RootIncident>, e: Episode): map<string, RootIncident> {
    if e.incident.Some? && e.lifecycle == PromotedToIncident then
      var id := e.incident.value;
      incidents[id := Joined(if id in incidents then incidents[id] else Opened(e), e)]
    else incidents
  }

  /** The episode loop of `_build_artifact`, for any way of looking at an install. */
  method CollectEpisodes(installs: seq<Install>, look: Install -> Episode)
    returns (episodes: seq<Episode>, incidents: map<string, RootIncident>)
    ensures episodes == Map(installs, look)
    ensures GroupedByIncident(incidents, episodes)
  {
    episodes, incidents := [], map[];
    for i := 0 to |installs|
      invariant episodes == Map(installs[..i], look)
      invariant GroupedByIncident(incidents, episodes)
    {
      var e := look(installs[i]);
      GroupingGrows(incidents, episodes, e);
      assert installs[..i + 1] == installs[..i] + [installs[i]];
      MapAppend(installs[..i], installs[i], look);
      incidents := WithEpisode(incidents, e);
      episodes := episodes + [e];
    }
    assert installs[..|installs|] == installs;
  }

  // ------------------------------------------------------------------ sorted lists without repeats

  function Itself(s: string): string { s }

  /** The ids without repeats, in order of first appearance. */
  function Unique(ids: seq<string>): seq<string> {
    if ids == [] then []
    else
      var before, id := Unique(ids[..|ids| - 1]), ids[|ids| - 1];
      if id in before then before else before + [id]
  }

  /** `sorted(set(ids))` */
  function SortedSet(ids: seq<string>): seq<string> { Sorted(Unique(ids), StrLe) }

  lemma {:induction false} UniqueHasAll(ids: seq<string>)
    ensures forall x :: x in Unique(ids) <==> x in ids
    ensures DistinctBy(Unique(ids), Itself)
  {
    if ids != [] {
      var n := |ids| - 1;
      assert ids == ids[..n] + [ids[n]];
      UniqueHasAll(ids[..n]);
    }
  }

  lemma StrLeOrder()
    ensures TotalPreorder(StrLe)
  {
    forall a, b ensures StrLe(a, b) || StrLe(b, a) { StrLeTotal(a, b); }
    forall a, b, c | StrLe(a, b) && StrLe(b, c) ensures StrLe(a, c) { StrLeTransitive(a, b, c); }
  }

  /** The same ids, each once and in order. */
  lemma SortedSetHasAll(ids: seq<string>)
    ensures forall x :: x in SortedSet(ids) <==> x in ids
    ensures DistinctBy(SortedSet(ids), Itself) && SortedBy(SortedSet(ids), StrLe)
  {
    UniqueHasAll(ids);
    StrLeOrder();
    SortedIsSorted(Unique(ids), StrLe);
    SameElements(SortedSet(ids), Unique(ids));
    PermutationKeepsDistinct(Unique(ids), SortedSet(ids), Itself);
  }

  function Tidied(i: RootIncident): RootIncident {
    i.(services := SortedSet(i.services), episodes := SortedSet(i.episodes), workOrders := SortedSet(i.workOrders),
       mrs := SortedSet(i.mrs))
  }

  ghost predicate FinalRight(incidents: map<string, RootIncident>, episodes: seq<Episode>, id: string) {
    var members := Filter(episodes, PromotedTo(id));
    if id in incidents then members != [] && incidents[id] == Tidied(IncidentOf(members)) else members == []
  }

  /** The final incidents: one for each promoted id, made of the episodes promoted to it, its lists tidied. */
  ghost predicate FinalIncidents(incidents: map<string, RootIncident>, episodes: seq<Episode>) {
    forall k :: FinalRight(incidents, episodes, k)
  }

  method BuildWatch(installs: seq<Install>, asOf: nat, tail: int)
    returns (episodes: seq<Episode>, incidents: map<string, RootIncident>)
    ensures episodes == Map(installs, Look(asOf, tail))
    ensures FinalIncidents(incidents, episodes)
  {
    var grouped;
    episodes, grouped := CollectEpisodes(installs, Look(asOf, tail));
    incidents := map k | k in grouped :: Tidied(grouped[k]);
    forall k ensures FinalRight(incidents, episodes, k) {
      assert GroupRight(grouped, episodes, k);
    }
  }

  // ------------------------------------------------------------------ the summary

  predicate Matured(e: Episode) { e.age >= e.maturity }
  predicate Passed(e: Episode) { e.lifecycle == Passed24h }
  predicate Intervened(e: Episode) { e.executed != [] }
  predicate RemoteStabilizedEpisode(e: Episode) { e.outcome == PassedAfterRemoteStabilization }

  function InState(l: Lifecycle): Episode -> bool { (e: Episode) => e.lifecycle == l }
  function InHealth(h: Health): Episode -> bool { (e: Episode) => e.health == h }

  /** `_rate` in hundred-thousandths; None when there is nothing to divide by. */
  function Rate(numerator: nat, denominator: nat): Option<int> {
    if denominator == 0 then None else Some(RoundDiv(100_000 * numerator, denominator))
  }

  lemma LargeMultiple(d: nat, r: int)
    requires r >= 100_001
    ensures d * r >= 100_001 * d
  {
    assert d * (r - 100_001) >= 0;
  }

  /** A rate is the nearest hundred-thousandth of the fraction, never above one; only an empty denominator has none. */
  lemma RateIsProportion(numerator: nat, denominator: nat)
    requires numerator <= denominator
    ensures Rate(numerator, denominator).None? <==> denominator == 0
    ensures Rate(numerator, denominator).Some? ==>
              var r := Rate(numerator, denominator).value;
              0 <= r <= 100_000 && 2 * Abs(denominator * r - 100_000 * numerator) <= denominator
  {
    if denominator > 0 && RoundDiv(100_000 * numerator, denominator) > 100_000 {
      LargeMultiple(denominator, RoundDiv(100_000 * numerator, denominator));
    }
  }

  /** Only matured episodes pass and only intervened ones are remotely stabilized, so both rates are proportions. */
  lemma RatesAreProportions(installs: seq<Install>, asOf: nat, tail: int)
    ensures var e := Map(installs, Look(asOf, tail));
            && Count(e, Passed) <= Count(e, Matured)
            && Count(e, RemoteStabilizedEpisode) <= Count(e, Intervened)
            && (Rate(Count(e, Passed), Count(e, Matured)).Some? ==>
                  0 <= Rate(Count(e, Passed), Count(e, Matured)).value <= 100_000)
            && (Rate(Count(e, RemoteStabilizedEpisode), Count(e, Intervened)).Some? ==>
                  0 <= Rate(Count(e, RemoteStabilizedEpisode), Count(e, Intervened)).value <= 100_000)
  {
    var episodes := Map(installs, Look(asOf, tail));
    forall e | e in episodes
      ensures Passed(e) ==> Matured(e)
      ensures RemoteStabilizedEpisode(e) ==> Intervened(e)
    {
      var k :| 0 <= k < |episodes| && episodes[k] == e;
      assert e == EpisodeAt(installs[k], asOf, tail);
      if Passed(e) { PassedMeansStable(installs[k], asOf, tail); }
    }
    CountImplies(episodes, Passed, Matured);
    CountImplies(episodes, RemoteStabilizedEpisode, Intervened);
    RateIsProportion(Count(episodes, Passed), Count(episodes, Matured));
    RateIsProportion(Count(episodes, RemoteStabilizedEpisode), Count(episodes, Intervened));
  }

  lemma CountHead(e: seq<Episode>, p: Episode -> bool)
    requires e != []
    ensures Count(e, p) == Count(e[1..], p) + (if p(e[0]) then 1 else 0)
  {
  }

  /** The lifecycle states, and the health states, each account for every episode once. */
  lemma {:induction false} PartitionsBalance(e: seq<Episode>)
    ensures Count(e, InState(PendingBaseline)) + Count(e, InState(Active)) + Count(e, InState(Recovering))
            + Count(e, InState(Passed24h)) + Count(e, InState(PromotedToIncident)) + Count(e, InState(Invalidated))
            == |e|
    ensures Count(e, InHealth(GREEN)) + Count(e, InHealth(AMBER)) + Count(e, InHealth(RED)) == |e|
  {
    if e != [] {
      PartitionsBalance(e[1..]);
      CountHead(e, InState(PendingBaseline));
      CountHead(e, InState(Active));
      CountHead(e, InState(Recovering));
      CountHead(e, InState(Passed24h));
      CountHead(e, InState(PromotedToIncident));
      CountHead(e, InState(Invalidated));
      CountHead(e, InHealth(GREEN));
      CountHead(e, InHealth(AMBER));
      CountHead(e, InHealth(RED));
    }
  }
}
