/** What an episode of the install watch shows at each age: its health and lifecycle, and the course of each kind of
    scenario hour by hour. */
module WatchTimelines {
  import opened Common
  import opened Ordering
  import opened InstallWatch

  /** The episode's age in quarter hours has come to `q`. */
  predicate At(e: Episode, q: nat) { e.age >= q * 900_000_000 }

  /** The planned event has come. */
  predicate Come(e: Episode, event: Option<nat>) { event.Some? && At(e, event.value) }

  // ------------------------------------------------------------------ health and lifecycle

  /** GREEN until the finding and from the stable event on; otherwise RED once the incident has come or if the
      scenario is the active red one, and AMBER until then. */
  lemma HealthIff(i: Install, asOf: nat, tail: int)
    ensures var e, plan := EpisodeAt(i, asOf, tail), EventPlan(i.scenario);
            && (e.health == GREEN <==> !Come(e, plan.finding) || Come(e, plan.stable))
            && (e.health == RED <==> Come(e, plan.finding) && !Come(e, plan.stable)
                                     && (Come(e, plan.incident) || i.scenario == ActiveRed))
  {
    HealthFromAge(i.scenario, AgeAt(i.scenario, asOf));
  }

  lemma FindingComesFirst(s: Scenario)
    ensures var p := EventPlan(s); p.incident.Some? ==> p.finding.Some? && p.finding.value < p.incident.value
    ensures s.PlansIncident() <==> EventPlan(s).incident.Some?
    ensures s.PlansIncident() ==> EventPlan(s).incident.value > 0
  {
  }

  /** An episode promoted to an incident is RED until its stable event, and one whose finding alone has come is not
      GREEN. */
  lemma PromotedIsRed(i: Install, asOf: nat, tail: int)
    ensures var e, plan := EpisodeAt(i, asOf, tail), EventPlan(i.scenario);
            && (e.lifecycle == PromotedToIncident && !Come(e, plan.stable) ==> e.health == RED)
            && (Come(e, plan.finding) && !Come(e, plan.stable) ==> e.health != GREEN)
  {
    HealthIff(i, asOf, tail);
    FindingComesFirst(i.scenario);
  }

  /** An episode is promoted exactly when its planned incident has come, and then carries the incident. */
  lemma PromotedIff(i: Install, asOf: nat, tail: int)
    ensures var e := EpisodeAt(i, asOf, tail);
            && (e.lifecycle == PromotedToIncident <==> Come(e, EventPlan(i.scenario).incident))
            && e.incident == if Come(e, EventPlan(i.scenario).incident) then Some(i.incidentId) else None
  {
    FindingComesFirst(i.scenario);
  }

  /** It has passed exactly when no incident is planned or due, it is GREEN, and it has reached its maturity. */
  lemma PassedIff(i: Install, asOf: nat, tail: int)
    ensures var e := EpisodeAt(i, asOf, tail);
            e.lifecycle == Passed24h <==>
              !Come(e, EventPlan(i.scenario).incident) && e.health == GREEN && e.age >= e.maturity
  {
    FindingComesFirst(i.scenario);
  }

  /** RECOVERING is any GREEN episode of a scenario that plans a remote action, until it matures or is promoted. */
  lemma RecoveringIff(i: Install, asOf: nat, tail: int)
    ensures var e, plan := EpisodeAt(i, asOf, tail), EventPlan(i.scenario);
            e.lifecycle == Recovering <==>
              plan.remoteAction.Some? && e.health == GREEN && e.age < e.maturity && !Come(e, plan.incident)
  {
    FindingComesFirst(i.scenario);
  }

  // ------------------------------------------------------------------ actions

  function EventOf(p: Plan, kind: ActionKind): Option<nat> {
    match kind
    case RemoteReprovision => p.remoteAction
    case CleanBoots => p.dispatch
    case CreateMr => p.mr
    case AccessRepair => p.repair
    case ValidateStability => p.stable
  }

  lemma InFive<T(!new)>(x: T, a: seq<T>, b: seq<T>, c: seq<T>, d: seq<T>, e: seq<T>)
    ensures x in a + b + c + d + e <==> x in a || x in b || x in c || x in d || x in e
  {
  }

  /** The planned actions: one of each kind whose event is planned, at its time; the remote action and the repair affect
      the service. */
  lemma ActionPlanned(s: Scenario, a: ActionRow)
    ensures a in ActionRows(s) <==>
              EventOf(EventPlan(s), a.kind).Some?
              && a.at == EventOf(EventPlan(s), a.kind).value * 900_000_000
              && a.serviceAffecting == (a.kind == RemoteReprovision || a.kind == AccessRepair)
  {
    var p := EventPlan(s);
    InFive(a, Planned(RemoteReprovision, p.remoteAction, true), Planned(CleanBoots, p.dispatch, false),
           Planned(CreateMr, p.mr, false), Planned(AccessRepair, p.repair, true),
           Planned(ValidateStability, p.stable, false));
    PlannedIs(a, RemoteReprovision, p.remoteAction, true);
    PlannedIs(a, CleanBoots, p.dispatch, false);
    PlannedIs(a, CreateMr, p.mr, false);
    PlannedIs(a, AccessRepair, p.repair, true);
    PlannedIs(a, ValidateStability, p.stable, false);
  }

  lemma PlannedIs(a: ActionRow, kind: ActionKind, event: Option<nat>, affecting: bool)
    ensures a in Planned(kind, event, affecting) <==>
              event.Some? && a == ActionRow(kind, event.value * 900_000_000, affecting)
  {
  }

  ghost predicate Done(e: Episode, kind: ActionKind) { exists a :: a in e.executed && a.kind == kind }

  /** An action is executed exactly when its event has come. */
  lemma DoneIff(i: Install, asOf: nat, tail: int, kind: ActionKind)
    ensures Done(EpisodeAt(i, asOf, tail), kind) <==>
              Come(EpisodeAt(i, asOf, tail), EventOf(EventPlan(i.scenario), kind))
  {
    var s, e, event := i.scenario, EpisodeAt(i, asOf, tail), EventOf(EventPlan(i.scenario), kind);
    if Done(e, kind) {
      var a :| a in e.executed && a.kind == kind;
      ActionPlanned(s, a);
    }
    if Come(e, event) {
      var a := ActionRow(kind, event.value * 900_000_000, kind == RemoteReprovision || kind == AccessRepair);
      ActionPlanned(s, a);
      assert a in e.executed;
    }
  }

  /** So an episode names its work order from the dispatch on and its MR from the hand-over on. */
  lemma OrdersIff(i: Install, asOf: nat, tail: int)
    ensures var e, plan := EpisodeAt(i, asOf, tail), EventPlan(i.scenario);
            && WorkOrderIds(e) == (if Come(e, plan.dispatch) then ["WO-" + i.id] else [])
            && MrIds(e) == (if Come(e, plan.mr) then ["MR-" + i.id] else [])
  {
    DoneIff(i, asOf, tail, CleanBoots);
    DoneIff(i, asOf, tail, CreateMr);
  }

  lemma RepairFollowsRemote(s: Scenario)
    ensures var p := EventPlan(s);
            && (p.repair.Some? && p.remoteAction.Some? ==> p.remoteAction.value <= p.repair.value)
            && (p.stable.Some? && p.remoteAction.Some? ==> p.remoteAction.value <= p.stable.value)
            && (p.remoteAction.Some? ==> p.stable.Some? && p.finding.Some? && p.finding.value <= p.remoteAction.value)
  {
  }

  /** The last service-affecting event that has come by the given age. */
  function LastAffecting(s: Scenario, age: int): Option<nat> {
    var p := EventPlan(s);
    if p.repair.Some? && age >= p.repair.value * 900_000_000 then p.repair
    else if p.remoteAction.Some? && age >= p.remoteAction.value * 900_000_000 then p.remoteAction
    else None
  }

  function AffectingRows(s: Scenario, age: int): seq<ActionRow> {
    Filter(Filter(ActionRows(s), Executed(age)), Affecting)
  }

  lemma AffectingRow(s: Scenario, age: int, a: ActionRow)
    requires a in AffectingRows(s, age)
    ensures LastAffecting(s, age).Some? && a.at <= LastAffecting(s, age).value * 900_000_000
  {
    ActionPlanned(s, a);
    RepairFollowsRemote(s);
  }

  lemma LastRow(s: Scenario, age: int) returns (a: ActionRow)
    requires LastAffecting(s, age).Some?
    ensures a in AffectingRows(s, age) && a.at == LastAffecting(s, age).value * 900_000_000
  {
    var repaired := EventPlan(s).repair.Some? && age >= EventPlan(s).repair.value * 900_000_000;
    a := ActionRow(if repaired then AccessRepair else RemoteReprovision, LastAffecting(s, age).value * 900_000_000,
                   true);
    ActionPlanned(s, a);
  }

  lemma LatestIs(rows: seq<ActionRow>, last: Option<int>)
    requires forall a :: a in rows ==> last.Some? && a.at <= last.value
    requires last.Some? ==> exists a :: a in rows && a.at == last.value
    ensures Latest(rows) == last
  {
    LatestIsMaximum(rows);
    if rows != [] { assert rows[0] in rows; }
  }

  function InMicroseconds(event: Option<nat>): Option<int> {
    if event.Some? then Some(event.value * 900_000_000) else None
  }

  lemma LatestAffecting(s: Scenario, age: int)
    ensures Latest(AffectingRows(s, age)) == InMicroseconds(LastAffecting(s, age))
  {
    forall a | a in AffectingRows(s, age)
      ensures InMicroseconds(LastAffecting(s, age)).Some? && a.at <= InMicroseconds(LastAffecting(s, age)).value
    {
      AffectingRow(s, age, a);
    }
    if LastAffecting(s, age).Some? { var a := LastRow(s, age); }
    LatestIs(AffectingRows(s, age), InMicroseconds(LastAffecting(s, age)));
  }

  /** The watch matures after 24 hours, or one stability tail after the repair or, before that, the remote action. */
  lemma MaturityIs(i: Install, asOf: nat, tail: int)
    ensures var e, plan := EpisodeAt(i, asOf, tail), EventPlan(i.scenario);
            e.maturity == if Come(e, plan.repair) then Max(24 * 3_600_000_000, plan.repair.value * 900_000_000 + tail)
                          else if Come(e, plan.remoteAction)
                          then Max(24 * 3_600_000_000, plan.remoteAction.value * 900_000_000 + tail)
                          else 24 * 3_600_000_000
  {
    LatestAffecting(i.scenario, AgeAt(i.scenario, asOf));
  }

  /** RECOVERING does not mean recovering from anything: of such an episode the remote action has been executed exactly
      when its finding has come. */
  lemma RecoveringIsRepairedIff(i: Install, asOf: nat, tail: int)
    requires EpisodeAt(i, asOf, tail).lifecycle == Recovering
    ensures var e := EpisodeAt(i, asOf, tail);
            Done(e, RemoteReprovision) <==> Come(e, EventPlan(i.scenario).finding)
  {
    RecoveringIff(i, asOf, tail);
    HealthIff(i, asOf, tail);
    RepairFollowsRemote(i.scenario);
    DoneIff(i, asOf, tail, RemoteReprovision);
  }

  /** An install that has just started is RECOVERING without a finding or an action, if its scenario plans one. */
  lemma RecoveringFromNothing(id: string, service: string, incident: string, tail: int)
    ensures var e := EpisodeAt(Install(id, service, RemoteStabilized, incident), 0, tail);
            e.lifecycle == Recovering && e.executed == [] && e.age == 0
  {
    var i := Install(id, service, RemoteStabilized, incident);
    RecoveringIff(i, 0, tail);
    HealthIff(i, 0, tail);
    MaturityIs(i, 0, tail);
    NothingExecuted(RemoteStabilized);
  }

  lemma NothingExecuted(s: Scenario)
    ensures Filter(ActionRows(s), Executed(0)) == []
  {
    forall a | a in ActionRows(s) ensures !Executed(0)(a) { ActionPlanned(s, a); }
    FilterNone(ActionRows(s), Executed(0));
  }

  // ------------------------------------------------------------------ hour by hour

  function Minute(n: int): int { n * 60_000_000 }

  /** Health over time: AMBER from one age, RED from the next, GREEN from the last. */
  function Course(age: int, amber: int, red: int, green: int): Health {
    if age < amber || age >= green then GREEN else if age >= red then RED else AMBER
  }

  /** A fault that needs the plant: the incident opens, a work order and an MR follow, and half an hour after the repair
      the incident is closed and the service GREEN. */
  ghost predicate PlantCourse(e: Episode, amber: int, incident: int, order: int, mr: int, closed: int) {
    && e.health == Course(e.age, amber, incident, closed)
    && (e.lifecycle == PromotedToIncident <==> e.age >= incident)
    && WorkOrderIds(e) == (if e.age >= order then ["WO-" + e.id] else [])
    && MrIds(e) == (if e.age >= mr then ["MR-" + e.id] else [])
    && Opened(e).openedAt == e.start + incident
    && Opened(e).closedAt == if e.age >= closed then Some(e.start + closed) else None
  }

  /** The plan repairs the fault: every event of the course is planned, and it is over half an hour after the repair. */
  predicate Repairs(p: Plan) {
    && p.finding.Some? && p.incident.Some? && p.dispatch.Some? && p.mr.Some? && p.repair.Some? && p.stable.Some?
    && p.stable.value == p.repair.value + 2 && p.incident.value <= p.stable.value
  }

  lemma PlantHealth(i: Install, asOf: nat, tail: int, p: Plan)
    requires p == EventPlan(i.scenario) && Repairs(p) && p.finding.value <= p.incident.value && i.scenario != ActiveRed
    ensures var e := EpisodeAt(i, asOf, tail);
            e.health == Course(e.age, p.finding.value * 900_000_000, p.incident.value * 900_000_000,
                               p.stable.value * 900_000_000)
  {
    HealthIff(i, asOf, tail);
  }

  lemma PlantTimes(e: Episode, p: Plan)
    requires p == EventPlan(e.scenario) && Repairs(p)
    ensures Opened(e).openedAt == e.start + p.incident.value * 900_000_000
    ensures Opened(e).closedAt == if e.age >= p.stable.value * 900_000_000
                                  then Some(e.start + p.stable.value * 900_000_000) else None
  {
  }

  lemma PlantCourseIs(i: Install, asOf: nat, tail: int, p: Plan)
    requires p == EventPlan(i.scenario) && Repairs(p) && p.finding.value <= p.incident.value && i.scenario != ActiveRed
    ensures PlantCourse(EpisodeAt(i, asOf, tail), p.finding.value * 900_000_000, p.incident.value * 900_000_000,
                        p.dispatch.value * 900_000_000, p.mr.value * 900_000_000, p.stable.value * 900_000_000)
  {
    PlantHealth(i, asOf, tail, p);
    PromotedIff(i, asOf, tail);
    OrdersIff(i, asOf, tail);
    PlantTimes(EpisodeAt(i, asOf, tail), p);
  }

  /** A persistent impairment: AMBER after 1 h, an incident after 3, a work order after 5, an MR after 7, closed after
      12.5. */
  lemma PersistentCourse(i: Install, asOf: nat, tail: int)
    requires i.scenario == PersistentHfc || i.scenario == PersistentPon
    ensures PlantCourse(EpisodeAt(i, asOf, tail), Minute(60), Minute(180), Minute(300), Minute(420), Minute(750))
  {
    PlantCourseIs(i, asOf, tail, EventPlan(i.scenario));
  }

  /** A shared-tap impairment: 45 minutes, 1.5 h, 3 h, 4 h and 8.5 h. */
  lemma CommonCauseCourse(i: Install, asOf: nat, tail: int)
    requires i.scenario == CommonCauseHfc
    ensures PlantCourse(EpisodeAt(i, asOf, tail), Minute(45), Minute(90), Minute(180), Minute(240), Minute(510))
  {
    PlantCourseIs(i, asOf, tail, EventPlan(i.scenario));
  }

  /** A fault that a remote action ends: AMBER in between, and a pass after 24 h or one tail after the action. */
  ghost predicate RemoteCourse(e: Episode, amber: int, action: int, green: int, tail: int) {
    && e.health == Course(e.age, amber, green, green)
    && (Done(e, RemoteReprovision) <==> e.age >= action)
    && (e.lifecycle == Passed24h <==> e.age >= Max(Minute(1440), action + tail))
    && e.incident == None
  }

  /** Only a remote action is planned, and it stabilizes the service within the day. */
  predicate Stabilizes(p: Plan) {
    && p.finding.Some? && p.remoteAction.Some? && p.stable.Some? && p.incident.None? && p.repair.None?
    && p.remoteAction.value <= p.stable.value <= 96
  }

  lemma RemoteCourseIs(i: Install, asOf: nat, tail: int, p: Plan)
    requires p == EventPlan(i.scenario) && Stabilizes(p) && i.scenario != ActiveRed
    ensures RemoteCourse(EpisodeAt(i, asOf, tail), p.finding.value * 900_000_000, p.remoteAction.value * 900_000_000,
                         p.stable.value * 900_000_000, tail)
  {
    HealthIff(i, asOf, tail);
    PromotedIff(i, asOf, tail);
    PassedIff(i, asOf, tail);
    DoneIff(i, asOf, tail, RemoteReprovision);
    MaturityIs(i, asOf, tail);
  }

  /** Stabilized: found after 2 h, acted on after 4, GREEN after 4.5. Wi-Fi: 1 h, 2 h, 2.5 h. Late: 20 h, 23 h, 23.5
      h. */
  lemma RemoteCourses(i: Install, asOf: nat, tail: int)
    ensures var e := EpisodeAt(i, asOf, tail);
            && (i.scenario == RemoteStabilized ==> RemoteCourse(e, Minute(120), Minute(240), Minute(270), tail))
            && (i.scenario == WifiImpairment ==> RemoteCourse(e, Minute(60), Minute(120), Minute(150), tail))
            && (i.scenario == LateActionExtension ==> RemoteCourse(e, Minute(1200), Minute(1380), Minute(1410), tail))
  {
    if i.scenario in {RemoteStabilized, WifiImpairment, LateActionExtension} {
      RemoteCourseIs(i, asOf, tail, EventPlan(i.scenario));
    }
  }

  /** Scenarios in which nothing is ever done: healthy ones pass after 24 h; the amber one stays AMBER from 2 h on;
      the red one is RED from 1 h on and an incident, never closed, from 3. */
  lemma IdleCourses(i: Install, asOf: nat, tail: int)
    ensures var e := EpisodeAt(i, asOf, tail);
            && (i.scenario in {HealthyHfc, HealthyPon, ActiveGreen} ==>
                  e.health == GREEN && e.incident == None && (e.lifecycle == Passed24h <==> e.age >= Minute(1440)))
            && (i.scenario == ActiveAmber ==>
                  (e.health == if e.age >= Minute(120) then AMBER else GREEN) && e.incident == None)
            && (i.scenario == ActiveRed ==>
                  (e.health == if e.age >= Minute(60) then RED else GREEN) && ClosingTime(e) == None
                  && (e.lifecycle == PromotedToIncident <==> e.age >= Minute(180)))
  {
    HealthIff(i, asOf, tail);
    PromotedIff(i, asOf, tail);
    PassedIff(i, asOf, tail);
    MaturityIs(i, asOf, tail);
  }

  /** The active scenarios start 12, 18 and 20 hours into the watch, or at its end, the others with it. */
  lemma StartsAt(i: Install, asOf: nat, tail: int)
    ensures var e := EpisodeAt(i, asOf, tail);
            && e.start + e.age == asOf
            && e.start == Min(asOf, if i.scenario == ActiveGreen then Minute(720)
                                    else if i.scenario == ActiveAmber then Minute(1080)
                                    else if i.scenario == ActiveRed then Minute(1200)
                                    else 0)
  {
  }

  lemma OutcomeIs(i: Install, asOf: nat, tail: int)
    ensures var e := EpisodeAt(i, asOf, tail);
            && (e.outcome == PassedAfterRemoteStabilization <==> e.lifecycle == Passed24h && e.executed != [])
            && (e.outcome == PassedWithoutIntervention <==> e.lifecycle == Passed24h && e.executed == [])
            && (e.outcome == PromotedToRootIncident <==> e.lifecycle == PromotedToIncident)
  {
  }

  lemma ActedOnIff(s: Scenario)
    ensures ActionRows(s) != [] && !s.PlansIncident() <==> s in {RemoteStabilized, WifiImpairment, LateActionExtension}
    ensures s in {RemoteStabilized, WifiImpairment, LateActionExtension} ==> EventPlan(s).remoteAction.Some?
  {
  }

  /** A watch that passed did so after a remote action exactly when its scenario plans one. */
  lemma PassedHow(i: Install, asOf: nat, tail: int)
    requires EpisodeAt(i, asOf, tail).lifecycle == Passed24h
    ensures EpisodeAt(i, asOf, tail).outcome
            == if i.scenario in {RemoteStabilized, WifiImpairment, LateActionExtension}
               then PassedAfterRemoteStabilization else PassedWithoutIntervention
  {
    var e := EpisodeAt(i, asOf, tail);
    OutcomeIs(i, asOf, tail);
    ActedOnIff(i.scenario);
    PassedMeansStable(i, asOf, tail);
    PassedIff(i, asOf, tail);
    PlansEndWithinDay(i.scenario);
    FindingComesFirst(i.scenario);
    DoneIff(i, asOf, tail, RemoteReprovision);
    if e.executed != [] { assert e.executed[0] in ActionRows(i.scenario); }
  }

  /** Which place of the cohort plays which scenario; all other places are healthy, as their technology says. */
  lemma PlacesOfScenarios(index: nat, hfc: bool)
    ensures var s := ScenarioFor(index, hfc);
            && (s == RemoteStabilized <==> index == 2) && (s == PersistentHfc <==> index == 3)
            && (s == PersistentPon <==> index == 4) && (s == WifiImpairment <==> index == 5)
            && (s == CommonCauseHfc <==> (index == 6 || index == 7) && hfc)
            && (s == LateActionExtension <==> index == 8) && (s == ActiveGreen <==> index == 9)
            && (s == ActiveAmber <==> index == 10) && (s == ActiveRed <==> index == 11)
            && (s == HealthyHfc ==> hfc) && (s == HealthyPon ==> !hfc)
  {
  }
}
