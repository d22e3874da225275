/** What waiting does to a job: it never loses rank, and what it gains by score is capped. */
module SchedulerAging {
  import opened Common
  import opened Ordering
  import opened DispatchRanking
  import opened CrewScheduler
  import opened UrgencyDecay

  lemma RoundDivMonotone(n: int, m: int, d: int)
    requires d > 0 && n <= m
    ensures RoundDiv(n, d) <= RoundDiv(m, d)
  {
    if n < m { NearestInOrder(n, m, d, RoundDiv(n, d), RoundDiv(m, d)); }
  }

  lemma NearestInOrder(n: int, m: int, d: int, a: int, b: int)
    requires d > 0 && n < m && 2 * (d * a - n) <= d && -d <= 2 * (d * b - m)
    ensures a <= b
  {
    assert d * (b + 1) == d * b + d;
    if a > b { Scaled(d, b + 1, a); }
  }

  lemma Scaled(k: nat, low: int, high: int)
    requires low <= high
    ensures k * low <= k * high
  {
    assert k * (high - low) >= 0;
  }

  /** Growth in 240000ths: from one at age zero to two and a half. */
  function Growth(age: int): (g: int)
    ensures 24_0000 <= g <= 60_0000
  {
    Min(24_0000 + 18 * Max(age, 0), 60_0000)
  }

  /** The aged value never falls below the base value and never exceeds two and a half times it. */
  lemma AgedValueRange(j: Job)
    requires j.dispatch.valueAtRisk >= 0
    ensures j.dispatch.valueAtRisk <= j.AgedValue() && 2 * j.AgedValue() <= 5 * j.dispatch.valueAtRisk + 1
  {
    var v, g := j.dispatch.valueAtRisk, Growth(j.age);
    assert j.AgedValue() == RoundDiv(v * g, 24_0000);
    Scaled(v, 24_0000, g);
    Scaled(v, g, 60_0000);
  }

  lemma AgedValueGrows(j: Job, later: Job)
    requires j.dispatch == later.dispatch && j.dispatch.valueAtRisk >= 0 && j.age <= later.age
    ensures 0 <= j.AgedValue() <= later.AgedValue()
  {
    var v := j.dispatch.valueAtRisk;
    Scaled(v, Growth(j.age), Growth(later.age));
    RoundDivMonotone(v * Growth(j.age), v * Growth(later.age), 24_0000);
    AgedValueRange(j);
  }

  /** A multiplier of the kind that `urgency` is: between one and twelve, and the stronger the less slack is left. */
  ghost predicate Proper(pull: int -> int) {
    && (forall s :: 1_0000 <= pull(s) <= URGENCY_AT_DEADLINE)
    && (forall s, t :: s <= t ==> pull(t) <= pull(s))
  }

  lemma PullIsProper()
    ensures Proper(Pull)
  {
    forall s, t | s <= t ensures Pull(t) <= Pull(s) { PullGrows(s, t); }
  }

  /** The job's multiplier is the one that its slack gives. */
  ghost predicate Pulled(j: Job, pull: int -> int) { j.pull == pull(j.deadline - j.age) }

  /** The job as it stands at another age. */
  function At(j: Job, age: int, pull: int -> int): Job { j.(age := age, pull := pull(j.deadline - age)) }

  lemma BuiltJobsArePulled(row: RankedDispatch, ages: map<string, int>, hours: RankedDispatch -> int, pull: int -> int)
    ensures Pulled(JobOf(row, ages, hours, pull), pull)
  {
  }

  lemma AtKeeps(j: Job, age: int, later: int, pull: int -> int)
    ensures Pulled(At(j, age, pull), pull) && At(At(j, age, pull), later, pull) == At(j, later, pull)
    ensures At(j, age, pull).dispatch == j.dispatch && At(j, age, pull).age == age
    ensures Ceiling(At(j, age, pull)) == Ceiling(j)
  {
  }

  lemma UrgencyGrows(j: Job, later: int, pull: int -> int)
    requires Proper(pull) && Pulled(j, pull) && j.age <= later
    ensures 1_0000 <= j.Urgency() <= At(j, later, pull).Urgency() <= 12_0000
  {
    assert pull(j.deadline - j.age) <= pull(j.deadline - later);
  }

  /** Waiting never lowers a score. */
  lemma ScoreGrows(j: Job, later: int, pull: int -> int)
    requires Proper(pull) && Pulled(j, pull) && j.dispatch.valueAtRisk >= 0 && j.age <= later
    ensures j.Score() <= At(j, later, pull).Score()
  {
    var t := At(j, later, pull);
    if j.crewHours > 0 {
      AgedValueGrows(j, t);
      UrgencyGrows(j, later, pull);
      ProductMonotone(j.AgedValue(), j.Urgency(), t.AgedValue(), t.Urgency());
      RoundDivMonotone(j.AgedValue() * j.Urgency(), t.AgedValue() * t.Urgency(), 10 * j.crewHours);
    }
  }

  /** Waiting never costs a job its place: whatever it stood before, it still does later. */
  lemma WaitingNeverDemotes(j: Job, later: int, other: Job, pull: int -> int)
    requires Proper(pull) && Pulled(j, pull) && j.dispatch.valueAtRisk >= 0 && j.age <= later
    requires JobLe(j, other)
    ensures JobLe(At(j, later, pull), other)
  {
    ScoreGrows(j, later, pull);
    JobLeOrder();
    StrLeTotal(j.ticketId, j.ticketId);
    assert JobLe(At(j, later, pull), j);
  }

  /** The score reached at two and a half times the value and the deadline's urgency. */
  function ScoreCap(value: int, crewHours: int): int {
    if crewHours <= 0 then 0 else RoundDiv((5 * value + 1) / 2 * 12_0000, 10 * crewHours)
  }

  /** The score a job can reach by waiting. */
  function Ceiling(j: Job): int { ScoreCap(j.dispatch.valueAtRisk, j.crewHours) }

  lemma ProductIsCapped(value: nat, urgency: nat, base: nat, hours: int)
    requires 2 * value <= 5 * base + 1 && urgency <= 12_0000 && hours > 0
    ensures RoundDiv(value * urgency, 10 * hours) <= ScoreCap(base, hours)
  {
    ProductMonotone(value, urgency, (5 * base + 1) / 2, 12_0000);
    RoundDivMonotone(value * urgency, (5 * base + 1) / 2 * 12_0000, 10 * hours);
  }

  lemma ScoreIsCapped(j: Job, pull: int -> int)
    requires Proper(pull) && Pulled(j, pull) && j.dispatch.valueAtRisk >= 0
    ensures j.Score() <= Ceiling(j)
  {
    if j.crewHours > 0 {
      AgedValueRange(j);
      UrgencyGrows(j, j.age, pull);
      ProductIsCapped(j.AgedValue(), j.Urgency(), j.dispatch.valueAtRisk, j.crewHours);
    }
  }

  // ------------------------------------------------------------------ overtaking a newcomer

  /** At some age before its deadline the waiting job stands before the newcomer. */
  ghost predicate OvertakesInTime(waiting: Job, newcomer: Job, pull: int -> int) {
    exists age :: waiting.age <= age < waiting.deadline && JobLe(At(waiting, age, pull), newcomer)
  }

  /** The last hundredth of an hour before the deadline. */
  function LastMoment(j: Job, pull: int -> int): Job { At(j, j.deadline - 1, pull) }

  /** Among ordinary jobs the score decides, then the ticket id. */
  ghost predicate ScoresBefore(score: int, ticket: string, other: Job) {
    score > other.Score() || (score == other.Score() && StrLe(ticket, other.ticketId))
  }

  lemma OrdinaryOrder(waiting: Job, age: int, newcomer: Job, pull: int -> int)
    requires !waiting.Absolute() && newcomer.Tier() == 2
    ensures At(waiting, age, pull).Tier() == (if age >= waiting.deadline then 1 else 2)
    ensures JobLe(At(waiting, age, pull), newcomer) <==>
              age >= waiting.deadline || ScoresBefore(At(waiting, age, pull).Score(), waiting.ticketId, newcomer)
  {
  }

  /** A waiting job of ordinary standing stands before an ordinary newcomer at some time before its deadline exactly
      when its score in the last moment before the deadline is high enough. */
  lemma OvertakesInTimeIff(waiting: Job, newcomer: Job, pull: int -> int)
    requires Proper(pull) && Pulled(waiting, pull)
    requires waiting.dispatch.valueAtRisk >= 0 && !waiting.Absolute() && !waiting.Overdue() && newcomer.Tier() == 2
    ensures OvertakesInTime(waiting, newcomer, pull)
            <==> ScoresBefore(LastMoment(waiting, pull).Score(), waiting.ticketId, newcomer)
  {
    var last := waiting.deadline - 1;
    OrdinaryOrder(waiting, last, newcomer, pull);
    if age :| waiting.age <= age < waiting.deadline && JobLe(At(waiting, age, pull), newcomer) {
      LaterStaysBefore(waiting, age, last, newcomer, pull);
    }
  }

  lemma LaterStaysBefore(waiting: Job, age: int, last: int, newcomer: Job, pull: int -> int)
    requires Proper(pull)
    requires waiting.dispatch.valueAtRisk >= 0 && age <= last && JobLe(At(waiting, age, pull), newcomer)
    ensures JobLe(At(waiting, last, pull), newcomer)
  {
    AtKeeps(waiting, age, last, pull);
    WaitingNeverDemotes(At(waiting, age, pull), last, newcomer, pull);
  }

  /** A newcomer above the waiting job's cap is overtaken by the deadline alone. */
  lemma OnlyTheDeadlineOvertakes(waiting: Job, newcomer: Job, age: int, pull: int -> int)
    requires Proper(pull) && waiting.dispatch.valueAtRisk >= 0 && !waiting.Absolute()
    requires newcomer.Tier() == 2 && newcomer.Score() > Ceiling(waiting)
    ensures JobLe(At(waiting, age, pull), newcomer) <==> age >= waiting.deadline
  {
    CappedLater(waiting, age, pull);
    OrdinaryOrder(waiting, age, newcomer, pull);
  }

  lemma CappedLater(j: Job, age: int, pull: int -> int)
    requires Proper(pull) && j.dispatch.valueAtRisk >= 0
    ensures At(j, age, pull).Score() <= Ceiling(j)
  {
    AtKeeps(j, age, age, pull);
    ScoreIsCapped(At(j, age, pull), pull);
  }

  /** Two ordinary jobs of five crew-hours: one at 100 dollars, just raised, and a newcomer at 10000 dollars. No waiting
      short of its deadline brings the first before the second. */
  lemma SmallTicketNeverCatchesUp(pull: int -> int) returns (waiting: Job, newcomer: Job)
    requires Proper(pull)
    ensures Pulled(waiting, pull) && waiting.Tier() == 2 && waiting.dispatch.valueAtRisk == 100_00 && waiting.age == 0
    ensures Pulled(newcomer, pull) && newcomer.Tier() == 2 && newcomer.dispatch.valueAtRisk == 10000_00
    ensures newcomer.age == 0 && waiting.crewHours == newcomer.crewHours == 500
    ensures !OvertakesInTime(waiting, newcomer, pull)
  {
    waiting, newcomer := Plain("A", 100_00, pull), Plain("B", 10000_00, pull);
    PlainScores("B", 10000_00, pull);
    PlainScores("A", 100_00, pull);
    forall age | 0 <= age < waiting.deadline ensures !JobLe(At(waiting, age, pull), newcomer) {
      OnlyTheDeadlineOvertakes(waiting, newcomer, age, pull);
    }
  }

  lemma PlainScores(ticket: string, value: nat, pull: int -> int)
    requires Proper(pull)
    ensures var j := Plain(ticket, value, pull);
            && Pulled(j, pull) && j.Tier() == 2 && j.Score() >= RoundDiv(value * 1_0000, 5000)
            && Ceiling(j) == RoundDiv((5 * value + 1) / 2 * 12_0000, 5000)
  {
    var j := Plain(ticket, value, pull);
    AgedValueRange(j);
    UrgencyGrows(j, j.age, pull);
    ProductMonotone(value, 1_0000, j.AgedValue(), j.Urgency());
    RoundDivMonotone(value * 1_0000, j.AgedValue() * j.Urgency(), 5000);
  }

  /** An ordinary ticket just raised, five crew-hours away. */
  function Plain(ticket: string, value: int, pull: int -> int): Job {
    var dispatch := RankedDispatch(ticket, false, value, 0, 1, [], Positive);
    At(Job(ticket, dispatch, 0, 500, DEFAULT_DEADLINE, 0), 0, pull)
  }

  // ------------------------------------------------------------------ with the real multiplier

  /** Jobs built with the real multiplier: at any later age such a job still stands before whatever it stood before. */
  lemma BuiltJobsKeepTheirPlace(row: RankedDispatch, ages: map<string, int>, hours: RankedDispatch -> int, later: int,
                                other: Job)
    requires row.valueAtRisk >= 0 && JobOf(row, ages, hours, Pull).age <= later
    requires JobLe(JobOf(row, ages, hours, Pull), other)
    ensures JobLe(At(JobOf(row, ages, hours, Pull), later, Pull), other)
  {
    PullIsProper();
    BuiltJobsArePulled(row, ages, hours, Pull);
    JobOfKeepsValue(row, ages, hours, Pull);
    WaitingNeverDemotes(JobOf(row, ages, hours, Pull), later, other, Pull);
  }

  lemma JobOfKeepsValue(row: RankedDispatch, ages: map<string, int>, hours: RankedDispatch -> int, pull: int -> int)
    ensures JobOf(row, ages, hours, pull).dispatch == row
  {
  }

  /** And whether it ever stands before an ordinary newcomer in time is decided in the last moment. */
  lemma BuiltJobsOvertakeIff(row: RankedDispatch, ages: map<string, int>, hours: RankedDispatch -> int, newcomer: Job)
    requires var j := JobOf(row, ages, hours, Pull);
             row.valueAtRisk >= 0 && !j.Absolute() && !j.Overdue() && newcomer.Tier() == 2
    ensures var j := JobOf(row, ages, hours, Pull);
            OvertakesInTime(j, newcomer, Pull)
            <==> ScoresBefore(LastMoment(j, Pull).Score(), j.ticketId, newcomer)
  {
    PullIsProper();
    BuiltJobsArePulled(row, ages, hours, Pull);
    JobOfKeepsValue(row, ages, hours, Pull);
    OvertakesInTimeIff(JobOf(row, ages, hours, Pull), newcomer, Pull);
  }
}
