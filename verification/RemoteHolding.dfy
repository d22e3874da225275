/** Holding a remote run back is safe for every job in it and cannot go on for more than three days. */
module RemoteHolding {
  import opened Common
  import opened Ordering
  import opened DispatchRanking
  import opened CrewScheduler

  /** What `build_jobs` guarantees of a job whose ticket has been raised. */
  ghost predicate Built(j: Job) {
    j.age >= 0 && j.deadline == DeadlineFor(j.dispatch.protections)
  }

  lemma JobOfIsBuilt(row: RankedDispatch, ages: map<string, int>, hours: RankedDispatch -> int, pull: int -> int)
    requires forall t :: t in ages ==> ages[t] >= 0
    ensures Built(JobOf(row, ages, hours, pull))
  {
  }

  lemma HeldJobHasSlack(jobs: seq<Job>, batchRemote: bool, j: Job)
    requires j in Held(jobs, batchRemote) && Built(j)
    ensures j.deadline - j.age > FORCE_RUN && !j.Overdue() && !j.Absolute()
  {
    assert j in Filter(jobs, IsRemote) && !Pressing(j);
    DeadlineIsStrictest(j.dispatch.protections);
  }

  /** A held run is short, and each job in it has more than FORCE_RUN of slack and no urgent standing. */
  lemma HoldingIsSafe(jobs: seq<Job>, available: int, batchRemote: bool)
    requires forall j :: j in jobs ==> Built(j)
    ensures |DayPlan(jobs, available, batchRemote).heldRemote| < MIN_REMOTE_BATCH
    ensures forall j :: j in DayPlan(jobs, available, batchRemote).heldRemote ==>
              j.deadline - j.age > FORCE_RUN && !j.Overdue() && !j.Absolute()
  {
    var held := Held(jobs, batchRemote);
    assert DayPlan(jobs, available, batchRemote).heldRemote == held;
    forall j | j in held ensures j.deadline - j.age > FORCE_RUN && !j.Overdue() && !j.Absolute() {
      assert j in jobs;
      HeldJobHasSlack(jobs, batchRemote, j);
    }
  }

  /** One daily call of the scheduler. */
  datatype DayCall = DayCall(jobs: seq<Job>, available: int, batchRemote: bool)
  {
    predicate Holds(ticket: string) {
      exists j :: j in DayPlan(jobs, available, batchRemote).heldRemote && j.ticketId == ticket
    }
  }

  function DaysHeld(days: seq<DayCall>, ticket: string): nat {
    if days == [] then 0
    else DaysHeld(days[..|days| - 1], ticket) + (if days[|days| - 1].Holds(ticket) then 1 else 0)
  }

  /** The ticket ages by 24 hours from each call to the next; its protections may change from day to day. */
  ghost predicate AgesDaily(days: seq<DayCall>, ticket: string, firstAge: nat) {
    forall d, j :: 0 <= d < |days| && j in days[d].jobs ==>
      Built(j) && (j.ticketId == ticket ==> j.age == firstAge + 24_00 * d)
  }

  /** A held ticket's job is younger than 54 hours. */
  lemma HeldJobIsYoung(day: DayCall, ticket: string) returns (j: Job)
    requires day.Holds(ticket) && forall j :: j in day.jobs ==> Built(j)
    ensures j in day.jobs && j.ticketId == ticket && j.age < DEFAULT_DEADLINE - FORCE_RUN
  {
    var held := Held(day.jobs, day.batchRemote);
    assert held == DayPlan(day.jobs, day.available, day.batchRemote).heldRemote;
    j :| j in held && j.ticketId == ticket;
    assert j in Filter(day.jobs, IsRemote) && !Pressing(j);
    DeadlineIsStrictest(j.dispatch.protections);
  }

  lemma HeldOnDay(days: seq<DayCall>, ticket: string, firstAge: nat, d: nat)
    requires AgesDaily(days, ticket, firstAge) && d < |days| && days[d].Holds(ticket)
    ensures d < 3
  {
    var j := HeldJobIsYoung(days[d], ticket);
  }

  /** Whatever else is in the daily calls, no ticket is held back more than three times. */
  lemma {:induction false} HeldAtMostThreeDays(days: seq<DayCall>, ticket: string, firstAge: nat)
    requires AgesDaily(days, ticket, firstAge)
    ensures DaysHeld(days, ticket) <= Min(|days|, 3)
  {
    if days != [] {
      var n := |days| - 1;
      HeldAtMostThreeDays(days[..n], ticket, firstAge);
      if days[n].Holds(ticket) { HeldOnDay(days, ticket, firstAge, n); }
    }
  }
}
