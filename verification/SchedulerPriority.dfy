/** Who goes first, in terms of protections, ages and deadlines: promised work, then late work, then the rest. */
module SchedulerPriority {
  import opened Common
  import opened Ordering
  import opened DispatchRanking
  import opened CrewScheduler
  import opened SchedulerStability
  import opened RemoteHolding

  /** A medical or safety dependency, or a service level already breached. */
  predicate Promised(j: Job) { exists p :: p in j.dispatch.protections && (p == MedicalOrSafety || p == SlaBreached) }

  predicate Late(j: Job) { j.age >= j.deadline }

  /** 0 for promised jobs, 1 for other late ones, 2 for the rest. */
  function Standing(j: Job): int { if Promised(j) then 0 else if Late(j) then 1 else 2 }

  lemma StandingIsTier(j: Job)
    ensures Standing(j) == j.Tier()
  {
  }

  /** A deferred promised job needs more hours than any scheduled job that is not promised, and a deferred late job
      more than any scheduled job that is neither. */
  lemma DeferredForSizeAlone(jobs: seq<Job>, available: nat, batchRemote: bool, a: Job, b: Job)
    requires NonNegativeHours(jobs)
    requires a in DayPlan(jobs, available, batchRemote).deferred && b in DayPlan(jobs, available, batchRemote).scheduled
    requires (Promised(a) && !Promised(b)) || (Late(a) && !Late(b) && !Promised(b))
    ensures a.crewHours > b.crewHours
  {
    StandingIsTier(a);
    StandingIsTier(b);
    assert Outranks(a, b);
    BoundedInversion(jobs, available, batchRemote);
  }

  // ------------------------------------------------------------------ what cannot disturb promised work

  predicate RemoteOrPromised(j: Job) { j.dispatch.remote || Promised(j) }

  predicate RemoteOrPressed(j: Job) { j.dispatch.remote || Promised(j) || Late(j) }

  predicate PromisedOrLate(j: Job) { Promised(j) || Late(j) }

  /** Two days with the same remote and promised jobs schedule and defer the same promised jobs in the same order,
      whatever else waits on the mainland, however valuable or late. */
  lemma NothingDisturbsPromisedWork(a: seq<Job>, b: seq<Job>, available: int, batchRemote: bool)
    requires multiset(Filter(a, RemoteOrPromised)) == multiset(Filter(b, RemoteOrPromised)) && DistinctBy(a, Ticket)
    ensures Filter(DayPlan(a, available, batchRemote).scheduled, Promised)
            == Filter(DayPlan(b, available, batchRemote).scheduled, Promised)
    ensures Filter(DayPlan(a, available, batchRemote).deferred, Promised)
            == Filter(DayPlan(b, available, batchRemote).deferred, Promised)
  {
    TiersDoNotInterfere(a, b, 0, available, batchRemote, RemoteOrPromised, Promised);
  }

  /** And ordinary mainland work disturbs neither promised nor late work. */
  lemma OrdinaryWorkWaits(a: seq<Job>, b: seq<Job>, available: int, batchRemote: bool)
    requires multiset(Filter(a, RemoteOrPressed)) == multiset(Filter(b, RemoteOrPressed)) && DistinctBy(a, Ticket)
    ensures Filter(DayPlan(a, available, batchRemote).scheduled, PromisedOrLate)
            == Filter(DayPlan(b, available, batchRemote).scheduled, PromisedOrLate)
    ensures Filter(DayPlan(a, available, batchRemote).deferred, PromisedOrLate)
            == Filter(DayPlan(b, available, batchRemote).deferred, PromisedOrLate)
  {
    TiersDoNotInterfere(a, b, 1, available, batchRemote, RemoteOrPressed, PromisedOrLate);
  }

  lemma TiersDoNotInterfere(a: seq<Job>, b: seq<Job>, tier: int, available: int, batchRemote: bool,
                            relevant: Job -> bool, upTo: Job -> bool)
    requires forall j :: relevant(j) == Relevant(tier)(j) && upTo(j) == UpTo(tier)(j)
    requires multiset(Filter(a, relevant)) == multiset(Filter(b, relevant)) && DistinctBy(a, Ticket)
    ensures Filter(DayPlan(a, available, batchRemote).scheduled, upTo)
            == Filter(DayPlan(b, available, batchRemote).scheduled, upTo)
    ensures Filter(DayPlan(a, available, batchRemote).deferred, upTo)
            == Filter(DayPlan(b, available, batchRemote).deferred, upTo)
  {
    FilterCongruent(a, relevant, Relevant(tier));
    FilterCongruent(b, relevant, Relevant(tier));
    LaterTiersDoNotInterfere(a, b, tier, available, batchRemote);
    FilterCongruent(DayPlan(a, available, batchRemote).scheduled, upTo, UpTo(tier));
    FilterCongruent(DayPlan(b, available, batchRemote).scheduled, upTo, UpTo(tier));
    FilterCongruent(DayPlan(a, available, batchRemote).deferred, upTo, UpTo(tier));
    FilterCongruent(DayPlan(b, available, batchRemote).deferred, upTo, UpTo(tier));
  }

  // ------------------------------------------------------------------ the order of service

  lemma {:induction false} MarkedStaysSorted(c: seq<Job>, take: seq<bool>, mark: bool)
    requires |take| == |c| && SortedBy(c, JobLe)
    ensures SortedBy(Marked(c, take, mark), JobLe)
  {
    if c != [] {
      TailSorted(c, JobLe);
      MarkedStaysSorted(c[1..], take[1..], mark);
      ConsSorted(c[0], Marked(c[1..], take[1..], mark), JobLe);
    }
  }

  /** `a` may stand before `b`: by standing, then by higher score, then by ticket id. */
  ghost predicate InTurn(a: Job, b: Job) {
    Standing(a) < Standing(b)
    || (Standing(a) == Standing(b)
        && (a.Score() > b.Score() || (a.Score() == b.Score() && StrLe(a.ticketId, b.ticketId))))
  }

  /** Scheduled and deferred jobs are each listed in turn. */
  lemma ServedInTurn(jobs: seq<Job>, available: int, batchRemote: bool)
    ensures var plan := DayPlan(jobs, available, batchRemote);
            && (forall i, k :: 0 <= i < k < |plan.scheduled| ==> InTurn(plan.scheduled[i], plan.scheduled[k]))
            && (forall i, k :: 0 <= i < k < |plan.deferred| ==> InTurn(plan.deferred[i], plan.deferred[k]))
  {
    var c := Released(jobs, batchRemote);
    JobLeOrder();
    SortedIsSorted(Pool(jobs, batchRemote), JobLe);
    MarkedStaysSorted(c, Take(c, available), true);
    MarkedStaysSorted(c, Take(c, available), false);
    forall a, b | JobLe(a, b) ensures InTurn(a, b) {
      StandingIsTier(a);
      StandingIsTier(b);
    }
  }

  // ------------------------------------------------------------------ deadlines and the remote run, in hours

  /** When a built job is late: at once, or 4, 12, 24, 36 or 72 hours after it was raised, as its protections say. */
  lemma LateIff(j: Job)
    requires Built(j)
    ensures Late(j) <==>
              var p := j.dispatch.protections;
              || SlaBreached in p
              || (MedicalOrSafety in p && j.age >= 400)
              || (TotalLossOfService in p && j.age >= 1200)
              || ((RegulatoryObligation in p || VulnerableCustomer in p) && j.age >= 2400)
              || (RepeatUnresolved in p && j.age >= 3600)
              || j.age >= 7200
  {
    DeadlineIsStrictest(j.dispatch.protections);
    if Late(j) && j.dispatch.protections != [] {
      var q :| q in j.dispatch.protections && DeadlineFor(j.dispatch.protections) == DeadlineOf(q);
    }
  }

  predicate Offshore(j: Job) { j.dispatch.remote }

  /** The remote jobs are held back, all of them, exactly when batching is on, there are at most three and each has
      more than 18 hours left. */
  lemma HeldIff(jobs: seq<Job>, available: int, batchRemote: bool)
    ensures var remote, held := Filter(jobs, Offshore), DayPlan(jobs, available, batchRemote).heldRemote;
            if batchRemote && |remote| <= 3 && (forall j :: j in remote ==> j.deadline - j.age > 1800)
            then held == remote else held == []
  {
    FilterCongruent(jobs, Offshore, IsRemote);
  }

  /** So no held job is promised, late, or without service, and none of them is more than 54 hours old. */
  lemma HeldJobsCanWait(jobs: seq<Job>, available: int, batchRemote: bool, j: Job)
    requires Built(j) && j in DayPlan(jobs, available, batchRemote).heldRemote
    ensures !Promised(j) && !Late(j) && TotalLossOfService !in j.dispatch.protections && j.age < 5400
    ensures RegulatoryObligation in j.dispatch.protections || VulnerableCustomer in j.dispatch.protections ==>
              j.age < 600
  {
    HeldIff(jobs, available, batchRemote);
    DeadlineIsStrictest(j.dispatch.protections);
  }

  // ------------------------------------------------------------------ value and score

  /** The value grows by 18 percent of its base a day, to two and a half times the base after 200 hours, in cents. */
  lemma AgedValueIsNearest(j: Job)
    requires j.age >= 0
    ensures j.age <= 200_00 ==>
              -120000 <= 240000 * j.AgedValue() - j.dispatch.valueAtRisk * (240000 + 18 * j.age) <= 120000
    ensures j.age >= 200_00 ==> -1 <= 2 * j.AgedValue() - 5 * j.dispatch.valueAtRisk <= 1
  {
    if j.age >= 200_00 { assert Min(24_0000 + 18 * Max(j.age, 0), 60_0000) == 60_0000; }
  }

  /** A job without crew-hours scores nothing. */
  lemma FreeJobsScoreNothing(j: Job)
    requires j.crewHours <= 0
    ensures j.Score() == 0
  {
  }
}
