/** The value bound tier by tier: each tier's jobs make the most of the hours that the earlier tiers leave. */
module SchedulerTiers {
  import opened Ordering
  import opened CrewScheduler
  import opened SchedulerStability
  import opened SchedulerValue

  function OfTier(tier: int): Job -> bool { (j: Job) => j.Tier() == tier }

  /** A sorted sequence is its earlier tiers, the tier itself, and the later ones. */
  lemma ThreeTiers(c: seq<Job>, tier: int)
    requires SortedBy(c, JobLe)
    ensures c == Filter(c, UpTo(tier - 1)) + Filter(c, OfTier(tier)) + Filter(c, Beyond(tier))
  {
    var lead := Filter(c, UpTo(tier));
    SortedSplit(c, JobLe, UpTo(tier), Beyond(tier));
    SortedFilterStaysSorted(c, JobLe, UpTo(tier));
    SortedSplit(lead, JobLe, UpTo(tier - 1), OfTier(tier));
    FilterWithin(c, UpTo(tier), UpTo(tier - 1));
    FilterWithin(c, UpTo(tier), OfTier(tier));
  }

  /** Of a plan over `early + mid + late`, the part of the middle tier is the plan of `mid` over what `early` leaves. */
  lemma PlanOfMiddle(early: seq<Job>, mid: seq<Job>, late: seq<Job>, tier: int, available: int, mark: bool)
    requires forall j :: j in early ==> UpTo(tier - 1)(j)
    requires forall j :: j in mid ==> OfTier(tier)(j)
    requires forall j :: j in late ==> Beyond(tier)(j)
    ensures var c := early + mid + late;
            Filter(Marked(c, Take(c, available), mark), OfTier(tier))
            == Marked(mid, Take(mid, Left(early, available)), mark)
  {
    var lead, left := early + mid, Left(early, available);
    TakeAppend(lead, late, available);
    TakeAppend(early, mid, available);
    var a, b, z := Take(early, available), Take(mid, left), Take(late, Left(lead, available));
    MarkedAppend(lead, late, a + b, z, mark);
    MarkedAppend(early, mid, a, b, mark);
    OnlyMiddle(Marked(early, a, mark), Marked(mid, b, mark), Marked(late, z, mark), tier);
  }

  lemma OnlyMiddle(a: seq<Job>, b: seq<Job>, z: seq<Job>, tier: int)
    requires forall j :: j in a ==> UpTo(tier - 1)(j)
    requires forall j :: j in b ==> OfTier(tier)(j)
    requires forall j :: j in z ==> Beyond(tier)(j)
    ensures Filter(a + b + z, OfTier(tier)) == b
  {
    FilterMiddle(a, b, z, OfTier(tier));
  }

  lemma FilterMiddle(a: seq<Job>, b: seq<Job>, z: seq<Job>, p: Job -> bool)
    requires (forall j :: j in a ==> !p(j)) && (forall j :: j in b ==> p(j)) && (forall j :: j in z ==> !p(j))
    ensures Filter(a + b + z, p) == b
  {
    FilterNone(a, p);
    FilterAll(b, p);
    FilterNone(z, p);
    FilterAppend(a + b, z, p);
    FilterAppend(a, b, p);
    assert [] + b + [] == b;
  }

  /** The crew-hours that the scheduled jobs of earlier tiers leave. */
  function HoursLeft(jobs: seq<Job>, available: nat, batchRemote: bool, tier: int): int {
    available - Sum(Filter(DayPlan(jobs, available, batchRemote).scheduled, UpTo(tier - 1)), Hours)
  }

  /** The day's plan, seen from one tier: the greedy plan of that tier's jobs over the hours left to it. */
  lemma TierPlan(jobs: seq<Job>, available: nat, batchRemote: bool, tier: int)
    ensures var mid, left := Filter(Released(jobs, batchRemote), OfTier(tier)),
                             HoursLeft(jobs, available, batchRemote, tier);
            && left >= 0
            && Filter(DayPlan(jobs, available, batchRemote).scheduled, OfTier(tier))
               == Marked(mid, Take(mid, left), true)
            && Filter(DayPlan(jobs, available, batchRemote).deferred, OfTier(tier))
               == Marked(mid, Take(mid, left), false)
  {
    var c := Released(jobs, batchRemote);
    var early, mid, late := Filter(c, UpTo(tier - 1)), Filter(c, OfTier(tier)), Filter(c, Beyond(tier));
    JobLeOrder();
    SortedIsSorted(Pool(jobs, batchRemote), JobLe);
    ThreeTiers(c, tier);
    PlanOfMiddle(early, mid, late, tier, available, true);
    PlanOfMiddle(early, mid, late, tier, available, false);
    EarlierHours(jobs, available, batchRemote, tier);
    TakeFits(early, available);
  }

  lemma EarlierHours(jobs: seq<Job>, available: nat, batchRemote: bool, tier: int)
    ensures HoursLeft(jobs, available, batchRemote, tier)
            == Left(Filter(Released(jobs, batchRemote), UpTo(tier - 1)), available)
  {
    EarlierTiersLead(jobs, tier - 1, batchRemote);
    EarlierPlan(jobs, tier - 1, available, batchRemote);
  }

  /** Of each tier, the scheduled jobs and the first deferred one together match any selection of that tier's released
      jobs that fits the hours earlier tiers leave, up to score rounding. */
  lemma TierKnapsackBound(jobs: seq<Job>, available: nat, batchRemote: bool, tier: int, pick: seq<Job>)
    requires forall j :: j in Released(jobs, batchRemote) && j.Tier() == tier ==> Priced(j)
    requires multiset(pick) <= multiset(Filter(Released(jobs, batchRemote), OfTier(tier)))
    requires Sum(pick, Hours) <= HoursLeft(jobs, available, batchRemote, tier)
    ensures var plan, left := DayPlan(jobs, available, batchRemote), HoursLeft(jobs, available, batchRemote, tier);
            var scheduled, deferred := Filter(plan.scheduled, OfTier(tier)), Filter(plan.deferred, OfTier(tier));
            Sum(scheduled, Weighted) + FirstWeight(deferred) + 5 * (2 * left + FirstHours(deferred))
            >= Sum(pick, Weighted)
  {
    var c := Released(jobs, batchRemote);
    TierPlan(jobs, available, batchRemote, tier);
    JobLeOrder();
    SortedIsSorted(Pool(jobs, batchRemote), JobLe);
    SortedFilterStaysSorted(c, JobLe, OfTier(tier));
    KnapsackGreedy(Filter(c, OfTier(tier)), HoursLeft(jobs, available, batchRemote, tier), pick);
  }
}
