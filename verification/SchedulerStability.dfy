/** What the day's plan does not depend on: the order of the input, and later-tier mainland work. */
module SchedulerStability {
  import opened Ordering
  import opened CrewScheduler

  lemma RunHeldPermutation(a: seq<Job>, b: seq<Job>, batchRemote: bool)
    requires multiset(Filter(a, IsRemote)) == multiset(Filter(b, IsRemote))
    ensures RunHeld(a, batchRemote) == RunHeld(b, batchRemote)
    ensures multiset(Held(a, batchRemote)) == multiset(Held(b, batchRemote))
  {
    SameElements(Filter(a, IsRemote), Filter(b, IsRemote));
  }

  /** Presenting the same jobs in another order changes neither what is scheduled nor what is deferred. */
  lemma OrderIndependence(a: seq<Job>, b: seq<Job>, available: int, batchRemote: bool)
    requires multiset(a) == multiset(b) && DistinctBy(a, Ticket)
    ensures DayPlan(a, available, batchRemote).scheduled == DayPlan(b, available, batchRemote).scheduled
    ensures DayPlan(a, available, batchRemote).deferred == DayPlan(b, available, batchRemote).deferred
    ensures multiset(DayPlan(a, available, batchRemote).heldRemote)
            == multiset(DayPlan(b, available, batchRemote).heldRemote)
  {
    FilterPermutation(a, b, IsRemote);
    FilterPermutation(a, b, IsMainland);
    RunHeldPermutation(a, b, batchRemote);
    PoolMembers(a, batchRemote);
    JobKeysUnique(a);
    JobLeOrder();
    SameElements(Pool(a, batchRemote), Released(a, batchRemote));
    SortedPermutation(Pool(a, batchRemote), Pool(b, batchRemote), JobLe);
  }

  // ------------------------------------------------------------------ non-interference between tiers

  function UpTo(tier: int): Job -> bool { (j: Job) => j.Tier() <= tier }

  function Beyond(tier: int): Job -> bool { (j: Job) => j.Tier() > tier }

  /** The jobs that may decide the fate of tier `tier`: all remote jobs and every job of that tier or earlier. */
  function Relevant(tier: int): Job -> bool { (j: Job) => j.Remote() || j.Tier() <= tier }

  lemma PoolMultiplicity(jobs: seq<Job>, batchRemote: bool, j: Job)
    ensures multiset(Pool(jobs, batchRemote))[j]
            == if j.Remote() && RunHeld(jobs, batchRemote) then 0 else multiset(jobs)[j]
  {
    FilterMultiplicity(jobs, IsMainland, j);
    FilterMultiplicity(jobs, IsRemote, j);
  }

  /** Inputs that agree on the relevant jobs hold the same ones and agree on each one's multiplicity. */
  lemma RelevantAgree(a: seq<Job>, b: seq<Job>, tier: int, batchRemote: bool)
    requires multiset(Filter(a, Relevant(tier))) == multiset(Filter(b, Relevant(tier)))
    ensures forall j :: Relevant(tier)(j) ==> multiset(a)[j] == multiset(b)[j]
    ensures RunHeld(a, batchRemote) == RunHeld(b, batchRemote)
  {
    forall j | Relevant(tier)(j) ensures multiset(a)[j] == multiset(b)[j] {
      FilterMultiplicity(a, Relevant(tier), j);
      FilterMultiplicity(b, Relevant(tier), j);
    }
    var ra, rb := Filter(a, IsRemote), Filter(b, IsRemote);
    forall j | j in multiset(ra) || j in multiset(rb) ensures multiset(ra)[j] == multiset(rb)[j] {
      FilterMultiplicity(a, IsRemote, j);
      FilterMultiplicity(b, IsRemote, j);
    }
    RunHeldPermutation(a, b, batchRemote);
  }

  lemma PoolUpTo(a: seq<Job>, b: seq<Job>, tier: int, batchRemote: bool)
    requires multiset(Filter(a, Relevant(tier))) == multiset(Filter(b, Relevant(tier)))
    ensures multiset(Filter(Pool(a, batchRemote), UpTo(tier))) == multiset(Filter(Pool(b, batchRemote), UpTo(tier)))
  {
    RelevantAgree(a, b, tier, batchRemote);
    var ea, eb := Filter(Pool(a, batchRemote), UpTo(tier)), Filter(Pool(b, batchRemote), UpTo(tier));
    forall j | j in multiset(ea) || j in multiset(eb) ensures multiset(ea)[j] == multiset(eb)[j] {
      FilterMultiplicity(Pool(a, batchRemote), UpTo(tier), j);
      FilterMultiplicity(Pool(b, batchRemote), UpTo(tier), j);
      PoolMultiplicity(a, batchRemote, j);
      PoolMultiplicity(b, batchRemote, j);
    }
  }

  /** The released jobs of the earlier tiers come first, in an order that only they decide. */
  lemma EarlierTiersLead(jobs: seq<Job>, tier: int, batchRemote: bool)
    ensures var c := Released(jobs, batchRemote);
            && c == Filter(c, UpTo(tier)) + Filter(c, Beyond(tier))
            && Filter(c, UpTo(tier)) == Sorted(Filter(Pool(jobs, batchRemote), UpTo(tier)), JobLe)
  {
    var pool, c := Pool(jobs, batchRemote), Released(jobs, batchRemote);
    JobLeOrder();
    SortedIsSorted(pool, JobLe);
    SortedSplit(c, JobLe, UpTo(tier), Beyond(tier));
    SortedFilter(pool, JobLe, UpTo(tier));
  }

  /** Of a plan over `early + late`, the early part is the plan over `early` alone. */
  lemma PlanOfLeading(early: seq<Job>, late: seq<Job>, tier: int, available: int, mark: bool)
    requires forall j :: j in early ==> UpTo(tier)(j)
    requires forall j :: j in late ==> !UpTo(tier)(j)
    ensures Filter(Marked(early + late, Take(early + late, available), mark), UpTo(tier))
            == Marked(early, Take(early, available), mark)
  {
    var left := Left(early, available);
    TakeAppend(early, late, available);
    MarkedAppend(early, late, Take(early, available), Take(late, left), mark);
    var a, b := Marked(early, Take(early, available), mark), Marked(late, Take(late, left), mark);
    FilterAppend(a, b, UpTo(tier));
    FilterAll(a, UpTo(tier));
    FilterNone(b, UpTo(tier));
  }

  lemma EarlierPlan(jobs: seq<Job>, tier: int, available: int, batchRemote: bool)
    ensures var early := Sorted(Filter(Pool(jobs, batchRemote), UpTo(tier)), JobLe);
            && Filter(DayPlan(jobs, available, batchRemote).scheduled, UpTo(tier))
               == Marked(early, Take(early, available), true)
            && Filter(DayPlan(jobs, available, batchRemote).deferred, UpTo(tier))
               == Marked(early, Take(early, available), false)
  {
    var c := Released(jobs, batchRemote);
    EarlierTiersLead(jobs, tier, batchRemote);
    PlanOfLeading(Filter(c, UpTo(tier)), Filter(c, Beyond(tier)), tier, available, true);
    PlanOfLeading(Filter(c, UpTo(tier)), Filter(c, Beyond(tier)), tier, available, false);
  }

  /** Adding, removing or changing mainland jobs of later tiers leaves the earlier tiers' plan untouched. */
  lemma LaterTiersDoNotInterfere(a: seq<Job>, b: seq<Job>, tier: int, available: int, batchRemote: bool)
    requires multiset(Filter(a, Relevant(tier))) == multiset(Filter(b, Relevant(tier)))
    requires DistinctBy(a, Ticket)
    ensures Filter(DayPlan(a, available, batchRemote).scheduled, UpTo(tier))
            == Filter(DayPlan(b, available, batchRemote).scheduled, UpTo(tier))
    ensures Filter(DayPlan(a, available, batchRemote).deferred, UpTo(tier))
            == Filter(DayPlan(b, available, batchRemote).deferred, UpTo(tier))
  {
    var ea, eb := Filter(Pool(a, batchRemote), UpTo(tier)), Filter(Pool(b, batchRemote), UpTo(tier));
    EarlierPlan(a, tier, available, batchRemote);
    EarlierPlan(b, tier, available, batchRemote);
    PoolUpTo(a, b, tier, batchRemote);
    PoolMembers(a, batchRemote);
    SameElements(Pool(a, batchRemote), Released(a, batchRemote));
    JobKeysUnique(a);
    JobLeOrder();
    SortedPermutation(ea, eb, JobLe);
  }
}
