/** A day's crew-hours filled by value density, deadlines first.
    Money is in cents, time in hundredths of an hour, urgency in ten-thousandths and score in thousandths. */
module CrewScheduler {
  import opened Common
  import opened Ordering
  import opened DispatchRanking

  const HOUR := 100
  const DEFAULT_DEADLINE := 72 * HOUR
  const FORCE_RUN := 18 * HOUR
  const MIN_REMOTE_BATCH := 4
  const URGENCY_AT_DEADLINE := 12_0000

  // ------------------------------------------------------------------ jobs

  function DeadlineOf(p: Protection): int {
    match p
    case MedicalOrSafety => 4 * HOUR
    case SlaBreached => 0
    case TotalLossOfService => 12 * HOUR
    case RegulatoryObligation => 24 * HOUR
    case VulnerableCustomer => 24 * HOUR
    case RepeatUnresolved => 36 * HOUR
  }

  function DeadlineFor(protections: seq<Protection>): int {
    if protections == [] then DEFAULT_DEADLINE
    else if |protections| == 1 then DeadlineOf(protections[0])
    else Min(DeadlineOf(protections[0]), DeadlineFor(protections[1..]))
  }

  /** The deadline is one that some protection imposes, and none imposes a stricter one. */
  lemma {:induction false} DeadlineIsStrictest(protections: seq<Protection>)
    ensures DeadlineFor(protections) <= DEFAULT_DEADLINE
    ensures forall p :: p in protections ==> DeadlineFor(protections) <= DeadlineOf(p)
    ensures protections != [] ==> exists p :: p in protections && DeadlineFor(protections) == DeadlineOf(p)
  {
    if |protections| == 1 {
      assert protections[0] in protections;
    } else if |protections| > 1 {
      DeadlineIsStrictest(protections[1..]);
      assert protections[0] in protections;
      var p :| p in protections[1..] && DeadlineFor(protections[1..]) == DeadlineOf(p);
      assert p in protections;
    }
  }

  /** `pull` is the urgency multiplier that applies while the job still has slack. */
  datatype Job = Job(
    ticketId: string, dispatch: RankedDispatch, age: int, crewHours: int, deadline: int, pull: int)
  {
    function Urgency(): int { if deadline - age <= 0 then URGENCY_AT_DEADLINE else pull }

    function AgedValue(): int {
      RoundDiv(dispatch.valueAtRisk * Min(24_0000 + 18 * Max(age, 0), 60_0000), 24_0000)
    }

    predicate Overdue() { age >= deadline }

    predicate Absolute() { MedicalOrSafety in dispatch.protections || SlaBreached in dispatch.protections }

    function Score(): int {
      if crewHours <= 0 then 0 else RoundDiv(AgedValue() * Urgency(), 10 * crewHours)
    }

    predicate Remote() { dispatch.remote }

    function Tier(): int { if Absolute() then 0 else if Overdue() then 1 else 2 }
  }

  function JobOf(row: RankedDispatch, ages: map<string, int>, hours: RankedDispatch -> int, pull: int -> int): Job {
    var age := if row.ticketId in ages then ages[row.ticketId] else 0;
    var deadline := DeadlineFor(row.protections);
    Job(row.ticketId, row, age, hours(row), deadline, pull(deadline - age))
  }

  method BuildJobs(ranked: seq<RankedDispatch>, ages: map<string, int>,
                   hours: RankedDispatch -> int, pull: int -> int)
    returns (jobs: seq<Job>)
    ensures |jobs| == |ranked|
    ensures forall i :: 0 <= i < |jobs| ==> jobs[i] == JobOf(ranked[i], ages, hours, pull)
    ensures forall i :: 0 <= i < |jobs| ==>
              jobs[i].ticketId == ranked[i].ticketId && jobs[i].dispatch == ranked[i]
              && jobs[i].crewHours == hours(ranked[i])
              && jobs[i].age == if ranked[i].ticketId in ages then ages[ranked[i].ticketId] else 0
  {
    jobs := [];
    for i := 0 to |ranked|
      invariant |jobs| == i
      invariant forall k :: 0 <= k < i ==> jobs[k] == JobOf(ranked[k], ages, hours, pull)
    {
      jobs := jobs + [JobOf(ranked[i], ages, hours, pull)];
    }
  }

  function Ticket(j: Job): string { j.ticketId }
  function Hours(j: Job): int { j.crewHours }
  function Worth(j: Job): int { j.AgedValue() }
  predicate IsRemote(j: Job) { j.Remote() }
  predicate IsMainland(j: Job) { !j.Remote() }
  predicate Pressing(j: Job) { j.deadline - j.age <= FORCE_RUN }

  /** The sort key (tier, -score, ticket id). */
  predicate JobLe(a: Job, b: Job) {
    a.Tier() < b.Tier()
    || (a.Tier() == b.Tier()
        && (a.Score() > b.Score() || (a.Score() == b.Score() && StrLe(a.ticketId, b.ticketId))))
  }

  ghost predicate Outranks(a: Job, b: Job) { JobLe(a, b) && !JobLe(b, a) }

  lemma JobLeOrder()
    ensures TotalPreorder(JobLe)
  {
    forall a, b ensures JobLe(a, b) || JobLe(b, a) { StrLeTotal(a.ticketId, b.ticketId); }
    forall a, b, c | JobLe(a, b) && JobLe(b, c) ensures JobLe(a, c) {
      if StrLe(a.ticketId, b.ticketId) && StrLe(b.ticketId, c.ticketId) {
        StrLeTransitive(a.ticketId, b.ticketId, c.ticketId);
      }
    }
  }

  lemma JobKeysUnique(jobs: seq<Job>)
    requires DistinctBy(jobs, Ticket)
    ensures forall a, b :: a in jobs && b in jobs && JobLe(a, b) && JobLe(b, a) ==> a == b
  {
    forall a, b | a in jobs && b in jobs && JobLe(a, b) && JobLe(b, a) ensures a == b {
      StrLeTotal(a.ticketId, b.ticketId);
      DistinctByMember(jobs, Ticket, a, b);
    }
  }

  // ------------------------------------------------------------------ the day's plan

  /** Whether the remote run is held back: too few jobs to be worth a crossing and none of them pressing. */
  predicate RunHeld(jobs: seq<Job>, batchRemote: bool) {
    var remote := Filter(jobs, IsRemote);
    batchRemote && remote != [] && |remote| < MIN_REMOTE_BATCH && !(exists j :: j in remote && Pressing(j))
  }

  function Held(jobs: seq<Job>, batchRemote: bool): seq<Job> {
    if RunHeld(jobs, batchRemote) then Filter(jobs, IsRemote) else []
  }

  function Pool(jobs: seq<Job>, batchRemote: bool): seq<Job> {
    Filter(jobs, IsMainland) + (if RunHeld(jobs, batchRemote) then [] else Filter(jobs, IsRemote))
  }

  /** The released jobs in the order they are offered crew-hours. */
  function Released(jobs: seq<Job>, batchRemote: bool): seq<Job> {
    Sorted(Pool(jobs, batchRemote), JobLe)
  }

  /** The greedy decision for each job: taken when it still fits. */
  function Take(c: seq<Job>, remaining: int): (take: seq<bool>)
    ensures |take| == |c|
  {
    if c == [] then []
    else if c[0].crewHours <= remaining then [true] + Take(c[1..], remaining - c[0].crewHours)
    else [false] + Take(c[1..], remaining)
  }

  /** The jobs whose mark equals `mark`. */
  function Marked(c: seq<Job>, take: seq<bool>, mark: bool): (r: seq<Job>)
    requires |c| == |take|
    ensures forall j :: j in r ==> j in c
  {
    if c == [] then []
    else if take[0] == mark then [c[0]] + Marked(c[1..], take[1..], mark)
    else Marked(c[1..], take[1..], mark)
  }

  datatype DaySchedule = DaySchedule(
    available: int, scheduled: seq<Job>, deferred: seq<Job>, heldRemote: seq<Job>,
    hoursUsed: int, valueAddressed: int)

  function Filled(c: seq<Job>, available: int, held: seq<Job>): DaySchedule {
    var take := Take(c, available);
    var scheduled := Marked(c, take, true);
    DaySchedule(available, scheduled, Marked(c, take, false), held, Sum(scheduled, Hours), Sum(scheduled, Worth))
  }

  function DayPlan(jobs: seq<Job>, available: int, batchRemote: bool): DaySchedule {
    Filled(Released(jobs, batchRemote), available, Held(jobs, batchRemote))
  }

  /** Crew-hours left once a job has been offered its turn. */
  function Next(job: Job, remaining: int): int {
    if job.crewHours <= remaining then remaining - job.crewHours else remaining
  }

  /** Crew-hours left after greedily serving `c`. */
  function Left(c: seq<Job>, remaining: int): int {
    remaining - Sum(Marked(c, Take(c, remaining), true), Hours)
  }

  lemma {:induction false} MarkedAppend(a: seq<Job>, b: seq<Job>, s: seq<bool>, t: seq<bool>, mark: bool)
    requires |a| == |s| && |b| == |t|
    ensures Marked(a + b, s + t, mark) == Marked(a, s, mark) + Marked(b, t, mark)
  {
    if a == [] {
      assert a + b == b && s + t == t;
    } else {
      assert a + b == [a[0]] + (a[1..] + b);
      assert s + t == [s[0]] + (s[1..] + t);
      MarkedAppend(a[1..], b, s[1..], t, mark);
    }
  }

  lemma LeftStep(c: seq<Job>, remaining: int)
    requires c != []
    ensures Left(c, remaining) == Left(c[1..], Next(c[0], remaining))
  {
    var take := Take(c, remaining);
    if c[0].crewHours <= remaining {
      assert take[1..] == Take(c[1..], remaining - c[0].crewHours);
      SumAppend([c[0]], Marked(c[1..], take[1..], true), Hours);
    } else {
      assert take[1..] == Take(c[1..], remaining);
      assert Marked(c, take, true) == Marked(c[1..], take[1..], true);
    }
  }

  /** The hours left, job by job. */
  function Rest(c: seq<Job>, remaining: int): int {
    if c == [] then remaining else Rest(c[1..], Next(c[0], remaining))
  }

  lemma {:induction false} RestIsLeft(c: seq<Job>, remaining: int)
    ensures Rest(c, remaining) == Left(c, remaining)
  {
    if c != [] {
      LeftStep(c, remaining);
      RestIsLeft(c[1..], Next(c[0], remaining));
    }
  }

  lemma TakeCons(job: Job, tail: seq<Job>, remaining: int)
    ensures Take([job] + tail, remaining) == [job.crewHours <= remaining] + Take(tail, Next(job, remaining))
    ensures Rest([job] + tail, remaining) == Rest(tail, Next(job, remaining))
  {
    assert ([job] + tail)[1..] == tail;
  }

  lemma Reassociate(x: seq<bool>, y: seq<bool>, z: seq<bool>)
    ensures x + (y + z) == x + y + z
  {
  }

  lemma {:induction false} TakeOver(a: seq<Job>, b: seq<Job>, remaining: int)
    ensures Take(a + b, remaining) == Take(a, remaining) + Take(b, Rest(a, remaining))
  {
    if a == [] {
      assert a + b == b;
    } else {
      var job, tail := a[0], a[1..];
      var next := Next(job, remaining);
      assert a == [job] + tail && a + b == [job] + (tail + b);
      TakeOver(tail, b, next);
      TakeCons(job, tail, remaining);
      TakeCons(job, tail + b, remaining);
      Reassociate([job.crewHours <= remaining], Take(tail, next), Take(b, Rest(tail, next)));
    }
  }

  lemma TakeAppend(a: seq<Job>, b: seq<Job>, remaining: int)
    ensures Take(a + b, remaining) == Take(a, remaining) + Take(b, Left(a, remaining))
  {
    TakeOver(a, b, remaining);
    RestIsLeft(a, remaining);
  }

  /** One turn of the greedy loop: job `i` is served exactly when it fits in what is left. */
  lemma ServeNext(c: seq<Job>, available: int, i: nat)
    requires i < |c|
    ensures var done, next, job := c[..i], c[..i + 1], c[i];
            var fits := job.crewHours <= Left(done, available);
            && Marked(next, Take(next, available), true)
               == Marked(done, Take(done, available), true) + (if fits then [job] else [])
            && Marked(next, Take(next, available), false)
               == Marked(done, Take(done, available), false) + (if fits then [] else [job])
            && Left(next, available) == Left(done, available) - (if fits then job.crewHours else 0)
  {
    var done, job := c[..i], c[i];
    assert c[..i + 1] == done + [job];
    var left := Left(done, available);
    TakeAppend(done, [job], available);
    MarkedAppend(done, [job], Take(done, available), Take([job], left), true);
    MarkedAppend(done, [job], Take(done, available), Take([job], left), false);
    SumAppend(Marked(done, Take(done, available), true), Marked([job], Take([job], left), true), Hours);
  }

  /** The greedy loop: serve each candidate that still fits, skip the ones that do not. */
  method FillDay(candidates: seq<Job>, available: int, held: seq<Job>) returns (plan: DaySchedule)
    ensures plan == Filled(candidates, available, held)
  {
    var scheduled, deferred, remaining := [], [], available;
    for i := 0 to |candidates|
      invariant scheduled == Marked(candidates[..i], Take(candidates[..i], available), true)
      invariant deferred == Marked(candidates[..i], Take(candidates[..i], available), false)
      invariant remaining == Left(candidates[..i], available)
    {
      var job := candidates[i];
      ServeNext(candidates, available, i);
      if job.crewHours <= remaining {
        scheduled := scheduled + [job];
        remaining := remaining - job.crewHours;
      } else {
        deferred := deferred + [job];
      }
    }
    assert candidates[..|candidates|] == candidates;
    plan := DaySchedule(available, scheduled, deferred, held, available - remaining, Sum(scheduled, Worth));
  }

  /** Which jobs compete for today's hours, and which remote ones wait for a fuller run. */
  method ReleaseRemote(jobs: seq<Job>, batchRemote: bool) returns (pool: seq<Job>, held: seq<Job>)
    ensures pool == Pool(jobs, batchRemote) && held == Held(jobs, batchRemote)
  {
    var remote, mainland := Filter(jobs, IsRemote), Filter(jobs, IsMainland);
    held := [];
    if batchRemote && remote != [] {
      var forced := exists j :: j in remote && Pressing(j);
      if |remote| < MIN_REMOTE_BATCH && !forced { held, remote := remote, []; }
    }
    pool := mainland + remote;
  }

  method ScheduleDay(jobs: seq<Job>, available: int, batchRemote: bool) returns (r: Result<DaySchedule>)
    ensures r == if available < 0 then Err(ValueError) else Ok(DayPlan(jobs, available, batchRemote))
    ensures r.Ok? ==> r.value.available == available && r.value.hoursUsed == Sum(r.value.scheduled, Hours)
                      && r.value.valueAddressed == Sum(r.value.scheduled, Worth)
  {
    if available < 0 { return Err(ValueError); }
    var pool, held := ReleaseRemote(jobs, batchRemote);
    var plan := FillDay(Sorted(pool, JobLe), available, held);
    r := Ok(plan);
  }

  // ------------------------------------------------------------------ conservation and bounded inversion

  ghost predicate NonNegativeHours(jobs: seq<Job>) { forall j :: j in jobs ==> j.crewHours >= 0 }

  lemma PoolMembers(jobs: seq<Job>, batchRemote: bool)
    ensures multiset(Released(jobs, batchRemote)) + multiset(Held(jobs, batchRemote)) == multiset(jobs)
    ensures forall j :: j in Released(jobs, batchRemote) ==> j in jobs
  {
    FilterPartition(jobs, IsRemote, IsMainland);
    SameElements(Released(jobs, batchRemote), Pool(jobs, batchRemote));
  }

  lemma {:induction false} MarkedPartition(c: seq<Job>, take: seq<bool>)
    requires |c| == |take|
    ensures multiset(Marked(c, take, true)) + multiset(Marked(c, take, false)) == multiset(c)
  {
    if c != [] {
      assert c == [c[0]] + c[1..];
      MarkedPartition(c[1..], take[1..]);
    }
  }

  lemma {:induction false} TakeFits(c: seq<Job>, remaining: int)
    requires remaining >= 0
    ensures Left(c, remaining) >= 0
  {
    if c != [] {
      TakeFits(c[1..], Next(c[0], remaining));
    }
  }

  /** Every job is scheduled, deferred or held exactly once, and the day is never overbooked. */
  lemma Conservation(jobs: seq<Job>, available: nat, batchRemote: bool)
    ensures var plan := DayPlan(jobs, available, batchRemote);
            && multiset(plan.scheduled) + multiset(plan.deferred) + multiset(plan.heldRemote) == multiset(jobs)
            && plan.hoursUsed <= available
  {
    var c := Released(jobs, batchRemote);
    PoolMembers(jobs, batchRemote);
    MarkedPartition(c, Take(c, available));
    TakeFits(c, available);
  }

  /** A deferred job neither fits in the hours finally left nor is smaller than any scheduled job behind it. */
  lemma {:induction false} DeferredTooBig(c: seq<Job>, remaining: int)
    requires NonNegativeHours(c)
    ensures Left(c, remaining) <= remaining
    ensures forall j :: j in Marked(c, Take(c, remaining), false) ==> j.crewHours > Left(c, remaining)
    ensures forall j :: j in Marked(c, Take(c, remaining), true) ==> j.crewHours <= remaining
  {
    if c != [] {
      var next := Next(c[0], remaining);
      LeftStep(c, remaining);
      DeferredTooBig(c[1..], next);
      assert Take(c, remaining)[1..] == Take(c[1..], next);
    }
  }

  lemma {:induction false} InversionsInOrder(c: seq<Job>, remaining: int, a: Job, b: Job)
    requires NonNegativeHours(c) && SortedBy(c, JobLe) && Outranks(a, b)
    requires a in Marked(c, Take(c, remaining), false) && b in Marked(c, Take(c, remaining), true)
    ensures a.crewHours > b.crewHours
  {
    var next := Next(c[0], remaining);
    var rest, take := c[1..], Take(c[1..], next);
    assert Take(c, remaining)[1..] == take;
    DeferredTooBig(rest, next);
    if a in Marked(rest, take, false) && b in Marked(rest, take, true) {
      InversionsInOrder(rest, next, a, b);
    }
  }

  /** No deferred job fits in the hours left over, and one that outranks a scheduled job needs more hours than it. */
  lemma BoundedInversion(jobs: seq<Job>, available: nat, batchRemote: bool)
    requires NonNegativeHours(jobs)
    ensures var plan := DayPlan(jobs, available, batchRemote);
            && (forall j :: j in plan.deferred ==> j.crewHours > available - plan.hoursUsed)
            && (forall a, b :: a in plan.deferred && b in plan.scheduled && Outranks(a, b)
                  ==> a.crewHours > b.crewHours)
  {
    var c := Released(jobs, batchRemote);
    var plan := DayPlan(jobs, available, batchRemote);
    PoolMembers(jobs, batchRemote);
    DeferredTooBig(c, available);
    JobLeOrder();
    SortedIsSorted(Pool(jobs, batchRemote), JobLe);
    forall a, b | a in plan.deferred && b in plan.scheduled && Outranks(a, b) ensures a.crewHours > b.crewHours {
      InversionsInOrder(c, available, a, b);
    }
  }

  // ------------------------------------------------------------------ lexicographic optimality

  /** Whether selection `v` is lexicographically at least `w`: at the first difference `v` takes the job. */
  ghost predicate LexGe(v: seq<bool>, w: seq<bool>)
    requires |v| == |w|
  {
    if v == [] then true
    else if v[0] != w[0] then v[0]
    else LexGe(v[1..], w[1..])
  }

  lemma {:induction false} SumNonNegative(s: seq<Job>, f: Job -> int)
    requires forall j :: j in s ==> f(j) >= 0
    ensures Sum(s, f) >= 0
  {
    if s != [] { SumNonNegative(s[1..], f); }
  }

  lemma {:induction false} GreedyIsLexGreatest(c: seq<Job>, remaining: int, v: seq<bool>)
    requires NonNegativeHours(c) && |v| == |c| && Sum(Marked(c, v, true), Hours) <= remaining
    ensures LexGe(Take(c, remaining), v)
  {
    if c != [] {
      var rest := Marked(c[1..], v[1..], true);
      if v[0] {
        SumAppend([c[0]], rest, Hours);
        SumNonNegative(rest, Hours);
        GreedyIsLexGreatest(c[1..], remaining - c[0].crewHours, v[1..]);
      } else if c[0].crewHours > remaining {
        assert Marked(c, v, true) == rest;
        GreedyIsLexGreatest(c[1..], remaining, v[1..]);
      }
    }
  }

  /** The scheduled set is the lexicographically greatest selection of released jobs that fits the day. */
  lemma ScheduleIsLexOptimal(jobs: seq<Job>, available: nat, batchRemote: bool, v: seq<bool>)
    requires NonNegativeHours(jobs)
    requires |v| == |Released(jobs, batchRemote)|
    requires Sum(Marked(Released(jobs, batchRemote), v, true), Hours) <= available
    ensures var c := Released(jobs, batchRemote);
            && LexGe(Take(c, available), v)
            && DayPlan(jobs, available, batchRemote).scheduled == Marked(c, Take(c, available), true)
            && Sum(Marked(c, Take(c, available), true), Hours) <= available
  {
    PoolMembers(jobs, batchRemote);
    GreedyIsLexGreatest(Released(jobs, batchRemote), available, v);
    TakeFits(Released(jobs, batchRemote), available);
  }

  /** More crew-hours never give a lexicographically smaller selection. */
  lemma MoreHoursNeverWorse(jobs: seq<Job>, available: nat, more: nat, batchRemote: bool)
    requires NonNegativeHours(jobs) && available <= more
    ensures LexGe(Take(Released(jobs, batchRemote), more), Take(Released(jobs, batchRemote), available))
  {
    TakeFits(Released(jobs, batchRemote), available);
    ScheduleIsLexOptimal(jobs, more, batchRemote, Take(Released(jobs, batchRemote), available));
  }
}
