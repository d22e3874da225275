/** How close the greedy day comes to the most valuable one: the fractional-knapsack bound, with score rounding. */
module SchedulerValue {
  import opened Common
  import opened Ordering
  import opened CrewScheduler

  /** Aged value times urgency, in millionths of a dollar. */
  function Weighted(j: Job): int { j.AgedValue() * j.Urgency() }

  ghost predicate Priced(j: Job) { j.crewHours > 0 && Weighted(j) >= 0 }

  /** What a job is worth beyond its hours charged at the rate `score`. */
  function Surplus(score: int): Job -> int { (j: Job) => Weighted(j) - 10 * score * j.crewHours }

  lemma RoundingError(weight: nat, hours: int)
    requires hours > 0
    ensures var r := RoundDiv(weight, 10 * hours);
            r >= 0 && -5 * hours <= weight - 10 * r * hours <= 5 * hours
  {
    var r := RoundDiv(weight, 10 * hours);
    assert 10 * hours * r == 10 * r * hours;
  }

  /** Rounding the score moves a job's worth by at most 0.0005 per crew-hour. */
  lemma ScoreError(j: Job)
    requires Priced(j)
    ensures -5 * j.crewHours <= Weighted(j) - 10 * j.Score() * j.crewHours <= 5 * j.crewHours
    ensures j.Score() >= 0
  {
    RoundingError(Weighted(j), j.crewHours);
  }

  lemma RateMonotone(low: int, high: int, hours: nat)
    requires low <= high
    ensures 10 * low * hours <= 10 * high * hours
  {
    assert (high - low) * hours >= 0;
  }

  lemma RateOfDifference(rate: nat, a: int, b: int, c: int)
    requires a + b >= c
    ensures 10 * rate * a + 10 * rate * b >= 10 * rate * c
  {
    assert rate * (a + b - c) >= 0;
  }

  lemma SurplusAtLeast(j: Job, score: int)
    requires Priced(j) && j.Score() >= score
    ensures Surplus(score)(j) >= -5 * j.crewHours
  {
    ScoreError(j);
    RateMonotone(score, j.Score(), j.crewHours);
  }

  lemma SurplusAtMost(j: Job, score: int)
    requires Priced(j) && j.Score() <= score
    ensures Surplus(score)(j) <= 5 * j.crewHours
  {
    ScoreError(j);
    RateMonotone(j.Score(), score, j.crewHours);
  }

  lemma {:induction false} SurplusSum(s: seq<Job>, score: int)
    ensures Sum(s, Surplus(score)) == Sum(s, Weighted) - 10 * score * Sum(s, Hours)
  {
    if s != [] {
      SurplusSum(s[1..], score);
      var h, t := s[0].crewHours, Sum(s[1..], Hours);
      assert 10 * score * (h + t) == 10 * score * h + 10 * score * t;
    }
  }

  ghost predicate AtLeast(s: seq<Job>, score: int) { forall j :: j in s ==> Priced(j) && j.Score() >= score }

  ghost predicate AtMost(s: seq<Job>, score: int) { forall j :: j in s ==> Priced(j) && j.Score() <= score }

  /** A selection from jobs no better than `score` has a surplus of at most its rounding error. */
  lemma {:induction false} SurplusBounded(s: seq<Job>, score: int)
    requires AtMost(s, score)
    ensures Sum(s, Surplus(score)) <= 5 * Sum(s, Hours)
  {
    if s != [] {
      SurplusAtMost(s[0], score);
      SurplusBounded(s[1..], score);
    }
  }

  /** Replacing part of `front` (all at least `score`) by jobs from `back` (all at most `score`) gains
      nothing but rounding error. */
  lemma {:induction false} ExchangeBound(front: seq<Job>, back: seq<Job>, pick: seq<Job>, score: int)
    requires AtLeast(front, score) && AtMost(back, score)
    requires multiset(pick) <= multiset(front + back)
    ensures Sum(pick, Surplus(score))
            <= Sum(front, Surplus(score)) + 5 * Sum(front, Hours) + 5 * Sum(pick, Hours)
  {
    if front == [] {
      assert front + back == back;
      forall j | j in pick ensures j in back {
        assert j in multiset(pick);
        assert j in multiset(back);
      }
      SurplusBounded(pick, score);
    } else {
      var all, rest := front + back, front[1..] + back;
      assert all[1..] == rest && all[0] == front[0];
      SurplusAtLeast(front[0], score);
      if k :| 0 <= k < |pick| && pick[k] == front[0] {
        SubMultisetTake(all, pick, k);
        ExchangeBound(front[1..], back, pick[..k] + pick[k + 1..], score);
        SumRemoveAt(pick, k, Surplus(score));
        SumRemoveAt(pick, k, Hours);
      } else {
        SubMultisetSkip(all, pick);
        ExchangeBound(front[1..], back, pick, score);
      }
    }
  }

  /** Where the greedy pass first skips a job: everything before it was taken. */
  lemma {:induction false} FirstDeferred(c: seq<Job>, remaining: int) returns (k: nat)
    requires Marked(c, Take(c, remaining), false) != []
    ensures k < |c| && c[k] == Marked(c, Take(c, remaining), false)[0]
    ensures Sum(c[..k], Hours) + c[k].crewHours > remaining
    ensures multiset(c[..k]) <= multiset(Marked(c, Take(c, remaining), true))
  {
    if c[0].crewHours <= remaining {
      var next := remaining - c[0].crewHours;
      assert Take(c, remaining)[1..] == Take(c[1..], next);
      var m := FirstDeferred(c[1..], next);
      k := m + 1;
      assert c[..k] == [c[0]] + c[1..][..m];
      assert Marked(c, Take(c, remaining), true) == [c[0]] + Marked(c[1..], Take(c[1..], next), true);
    } else {
      k := 0;
    }
  }

  lemma SubSumNonNegative(small: seq<Job>, big: seq<Job>, f: Job -> int)
    requires multiset(small) <= multiset(big) && forall j :: j in big ==> f(j) >= 0
    ensures Sum(small, f) <= Sum(big, f)
    decreases |small|
  {
    if small == [] {
      SumNonNegative(big, f);
    } else {
      assert small[0] in multiset(small);
      assert small[0] in big;
      var k :| 0 <= k < |big| && big[k] == small[0];
      RemoveHead(small);
      RemoveAt(big, k);
      SumRemoveAt(big, k, f);
      SubSumNonNegative(small[1..], big[..k] + big[k + 1..], f);
    }
  }

  lemma NothingDeferredTakesAll(c: seq<Job>, remaining: int)
    requires Marked(c, Take(c, remaining), false) == []
    ensures multiset(Marked(c, Take(c, remaining), true)) == multiset(c)
  {
    MarkedPartition(c, Take(c, remaining));
  }

  ghost predicate OneTier(c: seq<Job>) { forall a, b :: a in c && b in c ==> a.Tier() == b.Tier() }

  /** Jobs of one tier stand in order of falling score. */
  lemma ScoreOrder(c: seq<Job>, k: nat)
    requires k < |c| && SortedBy(c, JobLe) && OneTier(c) && forall j :: j in c ==> Priced(j)
    ensures AtLeast(c[..k], c[k].Score()) && AtMost(c[k..], c[k].Score())
  {
    forall j | j in c[..k] ensures j.Score() >= c[k].Score() {
      var m :| 0 <= m < k && c[m] == j;
      assert JobLe(c[m], c[k]) && c[k] in c;
    }
    forall j | j in c[k..] ensures j.Score() <= c[k].Score() {
      var m :| k <= m < |c| && c[m] == j;
      if m > k { assert JobLe(c[k], c[m]) && c[k] in c; }
    }
  }

  lemma KnapsackAtCut(c: seq<Job>, k: nat, available: nat, pick: seq<Job>)
    requires SortedBy(c, JobLe) && OneTier(c) && (forall j :: j in c ==> Priced(j))
    requires k < |c| && Sum(c[..k], Hours) <= available < Sum(c[..k], Hours) + c[k].crewHours
    requires multiset(pick) <= multiset(c) && Sum(pick, Hours) <= available
    ensures Sum(c[..k], Weighted) + Weighted(c[k]) + 5 * (2 * available + c[k].crewHours) >= Sum(pick, Weighted)
  {
    ScoreOrder(c, k);
    ExchangeAt(c, k, pick, c[k].Score());
    CutBound(c[..k], c[k], pick, available);
  }

  lemma ExchangeAt(c: seq<Job>, k: nat, pick: seq<Job>, score: int)
    requires k <= |c| && AtLeast(c[..k], score) && AtMost(c[k..], score) && multiset(pick) <= multiset(c)
    ensures Sum(pick, Surplus(score)) <= Sum(c[..k], Surplus(score)) + 5 * Sum(c[..k], Hours) + 5 * Sum(pick, Hours)
  {
    assert c[..k] + c[k..] == c;
    ExchangeBound(c[..k], c[k..], pick, score);
  }

  /** The exchange bound, charged at the score of the job at the cut, in hours and worth. */
  lemma CutBound(front: seq<Job>, cut: Job, pick: seq<Job>, available: nat)
    requires Priced(cut) && Sum(pick, Hours) <= available
    requires Sum(front, Hours) <= available < Sum(front, Hours) + cut.crewHours
    requires Sum(pick, Surplus(cut.Score()))
             <= Sum(front, Surplus(cut.Score())) + 5 * Sum(front, Hours) + 5 * Sum(pick, Hours)
    ensures Sum(front, Weighted) + Weighted(cut) + 5 * (2 * available + cut.crewHours) >= Sum(pick, Weighted)
  {
    var score := cut.Score();
    SurplusSum(front, score);
    SurplusSum(pick, score);
    ScoreError(cut);
    CutArithmetic(score, Sum(front, Hours), cut.crewHours, Sum(pick, Hours), available,
                  Sum(front, Weighted), Weighted(cut), Sum(pick, Weighted));
  }

  /** The exchange argument in numbers: hours and worth of the jobs before the cut, of the job at it, and of the
      selection. */
  lemma CutArithmetic(rate: nat, frontHours: int, cutHours: int, pickHours: int, available: int,
                      front: int, cut: int, pick: int)
    requires frontHours <= available < frontHours + cutHours && pickHours <= available
    requires pick - 10 * rate * pickHours <= front - 10 * rate * frontHours + 5 * frontHours + 5 * pickHours
    requires cut - 10 * rate * cutHours >= -5 * cutHours
    ensures front + cut + 5 * (2 * available + cutHours) >= pick
  {
    RateOfDifference(rate, frontHours, cutHours, pickHours);
  }

  function FirstWeight(deferred: seq<Job>): int { if deferred == [] then 0 else Weighted(deferred[0]) }

  function FirstHours(deferred: seq<Job>): int { if deferred == [] then 0 else deferred[0].crewHours }

  /** Over sorted jobs of one tier the greedy pass and its first deferred job together match any selection that fits,
      up to score rounding. */
  lemma KnapsackGreedy(c: seq<Job>, available: nat, pick: seq<Job>)
    requires SortedBy(c, JobLe) && OneTier(c) && (forall j :: j in c ==> Priced(j))
    requires multiset(pick) <= multiset(c) && Sum(pick, Hours) <= available
    ensures var scheduled, deferred := Marked(c, Take(c, available), true), Marked(c, Take(c, available), false);
            Sum(scheduled, Weighted) + FirstWeight(deferred) + 5 * (2 * available + FirstHours(deferred))
            >= Sum(pick, Weighted)
  {
    var scheduled, deferred := Marked(c, Take(c, available), true), Marked(c, Take(c, available), false);
    if deferred == [] {
      NothingDeferredTakesAll(c, available);
      SubSumNonNegative(pick, scheduled, Weighted);
    } else {
      var k := FirstDeferred(c, available);
      SubSumNonNegative(c[..k], scheduled, Weighted);
      SubSumNonNegative(c[..k], scheduled, Hours);
      TakeFits(c, available);
      KnapsackAtCut(c, k, available, pick);
    }
  }

  /** The bound over a day whose released jobs share one tier. */
  lemma KnapsackBound(jobs: seq<Job>, available: nat, batchRemote: bool, pick: seq<Job>)
    requires OneTier(Released(jobs, batchRemote))
    requires forall j :: j in Released(jobs, batchRemote) ==> Priced(j)
    requires multiset(pick) <= multiset(Released(jobs, batchRemote)) && Sum(pick, Hours) <= available
    ensures var plan := DayPlan(jobs, available, batchRemote);
            Sum(plan.scheduled, Weighted) + FirstWeight(plan.deferred)
              + 5 * (2 * available + FirstHours(plan.deferred))
            >= Sum(pick, Weighted)
  {
    JobLeOrder();
    SortedIsSorted(Pool(jobs, batchRemote), JobLe);
    KnapsackGreedy(Released(jobs, batchRemote), available, pick);
  }
}
