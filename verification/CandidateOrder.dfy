/** The ranking and the cut in terms of the candidates themselves: who is shielded, and what a visit gains. */
module CandidateOrder {
  import opened Common
  import opened Ordering
  import opened DispatchRanking

  /** Some protection applies: a breached service level, no service, a dependency, a lifeline account, vulnerability, or
      a third fault within 90 days. */
  predicate Shielded(c: Candidate) {
    || c.slaBreached || c.serviceDown || c.customer.medicalOrSafety || c.customer.lifeline || c.customer.vulnerable
    || c.customer.faultsIn90d >= 3
  }

  /** The account's value for every household on the fault. */
  function AtRisk(c: Candidate): int { c.accountValue * Max(1, c.households) }

  function Gain(c: Candidate): int { AtRisk(c) - c.cost }

  function TicketOf(c: Candidate): string { c.ticketId }
  function CostOf(c: Candidate): int { c.cost }

  /** `c` is to be visited no later than `d`. */
  ghost predicate Precedes(c: Candidate, d: Candidate) {
    || (Shielded(c) && !Shielded(d))
    || (Shielded(c) == Shielded(d)
        && (Gain(c) > Gain(d) || (Gain(c) == Gain(d) && StrLe(c.ticketId, d.ticketId))))
  }

  lemma Assessed(c: Candidate)
    ensures var r := Assess(c);
            && r.ticketId == c.ticketId && r.cost == c.cost && r.valueAtRisk == AtRisk(c)
            && (r.protections != [] <==> Shielded(c)) && r.NetBenefit() == Gain(c)
  {
  }

  lemma PrecedesIsRankLe(c: Candidate, d: Candidate)
    ensures Precedes(c, d) <==> RankLe(Assess(c), Assess(d))
  {
    Assessed(c);
    Assessed(d);
  }

  ghost predicate Scheduled(plan: CapacityPlan, ticket: string) {
    exists r :: r in plan.scheduled && r.ticketId == ticket
  }

  lemma RowOfCandidate(candidates: seq<Candidate>, r: RankedDispatch) returns (c: Candidate)
    requires r in Map(candidates, Assess)
    ensures c in candidates && Assess(c) == r
  {
    var k :| 0 <= k < |candidates| && Map(candidates, Assess)[k] == r;
    c := candidates[k];
  }

  lemma ScheduledRow(candidates: seq<Candidate>, slots: nat, c: Candidate)
    requires DistinctBy(candidates, TicketOf) && c in candidates
    ensures Scheduled(Plan(candidates, slots), c.ticketId) <==> Assess(c) in Plan(candidates, slots).scheduled
  {
    SameElements(Ranking(candidates), Map(candidates, Assess));
    if Scheduled(Plan(candidates, slots), c.ticketId) {
      var r :| r in Plan(candidates, slots).scheduled && r.ticketId == c.ticketId;
      assert r in Ranking(candidates);
      var d := RowOfCandidate(candidates, r);
      DistinctByMember(candidates, TicketOf, c, d);
    }
  }

  /** A prefix of a sorted sequence holds whatever stands strictly before something it holds. */
  lemma PrefixIsDownClosed<T(!new)>(s: seq<T>, cut: nat, le: (T, T) -> bool, x: T, y: T)
    requires SortedBy(s, le) && cut <= |s| && x in s && y in s[..cut] && !le(y, x)
    ensures x in s[..cut]
  {
    var i :| 0 <= i < |s| && s[i] == x;
    var j :| 0 <= j < cut && s[..cut][j] == y;
    assert i <= j;
    assert s[..cut][i] == x;
  }

  /** Slots go to the candidates in that order: whoever precedes a scheduled ticket is scheduled. */
  lemma BetterCandidatesFirst(candidates: seq<Candidate>, slots: nat, c: Candidate, d: Candidate)
    requires DistinctBy(candidates, TicketOf) && c in candidates && d in candidates && Precedes(c, d)
    requires Scheduled(Plan(candidates, slots), d.ticketId)
    ensures Scheduled(Plan(candidates, slots), c.ticketId)
  {
    var x, y := Assess(c), Assess(d);
    ScheduledRow(candidates, slots, c);
    ScheduledRow(candidates, slots, d);
    if c != d {
      StrLeTotal(c.ticketId, d.ticketId);
      if c.ticketId == d.ticketId { DistinctByMember(candidates, TicketOf, c, d); }
      PrecedesIsRankLe(d, c);
      RankLeOrder();
      SortedIsSorted(Map(candidates, Assess), RankLe);
      SameElements(Ranking(candidates), Map(candidates, Assess));
      assert x in Map(candidates, Assess) by { InMap(candidates, c); }
      PrefixIsDownClosed(Ranking(candidates), Min(slots, |Ranking(candidates)|), RankLe, x, y);
    }
  }

  lemma InMap(candidates: seq<Candidate>, c: Candidate)
    requires c in candidates
    ensures Assess(c) in Map(candidates, Assess)
  {
    var k :| 0 <= k < |candidates| && candidates[k] == c;
    assert Map(candidates, Assess)[k] == Assess(c);
  }

  // ------------------------------------------------------------------ totals

  lemma {:induction false} SumOfMap<A(!new), B(!new)>(s: seq<A>, f: A -> B, g: B -> int, h: A -> int)
    requires forall x :: x in s ==> g(f(x)) == h(x)
    ensures Sum(Map(s, f), g) == Sum(s, h)
  {
    if s != [] {
      SumOfMap(s[1..], f, g, h);
      assert Map(s, f)[1..] == Map(s[1..], f);
    }
  }

  lemma {:induction false} CountOfMap<A(!new), B(!new)>(s: seq<A>, f: A -> B, p: B -> bool, q: A -> bool)
    requires forall x :: x in s ==> p(f(x)) == q(x)
    ensures Count(Map(s, f), p) == Count(s, q)
  {
    if s != [] {
      CountOfMap(s[1..], f, p, q);
      assert Map(s, f)[1..] == Map(s[1..], f);
    }
  }

  /** The plan's totals are those of the candidates: what is addressed and what is put off add up to all that is at
      risk, costs likewise, and the shielded ones take as many slots as there are. */
  lemma TotalsAreOfCandidates(candidates: seq<Candidate>, slots: nat)
    ensures var plan := Plan(candidates, slots);
            && plan.valueAddressed + plan.DeferredValue() == Sum(candidates, AtRisk)
            && plan.costCommitted + Sum(plan.deferred, Cost) == Sum(candidates, CostOf)
            && plan.valueAddressed == Sum(plan.scheduled, Value) && plan.costCommitted == Sum(plan.scheduled, Cost)
            && |plan.scheduled| == Min(slots, |candidates|)
            && plan.protectedTotal == Count(candidates, Shielded)
            && plan.protectedScheduled == Min(slots, Count(candidates, Shielded))
  {
    var rows := Map(candidates, Assess);
    forall c | c in candidates ensures Value(Assess(c)) == AtRisk(c) && Cost(Assess(c)) == c.cost
                                       && IsProtected(Assess(c)) == Shielded(c) {
      Assessed(c);
    }
    SumOfMap(candidates, Assess, Value, AtRisk);
    SumOfMap(candidates, Assess, Cost, CostOf);
    CountOfMap(candidates, Assess, IsProtected, Shielded);
    AllocationConserves(candidates, slots);
    CutConserves(Ranking(candidates), slots);
    SumPermutation(Ranking(candidates), rows, Cost);
    ProtectionsFillSlotsFirst(candidates, slots);
  }

  /** The band of a candidate: shielded, or gaining more than 250 dollars, something or nothing, or losing. */
  lemma BandIff(c: Candidate)
    ensures Assess(c).band == Protected <==> Shielded(c)
    ensures Assess(c).band == Positive <==> !Shielded(c) && Gain(c) > 250_00
    ensures Assess(c).band == Marginal <==> !Shielded(c) && 0 <= Gain(c) <= 250_00
    ensures Assess(c).band == Negative <==> !Shielded(c) && Gain(c) < 0
  {
    Assessed(c);
  }

  /** No visit that loses money is scheduled while one that pays is put off. */
  lemma LosingVisitsLast(candidates: seq<Candidate>, slots: nat, c: Candidate, d: Candidate)
    requires DistinctBy(candidates, TicketOf) && c in candidates && d in candidates
    requires Gain(c) >= 0 && !Shielded(d) && Gain(d) < 0 && Scheduled(Plan(candidates, slots), d.ticketId)
    ensures Scheduled(Plan(candidates, slots), c.ticketId)
  {
    BetterCandidatesFirst(candidates, slots, c, d);
  }
}
