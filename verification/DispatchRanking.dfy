/** Dispatch candidates ranked by net benefit and cut at a number of crew slots. Money is in cents. */
module DispatchRanking {
  import opened Common
  import opened Ordering

  datatype Protection =
    | SlaBreached
    | TotalLossOfService
    | MedicalOrSafety
    | RegulatoryObligation
    | VulnerableCustomer
    | RepeatUnresolved

  datatype Customer = Customer(medicalOrSafety: bool, lifeline: bool, vulnerable: bool, faultsIn90d: int)

  /** A ticket with the account's value at risk and the truck-roll cost already computed. */
  datatype Candidate = Candidate(
    ticketId: string, customer: Customer, remote: bool, slaBreached: bool, serviceDown: bool,
    households: int, accountValue: int, cost: int)

  datatype Band = Protected | Positive | Marginal | Negative

  datatype RankedDispatch = RankedDispatch(
    ticketId: string, remote: bool, valueAtRisk: int, cost: int, households: int,
    protections: seq<Protection>, band: Band)
  {
    function NetBenefit(): int { valueAtRisk - cost }
  }

  function ProtectionsFor(c: Candidate): seq<Protection> {
    (if c.slaBreached then [SlaBreached] else [])
    + (if c.serviceDown then [TotalLossOfService] else [])
    + (if c.customer.medicalOrSafety then [MedicalOrSafety] else [])
    + (if c.customer.lifeline then [RegulatoryObligation] else [])
    + (if c.customer.vulnerable then [VulnerableCustomer] else [])
    + (if c.customer.faultsIn90d >= 3 then [RepeatUnresolved] else [])
  }

  function BandOf(net: int, protections: seq<Protection>): Band {
    if protections != [] then Protected
    else if net > 25000 then Positive
    else if net >= 0 then Marginal
    else Negative
  }

  /** One row of the ranking: a shared fault multiplies the value at risk by its households. */
  function Assess(c: Candidate): RankedDispatch {
    var value := if c.households > 1 then c.accountValue * c.households else c.accountValue;
    var protections := ProtectionsFor(c);
    RankedDispatch(c.ticketId, c.remote, value, c.cost, c.households, protections,
                   BandOf(value - c.cost, protections))
  }

  function Rung(r: RankedDispatch): int { if r.protections != [] then 0 else 1 }

  /** The key (0 if protected else 1, -net benefit, ticket id). */
  predicate RankLe(a: RankedDispatch, b: RankedDispatch) {
    Rung(a) < Rung(b)
    || (Rung(a) == Rung(b)
        && (a.NetBenefit() > b.NetBenefit()
            || (a.NetBenefit() == b.NetBenefit() && StrLe(a.ticketId, b.ticketId))))
  }

  lemma RankLeOrder()
    ensures TotalPreorder(RankLe)
  {
    forall a, b ensures RankLe(a, b) || RankLe(b, a) { StrLeTotal(a.ticketId, b.ticketId); }
    forall a, b, c | RankLe(a, b) && RankLe(b, c) ensures RankLe(a, c) {
      if StrLe(a.ticketId, b.ticketId) && StrLe(b.ticketId, c.ticketId) {
        StrLeTransitive(a.ticketId, b.ticketId, c.ticketId);
      }
    }
  }

  function Ranking(candidates: seq<Candidate>): seq<RankedDispatch> {
    Sorted(Map(candidates, Assess), RankLe)
  }

  method Rank(candidates: seq<Candidate>) returns (ranked: seq<RankedDispatch>)
    ensures multiset(ranked) == multiset(Map(candidates, Assess))
    ensures SortedBy(ranked, RankLe)
    ensures ranked == Ranking(candidates)
  {
    ranked := [];
    for i := 0 to |candidates|
      invariant ranked == Map(candidates[..i], Assess)
    {
      ranked := ranked + [Assess(candidates[i])];
    }
    assert candidates[..|candidates|] == candidates;
    RankLeOrder();
    SortedIsSorted(ranked, RankLe);
    ranked := Sorted(ranked, RankLe);
  }

  datatype CapacityPlan = CapacityPlan(
    slots: int, scheduled: seq<RankedDispatch>, deferred: seq<RankedDispatch>,
    protectedScheduled: int, valueAddressed: int, costCommitted: int, protectedTotal: int)
  {
    function DeferredValue(): int { Sum(deferred, Value) }
  }

  function Value(r: RankedDispatch): int { r.valueAtRisk }
  function Cost(r: RankedDispatch): int { r.cost }
  function Net(r: RankedDispatch): int { r.NetBenefit() }
  predicate IsProtected(r: RankedDispatch) { r.protections != [] }
  predicate IsCommercial(r: RankedDispatch) { r.protections == [] }

  function AllocateCapacity(ranked: seq<RankedDispatch>, slots: int): (r: Result<CapacityPlan>)
    ensures r.Ok? <==> slots >= 0
  {
    if slots < 0 then Err(ValueError) else
      var cut := Min(slots, |ranked|);
      var scheduled, deferred := ranked[..cut], ranked[cut..];
      Ok(CapacityPlan(slots, scheduled, deferred, Count(scheduled, IsProtected),
                      Sum(scheduled, Value), Sum(scheduled, Cost), Count(ranked, IsProtected)))
  }

  /** The ranking lists every protected ticket, then every commercial one by falling net benefit. */
  lemma ProtectedFirst(candidates: seq<Candidate>)
    ensures var r := Ranking(candidates);
            r == Filter(r, IsProtected) + Filter(r, IsCommercial)
    ensures var c := Filter(Ranking(candidates), IsCommercial);
            Descending(c, Net)
  {
    var r := Ranking(candidates);
    RankLeOrder();
    SortedIsSorted(Map(candidates, Assess), RankLe);
    SortedSplit(r, RankLe, IsProtected, IsCommercial);
    SortedFilterStaysSorted(r, RankLe, IsCommercial);
    var c := Filter(r, IsCommercial);
    forall i, j | 0 <= i < j < |c| ensures Net(c[i]) >= Net(c[j]) {
      assert RankLe(c[i], c[j]) && c[i] in c && c[j] in c;
    }
  }

  /** What cutting a sequence `p + c` does to its two halves. */
  lemma CutHalves(p: seq<RankedDispatch>, c: seq<RankedDispatch>, cut: nat)
    requires cut <= |p| + |c|
    requires forall x :: x in p ==> IsProtected(x)
    requires forall x :: x in c ==> IsCommercial(x)
    ensures var s := (p + c)[..cut];
            Filter(s, IsProtected) == p[..Min(cut, |p|)]
            && Filter(s, IsCommercial) == c[..Max(cut - |p|, 0)]
  {
    var s := (p + c)[..cut];
    var a, b := p[..Min(cut, |p|)], c[..Max(cut - |p|, 0)];
    assert s == a + b;
    FilterAppend(a, b, IsProtected);
    FilterAppend(a, b, IsCommercial);
    FilterAll(a, IsProtected);
    FilterNone(b, IsProtected);
    FilterNone(a, IsCommercial);
    FilterAll(b, IsCommercial);
  }

  /** The plan made by ranking the candidates and cutting at the slots. */
  function Plan(candidates: seq<Candidate>, slots: nat): CapacityPlan {
    AllocateCapacity(Ranking(candidates), slots).value
  }

  lemma CutConserves(ranked: seq<RankedDispatch>, slots: nat)
    ensures var plan := AllocateCapacity(ranked, slots).value;
            && plan.scheduled + plan.deferred == ranked
            && |plan.scheduled| == Min(slots, |ranked|)
            && plan.valueAddressed + plan.DeferredValue() == Sum(ranked, Value)
            && plan.costCommitted + Sum(plan.deferred, Cost) == Sum(ranked, Cost)
  {
    var plan := AllocateCapacity(ranked, slots).value;
    assert plan.scheduled + plan.deferred == ranked;
    SumAppend(plan.scheduled, plan.deferred, Value);
    SumAppend(plan.scheduled, plan.deferred, Cost);
  }

  /** The allocation keeps every candidate and splits the value at risk exactly. */
  lemma AllocationConserves(candidates: seq<Candidate>, slots: nat)
    ensures multiset(Plan(candidates, slots).scheduled + Plan(candidates, slots).deferred)
            == multiset(Map(candidates, Assess))
    ensures |Plan(candidates, slots).scheduled| == Min(slots, |candidates|)
    ensures Plan(candidates, slots).valueAddressed + Plan(candidates, slots).DeferredValue()
            == Sum(Map(candidates, Assess), Value)
  {
    CutConserves(Ranking(candidates), slots);
    SumPermutation(Ranking(candidates), Map(candidates, Assess), Value);
  }

  /** Protections take the first slots, and a commercial ticket gets one only once all of them have. */
  lemma ProtectionsFillSlotsFirst(candidates: seq<Candidate>, slots: nat)
    ensures Plan(candidates, slots).protectedTotal == Count(Map(candidates, Assess), IsProtected)
    ensures Plan(candidates, slots).protectedScheduled == Min(slots, Plan(candidates, slots).protectedTotal)
    ensures (exists r :: r in Plan(candidates, slots).scheduled && IsCommercial(r)) ==>
              forall r :: r in Plan(candidates, slots).deferred ==> IsCommercial(r)
  {
    var ranked, plan := Ranking(candidates), Plan(candidates, slots);
    FilterPermutation(ranked, Map(candidates, Assess), IsProtected);
    SameElements(Filter(ranked, IsProtected), Filter(Map(candidates, Assess), IsProtected));
    ProtectedFirst(candidates);
    var p, c := Filter(ranked, IsProtected), Filter(ranked, IsCommercial);
    CutHalves(p, c, Min(slots, |ranked|));
    if r :| r in plan.scheduled && IsCommercial(r) {
      assert r in Filter(plan.scheduled, IsCommercial);
      LateCut(p, c, Min(slots, |ranked|));
    }
  }

  lemma LateCut(p: seq<RankedDispatch>, c: seq<RankedDispatch>, cut: nat)
    requires |p| < cut <= |p| + |c|
    ensures (p + c)[cut..] == c[cut - |p|..]
  {
  }

  /** No choice of as many commercial tickets is worth more than the scheduled ones. */
  lemma CommercialSlotsAreBestSpent(candidates: seq<Candidate>, slots: nat, pick: seq<RankedDispatch>)
    requires multiset(pick) <= multiset(Filter(Map(candidates, Assess), IsCommercial))
    requires |pick| == Count(Plan(candidates, slots).scheduled, IsCommercial)
    ensures Sum(pick, Net) <= Sum(Filter(Plan(candidates, slots).scheduled, IsCommercial), Net)
  {
    var k := ScheduledCommercial(candidates, slots);
    ProtectedFirst(candidates);
    RankedCommercial(candidates);
    BestPrefix(Filter(Ranking(candidates), IsCommercial), pick, Net);
  }

  /** The scheduled commercial tickets are the first commercial ones of the ranking. */
  lemma ScheduledCommercial(candidates: seq<Candidate>, slots: nat) returns (k: nat)
    ensures var c := Filter(Ranking(candidates), IsCommercial);
            k <= |c| && Filter(Plan(candidates, slots).scheduled, IsCommercial) == c[..k]
  {
    var ranked := Ranking(candidates);
    var p, c := Filter(ranked, IsProtected), Filter(ranked, IsCommercial);
    ProtectedFirst(candidates);
    CutHalves(p, c, Min(slots, |ranked|));
    k := Max(Min(slots, |ranked|) - |p|, 0);
  }

  lemma RankedCommercial(candidates: seq<Candidate>)
    ensures multiset(Filter(Ranking(candidates), IsCommercial))
            == multiset(Filter(Map(candidates, Assess), IsCommercial))
  {
    FilterPermutation(Ranking(candidates), Map(candidates, Assess), IsCommercial);
  }
}
