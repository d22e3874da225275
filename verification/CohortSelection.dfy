/** Drawing an install-watch cohort: circular probes into technology pools, each service taken once. */
module CohortSelection {
  import opened Common
  import opened Ordering

  datatype Subscriber = Subscriber(serviceId: string, hfc: bool, delimiterId: string)

  datatype Slot = AnyHfc | AnyPon | CommonA | CommonB

  const SLOTS := 12

  /** The slots in order: HFC PON HFC HFC PON PON COMMON_A COMMON_B HFC PON HFC PON. */
  function SlotAt(index: nat): Slot {
    if index == 6 then CommonA
    else if index == 7 then CommonB
    else if index == 0 || index == 2 || index == 3 || index == 8 || index == 10 then AnyHfc
    else AnyPon
  }

  function Service(s: Subscriber): string { s.serviceId }
  predicate IsHfc(s: Subscriber) { s.hfc }
  predicate IsPon(s: Subscriber) { !s.hfc }

  /** The distinct non-empty service ids of the rows. */
  function ServiceIds(rows: seq<Subscriber>): set<string> {
    set r | r in rows && r.serviceId != "" :: r.serviceId
  }

  function IdsOf(selected: seq<Subscriber>): set<string> { set s | s in selected :: s.serviceId }

  // ------------------------------------------------------------------ the circular probe

  predicate Free(row: Subscriber, used: set<string>) { row.serviceId != "" && row.serviceId !in used }

  /** The row `offset` places after `start`, wrapping around the pool. */
  function Around(pool: seq<Subscriber>, start: nat, offset: nat): Subscriber
    requires pool != []
  {
    pool[(start + offset) % |pool|]
  }

  function StartOf(pool: seq<Subscriber>, token: int): nat {
    if pool == [] then 0 else Abs(token) % |pool|
  }

  /** The first free row from `offset` places after `start` until the pool has been gone around. */
  function Probe(pool: seq<Subscriber>, start: nat, offset: nat, used: set<string>): Option<Subscriber>
    requires offset <= |pool|
    decreases |pool| - offset
  {
    if offset == |pool| then None
    else if Free(Around(pool, start, offset), used) then Some(Around(pool, start, offset))
    else Probe(pool, start, offset + 1, used)
  }

  /** The cohort after one probe: at most one row longer. */
  function Draw(selected: seq<Subscriber>, pool: seq<Subscriber>, token: int): seq<Subscriber> {
    var found := Probe(pool, StartOf(pool, token), 0, IdsOf(selected));
    if found.Some? then selected + [found.value] else selected
  }

  lemma WrapsTo(n: nat, i: nat, size: nat)
    requires i < size && (n == i || n == i + size)
    ensures n % size == i
  {
    if n == i + size {
      assert n == 1 * size + i;
    }
  }

  /** Going around once meets every row of the pool. */
  lemma EveryRowIsMet(pool: seq<Subscriber>, start: nat, i: nat) returns (k: nat)
    requires i < |pool| && start < |pool|
    ensures k < |pool| && Around(pool, start, k) == pool[i]
  {
    k := if start <= i then i - start else i + |pool| - start;
    WrapsTo(start + k, i, |pool|);
  }

  lemma {:induction false} ProbeFrom(pool: seq<Subscriber>, start: nat, offset: nat, used: set<string>)
    requires offset <= |pool|
    ensures var found := Probe(pool, start, offset, used);
            && (found.Some? ==> found.value in pool && Free(found.value, used))
            && (found.None? ==> forall k :: offset <= k < |pool| ==> !Free(Around(pool, start, k), used))
    decreases |pool| - offset
  {
    if offset < |pool| {
      ProbeFrom(pool, start, offset + 1, used);
    }
  }

  /** A draw takes a free row of the pool, and takes none only when the pool has none. */
  lemma DrawTakesFree(selected: seq<Subscriber>, pool: seq<Subscriber>, token: int)
    ensures var after := Draw(selected, pool, token);
            || (after == selected && forall row :: row in pool ==> !Free(row, IdsOf(selected)))
            || (|after| == |selected| + 1 && after[..|selected|] == selected && after[|selected|] in pool
                && Free(after[|selected|], IdsOf(selected)))
  {
    var start, used := StartOf(pool, token), IdsOf(selected);
    ProbeFrom(pool, start, 0, used);
    if Probe(pool, start, 0, used).None? {
      forall row | row in pool ensures !Free(row, used) {
        var i :| 0 <= i < |pool| && pool[i] == row;
        var k := EveryRowIsMet(pool, start, i);
      }
    }
  }

  lemma IdsStep(selected: seq<Subscriber>, row: Subscriber)
    ensures IdsOf(selected + [row]) == IdsOf(selected) + {row.serviceId}
  {
    assert forall s :: s in selected + [row] <==> s in selected || s == row;
  }

  /** `add_from`: appends the first free row of the pool, if there is one. */
  method AddFrom(pool: seq<Subscriber>, token: int, selected: seq<Subscriber>, used: set<string>)
    returns (after: seq<Subscriber>, usedAfter: set<string>)
    requires used == IdsOf(selected)
    ensures after == Draw(selected, pool, token) && usedAfter == IdsOf(after)
  {
    if pool == [] { return selected, used; }
    var start := Abs(token) % |pool|;
    for offset := 0 to |pool|
      invariant Probe(pool, start, 0, used) == Probe(pool, start, offset, used)
    {
      var row := Around(pool, start, offset);
      if row.serviceId != "" && row.serviceId !in used {
        IdsStep(selected, row);
        return selected + [row], used + {row.serviceId};
      }
    }
    return selected, used;
  }

  // ------------------------------------------------------------------ the slots

  function SameDelimiter(d: string): Subscriber -> bool { (s: Subscriber) => s.delimiterId == d }

  /** The first two rows of the first delimiter, in order of appearance, that serves at least two. */
  function CommonPair(hfc: seq<Subscriber>, from: nat): (pair: seq<Subscriber>)
    requires from <= |hfc|
    ensures pair == [] || (|pair| == 2 && pair[0] in hfc && pair[1] in hfc
                           && pair[0].delimiterId == pair[1].delimiterId)
    decreases |hfc| - from
  {
    if from == |hfc| then []
    else
      var group := Filter(hfc, SameDelimiter(hfc[from].delimiterId));
      if |group| >= 2 then
        assert group[0] in group && group[1] in group;
        group[..2]
      else CommonPair(hfc, from + 1)
  }

  /** The rows of each technology, and the common pair among the HFC ones. */
  datatype Pools = Pools(hfc: seq<Subscriber>, pon: seq<Subscriber>, pair: seq<Subscriber>)

  function PoolsOf(rows: seq<Subscriber>): Pools {
    Pools(Filter(rows, IsHfc), Filter(rows, IsPon), CommonPair(Filter(rows, IsHfc), 0))
  }

  function OutsideOf(pair: seq<Subscriber>): Subscriber -> bool {
    (s: Subscriber) => s.serviceId !in IdsOf(pair)
  }

  /** The HFC rows outside the common pair, or all of them when there are no others. */
  function General(p: Pools): seq<Subscriber> {
    var general := Filter(p.hfc, OutsideOf(p.pair));
    if general == [] then p.hfc else general
  }

  function PoolOf(p: Pools, slot: Slot): seq<Subscriber> {
    if slot == CommonA && |p.pair| >= 2 then [p.pair[0]]
    else if slot == CommonB && |p.pair| >= 2 then [p.pair[1]]
    else if slot == AnyHfc then General(p)
    else p.pon
  }

  function SlotToken(p: Pools, seed: int, index: nat): int {
    if (SlotAt(index) == CommonA || SlotAt(index) == CommonB) && |p.pair| >= 2 then seed + index else seed + index * 17
  }

  /** A rule that says how step `i` of a pass changes the cohort. */
  type Pass = (seq<Subscriber>, nat) -> seq<Subscriber>

  /** The cohort after `n` steps of a pass. */
  function Run(start: seq<Subscriber>, pass: Pass, n: nat): seq<Subscriber> {
    if n == 0 then start else pass(Run(start, pass, n - 1), n - 1)
  }

  /** Each slot probes its pool. */
  function SlotPass(p: Pools, seed: int): Pass {
    (c: seq<Subscriber>, i: nat) => Draw(c, PoolOf(p, SlotAt(i)), SlotToken(p, seed, i))
  }

  /** Each row tops the cohort up while it is too small. */
  function TopUpPass(rows: seq<Subscriber>, population: nat, seed: int): Pass {
    (c: seq<Subscriber>, i: nat) => if |c| >= population || i >= |rows| then c else Draw(c, [rows[i]], seed + i)
  }

  /** The cohort after the first `n` slots. */
  function SlotCohort(p: Pools, seed: int, n: nat): seq<Subscriber> { Run([], SlotPass(p, seed), n) }

  function Cohort(rows: seq<Subscriber>, population: nat, seed: int): seq<Subscriber> {
    Run(SlotCohort(PoolsOf(rows), seed, Min(SLOTS, population)), TopUpPass(rows, population, seed), |rows|)
  }

  method FillSlots(rows: seq<Subscriber>, population: nat, seed: int)
    returns (selected: seq<Subscriber>, used: set<string>)
    ensures selected == SlotCohort(PoolsOf(rows), seed, Min(SLOTS, population)) && used == IdsOf(selected)
  {
    var p := PoolsOf(rows);
    var general := Filter(p.hfc, OutsideOf(p.pair));
    if general == [] { general := p.hfc; }
    selected, used := [], {};
    for index := 0 to Min(SLOTS, population)
      invariant selected == SlotCohort(p, seed, index) && used == IdsOf(selected)
    {
      var pool, token := p.pon, seed + index * 17;
      if SlotAt(index) == CommonA && |p.pair| >= 2 {
        pool, token := [p.pair[0]], seed + index;
      } else if SlotAt(index) == CommonB && |p.pair| >= 2 {
        pool, token := [p.pair[1]], seed + index;
      } else if SlotAt(index) == AnyHfc {
        pool := general;
      }
      assert pool == PoolOf(p, SlotAt(index)) && token == SlotToken(p, seed, index);
      NextSlot(p, seed, index);
      selected, used := AddFrom(pool, token, selected, used);
    }
  }

  lemma NextStep(start: seq<Subscriber>, pass: Pass, n: nat)
    ensures Run(start, pass, n + 1) == pass(Run(start, pass, n), n)
  {
  }

  /** The final pass over all rows, until the population is reached. */
  method TopUp(rows: seq<Subscriber>, population: nat, seed: int, slots: seq<Subscriber>, slotIds: set<string>)
    returns (selected: seq<Subscriber>)
    requires slotIds == IdsOf(slots)
    ensures selected == Run(slots, TopUpPass(rows, population, seed), |rows|)
  {
    var used := slotIds;
    selected := slots;
    var index := 0;
    while index < |rows| && |selected| < population
      invariant 0 <= index <= |rows|
      invariant selected == Run(slots, TopUpPass(rows, population, seed), index) && used == IdsOf(selected)
    {
      NextStep(slots, TopUpPass(rows, population, seed), index);
      selected, used := AddFrom([rows[index]], seed + index, selected, used);
      index := index + 1;
    }
    if |selected| >= population { Settled(slots, TopUpPass(rows, population, seed), index, |rows|); }
  }

  /** A pass that no longer changes its cohort has reached its end. */
  lemma {:induction false} Settled(start: seq<Subscriber>, pass: Pass, m: nat, n: nat)
    requires m <= n && forall i: nat :: pass(Run(start, pass, m), i) == Run(start, pass, m)
    ensures Run(start, pass, n) == Run(start, pass, m)
  {
    if m < n { Settled(start, pass, m, n - 1); }
  }

  /** `_pick_subscribers`: the cohort, or an error exactly when the rows cannot supply one. */
  method PickSubscribers(rows: seq<Subscriber>, population: int, seed: int) returns (r: Result<seq<Subscriber>>)
    ensures r == if 1 <= population <= |rows| && BothTechnologies(rows) && |ServiceIds(rows)| >= population
                 then Ok(Cohort(rows, population, seed)) else Err(ValueError)
  {
    if population < 1 || population > |rows| { return Err(ValueError); }
    if Filter(rows, IsHfc) == [] || Filter(rows, IsPon) == [] {
      KindsPresent(rows);
      return Err(ValueError);
    }
    KindsPresent(rows);
    var slots, slotIds := FillSlots(rows, population, seed);
    var selected := TopUp(rows, population, seed, slots, slotIds);
    CohortSize(rows, population, seed);
    r := if |selected| != population then Err(ValueError) else Ok(selected);
  }

  // ------------------------------------------------------------------ what the cohort is

  ghost predicate BothTechnologies(rows: seq<Subscriber>) {
    (exists s :: s in rows && s.hfc) && (exists s :: s in rows && !s.hfc)
  }

  lemma KindsPresent(rows: seq<Subscriber>)
    ensures BothTechnologies(rows) <==> Filter(rows, IsHfc) != [] && Filter(rows, IsPon) != []
  {
    if Filter(rows, IsHfc) != [] { assert Filter(rows, IsHfc)[0] in Filter(rows, IsHfc); }
    if Filter(rows, IsPon) != [] { assert Filter(rows, IsPon)[0] in Filter(rows, IsPon); }
    if s :| s in rows && s.hfc { assert s in Filter(rows, IsHfc); }
    if s :| s in rows && !s.hfc { assert s in Filter(rows, IsPon); }
  }

  /** A well-drawn cohort: input rows with distinct non-empty services. */
  ghost predicate Drawn(rows: seq<Subscriber>, selected: seq<Subscriber>) {
    && DistinctBy(selected, Service)
    && |IdsOf(selected)| == |selected|
    && forall s :: s in selected ==> s in rows && s.serviceId != ""
  }

  lemma DrawOne(rows: seq<Subscriber>, selected: seq<Subscriber>, row: Subscriber)
    requires Drawn(rows, selected) && row in rows && Free(row, IdsOf(selected))
    ensures Drawn(rows, selected + [row])
  {
    var after := selected + [row];
    forall i, j | 0 <= i < j < |after| ensures Service(after[i]) != Service(after[j]) {
      if j == |selected| { assert after[i] in selected; }
    }
    IdsStep(selected, row);
    assert forall s :: s in after <==> s in selected || s == row;
  }

  lemma DrawKeepsDrawn(rows: seq<Subscriber>, selected: seq<Subscriber>, pool: seq<Subscriber>, token: int)
    requires Drawn(rows, selected) && forall r :: r in pool ==> r in rows
    ensures Drawn(rows, Draw(selected, pool, token))
  {
    DrawTakesFree(selected, pool, token);
    var after := Draw(selected, pool, token);
    if after != selected {
      DrawOne(rows, selected, after[|selected|]);
      assert after == selected + [after[|selected|]];
    }
  }

  /** Each step keeps the cohort well drawn and appends at most one row to it. */
  ghost predicate Steady(rows: seq<Subscriber>, pass: Pass) {
    forall c, i ::
      && (Drawn(rows, c) ==> Drawn(rows, pass(c, i)))
      && c <= pass(c, i)
      && |pass(c, i)| <= |c| + 1
  }

  lemma {:induction false} RunIsDrawn(rows: seq<Subscriber>, start: seq<Subscriber>, pass: Pass, n: nat)
    requires Steady(rows, pass) && Drawn(rows, start)
    ensures Drawn(rows, Run(start, pass, n)) && start <= Run(start, pass, n) && |Run(start, pass, n)| <= |start| + n
  {
    if n > 0 { RunIsDrawn(rows, start, pass, n - 1); }
  }

  lemma {:induction false} RunGrows(rows: seq<Subscriber>, start: seq<Subscriber>, pass: Pass, m: nat, n: nat)
    requires Steady(rows, pass) && m <= n
    ensures Run(start, pass, m) <= Run(start, pass, n)
  {
    if m < n { RunGrows(rows, start, pass, m, n - 1); }
  }

  lemma DrawExtends(selected: seq<Subscriber>, pool: seq<Subscriber>, token: int)
    ensures selected <= Draw(selected, pool, token) && |Draw(selected, pool, token)| <= |selected| + 1
  {
  }

  /** Pools filled from the given rows: each technology apart, the pair from one delimiter. */
  ghost predicate SplitOf(p: Pools, rows: seq<Subscriber>) {
    && (forall r :: r in p.hfc <==> r in rows && r.hfc)
    && (forall r :: r in p.pon <==> r in rows && !r.hfc)
    && (forall r :: r in p.pair ==> r in p.hfc)
    && (p.pair == [] || (|p.pair| == 2 && p.pair[0].delimiterId == p.pair[1].delimiterId))
  }

  lemma PoolsFromRows(rows: seq<Subscriber>)
    ensures SplitOf(PoolsOf(rows), rows)
  {
  }

  lemma PoolIsInput(rows: seq<Subscriber>, p: Pools, slot: Slot)
    requires SplitOf(p, rows)
    ensures forall r :: r in PoolOf(p, slot) ==> r in rows
  {
  }

  lemma SlotPassSteady(rows: seq<Subscriber>, p: Pools, seed: int)
    requires SplitOf(p, rows)
    ensures Steady(rows, SlotPass(p, seed))
  {
    forall c, i: nat
      ensures Drawn(rows, c) ==> Drawn(rows, SlotPass(p, seed)(c, i))
      ensures c <= SlotPass(p, seed)(c, i) && |SlotPass(p, seed)(c, i)| <= |c| + 1
    {
      PoolIsInput(rows, p, SlotAt(i));
      DrawExtends(c, PoolOf(p, SlotAt(i)), SlotToken(p, seed, i));
      if Drawn(rows, c) { DrawKeepsDrawn(rows, c, PoolOf(p, SlotAt(i)), SlotToken(p, seed, i)); }
    }
  }

  lemma TopUpPassSteady(rows: seq<Subscriber>, population: nat, seed: int)
    ensures Steady(rows, TopUpPass(rows, population, seed))
  {
    forall c, i: nat
      ensures Drawn(rows, c) ==> Drawn(rows, TopUpPass(rows, population, seed)(c, i))
      ensures c <= TopUpPass(rows, population, seed)(c, i) && |TopUpPass(rows, population, seed)(c, i)| <= |c| + 1
    {
      if i < |rows| {
        DrawExtends(c, [rows[i]], seed + i);
        if Drawn(rows, c) { DrawKeepsDrawn(rows, c, [rows[i]], seed + i); }
      }
    }
  }

  /** The services of the first `n` rows are all in use. */
  ghost predicate Covers(rows: seq<Subscriber>, n: nat, used: set<string>)
    requires n <= |rows|
  {
    forall k :: 0 <= k < n && rows[k].serviceId != "" ==> rows[k].serviceId in used
  }

  lemma DrawCovers(selected: seq<Subscriber>, row: Subscriber, token: int)
    ensures var used := IdsOf(Draw(selected, [row], token));
            IdsOf(selected) <= used && (row.serviceId != "" ==> row.serviceId in used)
  {
    DrawTakesFree(selected, [row], token);
    var after := Draw(selected, [row], token);
    assert row in [row];
    if after != selected {
      assert after == selected + [after[|selected|]];
      IdsStep(selected, after[|selected|]);
    }
  }

  /** Topping up stays within the population, and falls short of it only once every service is in use. */
  lemma {:induction false} TopUpFills(rows: seq<Subscriber>, population: nat, seed: int, slots: seq<Subscriber>, n: nat)
    requires n <= |rows| && |slots| <= population
    ensures var c := Run(slots, TopUpPass(rows, population, seed), n);
            |c| <= population && (|c| < population ==> Covers(rows, n, IdsOf(c)))
  {
    if n > 0 {
      var before := Run(slots, TopUpPass(rows, population, seed), n - 1);
      TopUpFills(rows, population, seed, slots, n - 1);
      DrawCovers(before, rows[n - 1], seed + (n - 1));
      DrawExtends(before, [rows[n - 1]], seed + (n - 1));
    }
  }

  lemma SubsetSize(a: set<string>, b: set<string>)
    requires a <= b
    ensures |a| <= |b|
  {
    assert b == a + (b - a);
  }

  lemma SlotsDrawn(rows: seq<Subscriber>, seed: int, n: nat)
    ensures Drawn(rows, SlotCohort(PoolsOf(rows), seed, n)) && |SlotCohort(PoolsOf(rows), seed, n)| <= n
  {
    PoolsFromRows(rows);
    SlotPassSteady(rows, PoolsOf(rows), seed);
    RunIsDrawn(rows, [], SlotPass(PoolsOf(rows), seed), n);
  }

  /** The cohort has rows of the input with pairwise distinct non-empty services, never more than asked for. */
  lemma CohortIsDrawn(rows: seq<Subscriber>, population: nat, seed: int)
    ensures var c := Cohort(rows, population, seed);
            && DistinctBy(c, Service) && |c| <= population
            && forall s :: s in c ==> s in rows && s.serviceId != ""
  {
    var n := Min(SLOTS, population);
    var slots := SlotCohort(PoolsOf(rows), seed, n);
    SlotsDrawn(rows, seed, n);
    TopUpPassSteady(rows, population, seed);
    RunIsDrawn(rows, slots, TopUpPass(rows, population, seed), |rows|);
    TopUpFills(rows, population, seed, slots, |rows|);
  }

  /** The cohort is complete exactly when the rows hold enough distinct services. */
  lemma CohortSize(rows: seq<Subscriber>, population: nat, seed: int)
    ensures |Cohort(rows, population, seed)| == population <==> |ServiceIds(rows)| >= population
  {
    var n, c := Min(SLOTS, population), Cohort(rows, population, seed);
    var slots := SlotCohort(PoolsOf(rows), seed, n);
    SlotsDrawn(rows, seed, n);
    TopUpPassSteady(rows, population, seed);
    RunIsDrawn(rows, slots, TopUpPass(rows, population, seed), |rows|);
    TopUpFills(rows, population, seed, slots, |rows|);
    assert IdsOf(c) <= ServiceIds(rows);
    SubsetSize(IdsOf(c), ServiceIds(rows));
    if |c| < population {
      assert Covers(rows, |rows|, IdsOf(c));
      SubsetSize(ServiceIds(rows), IdsOf(c));
    }
  }

  // ------------------------------------------------------------------ what the first slots guarantee

  /** Whatever the slots drew stays at the front of the cohort. */
  lemma SlotsLead(rows: seq<Subscriber>, population: nat, seed: int, n: nat)
    requires n <= Min(SLOTS, population)
    ensures SlotCohort(PoolsOf(rows), seed, n) <= Cohort(rows, population, seed)
  {
    var all, p := Min(SLOTS, population), PoolsOf(rows);
    PoolsFromRows(rows);
    SlotPassSteady(rows, p, seed);
    RunGrows(rows, [], SlotPass(p, seed), n, all);
    SlotsDrawn(rows, seed, all);
    TopUpPassSteady(rows, population, seed);
    RunIsDrawn(rows, SlotCohort(p, seed, all), TopUpPass(rows, population, seed), |rows|);
  }

  /** Every row has a service of its own. */
  ghost predicate CleanServices(rows: seq<Subscriber>) {
    DistinctBy(rows, Service) && forall r :: r in rows ==> r.serviceId != ""
  }

  lemma DifferentServices(rows: seq<Subscriber>, a: Subscriber, b: Subscriber)
    requires CleanServices(rows) && a in rows && b in rows && a != b
    ensures a.serviceId != b.serviceId && a.serviceId != ""
  {
    if a.serviceId == b.serviceId { DistinctByMember(rows, Service, a, b); }
  }

  lemma DrawTakes(selected: seq<Subscriber>, pool: seq<Subscriber>, token: int, row: Subscriber)
    requires row in pool && Free(row, IdsOf(selected))
    ensures var after := Draw(selected, pool, token);
            |after| == |selected| + 1 && after[..|selected|] == selected && after[|selected|] in pool
    ensures pool == [row] ==> Draw(selected, pool, token) == selected + [row]
  {
    DrawTakesFree(selected, pool, token);
  }

  lemma NextSlot(p: Pools, seed: int, n: nat)
    ensures SlotCohort(p, seed, n + 1) == Draw(SlotCohort(p, seed, n), PoolOf(p, SlotAt(n)), SlotToken(p, seed, n))
  {
    NextStep([], SlotPass(p, seed), n);
  }

  /** A pool of input rows of one technology. */
  ghost predicate OfKind(pool: seq<Subscriber>, rows: seq<Subscriber>, hfc: bool) {
    pool != [] && forall r :: r in pool ==> r in rows && r.hfc == hfc
  }

  lemma KindsOfPools(rows: seq<Subscriber>, p: Pools)
    requires SplitOf(p, rows) && p.hfc != [] && p.pon != []
    ensures OfKind(General(p), rows, true) && OfKind(p.pon, rows, false)
  {
  }

  lemma FirstTwo(rows: seq<Subscriber>, hfc: seq<Subscriber>, pon: seq<Subscriber>, s: int, t: int)
    requires CleanServices(rows) && OfKind(hfc, rows, true) && OfKind(pon, rows, false)
    ensures var c := Draw(Draw([], hfc, s), pon, t);
            |c| == 2 && c[0].hfc && !c[1].hfc
  {
    assert hfc[0] in hfc && pon[0] in pon;
    DifferentServices(rows, hfc[0], pon[0]);
    DrawTakes([], hfc, s, hfc[0]);
    var first := Draw([], hfc, s);
    assert first == [first[0]];
    DifferentServices(rows, pon[0], first[0]);
    DrawTakes(first, pon, t, pon[0]);
    assert Draw(first, pon, t)[..1] == first;
  }

  /** Over rows with distinct services, any cohort of two or more starts with one HFC and one PON subscriber. */
  lemma CohortMixesTechnologies(rows: seq<Subscriber>, population: nat, seed: int)
    requires CleanServices(rows) && BothTechnologies(rows) && population >= 2
    ensures var c := Cohort(rows, population, seed);
            |c| >= 2 && c[0].hfc && !c[1].hfc
  {
    PoolsAreOfKind(rows);
    FirstSlots(rows, PoolsOf(rows), seed);
    SlotsLead(rows, population, seed, 2);
  }

  lemma PoolsAreOfKind(rows: seq<Subscriber>)
    requires BothTechnologies(rows)
    ensures OfKind(General(PoolsOf(rows)), rows, true) && OfKind(PoolsOf(rows).pon, rows, false)
  {
    KindsPresent(rows);
    PoolsFromRows(rows);
    KindsOfPools(rows, PoolsOf(rows));
  }

  lemma FirstSlots(rows: seq<Subscriber>, p: Pools, seed: int)
    requires CleanServices(rows) && OfKind(General(p), rows, true) && OfKind(p.pon, rows, false)
    ensures var c := SlotCohort(p, seed, 2);
            |c| == 2 && c[0].hfc && !c[1].hfc
  {
    FirstTwo(rows, General(p), p.pon, SlotToken(p, seed, 0), SlotToken(p, seed, 1));
    FirstPools(p, seed);
  }

  lemma FirstPools(p: Pools, seed: int)
    ensures SlotCohort(p, seed, 2)
            == Draw(Draw([], General(p), SlotToken(p, seed, 0)), p.pon, SlotToken(p, seed, 1))
  {
    TwoSlots(p, seed, 0);
    assert SlotCohort(p, seed, 0) == [] && PoolOf(p, SlotAt(0)) == General(p) && PoolOf(p, SlotAt(1)) == p.pon;
  }

  lemma TwoSlots(p: Pools, seed: int, n: nat)
    ensures SlotCohort(p, seed, n + 2)
            == Draw(Draw(SlotCohort(p, seed, n), PoolOf(p, SlotAt(n)), SlotToken(p, seed, n)),
                    PoolOf(p, SlotAt(n + 1)), SlotToken(p, seed, n + 1))
  {
    NextSlot(p, seed, n);
    NextSlot(p, seed, n + 1);
  }

  /** No drawn row belongs to the common pair. */
  ghost predicate Avoids(selected: seq<Subscriber>, pair: seq<Subscriber>) {
    forall s :: s in selected ==> s.serviceId !in IdsOf(pair)
  }

  /** Some HFC service lies outside the common pair. */
  ghost predicate HasOthers(p: Pools) {
    exists s :: s in p.hfc && s.serviceId !in IdsOf(p.pair)
  }

  lemma EarlyPoolAvoidsPair(rows: seq<Subscriber>, p: Pools, slot: Slot)
    requires CleanServices(rows) && SplitOf(p, rows) && HasOthers(p) && (slot == AnyHfc || slot == AnyPon)
    ensures Avoids(PoolOf(p, slot), p.pair)
  {
    var s :| s in p.hfc && s.serviceId !in IdsOf(p.pair);
    assert s in Filter(p.hfc, OutsideOf(p.pair));
    forall r, q | r in p.pon && q in p.pair ensures r.serviceId != q.serviceId {
      DifferentServices(rows, r, q);
    }
  }

  lemma DrawAvoids(selected: seq<Subscriber>, pool: seq<Subscriber>, token: int, pair: seq<Subscriber>)
    requires Avoids(selected, pair) && Avoids(pool, pair)
    ensures Avoids(Draw(selected, pool, token), pair)
  {
    DrawTakesFree(selected, pool, token);
  }

  lemma {:induction false} RunAvoids(pass: Pass, pair: seq<Subscriber>, n: nat)
    requires forall c, i: nat :: i < n && Avoids(c, pair) ==> Avoids(pass(c, i), pair)
    ensures Avoids(Run([], pass, n), pair)
  {
    if n > 0 { RunAvoids(pass, pair, n - 1); }
  }

  lemma EarlySlotsAvoidPair(rows: seq<Subscriber>, p: Pools, seed: int, n: nat)
    requires CleanServices(rows) && SplitOf(p, rows) && HasOthers(p) && n <= 6
    ensures Avoids(SlotCohort(p, seed, n), p.pair)
  {
    forall c, i: nat | i < n && Avoids(c, p.pair) ensures Avoids(SlotPass(p, seed)(c, i), p.pair) {
      EarlyPoolAvoidsPair(rows, p, SlotAt(i));
      DrawAvoids(c, PoolOf(p, SlotAt(i)), SlotToken(p, seed, i), p.pair);
    }
    RunAvoids(SlotPass(p, seed), p.pair, n);
  }

  lemma {:induction false} CommonPairDistinct(hfc: seq<Subscriber>, from: nat)
    requires DistinctBy(hfc, Service) && from <= |hfc|
    ensures DistinctBy(CommonPair(hfc, from), Service)
    decreases |hfc| - from
  {
    if from < |hfc| {
      FilterKeepsDistinct(hfc, SameDelimiter(hfc[from].delimiterId), Service);
      CommonPairDistinct(hfc, from + 1);
    }
  }

  lemma PairIsDistinct(rows: seq<Subscriber>)
    requires DistinctBy(rows, Service)
    ensures DistinctBy(PoolsOf(rows).pair, Service)
  {
    FilterKeepsDistinct(rows, IsHfc, Service);
    CommonPairDistinct(Filter(rows, IsHfc), 0);
  }

  /** The two common slots come after the first six. */
  ghost predicate PairStandsAt(n: nat) { n <= 6 && SlotAt(n) == CommonA && SlotAt(n + 1) == CommonB }

  lemma PairSlots(rows: seq<Subscriber>, p: Pools, seed: int, n: nat)
    requires CleanServices(rows) && SplitOf(p, rows) && p.pair != [] && DistinctBy(p.pair, Service) && PairStandsAt(n)
    requires Avoids(SlotCohort(p, seed, n), p.pair)
    ensures SlotCohort(p, seed, n + 2) == SlotCohort(p, seed, n) + p.pair
  {
    var six, a, b := SlotCohort(p, seed, n), p.pair[0], p.pair[1];
    assert p.pair == [a, b] && a in p.pair && b in p.pair;
    assert Service(a) != Service(b);
    TwoDraws(six, a, b, SlotToken(p, seed, n), SlotToken(p, seed, n + 1));
    TwoSlots(p, seed, n);
  }

  lemma TwoDraws(six: seq<Subscriber>, a: Subscriber, b: Subscriber, s: int, t: int)
    requires Free(a, IdsOf(six)) && Free(b, IdsOf(six)) && a.serviceId != b.serviceId
    ensures Draw(Draw(six, [a], s), [b], t) == six + [a, b]
  {
    IdsStep(six, a);
    DrawTakes(six, [a], s, a);
    DrawTakes(six + [a], [b], t, b);
  }

  lemma PairFollows(rows: seq<Subscriber>, p: Pools, seed: int, n: nat)
    requires CleanServices(rows) && SplitOf(p, rows) && HasOthers(p) && p.pair != [] && DistinctBy(p.pair, Service)
    requires PairStandsAt(n)
    ensures SlotCohort(p, seed, n + 2) == SlotCohort(p, seed, n) + p.pair
    ensures |p.pair| == 2 && p.pair[0].delimiterId == p.pair[1].delimiterId
  {
    EarlySlotsAvoidPair(rows, p, seed, n);
    PairSlots(rows, p, seed, n);
  }

  lemma PairFollowsSix(rows: seq<Subscriber>, seed: int, n: nat)
    requires CleanServices(rows) && HasOthers(PoolsOf(rows)) && PoolsOf(rows).pair != [] && PairStandsAt(n)
    ensures var pair := PoolsOf(rows).pair;
            && SlotCohort(PoolsOf(rows), seed, n + 2) == SlotCohort(PoolsOf(rows), seed, n) + pair
            && |pair| == 2 && pair[0].delimiterId == pair[1].delimiterId
  {
    PoolsFromRows(rows);
    PairIsDistinct(rows);
    PairFollows(rows, PoolsOf(rows), seed, n);
  }

  /** What the first `n` slots drew and then `drawn` lead the cohort. */
  ghost predicate LeadsWith(rows: seq<Subscriber>, population: nat, seed: int, n: nat, drawn: seq<Subscriber>) {
    var slots := SlotCohort(PoolsOf(rows), seed, n);
    slots + drawn <= Cohort(rows, population, seed) && |slots| <= n
  }

  lemma SlotsLeadWith(rows: seq<Subscriber>, population: nat, seed: int, n: nat, drawn: seq<Subscriber>)
    requires n + 2 <= Min(SLOTS, population)
    requires SlotCohort(PoolsOf(rows), seed, n + 2) == SlotCohort(PoolsOf(rows), seed, n) + drawn
    ensures LeadsWith(rows, population, seed, n, drawn)
  {
    SlotsLead(rows, population, seed, n + 2);
    SlotsDrawn(rows, seed, n);
  }

  lemma PairSlotsLead(rows: seq<Subscriber>, population: nat, seed: int, n: nat)
    requires CleanServices(rows) && HasOthers(PoolsOf(rows)) && PoolsOf(rows).pair != [] && population >= n + 2
    requires PairStandsAt(n)
    ensures var pair := PoolsOf(rows).pair;
            && LeadsWith(rows, population, seed, n, pair)
            && |pair| == 2 && pair[0].delimiterId == pair[1].delimiterId
  {
    PairFollowsSix(rows, seed, n);
    SlotsLeadWith(rows, population, seed, n, PoolsOf(rows).pair);
  }

  /** When a delimiter serves two or more HFC services and some HFC service lies outside the chosen pair, a cohort
      of eight or more watches that pair side by side, right after what the first six slots drew. */
  lemma CommonPairIsWatched(rows: seq<Subscriber>, population: nat, seed: int)
    requires CleanServices(rows) && HasOthers(PoolsOf(rows)) && PoolsOf(rows).pair != [] && population >= 8
    ensures var pair := PoolsOf(rows).pair;
            && LeadsWith(rows, population, seed, 6, pair)
            && |pair| == 2 && pair[0].delimiterId == pair[1].delimiterId
  {
    PairSlotsLead(rows, population, seed, 6);
  }
}
