/** How the places of a cohort are filled, place by place: from which rows, starting where. */
module CohortDraws {
  import opened Common
  import opened Ordering
  import opened CohortSelection

  /** The row has a service, and none of the selected ones has it. */
  ghost predicate Unused(row: Subscriber, selected: seq<Subscriber>) {
    row.serviceId != "" && forall s :: s in selected ==> s.serviceId != row.serviceId
  }

  /** The row met after `k` steps around the pool. */
  function Met(pool: seq<Subscriber>, start: nat, k: nat): Subscriber
    requires pool != []
  {
    pool[(start + k) % |pool|]
  }

  /** Going round the pool from place |token| modulo its size, the first unused row is appended, if there is one. */
  ghost predicate TakesFirstUnused(before: seq<Subscriber>, after: seq<Subscriber>, pool: seq<Subscriber>, token: int) {
    || (after == before && forall row :: row in pool ==> !Unused(row, before))
    || (pool != [] && exists k: nat :: TakesAt(before, after, pool, Abs(token) % |pool|, k))
  }

  ghost predicate TakesAt(before: seq<Subscriber>, after: seq<Subscriber>, pool: seq<Subscriber>, start: nat, k: nat)
    requires pool != []
  {
    && Unused(Met(pool, start, k), before) && after == before + [Met(pool, start, k)]
    && forall h: nat :: h < k ==> !Unused(Met(pool, start, h), before)
  }

  lemma UnusedIsFree(row: Subscriber, selected: seq<Subscriber>)
    ensures Unused(row, selected) <==> Free(row, IdsOf(selected))
  {
  }

  lemma {:induction false} ProbeFindsFirst(pool: seq<Subscriber>, start: nat, offset: nat, selected: seq<Subscriber>)
    returns (k: nat)
    requires offset <= |pool| && Probe(pool, start, offset, IdsOf(selected)).Some?
    requires forall h: nat :: h < offset ==> !Unused(Met(pool, start, h), selected)
    ensures Probe(pool, start, offset, IdsOf(selected)).value == Met(pool, start, k)
    ensures Unused(Met(pool, start, k), selected)
    ensures forall h: nat :: h < k ==> !Unused(Met(pool, start, h), selected)
    decreases |pool| - offset
  {
    assert Around(pool, start, offset) == Met(pool, start, offset);
    UnusedIsFree(Met(pool, start, offset), selected);
    if Free(Met(pool, start, offset), IdsOf(selected)) {
      k := offset;
    } else {
      k := ProbeFindsFirst(pool, start, offset + 1, selected);
    }
  }

  lemma FoundIsTaken(selected: seq<Subscriber>, pool: seq<Subscriber>, token: int)
    requires Probe(pool, StartOf(pool, token), 0, IdsOf(selected)).Some?
    ensures pool != [] && exists k: nat :: TakesAt(selected, Draw(selected, pool, token), pool, Abs(token) % |pool|, k)
  {
    var k := ProbeFindsFirst(pool, StartOf(pool, token), 0, selected);
    assert TakesAt(selected, Draw(selected, pool, token), pool, StartOf(pool, token), k);
  }

  lemma DrawTakesFirstUnused(selected: seq<Subscriber>, pool: seq<Subscriber>, token: int)
    ensures TakesFirstUnused(selected, Draw(selected, pool, token), pool, token)
  {
    if Probe(pool, StartOf(pool, token), 0, IdsOf(selected)).Some? {
      FoundIsTaken(selected, pool, token);
    } else {
      DrawTakesFree(selected, pool, token);
      forall row | row in pool ensures !Unused(row, selected) { UnusedIsFree(row, selected); }
    }
  }

  // ------------------------------------------------------------------ the twelve places

  predicate Cable(s: Subscriber) { s.hfc }
  predicate Fibre(s: Subscriber) { !s.hfc }

  function NotOf(pair: seq<Subscriber>): Subscriber -> bool {
    (s: Subscriber) => forall q :: q in pair ==> q.serviceId != s.serviceId
  }

  /** The rows that place `n` draws from: of the pair at 6 and 7, cable rows outside the pair at 0, 2, 3, 8 and 10,
      fibre rows elsewhere. */
  function PoolAt(rows: seq<Subscriber>, pair: seq<Subscriber>, n: nat): seq<Subscriber> {
    if |pair| == 2 && (n == 6 || n == 7) then [pair[n - 6]]
    else if n == 0 || n == 2 || n == 3 || n == 8 || n == 10 then
      var cable := Filter(rows, Cable);
      var others := Filter(cable, NotOf(pair));
      if others == [] then cable else others
    else Filter(rows, Fibre)
  }

  function TokenAt(pair: seq<Subscriber>, seed: int, n: nat): int {
    if |pair| == 2 && (n == 6 || n == 7) then seed + n else seed + 17 * n
  }

  lemma CableOutside(rows: seq<Subscriber>)
    ensures var p := PoolsOf(rows);
            && Filter(rows, Cable) == p.hfc && Filter(rows, Fibre) == p.pon
            && Filter(p.hfc, NotOf(p.pair)) == Filter(p.hfc, OutsideOf(p.pair))
  {
    var p := PoolsOf(rows);
    FilterCongruent(rows, Cable, IsHfc);
    FilterCongruent(rows, Fibre, IsPon);
    FilterCongruent(p.hfc, NotOf(p.pair), OutsideOf(p.pair));
  }

  lemma PoolIs(rows: seq<Subscriber>, n: nat)
    ensures PoolOf(PoolsOf(rows), SlotAt(n)) == PoolAt(rows, PoolsOf(rows).pair, n)
  {
    CableOutside(rows);
  }

  lemma PairSize(rows: seq<Subscriber>)
    ensures PoolsOf(rows).pair == [] || |PoolsOf(rows).pair| == 2
  {
  }

  lemma TokenIs(rows: seq<Subscriber>, seed: int, n: nat)
    ensures SlotToken(PoolsOf(rows), seed, n) == TokenAt(PoolsOf(rows).pair, seed, n)
  {
    PairSize(rows);
  }

  lemma DrawnWith(c: seq<Subscriber>, after: seq<Subscriber>, pool: seq<Subscriber>, token: int)
    requires after == Draw(c, pool, token)
    ensures TakesFirstUnused(c, after, pool, token)
  {
    DrawTakesFirstUnused(c, pool, token);
  }

  /** Each of the first twelve places takes the first unused row of its pool, from where its token points. */
  lemma PlacesDraw(rows: seq<Subscriber>, seed: int, n: nat)
    ensures var p := PoolsOf(rows);
            TakesFirstUnused(SlotCohort(p, seed, n), SlotCohort(p, seed, n + 1), PoolAt(rows, p.pair, n),
                             TokenAt(p.pair, seed, n))
  {
    var p := PoolsOf(rows);
    NextSlot(p, seed, n);
    PoolIs(rows, n);
    TokenIs(rows, seed, n);
    DrawnWith(SlotCohort(p, seed, n), SlotCohort(p, seed, n + 1), PoolAt(rows, p.pair, n), TokenAt(p.pair, seed, n));
  }

  // ------------------------------------------------------------------ the pair

  /** No other row has the delimiter of row `i`. */
  ghost predicate Alone(hfc: seq<Subscriber>, i: nat)
    requires i < |hfc|
  {
    forall k :: 0 <= k < |hfc| && k != i ==> hfc[k].delimiterId != hfc[i].delimiterId
  }

  lemma GroupOfOne(hfc: seq<Subscriber>, i: nat)
    requires i < |hfc| && |Filter(hfc, SameDelimiter(hfc[i].delimiterId))| < 2
    ensures Alone(hfc, i)
  {
    var p := SameDelimiter(hfc[i].delimiterId);
    forall k | 0 <= k < |hfc| && k != i ensures hfc[k].delimiterId != hfc[i].delimiterId {
      if p(hfc[k]) {
        var a, b := if i < k then i else k, if i < k then k else i;
        TwoPass(hfc, p, a, b);
      }
    }
  }

  lemma TwoPass(s: seq<Subscriber>, p: Subscriber -> bool, a: nat, b: nat)
    requires a < b < |s| && p(s[a]) && p(s[b])
    ensures |Filter(s, p)| >= 2
  {
    assert s == s[..b] + s[b..];
    FilterAppend(s[..b], s[b..], p);
    assert s[..b][a] in Filter(s[..b], p) && s[b..][0] in Filter(s[b..], p);
  }

  /** The pair: the first cable row that shares its delimiter with another, and the next row that has it. */
  ghost predicate FirstPair(hfc: seq<Subscriber>, pair: seq<Subscriber>) {
    if forall i: nat :: i < |hfc| ==> Alone(hfc, i) then pair == []
    else exists i: nat, k: nat :: i < k < |hfc| && PairAt(hfc, pair, i, k)
  }

  ghost predicate PairAt(hfc: seq<Subscriber>, pair: seq<Subscriber>, i: nat, k: nat)
    requires i < k < |hfc|
  {
    && pair == [hfc[i], hfc[k]] && hfc[i].delimiterId == hfc[k].delimiterId
    && (forall h: nat :: h < i ==> Alone(hfc, h))
    && (forall h :: i < h < k ==> hfc[h].delimiterId != hfc[i].delimiterId)
  }

  lemma {:induction false} FirstTwoOf(s: seq<Subscriber>, p: Subscriber -> bool) returns (i: nat, k: nat)
    requires |Filter(s, p)| >= 2
    ensures i < k < |s| && Filter(s, p)[..2] == [s[i], s[k]] && p(s[i]) && p(s[k])
    ensures (forall h :: 0 <= h < i ==> !p(s[h])) && (forall h :: i < h < k ==> !p(s[h]))
  {
    if p(s[0]) {
      i := 0;
      k := FirstOf(s[1..], p);
      k := k + 1;
      assert Filter(s, p) == [s[0]] + Filter(s[1..], p);
      forall h | 0 < h < k ensures !p(s[h]) { assert s[h] == s[1..][h - 1]; }
    } else {
      i, k := FirstTwoOf(s[1..], p);
      i, k := i + 1, k + 1;
      forall h | 0 <= h < i ensures !p(s[h]) { if h > 0 { assert s[h] == s[1..][h - 1]; } }
      forall h | i < h < k ensures !p(s[h]) { assert s[h] == s[1..][h - 1]; }
    }
  }

  lemma {:induction false} FirstOf(s: seq<Subscriber>, p: Subscriber -> bool) returns (k: nat)
    requires Filter(s, p) != []
    ensures k < |s| && Filter(s, p)[0] == s[k] && p(s[k]) && forall h :: 0 <= h < k ==> !p(s[h])
  {
    if p(s[0]) {
      k := 0;
    } else {
      k := FirstOf(s[1..], p);
      k := k + 1;
      forall h | 0 <= h < k ensures !p(s[h]) { if h > 0 { assert s[h] == s[1..][h - 1]; } }
    }
  }

  lemma {:induction false} CommonPairIsFirst(hfc: seq<Subscriber>, from: nat)
    requires from <= |hfc| && forall i: nat :: i < from ==> Alone(hfc, i)
    ensures FirstPair(hfc, CommonPair(hfc, from))
    decreases |hfc| - from
  {
    if from < |hfc| {
      var p := SameDelimiter(hfc[from].delimiterId);
      if |Filter(hfc, p)| < 2 {
        GroupOfOne(hfc, from);
        CommonPairIsFirst(hfc, from + 1);
      } else {
        var i, k := FirstTwoOf(hfc, p);
        assert !Alone(hfc, i);
        assert i == from;
        assert PairAt(hfc, CommonPair(hfc, from), i, k);
      }
    }
  }

  lemma PairIsFirst(rows: seq<Subscriber>)
    ensures FirstPair(Filter(rows, Cable), PoolsOf(rows).pair)
  {
    FilterCongruent(rows, Cable, IsHfc);
    CommonPairIsFirst(Filter(rows, IsHfc), 0);
  }

  // ------------------------------------------------------------------ the rest

  /** The rows in order, each taken if its service is unused, until there are enough. */
  ghost function FilledUp(taken: seq<Subscriber>, rows: seq<Subscriber>, population: nat): seq<Subscriber>
    decreases |rows|
  {
    if rows == [] || |taken| >= population then taken
    else FilledUp(if Unused(rows[0], taken) then taken + [rows[0]] else taken, rows[1..], population)
  }

  lemma DrawFromOne(selected: seq<Subscriber>, row: Subscriber, token: int)
    ensures Draw(selected, [row], token) == if Unused(row, selected) then selected + [row] else selected
  {
    UnusedIsFree(row, selected);
    DrawTakesFree(selected, [row], token);
  }

  lemma TopUpStep(rows: seq<Subscriber>, population: nat, seed: int, c: seq<Subscriber>, i: nat)
    requires i < |rows|
    ensures TopUpPass(rows, population, seed)(c, i)
            == if |c| >= population then c else if Unused(rows[i], c) then c + [rows[i]] else c
  {
    DrawFromOne(c, rows[i], seed + i);
  }

  lemma {:induction false} FilledFrom(rows: seq<Subscriber>, population: nat, seed: int, start: seq<Subscriber>, n: nat)
    requires n <= |rows|
    ensures FilledUp(Run(start, TopUpPass(rows, population, seed), n), rows[n..], population)
            == FilledUp(start, rows, population)
  {
    if n == 0 {
      assert rows[0..] == rows;
    } else {
      FilledFrom(rows, population, seed, start, n - 1);
      TopUpStep(rows, population, seed, Run(start, TopUpPass(rows, population, seed), n - 1), n - 1);
      assert rows[n - 1..][1..] == rows[n..];
    }
  }

  /** The cohort is what its slots drew, filled up with the rows in their order. */
  lemma CohortIsFilledUp(rows: seq<Subscriber>, population: nat, seed: int)
    ensures Cohort(rows, population, seed)
            == FilledUp(SlotCohort(PoolsOf(rows), seed, Min(12, population)), rows, population)
  {
    var slots := SlotCohort(PoolsOf(rows), seed, Min(SLOTS, population));
    FilledFrom(rows, population, seed, slots, |rows|);
    assert rows[|rows|..] == [];
  }
}
