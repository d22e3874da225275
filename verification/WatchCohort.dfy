/** From the cohort to the watch: the installs that a cohort gives, and the common-cause incident that its shared-tap
    pair ends in. */
module WatchCohort {
  import opened Common
  import opened Ordering
  import opened CohortSelection
  import opened InstallWatch

  /** How ids are derived: an episode's from its service, an incident's from its episode or from its delimiter. */
  datatype Names = Names(episodeOf: string -> string, ownIncident: string -> string, commonIncident: string -> string)

  /** The install at place `index` of the cohort. */
  function InstallAt(names: Names, s: Subscriber, index: nat): Install {
    var scenario, id := ScenarioFor(index, s.hfc), names.episodeOf(s.serviceId);
    Install(id, s.serviceId, scenario,
            if scenario == CommonCauseHfc then names.commonIncident(s.delimiterId) else names.ownIncident(id))
  }

  function Installs(names: Names, cohort: seq<Subscriber>): seq<Install> {
    seq(|cohort|, i requires 0 <= i < |cohort| => InstallAt(names, cohort[i], i))
  }

  // ------------------------------------------------------------------ the first six slots all draw

  /** HFC slots among the first `n` of the first six. */
  function HfcSlots(n: nat): nat { if n == 0 then 0 else if n <= 2 then 1 else if n == 3 then 2 else 3 }

  lemma {:induction false} IdsSize(pool: seq<Subscriber>)
    requires DistinctBy(pool, Service)
    ensures |IdsOf(pool)| == |pool|
  {
    if pool != [] {
      var n := |pool| - 1;
      DistinctPrefix(pool, n, Service);
      IdsSize(pool[..n]);
      SizeStep(pool[..n], pool[n]);
      assert pool == pool[..n] + [pool[n]];
    }
  }

  lemma SizeStep(front: seq<Subscriber>, last: Subscriber)
    requires last.serviceId !in IdsOf(front)
    ensures |IdsOf(front + [last])| == |IdsOf(front)| + 1
  {
    IdsStep(front, last);
  }

  function OfTechnology(hfc: bool): Subscriber -> bool { (s: Subscriber) => s.hfc == hfc }

  /** A pool of one technology with more rows than the cohort has of that technology has a free row. */
  lemma FreeRemains(rows: seq<Subscriber>, pool: seq<Subscriber>, selected: seq<Subscriber>, hfc: bool)
    requires CleanServices(rows) && OfKind(pool, rows, hfc) && DistinctBy(pool, Service)
    requires (forall s :: s in selected ==> s in rows) && DistinctBy(selected, Service)
    requires Count(selected, OfTechnology(hfc)) < |pool|
    ensures exists row :: row in pool && Free(row, IdsOf(selected))
  {
    var same := Filter(selected, OfTechnology(hfc));
    IdsSize(pool);
    FilterKeepsDistinct(selected, OfTechnology(hfc), Service);
    IdsSize(same);
    if IdsOf(pool) <= IdsOf(same) {
      SubsetSize(IdsOf(pool), IdsOf(same));
    }
    var id :| id in IdsOf(pool) && id !in IdsOf(same);
    var row :| row in pool && row.serviceId == id;
    forall s | s in selected ensures s.serviceId != id {
      if s.hfc == hfc { assert s in same; } else { DifferentServices(rows, row, s); }
    }
  }

  /** Enough distinct rows of each technology for the first six slots. */
  ghost predicate Ample(rows: seq<Subscriber>, p: Pools) {
    && SplitOf(p, rows)
    && OfKind(General(p), rows, true) && DistinctBy(General(p), Service) && |General(p)| >= 3
    && OfKind(p.pon, rows, false) && DistinctBy(p.pon, Service) && |p.pon| >= 3
  }

  function HfcIn(c: seq<Subscriber>): nat { Count(c, OfTechnology(true)) }
  function PonIn(c: seq<Subscriber>): nat { Count(c, OfTechnology(false)) }

  lemma CountsGrow(c: seq<Subscriber>, s: Subscriber)
    ensures HfcIn(c + [s]) == HfcIn(c) + (if s.hfc then 1 else 0)
    ensures PonIn(c + [s]) == PonIn(c) + (if s.hfc then 0 else 1)
  {
    FilterAppend(c, [s], OfTechnology(true));
    FilterAppend(c, [s], OfTechnology(false));
  }

  /** Drawing from a pool of one technology that is not used up. */
  lemma DrawOfKind(rows: seq<Subscriber>, pool: seq<Subscriber>, c: seq<Subscriber>, token: int, hfc: bool)
    requires CleanServices(rows) && OfKind(pool, rows, hfc) && DistinctBy(pool, Service) && Drawn(rows, c)
    requires Count(c, OfTechnology(hfc)) < |pool|
    ensures var after := Draw(c, pool, token);
            && |after| == |c| + 1
            && HfcIn(after) == HfcIn(c) + (if hfc then 1 else 0) && PonIn(after) == PonIn(c) + (if hfc then 0 else 1)
  {
    FreeRemains(rows, pool, c, hfc);
    var row :| row in pool && Free(row, IdsOf(c));
    DrawTakes(c, pool, token, row);
    var after := Draw(c, pool, token);
    assert after == c + [after[|c|]];
    CountsGrow(c, after[|c|]);
  }

  ghost predicate Balanced(c: seq<Subscriber>, n: nat) {
    |c| == n && HfcIn(c) == HfcSlots(n) && PonIn(c) + HfcSlots(n) == n
  }

  lemma StaysBalanced(c: seq<Subscriber>, after: seq<Subscriber>, hfc: bool, n: nat)
    requires Balanced(c, n) && n < 6 && hfc == (SlotAt(n) == AnyHfc) && |after| == |c| + 1
    requires HfcIn(after) == HfcIn(c) + (if hfc then 1 else 0) && PonIn(after) == PonIn(c) + (if hfc then 0 else 1)
    ensures Balanced(after, n + 1)
  {
  }

  lemma BalancedNeeds(c: seq<Subscriber>, hfc: bool, n: nat)
    requires Balanced(c, n) && n < 6 && hfc == (SlotAt(n) == AnyHfc)
    ensures Count(c, OfTechnology(hfc)) < 3 && (!hfc ==> SlotAt(n) == AnyPon)
  {
  }

  lemma SlotDraws(rows: seq<Subscriber>, pool: seq<Subscriber>, token: int, c: seq<Subscriber>, hfc: bool, n: nat)
    requires CleanServices(rows) && OfKind(pool, rows, hfc) && DistinctBy(pool, Service) && |pool| >= 3
    requires n < 6 && Drawn(rows, c) && Balanced(c, n) && hfc == (SlotAt(n) == AnyHfc)
    ensures Balanced(Draw(c, pool, token), n + 1)
  {
    BalancedNeeds(c, hfc, n);
    DrawOfKind(rows, pool, c, token, hfc);
    StaysBalanced(c, Draw(c, pool, token), hfc, n);
  }

  lemma EarlyPool(p: Pools, n: nat)
    requires n < 6
    ensures PoolOf(p, SlotAt(n)) == if SlotAt(n) == AnyHfc then General(p) else p.pon
  {
  }

  lemma EarlySlotDraws(rows: seq<Subscriber>, p: Pools, token: int, c: seq<Subscriber>, n: nat)
    requires CleanServices(rows) && Ample(rows, p) && n < 6 && Drawn(rows, c) && Balanced(c, n)
    ensures Balanced(Draw(c, PoolOf(p, SlotAt(n)), token), n + 1)
  {
    EarlyPool(p, n);
    if SlotAt(n) == AnyHfc {
      SlotDraws(rows, General(p), token, c, true, n);
    } else {
      SlotDraws(rows, p.pon, token, c, false, n);
    }
  }

  lemma {:induction false} SlotsAllDraw(rows: seq<Subscriber>, seed: int, n: nat)
    requires CleanServices(rows) && Ample(rows, PoolsOf(rows)) && n <= 6
    ensures Balanced(SlotCohort(PoolsOf(rows), seed, n), n)
  {
    if n > 0 {
      SlotsAllDraw(rows, seed, n - 1);
      SlotsDrawn(rows, seed, n - 1);
      EarlySlotDraws(rows, PoolsOf(rows), SlotToken(PoolsOf(rows), seed, n - 1),
                     SlotCohort(PoolsOf(rows), seed, n - 1), n - 1);
      NextSlot(PoolsOf(rows), seed, n - 1);
    }
  }

  // ------------------------------------------------------------------ the common-cause incident

  lemma CommonCauseEpisode(i: Install, asOf: nat, tail: int)
    requires i.scenario == CommonCauseHfc
    ensures var e := EpisodeAt(i, asOf, tail);
            if asOf >= Quarters(6) then e.lifecycle == PromotedToIncident && e.incident == Some(i.incidentId)
            else e.incident == None
  {
  }

  lemma PairIsHfc(rows: seq<Subscriber>)
    ensures forall s :: s in PoolsOf(rows).pair ==> s.hfc
  {
    PoolsFromRows(rows);
  }

  /** The places where the pair stands in the cohort. */
  lemma PairAtSix(rows: seq<Subscriber>, population: nat, seed: int)
    requires CleanServices(rows) && Ample(rows, PoolsOf(rows)) && HasOthers(PoolsOf(rows))
    requires PoolsOf(rows).pair != [] && population >= 8
    ensures var c, pair := Cohort(rows, population, seed), PoolsOf(rows).pair;
            |pair| == 2 && |c| >= 8 && c[6] == pair[0] && c[7] == pair[1] && c[6].hfc && c[7].hfc
            && c[6].delimiterId == c[7].delimiterId
  {
    CommonPairIsWatched(rows, population, seed);
    SlotsAllDraw(rows, seed, 6);
    PairIsHfc(rows);
    var c, pair, six := Cohort(rows, population, seed), PoolsOf(rows).pair, SlotCohort(PoolsOf(rows), seed, 6);
    assert (six + pair)[6] == pair[0] && (six + pair)[7] == pair[1];
    assert pair[0] in pair && pair[1] in pair;
  }

  /** Given three HFC services outside the shared-tap pair and three PON ones, a watch over eight or more installs holds
      one incident of the pair's tap from an hour and a half on, and both of the pair's episodes are promoted to it. */
  method WatchSharedTap(names: Names, rows: seq<Subscriber>, population: nat, seed: int, asOf: nat, tail: int)
    returns (episodes: seq<Episode>, incidents: map<string, RootIncident>)
    requires CleanServices(rows) && Ample(rows, PoolsOf(rows)) && HasOthers(PoolsOf(rows))
    requires PoolsOf(rows).pair != [] && population >= 8
    ensures episodes == Map(Installs(names, Cohort(rows, population, seed)), Look(asOf, tail))
    ensures FinalIncidents(incidents, episodes)
    ensures |episodes| >= 8
    ensures var id := names.commonIncident(PoolsOf(rows).pair[0].delimiterId);
            asOf >= Quarters(6) ==>
              id in incidents && PromotedTo(id)(episodes[6]) && PromotedTo(id)(episodes[7])
              && PoolsOf(rows).pair[0].serviceId in incidents[id].services
              && PoolsOf(rows).pair[1].serviceId in incidents[id].services
  {
    var slots, slotIds := FillSlots(rows, population, seed);
    var cohort := TopUp(rows, population, seed, slots, slotIds);
    episodes, incidents := BuildWatch(Installs(names, cohort), asOf, tail);
    PairAtSix(rows, population, seed);
    if asOf >= Quarters(6) { PairIsPromoted(names, cohort, incidents, episodes, asOf, tail); }
  }

  lemma PairIsPromoted(names: Names, cohort: seq<Subscriber>, incidents: map<string, RootIncident>,
                       episodes: seq<Episode>, asOf: nat, tail: int)
    requires |cohort| >= 8 && cohort[6].hfc && cohort[7].hfc && cohort[6].delimiterId == cohort[7].delimiterId
    requires episodes == Map(Installs(names, cohort), Look(asOf, tail)) && FinalIncidents(incidents, episodes)
    requires asOf >= Quarters(6)
    ensures var id := names.commonIncident(cohort[6].delimiterId);
            id in incidents && PromotedTo(id)(episodes[6]) && PromotedTo(id)(episodes[7])
            && cohort[6].serviceId in incidents[id].services && cohort[7].serviceId in incidents[id].services
  {
    var id := names.commonIncident(cohort[6].delimiterId);
    PlaceIsPromoted(names, cohort, episodes, asOf, tail, 6);
    PlaceIsPromoted(names, cohort, episodes, asOf, tail, 7);
    assert FinalRight(incidents, episodes, id);
    MemberIsListed(incidents, episodes, id, 6);
    MemberIsListed(incidents, episodes, id, 7);
  }

  /** The common-cause scenario belongs to places 6 and 7. */
  lemma PlaceIsPromoted(names: Names, cohort: seq<Subscriber>, episodes: seq<Episode>, asOf: nat, tail: int, k: nat)
    requires 6 <= k < 8 && k < |cohort| && cohort[k].hfc && asOf >= Quarters(6)
    requires episodes == Map(Installs(names, cohort), Look(asOf, tail))
    ensures |episodes| == |cohort| && PromotedTo(names.commonIncident(cohort[k].delimiterId))(episodes[k])
    ensures episodes[k].serviceId == cohort[k].serviceId
  {
    CommonCauseEpisode(InstallAt(names, cohort[k], k), asOf, tail);
  }

  lemma MemberIsListed(incidents: map<string, RootIncident>, episodes: seq<Episode>, id: string, k: nat)
    requires FinalRight(incidents, episodes, id) && k < |episodes| && PromotedTo(id)(episodes[k])
    ensures id in incidents && episodes[k].serviceId in incidents[id].services
  {
    var members := Filter(episodes, PromotedTo(id));
    assert episodes[k] in members;
    ServiceIsListed(members, episodes[k]);
  }

  lemma ServiceIsListed(members: seq<Episode>, e: Episode)
    requires e in members
    ensures e.serviceId in Tidied(IncidentOf(members)).services
  {
    IncidentLists(members);
    var m :| 0 <= m < |members| && members[m] == e;
    assert Map(members, EpisodeService)[m] == e.serviceId;
    SortedSetHasAll(IncidentOf(members).services);
  }
}
