/** What the root incidents of a watch hold, in terms of the episodes promoted to them. */
module WatchIncidents {
  import opened Common
  import opened Ordering
  import opened InstallWatch

  predicate Promoted(e: Episode, id: string) { e.lifecycle == PromotedToIncident && e.incident == Some(id) }

  ghost predicate Carried(episodes: seq<Episode>, id: string, ids: Episode -> seq<string>, x: string) {
    exists e :: e in episodes && Promoted(e, id) && x in ids(e)
  }

  /** The list holds, once each and in order, the ids that the episodes promoted to the incident carry. */
  ghost predicate ListsOf(list: seq<string>, episodes: seq<Episode>, id: string, ids: Episode -> seq<string>) {
    && (forall i, j :: 0 <= i < j < |list| ==> StrLe(list[i], list[j]) && list[i] != list[j])
    && (forall x :: x in list <==> Carried(episodes, id, ids, x))
  }

  /** The first episode promoted to the incident. */
  ghost predicate FirstIs(episodes: seq<Episode>, id: string, k: nat) {
    k < |episodes| && Promoted(episodes[k], id) && forall j :: 0 <= j < k ==> !Promoted(episodes[j], id)
  }

  lemma {:induction false} FirstOfFilter(episodes: seq<Episode>, id: string, k: nat)
    requires FirstIs(episodes, id, k)
    ensures Filter(episodes, PromotedTo(id)) != [] && Filter(episodes, PromotedTo(id))[0] == episodes[k]
  {
    if k > 0 { FirstOfFilter(episodes[1..], id, k - 1); }
  }

  lemma {:induction false} GatheredIff(members: seq<Episode>, ids: Episode -> seq<string>, x: string)
    ensures x in Gathered(members, ids) <==> exists e :: e in members && x in ids(e)
  {
    if members != [] {
      var n := |members| - 1;
      GatheredIff(members[..n], ids, x);
      assert members == members[..n] + [members[n]];
    }
  }

  lemma TidyList(members: seq<Episode>, episodes: seq<Episode>, id: string, ids: Episode -> seq<string>)
    requires members == Filter(episodes, PromotedTo(id))
    ensures ListsOf(SortedSet(Gathered(members, ids)), episodes, id, ids)
  {
    SortedSetHasAll(Gathered(members, ids));
    forall x ensures x in Gathered(members, ids) <==> Carried(episodes, id, ids, x) {
      GatheredIff(members, ids, x);
    }
  }

  function Service(e: Episode): seq<string> { [e.serviceId] }
  function Id(e: Episode): seq<string> { [e.id] }

  lemma {:induction false} GatheredIsMap(members: seq<Episode>, one: Episode -> string, ids: Episode -> seq<string>)
    requires forall e :: ids(e) == [one(e)]
    ensures Gathered(members, ids) == Map(members, one)
  {
    if members != [] {
      var n := |members| - 1;
      GatheredIsMap(members[..n], one, ids);
      assert members == members[..n] + [members[n]];
      MapAppend(members[..n], members[n], one);
    }
  }

  /** An incident exists exactly for an id that some episode is promoted to. Its lists hold the services, ids, work
      orders and MRs of those episodes. */
  lemma IncidentHolds(incidents: map<string, RootIncident>, episodes: seq<Episode>, id: string)
    requires FinalIncidents(incidents, episodes)
    ensures id in incidents <==> exists e :: e in episodes && Promoted(e, id)
    ensures id in incidents ==>
              && ListsOf(incidents[id].services, episodes, id, Service)
              && ListsOf(incidents[id].episodes, episodes, id, Id)
              && ListsOf(incidents[id].workOrders, episodes, id, WorkOrderIds)
              && ListsOf(incidents[id].mrs, episodes, id, MrIds)
  {
    var members := Filter(episodes, PromotedTo(id));
    assert FinalRight(incidents, episodes, id);
    if id in incidents {
      assert members[0] in members && Promoted(members[0], id);
      IncidentLists(members);
      GatheredIsMap(members, EpisodeService, Service);
      GatheredIsMap(members, EpisodeId, Id);
      TidyList(members, episodes, id, Service);
      TidyList(members, episodes, id, Id);
      TidyList(members, episodes, id, WorkOrderIds);
      TidyList(members, episodes, id, MrIds);
    }
  }

  /** The first episode promoted to an incident gives it its times: when its plan opens the incident, and half an hour
      after the planned repair once that has come. */
  lemma FirstGivesTimes(incidents: map<string, RootIncident>, episodes: seq<Episode>, id: string, k: nat)
    requires FinalIncidents(incidents, episodes) && FirstIs(episodes, id, k)
    ensures id in incidents && incidents[id].openedAt == Opened(episodes[k]).openedAt
            && incidents[id].closedAt == ClosingTime(episodes[k])
  {
    FirstOfFilter(episodes, id, k);
    assert FinalRight(incidents, episodes, id);
    IncidentLists(Filter(episodes, PromotedTo(id)));
  }
}
