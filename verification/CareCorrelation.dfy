/** Care contacts correlated with predictive tickets, and the effect on their root incidents, as functions. */
module CareCorrelation {
  import opened Common
  import opened Ordering

  /** A predictive ticket; `openedText` is its timestamp as written, `openedAt` the instant it denotes. */
  datatype PredictiveTicket = PredictiveTicket(
    id: string, serviceId: string, proactive: bool, severe: bool, openedText: string, openedAt: int)

  datatype Contact = Contact(id: string, caseId: string, serviceId: string, at: int)

  datatype Origin = PREDICTIVE | REACTIVE | OtherOrigin(text: string)

  /** The correlated part of an incident; None stands for a key that is not set. */
  datatype IncidentState = IncidentState(origin: Option<Origin>, ticketId: Option<string>, openedAt: int)

  // ------------------------------------------------------------------ matching one contact

  function Class(t: PredictiveTicket): int { if t.proactive then 0 else 1 }
  function Urgency(t: PredictiveTicket): int { if t.severe then 0 else 1 }

  /** The key (proactive first, critical or high first, opened_at as text). */
  predicate TicketLe(a: PredictiveTicket, b: PredictiveTicket) {
    Class(a) < Class(b)
    || (Class(a) == Class(b)
        && (Urgency(a) < Urgency(b) || (Urgency(a) == Urgency(b) && StrLe(a.openedText, b.openedText))))
  }

  lemma TicketLeOrder()
    ensures TotalPreorder(TicketLe)
  {
    forall a, b ensures TicketLe(a, b) || TicketLe(b, a) { StrLeTotal(a.openedText, b.openedText); }
    forall a, b, c | TicketLe(a, b) && TicketLe(b, c) ensures TicketLe(a, c) {
      if StrLe(a.openedText, b.openedText) && StrLe(b.openedText, c.openedText) {
        StrLeTransitive(a.openedText, b.openedText, c.openedText);
      }
    }
  }

  function OnService(service: string): PredictiveTicket -> bool { (t: PredictiveTicket) => t.serviceId == service }

  function OpenedBy(at: int): PredictiveTicket -> bool { (t: PredictiveTicket) => t.openedAt <= at }

  /** The ranked tickets of the contact's service that were open by the time of the contact. */
  function Eligible(tickets: seq<PredictiveTicket>, c: Contact): seq<PredictiveTicket> {
    Filter(Sorted(Filter(tickets, OnService(c.serviceId)), TicketLe), OpenedBy(c.at))
  }

  function Match(tickets: seq<PredictiveTicket>, c: Contact): Option<PredictiveTicket> {
    var candidates := Eligible(tickets, c);
    if candidates == [] then None else Some(candidates[0])
  }

  /** A contact matches exactly when its service has a ticket opened by then, and the match ranks no lower than
      any such ticket. */
  lemma MatchIsBestRanked(tickets: seq<PredictiveTicket>, c: Contact)
    ensures Match(tickets, c).Some? <==> exists t :: t in tickets && t.serviceId == c.serviceId && t.openedAt <= c.at
    ensures Match(tickets, c).Some? ==>
              var m := Match(tickets, c).value;
              && m in tickets && m.serviceId == c.serviceId && m.openedAt <= c.at
              && forall t :: t in tickets && t.serviceId == c.serviceId && t.openedAt <= c.at && t != m ==>
                   TicketLe(m, t)
  {
    var own := Filter(tickets, OnService(c.serviceId));
    var ranked, candidates := Sorted(own, TicketLe), Eligible(tickets, c);
    SameElements(ranked, own);
    TicketLeOrder();
    SortedIsSorted(own, TicketLe);
    SortedFilterStaysSorted(ranked, TicketLe, OpenedBy(c.at));
    forall t | t in tickets && t.serviceId == c.serviceId && t.openedAt <= c.at ensures t in candidates {
      assert t in own && t in ranked;
    }
    if candidates != [] {
      var m := candidates[0];
      assert m in candidates && m in ranked && m in own;
      forall t | t in candidates && t != m ensures TicketLe(m, t) {
        var k :| 0 <= k < |candidates| && candidates[k] == t;
        assert TicketLe(candidates[0], candidates[k]);
      }
    }
  }

  /** The ticket is of the contact's service and was open by the time of the contact. */
  ghost predicate InPlay(tickets: seq<PredictiveTicket>, c: Contact, t: PredictiveTicket) {
    t in tickets && t.serviceId == c.serviceId && t.openedAt <= c.at
  }

  /** A proactive ticket goes before any other, then a severe one, then the one opened first. */
  lemma MatchPrefers(tickets: seq<PredictiveTicket>, c: Contact)
    requires Match(tickets, c).Some?
    ensures var m := Match(tickets, c).value;
            && InPlay(tickets, c, m)
            && ((exists t :: InPlay(tickets, c, t) && t.proactive) ==> m.proactive)
            && ((exists t :: InPlay(tickets, c, t) && t.proactive == m.proactive && t.severe) ==> m.severe)
            && (forall t :: InPlay(tickets, c, t) && t.proactive == m.proactive && t.severe == m.severe ==>
                  StrLe(m.openedText, t.openedText))
  {
    MatchIsBestRanked(tickets, c);
    var m := Match(tickets, c).value;
    StrLeTotal(m.openedText, m.openedText);
    forall t | InPlay(tickets, c, t) ensures TicketLe(m, t) {}
  }

  /** The tickets in play that nothing but their place distinguishes from `m`. */
  function EqualTo(m: PredictiveTicket, c: Contact): PredictiveTicket -> bool {
    (t: PredictiveTicket) =>
      t.serviceId == c.serviceId && t.openedAt <= c.at
      && t.proactive == m.proactive && t.severe == m.severe && t.openedText == m.openedText
  }

  lemma AlikeInEligible(tickets: seq<PredictiveTicket>, c: Contact, m: PredictiveTicket)
    ensures Filter(Eligible(tickets, c), EqualTo(m, c)) == Filter(tickets, EqualTo(m, c))
  {
    var own := Filter(tickets, OnService(c.serviceId));
    TicketLeOrder();
    FilterWithin(Sorted(own, TicketLe), OpenedBy(c.at), EqualTo(m, c));
    SortedFilter(own, TicketLe, EqualTo(m, c));
    AlikeRank(m, c);
    AlikeStayInOrder(Filter(own, EqualTo(m, c)), TicketLe);
    FilterWithin(tickets, OnService(c.serviceId), EqualTo(m, c));
  }

  lemma AlikeRank(m: PredictiveTicket, c: Contact)
    ensures forall t, u :: EqualTo(m, c)(t) && EqualTo(m, c)(u) ==> TicketLe(t, u)
  {
    StrLeTotal(m.openedText, m.openedText);
  }

  lemma HeadPasses(s: seq<PredictiveTicket>, p: PredictiveTicket -> bool)
    requires s != [] && p(s[0])
    ensures Filter(s, p) != [] && Filter(s, p)[0] == s[0]
  {
  }

  /** Among tickets that rank alike the match is the first that was read. */
  lemma MatchIsFirstRead(tickets: seq<PredictiveTicket>, c: Contact)
    requires Match(tickets, c).Some?
    ensures var alike := Filter(tickets, EqualTo(Match(tickets, c).value, c));
            alike != [] && Match(tickets, c).value == alike[0]
  {
    var m := Match(tickets, c).value;
    MatchIsBestRanked(tickets, c);
    AlikeInEligible(tickets, c, m);
    HeadPasses(Eligible(tickets, c), EqualTo(m, c));
  }

  // ------------------------------------------------------------------ one incident's contacts

  /** What one contact does to its root incident. */
  function Attach(s: IncidentState, found: Option<PredictiveTicket>): IncidentState {
    if found.Some? then
      IncidentState(Some(PREDICTIVE), Some(found.value.id), Min(found.value.openedAt, s.openedAt))
    else s.(origin := if s.origin.None? then Some(REACTIVE) else s.origin)
  }

  function AttachAll(s: IncidentState, matches: seq<Option<PredictiveTicket>>): IncidentState {
    if matches == [] then s else Attach(AttachAll(s, matches[..|matches| - 1]), matches[|matches| - 1])
  }

  /** The opening is the earliest of the original and the matched ones, and the origin is PREDICTIVE exactly when
      something matched or it was already; an incident without an origin becomes REACTIVE at its first contact. */
  lemma {:induction false} AttachedState(s: IncidentState, matches: seq<Option<PredictiveTicket>>)
    ensures var r := AttachAll(s, matches);
            && r.openedAt <= s.openedAt
            && (forall m :: m in matches && m.Some? ==> r.openedAt <= m.value.openedAt)
            && (r.openedAt == s.openedAt || exists m :: m in matches && m.Some? && m.value.openedAt == r.openedAt)
            && r.origin == (if exists m :: m in matches && m.Some? then Some(PREDICTIVE)
                            else if s.origin.Some? || matches == [] then s.origin
                            else Some(REACTIVE))
            && ((forall m :: m in matches ==> m.None?) ==> r.ticketId == s.ticketId)
            && ((exists m :: m in matches && m.Some?) ==>
                  exists m :: m in matches && m.Some? && r.ticketId == Some(m.value.id))
  {
    if matches != [] {
      var n := |matches| - 1;
      var before, last := matches[..n], matches[n];
      AttachedState(s, before);
      assert matches == before + [last];
      assert forall m :: m in matches <==> m in before || m == last;
    }
  }

  /** Opening time and origin do not depend on the order in which the contacts are processed. */
  lemma ContactOrderIrrelevant(s: IncidentState, a: seq<Option<PredictiveTicket>>, b: seq<Option<PredictiveTicket>>)
    requires multiset(a) == multiset(b)
    ensures AttachAll(s, a).openedAt == AttachAll(s, b).openedAt
    ensures AttachAll(s, a).origin == AttachAll(s, b).origin
  {
    AttachedState(s, a);
    AttachedState(s, b);
    SameElements(a, b);
  }

  ghost predicate OneTicket(matches: seq<Option<PredictiveTicket>>) {
    forall m, n :: m in matches && n in matches && m.Some? && n.Some? ==> m.value.id == n.value.id
  }

  lemma OneTicketOneId(s: IncidentState, a: seq<Option<PredictiveTicket>>, b: seq<Option<PredictiveTicket>>)
    requires multiset(a) == multiset(b) && OneTicket(a)
    ensures AttachAll(s, a).ticketId == AttachAll(s, b).ticketId
  {
    AttachedState(s, a);
    AttachedState(s, b);
    SameElements(a, b);
  }
}
