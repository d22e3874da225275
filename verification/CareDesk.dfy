/** Building care tickets against shared incident records, and refreshing them when incidents change. */
module CareDesk {
  import opened Common
  import opened Ordering
  import opened CareCorrelation

  datatype IncidentStatus = Closed | OtherStatus(text: string)

  class Incident {
    const id: string
    var origin: Option<Origin>
    var ticketId: Option<string>
    var openedAt: int
    var status: IncidentStatus
    var closedAt: Option<int>

    constructor (id: string, origin: Option<Origin>, openedAt: int, status: IncidentStatus, closedAt: Option<int>)
      ensures this.id == id && this.origin == origin && this.ticketId == None && this.openedAt == openedAt
      ensures this.status == status && this.closedAt == closedAt
    {
      this.id, this.origin, this.ticketId, this.openedAt := id, origin, None, openedAt;
      this.status, this.closedAt := status, closedAt;
    }

    function State(): IncidentState
      reads this
    {
      IncidentState(origin, ticketId, openedAt)
    }

    /** What a contact with this match writes into its root incident. */
    method Absorb(found: Option<PredictiveTicket>)
      modifies this`origin, this`ticketId, this`openedAt
      ensures State() == Attach(old(State()), found)
    {
      if found.Some? {
        origin := Some(PREDICTIVE);
        ticketId := Some(found.value.id);
        if found.value.openedAt < openedAt { openedAt := found.value.openedAt; }
      } else if origin.None? {
        origin := Some(REACTIVE);
      }
    }
  }

  class CareTicket {
    const id: string
    const incidentId: string
    const matched: Option<string>
    var closed: bool
    var closedAt: Option<int>

    constructor (id: string, incidentId: string, matched: Option<string>, closed: bool, closedAt: Option<int>)
      ensures this.id == id && this.incidentId == incidentId && this.matched == matched
      ensures this.closed == closed && this.closedAt == closedAt
    {
      this.id, this.incidentId, this.matched, this.closed, this.closedAt := id, incidentId, matched, closed, closedAt;
    }
  }

  class Review {
    const ticketId: string
    const incidentId: string
    var incidentStatus: IncidentStatus

    constructor (ticketId: string, incidentId: string, incidentStatus: IncidentStatus)
      ensures this.ticketId == ticketId && this.incidentId == incidentId && this.incidentStatus == incidentStatus
    {
      this.ticketId, this.incidentId, this.incidentStatus := ticketId, incidentId, incidentStatus;
    }
  }

  /** The incident records, indexed by their ids; each object is therefore filed once. */
  type Registry = map<string, Incident>

  ghost predicate Filed(incidents: Registry) { forall k :: k in incidents ==> incidents[k].id == k }

  // ------------------------------------------------------------------ build_care_records

  /** The root incident of each case. */
  type Roots = map<string, string>

  function ForIncident(roots: Roots, k: string): Contact -> bool {
    (c: Contact) => c.caseId in roots && roots[c.caseId] == k
  }

  function MatchOf(tickets: seq<PredictiveTicket>): Contact -> Option<PredictiveTicket> {
    (c: Contact) => Match(tickets, c)
  }

  /** The match of every contact that belongs to the incident, in contact order. */
  function MatchesFor(contacts: seq<Contact>, roots: Roots, matchOf: Contact -> Option<PredictiveTicket>, k: string)
    : seq<Option<PredictiveTicket>>
  {
    Map(Filter(contacts, ForIncident(roots, k)), matchOf)
  }

  /** What one contact does to the incident `k`. */
  function Touch(s: IncidentState, c: Contact, roots: Roots, matchOf: Contact -> Option<PredictiveTicket>, k: string)
    : IncidentState
  {
    if ForIncident(roots, k)(c) then Attach(s, matchOf(c)) else s
  }

  /** The incident `k` after all the contacts, one by one. */
  function After(s: IncidentState, contacts: seq<Contact>, roots: Roots, matchOf: Contact -> Option<PredictiveTicket>,
                 k: string): IncidentState
  {
    if contacts == [] then s
    else Touch(After(s, contacts[..|contacts| - 1], roots, matchOf, k), contacts[|contacts| - 1], roots, matchOf, k)
  }

  lemma AfterNext(s: IncidentState, done: seq<Contact>, c: Contact, roots: Roots,
                  matchOf: Contact -> Option<PredictiveTicket>, k: string)
    ensures After(s, done + [c], roots, matchOf, k) == Touch(After(s, done, roots, matchOf, k), c, roots, matchOf, k)
  {
    assert (done + [c])[..|done|] == done;
  }

  lemma MatchesNext(done: seq<Contact>, c: Contact, roots: Roots, matchOf: Contact -> Option<PredictiveTicket>,
                    k: string)
    ensures MatchesFor(done + [c], roots, matchOf, k)
            == MatchesFor(done, roots, matchOf, k) + (if ForIncident(roots, k)(c) then [matchOf(c)] else [])
  {
    FilterAppend(done, [c], ForIncident(roots, k));
    MapAppend(Filter(done, ForIncident(roots, k)), c, matchOf);
  }

  /** Only the incident's own matches count. */
  lemma {:induction false} AfterIsAttachAll(s: IncidentState, contacts: seq<Contact>, roots: Roots,
                                            matchOf: Contact -> Option<PredictiveTicket>, k: string)
    ensures After(s, contacts, roots, matchOf, k) == AttachAll(s, MatchesFor(contacts, roots, matchOf, k))
  {
    if contacts != [] {
      var n := |contacts| - 1;
      AfterIsAttachAll(s, contacts[..n], roots, matchOf, k);
      MatchesNext(contacts[..n], contacts[n], roots, matchOf, k);
      assert contacts == contacts[..n] + [contacts[n]];
      var matches := MatchesFor(contacts[..n], roots, matchOf, k);
      var all := MatchesFor(contacts, roots, matchOf, k);
      if ForIncident(roots, k)(contacts[n]) {
        assert all == matches + [matchOf(contacts[n])] && all[..|matches|] == matches;
      } else {
        assert all == matches;
      }
    }
  }

  /** Every incident stands as the contacts done so far have left it. */
  ghost predicate AllStand(incidents: Registry, before: map<string, IncidentState>, done: seq<Contact>, roots: Roots,
                           matchOf: Contact -> Option<PredictiveTicket>)
    reads incidents.Values
  {
    forall k :: k in incidents ==> k in before && incidents[k].State() == After(before[k], done, roots, matchOf, k)
  }

  /** What an incident shows its care tickets and reviews: its status and its closing time. */
  datatype Shown = Shown(status: IncidentStatus, closedAt: Option<int>)

  ghost predicate Shows(incidents: Registry, shown: map<string, Shown>)
    reads incidents.Values
  {
    forall k :: k in incidents ==>
      k in shown && shown[k] == Shown(incidents[k].status, incidents[k].closedAt)
  }

  /** The care ticket of a contact is attached to its root incident, names the ticket it matched and mirrors what
      the incident shows. */
  ghost predicate OpenedFor(t: CareTicket, c: Contact, roots: Roots, matchOf: Contact -> Option<PredictiveTicket>,
                            shown: map<string, Shown>)
    reads t
  {
    && c.caseId in roots && t.incidentId == roots[c.caseId]
    && t.matched == (if matchOf(c).Some? then Some(matchOf(c).value.id) else None)
    && t.incidentId in shown && t.closed == (shown[t.incidentId].status == Closed)
    && t.closedAt == shown[t.incidentId].closedAt
  }

  /** A contact's match goes into its root incident and into no other. */
  method FileMatch(c: Contact, roots: Roots, incidents: Registry, matchOf: Contact -> Option<PredictiveTicket>,
                   ghost before: map<string, IncidentState>, ghost done: seq<Contact>, ghost shown: map<string, Shown>)
    requires Filed(incidents) && c.caseId in roots && roots[c.caseId] in incidents
    requires AllStand(incidents, before, done, roots, matchOf) && Shows(incidents, shown)
    modifies incidents.Values
    ensures AllStand(incidents, before, done + [c], roots, matchOf) && Shows(incidents, shown)
  {
    incidents[roots[c.caseId]].Absorb(matchOf(c));
    forall k | k in incidents ensures incidents[k].State() == After(before[k], done + [c], roots, matchOf, k) {
      AfterNext(before[k], done, c, roots, matchOf, k);
    }
  }

  /** The review is of the ticket, for the same incident, with the status that the incident shows. */
  ghost predicate ReviewOf(v: Review, t: CareTicket, shown: map<string, Shown>)
    reads v
  {
    && v.ticketId == t.id && v.incidentId == t.incidentId
    && v.incidentId in shown && v.incidentStatus == shown[v.incidentId].status
  }

  /** For each contact, in order, its care ticket and that ticket's review. */
  ghost predicate RecordsFor(tickets: seq<CareTicket>, reviews: seq<Review>, contacts: seq<Contact>, roots: Roots,
                             matchOf: Contact -> Option<PredictiveTicket>, shown: map<string, Shown>)
    reads tickets, reviews
  {
    && |tickets| == |reviews| == |contacts|
    && forall i :: 0 <= i < |contacts| ==> OpenedFor(tickets[i], contacts[i], roots, matchOf, shown)
                                           && ReviewOf(reviews[i], tickets[i], shown)
  }

  /** The ticket and the review of one contact, for its root incident. */
  method OpenRecords(c: Contact, key: string, incidents: Registry, found: Option<PredictiveTicket>)
    returns (ticket: CareTicket, review: Review)
    requires key in incidents
    ensures fresh(ticket) && fresh(review)
    ensures ticket.id == "CARE-" + c.id == review.ticketId && ticket.incidentId == key == review.incidentId
    ensures ticket.matched == if found.Some? then Some(found.value.id) else None
    ensures ticket.closed == (incidents[key].status == Closed) && ticket.closedAt == incidents[key].closedAt
    ensures review.incidentStatus == incidents[key].status
  {
    var incident := incidents[key];
    ticket := new CareTicket("CARE-" + c.id, key, if found.Some? then Some(found.value.id) else None,
                             incident.status == Closed, incident.closedAt);
    review := new Review("CARE-" + c.id, key, incident.status);
  }

  lemma RecordsAppend(tickets: seq<CareTicket>, reviews: seq<Review>, contacts: seq<Contact>, t: CareTicket, v: Review,
                      c: Contact, roots: Roots, matchOf: Contact -> Option<PredictiveTicket>,
                      shown: map<string, Shown>)
    requires RecordsFor(tickets, reviews, contacts, roots, matchOf, shown)
    requires OpenedFor(t, c, roots, matchOf, shown) && ReviewOf(v, t, shown)
    ensures RecordsFor(tickets + [t], reviews + [v], contacts + [c], roots, matchOf, shown)
  {
  }

  /** One turn of the contact loop: the match goes into the root incident, and a ticket and its review are opened. */
  method TakeContact(c: Contact, roots: Roots, incidents: Registry, matchOf: Contact -> Option<PredictiveTicket>,
                     tickets: seq<CareTicket>, reviews: seq<Review>,
                     ghost before: map<string, IncidentState>, ghost done: seq<Contact>,
                     ghost shown: map<string, Shown>)
    returns (ticketsAfter: seq<CareTicket>, reviewsAfter: seq<Review>)
    requires Filed(incidents) && c.caseId in roots && roots[c.caseId] in incidents
    requires AllStand(incidents, before, done, roots, matchOf) && Shows(incidents, shown)
    requires RecordsFor(tickets, reviews, done, roots, matchOf, shown)
    modifies incidents.Values
    ensures AllStand(incidents, before, done + [c], roots, matchOf) && Shows(incidents, shown)
    ensures RecordsFor(ticketsAfter, reviewsAfter, done + [c], roots, matchOf, shown)
    ensures forall t :: t in ticketsAfter ==> t in tickets || fresh(t)
    ensures forall v :: v in reviewsAfter ==> v in reviews || fresh(v)
  {
    FileMatch(c, roots, incidents, matchOf, before, done, shown);
    var ticket, review := OpenRecords(c, roots[c.caseId], incidents, matchOf(c));
    assert RecordsFor(tickets, reviews, done, roots, matchOf, shown);
    RecordsAppend(tickets, reviews, done, ticket, review, c, roots, matchOf, shown);
    ticketsAfter, reviewsAfter := tickets + [ticket], reviews + [review];
  }

  /** The contact loop, for any way of matching a contact. */
  method TakeContacts(contacts: seq<Contact>, roots: Roots, incidents: Registry,
                      matchOf: Contact -> Option<PredictiveTicket>,
                      ghost before: map<string, IncidentState>, ghost shown: map<string, Shown>)
    returns (careTickets: seq<CareTicket>, reviews: seq<Review>)
    requires Filed(incidents)
    requires forall c :: c in contacts ==> c.caseId in roots && roots[c.caseId] in incidents
    requires AllStand(incidents, before, [], roots, matchOf) && Shows(incidents, shown)
    modifies incidents.Values
    ensures AllStand(incidents, before, contacts, roots, matchOf) && Shows(incidents, shown)
    ensures RecordsFor(careTickets, reviews, contacts, roots, matchOf, shown)
    ensures (forall t :: t in careTickets ==> fresh(t)) && (forall v :: v in reviews ==> fresh(v))
  {
    careTickets, reviews := [], [];
    for i := 0 to |contacts|
      invariant AllStand(incidents, before, contacts[..i], roots, matchOf) && Shows(incidents, shown)
      invariant RecordsFor(careTickets, reviews, contacts[..i], roots, matchOf, shown)
      invariant (forall t :: t in careTickets ==> fresh(t)) && (forall v :: v in reviews ==> fresh(v))
    {
      PrefixStep(contacts, i);
      careTickets, reviews := TakeContact(contacts[i], roots, incidents, matchOf, careTickets, reviews, before,
                                          contacts[..i], shown);
    }
    assert contacts[..|contacts|] == contacts;
  }

  /** `build_care_records`: every contact writes its match into its root incident and opens one care ticket with its
      review. */
  method BuildCareRecords(contacts: seq<Contact>, roots: Roots, incidents: Registry, tickets: seq<PredictiveTicket>)
    returns (careTickets: seq<CareTicket>, reviews: seq<Review>, ghost shown: map<string, Shown>)
    requires Filed(incidents)
    requires forall c :: c in contacts ==> c.caseId in roots && roots[c.caseId] in incidents
    modifies incidents.Values
    ensures forall k :: k in incidents ==>
              incidents[k].State()
              == AttachAll(old(incidents[k].State()), MatchesFor(contacts, roots, MatchOf(tickets), k))
    ensures old(Shows(incidents, shown)) && Shows(incidents, shown) && shown.Keys == incidents.Keys
    ensures RecordsFor(careTickets, reviews, contacts, roots, MatchOf(tickets), shown)
    ensures (forall t :: t in careTickets ==> fresh(t)) && (forall v :: v in reviews ==> fresh(v))
  {
    ghost var before := map k | k in incidents :: incidents[k].State();
    shown := map k | k in incidents :: Shown(incidents[k].status, incidents[k].closedAt);
    careTickets, reviews := TakeContacts(contacts, roots, incidents, MatchOf(tickets), before, shown);
    forall k | k in incidents
      ensures incidents[k].State() == AttachAll(before[k], MatchesFor(contacts, roots, MatchOf(tickets), k))
    {
      AfterIsAttachAll(before[k], contacts, roots, MatchOf(tickets), k);
    }
  }

  /** For any order of the same contacts, every incident ends with the same opening time and origin. */
  lemma ContactOrderDoesNotMatter(s: IncidentState, a: seq<Contact>, b: seq<Contact>, roots: Roots,
                                  matchOf: Contact -> Option<PredictiveTicket>, k: string)
    requires multiset(a) == multiset(b)
    ensures AttachAll(s, MatchesFor(a, roots, matchOf, k)).openedAt
            == AttachAll(s, MatchesFor(b, roots, matchOf, k)).openedAt
    ensures AttachAll(s, MatchesFor(a, roots, matchOf, k)).origin
            == AttachAll(s, MatchesFor(b, roots, matchOf, k)).origin
  {
    FilterPermutation(a, b, ForIncident(roots, k));
    MapPermutation(Filter(a, ForIncident(roots, k)), Filter(b, ForIncident(roots, k)), matchOf);
    ContactOrderIrrelevant(s, MatchesFor(a, roots, matchOf, k), MatchesFor(b, roots, matchOf, k));
  }

  // ------------------------------------------------------------------ the ticket id depends on contact order

  /** The ticket id that the contacts leave on incident `k`. */
  function TicketIdAfter(s: IncidentState, contacts: seq<Contact>, roots: Roots,
                         matchOf: Contact -> Option<PredictiveTicket>, k: string): Option<string>
  {
    AttachAll(s, MatchesFor(contacts, roots, matchOf, k)).ticketId
  }

  ghost predicate SameForEveryContactOrder(s: IncidentState, contacts: seq<Contact>, roots: Roots,
                                           matchOf: Contact -> Option<PredictiveTicket>, k: string)
  {
    forall other :: multiset(other) == multiset(contacts) ==>
      TicketIdAfter(s, other, roots, matchOf, k) == TicketIdAfter(s, contacts, roots, matchOf, k)
  }

  /** The contact belongs to the incident and matches a ticket. */
  ghost predicate Matched(c: Contact, roots: Roots, matchOf: Contact -> Option<PredictiveTicket>, k: string) {
    ForIncident(roots, k)(c) && matchOf(c).Some?
  }

  /** All contacts of the incident that match anything match tickets with one id. */
  ghost predicate ContactsShareTicket(contacts: seq<Contact>, roots: Roots,
                                      matchOf: Contact -> Option<PredictiveTicket>, k: string)
  {
    forall c, d :: c in contacts && d in contacts && Matched(c, roots, matchOf, k) && Matched(d, roots, matchOf, k) ==>
      matchOf(c).value.id == matchOf(d).value.id
  }

  lemma MatchesAreOfContacts(contacts: seq<Contact>, roots: Roots, matchOf: Contact -> Option<PredictiveTicket>,
                             k: string, m: Option<PredictiveTicket>) returns (c: Contact)
    requires m in MatchesFor(contacts, roots, matchOf, k)
    ensures c in contacts && ForIncident(roots, k)(c) && matchOf(c) == m
  {
    var own := Filter(contacts, ForIncident(roots, k));
    var i :| 0 <= i < |own| && Map(own, matchOf)[i] == m;
    c := own[i];
    assert c in own;
  }

  /** A contact taken last leaves the id of the ticket it matched. */
  lemma LastContactWins(s: IncidentState, contacts: seq<Contact>, c: Contact, roots: Roots,
                        matchOf: Contact -> Option<PredictiveTicket>, k: string)
    returns (moved: seq<Contact>)
    requires c in contacts && Matched(c, roots, matchOf, k)
    ensures multiset(moved) == multiset(contacts)
    ensures TicketIdAfter(s, moved, roots, matchOf, k) == Some(matchOf(c).value.id)
  {
    var i :| 0 <= i < |contacts| && contacts[i] == c;
    var rest := contacts[..i] + contacts[i + 1..];
    moved := rest + [c];
    RemoveAt(contacts, i);
    MatchesNext(rest, c, roots, matchOf, k);
    var matches := MatchesFor(rest, roots, matchOf, k);
    assert (matches + [matchOf(c)])[..|matches|] == matches;
  }

  /** For any contacts, the recorded ticket id is the same for every order of them exactly when the incident's matched
      contacts share one ticket. */
  lemma ContactTicketIdOrderFreeIff(s: IncidentState, contacts: seq<Contact>, roots: Roots,
                                    matchOf: Contact -> Option<PredictiveTicket>, k: string)
    ensures SameForEveryContactOrder(s, contacts, roots, matchOf, k)
            <==> ContactsShareTicket(contacts, roots, matchOf, k)
  {
    if ContactsShareTicket(contacts, roots, matchOf, k) {
      forall other | multiset(other) == multiset(contacts)
        ensures TicketIdAfter(s, other, roots, matchOf, k) == TicketIdAfter(s, contacts, roots, matchOf, k)
      {
        SharedTicketSameId(s, contacts, other, roots, matchOf, k);
      }
    }
    if SameForEveryContactOrder(s, contacts, roots, matchOf, k) {
      forall c, d | c in contacts && d in contacts && Matched(c, roots, matchOf, k) && Matched(d, roots, matchOf, k)
        ensures matchOf(c).value.id == matchOf(d).value.id
      {
        var cLast := LastContactWins(s, contacts, c, roots, matchOf, k);
        var dLast := LastContactWins(s, contacts, d, roots, matchOf, k);
      }
    }
  }

  lemma SharedTicketSameId(s: IncidentState, a: seq<Contact>, b: seq<Contact>, roots: Roots,
                           matchOf: Contact -> Option<PredictiveTicket>, k: string)
    requires multiset(a) == multiset(b) && ContactsShareTicket(a, roots, matchOf, k)
    ensures TicketIdAfter(s, a, roots, matchOf, k) == TicketIdAfter(s, b, roots, matchOf, k)
  {
    var own, other := Filter(a, ForIncident(roots, k)), Filter(b, ForIncident(roots, k));
    var matches := MatchesFor(a, roots, matchOf, k);
    FilterPermutation(a, b, ForIncident(roots, k));
    MapPermutation(own, other, matchOf);
    forall m, n | m in matches && n in matches && m.Some? && n.Some? ensures m.value.id == n.value.id {
      var c := MatchesAreOfContacts(a, roots, matchOf, k, m);
      var d := MatchesAreOfContacts(a, roots, matchOf, k, n);
    }
    OneTicketOneId(s, matches, MatchesFor(b, roots, matchOf, k));
  }

  /** Two contacts of one service and one incident: a reactive ticket is open by the first, a proactive one that ranks
      higher only by the second. Their order decides which ticket id the incident keeps. */
  lemma TwoContactsDisagree(s: IncidentState)
    returns (tickets: seq<PredictiveTicket>, c: Contact, d: Contact, roots: Roots)
    ensures c.serviceId == d.serviceId && ForIncident(roots, "INC")(c) && ForIncident(roots, "INC")(d)
    ensures TicketIdAfter(s, [c, d], roots, MatchOf(tickets), "INC") == Some("NEW")
    ensures TicketIdAfter(s, [d, c], roots, MatchOf(tickets), "INC") == Some("OLD")
  {
    var reactive := PredictiveTicket("OLD", "S", false, true, "08:00", 0);
    var proactive := PredictiveTicket("NEW", "S", true, true, "09:00", 10);
    tickets := [reactive, proactive];
    c, d := Contact("1", "CASE", "S", 5), Contact("2", "CASE", "S", 15);
    roots := map["CASE" := "INC"];
    MatchedAlone(tickets, c, reactive);
    MatchedBest(tickets, d, proactive, reactive);
    TwoTaken(s, c, d, roots, MatchOf(tickets), "INC");
    TwoTaken(s, d, c, roots, MatchOf(tickets), "INC");
  }

  lemma TwoTaken(s: IncidentState, c: Contact, d: Contact, roots: Roots,
                 matchOf: Contact -> Option<PredictiveTicket>, k: string)
    requires Matched(d, roots, matchOf, k)
    ensures TicketIdAfter(s, [c, d], roots, matchOf, k) == Some(matchOf(d).value.id)
  {
    MatchesNext([c], d, roots, matchOf, k);
    var matches := MatchesFor([c], roots, matchOf, k);
    assert [c] + [d] == [c, d];
    assert (matches + [matchOf(d)])[..|matches|] == matches;
  }

  /** The only eligible ticket is the match. */
  lemma MatchedAlone(tickets: seq<PredictiveTicket>, c: Contact, only: PredictiveTicket)
    requires only in tickets && only.serviceId == c.serviceId && only.openedAt <= c.at
    requires forall t :: t in tickets && t != only ==> t.openedAt > c.at
    ensures Match(tickets, c) == Some(only)
  {
    MatchIsBestRanked(tickets, c);
  }

  /** Of two tickets the one that ranks strictly higher is the match, if it is eligible. */
  lemma MatchedBest(tickets: seq<PredictiveTicket>, c: Contact, best: PredictiveTicket, other: PredictiveTicket)
    requires best in tickets && best.serviceId == c.serviceId && best.openedAt <= c.at
    requires !TicketLe(other, best) && forall t :: t in tickets ==> t == best || t == other
    ensures Match(tickets, c) == Some(best)
  {
    MatchIsBestRanked(tickets, c);
  }

  // ------------------------------------------------------------------ refresh_care_status

  /** The ticket shows its incident's status, and a closing time only when that status is CLOSED. */
  ghost predicate Mirrors(t: CareTicket, incidents: Registry)
    reads t, incidents.Values
  {
    t.incidentId in incidents ==>
      && t.closed == (incidents[t.incidentId].status == Closed)
      && t.closedAt == if incidents[t.incidentId].status == Closed then incidents[t.incidentId].closedAt else None
  }

  /** Rewrites one ticket from its incident; reports whether anything changed. */
  method RefreshTicket(t: CareTicket, incidents: Registry) returns (changed: bool)
    modifies t
    ensures changed <==> !old(Mirrors(t, incidents))
    ensures Mirrors(t, incidents)
    ensures !changed ==> t.closed == old(t.closed) && t.closedAt == old(t.closedAt)
  {
    if t.incidentId !in incidents { return false; }
    var incident := incidents[t.incidentId];
    var closed := incident.status == Closed;
    var closedAt := if closed then incident.closedAt else None;
    changed := t.closed != closed || t.closedAt != closedAt;
    if changed { t.closed, t.closedAt := closed, closedAt; }
  }

  method RefreshTickets(careTickets: seq<CareTicket>, incidents: Registry) returns (changed: set<string>)
    modifies careTickets
    ensures forall t :: t in careTickets ==> Mirrors(t, incidents)
    ensures changed == set t | t in careTickets && !old(Mirrors(t, incidents)) :: t.id
    ensures forall t :: t in careTickets && old(Mirrors(t, incidents)) ==>
              t.closed == old(t.closed) && t.closedAt == old(t.closedAt)
  {
    changed := {};
    for i := 0 to |careTickets|
      invariant forall j :: 0 <= j < i ==> Mirrors(careTickets[j], incidents)
      invariant forall t :: t in careTickets ==>
                  (t.closed == old(t.closed) && t.closedAt == old(t.closedAt))
                  || (!old(Mirrors(t, incidents)) && Mirrors(t, incidents))
      invariant forall t :: t in careTickets && t !in careTickets[..i] ==>
                  t.closed == old(t.closed) && t.closedAt == old(t.closedAt)
      invariant changed == set t | t in careTickets[..i] && !old(Mirrors(t, incidents)) :: t.id
    {
      var t := careTickets[i];
      var moved := RefreshTicket(t, incidents);
      assert careTickets[..i + 1] == careTickets[..i] + [t];
      if moved { changed := changed + {t.id}; }
    }
    assert careTickets[..|careTickets|] == careTickets;
  }

  /** The review follows a ticket that changed, so its incident is looked up. */
  predicate LooksUp(r: Review, changedTickets: set<string>) { r.ticketId in changedTickets }

  /** Every review that is looked up names a known incident. */
  ghost predicate AllKnown(reviews: seq<Review>, changedTickets: set<string>, incidents: Registry) {
    forall r :: r in reviews && LooksUp(r, changedTickets) ==> r.incidentId in incidents
  }

  /** The reviews before place `n` that are looked up all name known incidents and show their status. */
  ghost predicate FollowUpTo(reviews: seq<Review>, n: nat, changedTickets: set<string>, incidents: Registry)
    requires n <= |reviews|
    reads reviews, incidents.Values
  {
    forall j :: 0 <= j < n && LooksUp(reviews[j], changedTickets) ==>
      reviews[j].incidentId in incidents && reviews[j].incidentStatus == incidents[reviews[j].incidentId].status
  }

  /** The place where the reviews run into an unknown incident: all of them when they do not. */
  ghost predicate StopsAt(reviews: seq<Review>, n: nat, changedTickets: set<string>, incidents: Registry) {
    && n <= |reviews|
    && (forall j :: 0 <= j < n && LooksUp(reviews[j], changedTickets) ==> reviews[j].incidentId in incidents)
    && (n < |reviews| ==> LooksUp(reviews[n], changedTickets) && reviews[n].incidentId !in incidents)
  }

  /** Reviews of changed tickets take their incident's status, up to the first unknown incident, which raises. */
  method RefreshReviews(reviews: seq<Review>, changedTickets: set<string>, incidents: Registry)
    returns (r: Result<set<string>>, ghost n: nat)
    modifies reviews
    ensures r.Ok? <==> AllKnown(reviews, changedTickets, incidents)
    ensures r == if n < |reviews| then Err(KeyError)
                 else Ok(set v | v in reviews && LooksUp(v, changedTickets) :: v.ticketId)
    ensures StopsAt(reviews, n, changedTickets, incidents) && FollowUpTo(reviews, n, changedTickets, incidents)
    ensures forall v :: v in reviews && (v !in reviews[..n] || !LooksUp(v, changedTickets)) ==>
              v.incidentStatus == old(v.incidentStatus)
  {
    var changed := {};
    for i := 0 to |reviews|
      invariant FollowUpTo(reviews, i, changedTickets, incidents)
      invariant forall v :: v in reviews && (v !in reviews[..i] || !LooksUp(v, changedTickets)) ==>
                  v.incidentStatus == old(v.incidentStatus)
      invariant changed == set v | v in reviews[..i] && LooksUp(v, changedTickets) :: v.ticketId
    {
      var review := reviews[i];
      assert reviews[..i + 1] == reviews[..i] + [review];
      if review.ticketId in changedTickets {
        if review.incidentId !in incidents {
          assert review in reviews;
          return Err(KeyError), i;
        }
        review.incidentStatus := incidents[review.incidentId].status;
        changed := changed + {review.ticketId};
      }
    }
    assert reviews[..|reviews|] == reviews;
    return Ok(changed), |reviews|;
  }

  lemma NothingLooksUp(reviews: seq<Review>)
    ensures (set v | v in reviews && LooksUp(v, {}) :: v.ticketId) == {}
  {
  }

  datatype Changed = Changed(tickets: set<string>, reviews: set<string>)

  /** The review shows the status of its incident. */
  ghost predicate UpToDate(v: Review, incidents: Registry)
    reads v, incidents.Values
  {
    v.incidentId in incidents && v.incidentStatus == incidents[v.incidentId].status
  }

  /** `refresh_care_status`: tickets mirror their incidents; reviews follow the tickets that changed. */
  method RefreshCareStatus(careTickets: seq<CareTicket>, reviews: seq<Review>, incidents: Registry)
    returns (r: Result<Changed>, ghost stale: set<string>, ghost n: nat)
    modifies careTickets, reviews
    ensures stale == set t | t in careTickets && !old(Mirrors(t, incidents)) :: t.id
    ensures r == if AllKnown(reviews, stale, incidents)
                 then Ok(Changed(stale, set v | v in reviews && LooksUp(v, stale) :: v.ticketId))
                 else Err(KeyError)
    ensures forall t :: t in careTickets ==> Mirrors(t, incidents)
    ensures forall t :: t in careTickets && old(Mirrors(t, incidents)) ==>
              t.closed == old(t.closed) && t.closedAt == old(t.closedAt)
    ensures StopsAt(reviews, n, stale, incidents) && FollowUpTo(reviews, n, stale, incidents)
    ensures forall v :: v in reviews && (v !in reviews[..n] || !LooksUp(v, stale)) ==>
              v.incidentStatus == old(v.incidentStatus)
    ensures r.Ok? ==> forall v :: v in reviews && v.incidentId in incidents ==>
              (UpToDate(v, incidents) <==> old(UpToDate(v, incidents)) || LooksUp(v, stale))
    ensures forall t :: t in careTickets && t.incidentId in incidents ==>
              t.closed == (incidents[t.incidentId].status == Closed)
              && t.closedAt == if t.closed then incidents[t.incidentId].closedAt else None
    ensures stale == set t | t in careTickets && t.incidentId in incidents
                             && old(t.closed != (incidents[t.incidentId].status == Closed)
                                    || t.closedAt != if t.closed then incidents[t.incidentId].closedAt else None)
                       :: t.id
    ensures r.Err? <==> exists v :: v in reviews && v.ticketId in stale && v.incidentId !in incidents
    ensures r.Ok? ==> forall v :: v in reviews && v.ticketId in stale ==>
              v.incidentId in incidents && v.incidentStatus == incidents[v.incidentId].status
  {
    var changedTickets := RefreshTickets(careTickets, incidents);
    stale, n := changedTickets, |reviews|;
    if changedTickets == {} {
      NothingLooksUp(reviews);
      return Ok(Changed({}, {})), stale, n;
    }
    var followed;
    followed, n := RefreshReviews(reviews, changedTickets, incidents);
    r := if followed.Err? then Err(followed.error) else Ok(Changed(changedTickets, followed.value));
  }

  /** A second refresh over the same incidents always succeeds, finds nothing to change and leaves everything as the
      first left it, even when the first raised: the reviews that it did not reach stay behind. */
  method RefreshTwice(careTickets: seq<CareTicket>, reviews: seq<Review>, incidents: Registry)
    returns (first: Result<Changed>, second: Result<Changed>, ghost stale: set<string>, ghost n: nat)
    modifies careTickets, reviews
    ensures second == Ok(Changed({}, {}))
    ensures stale == set t | t in careTickets && !old(Mirrors(t, incidents)) :: t.id
    ensures first == if AllKnown(reviews, stale, incidents)
                     then Ok(Changed(stale, set v | v in reviews && LooksUp(v, stale) :: v.ticketId))
                     else Err(KeyError)
    ensures forall t :: t in careTickets ==> Mirrors(t, incidents)
    ensures forall t :: t in careTickets && old(Mirrors(t, incidents)) ==>
              t.closed == old(t.closed) && t.closedAt == old(t.closedAt)
    ensures StopsAt(reviews, n, stale, incidents) && FollowUpTo(reviews, n, stale, incidents)
    ensures forall v :: v in reviews && (v !in reviews[..n] || !LooksUp(v, stale)) ==>
              v.incidentStatus == old(v.incidentStatus)
  {
    ghost var none, all;
    first, stale, n := RefreshCareStatus(careTickets, reviews, incidents);
    second, none, all := RefreshCareStatus(careTickets, reviews, incidents);
    assert none == {};
    NothingLooksUp(reviews);
  }

  /** Two stale tickets: a review of the first names an unknown incident, so refreshing raises before it reaches the
      review of the second, and refreshing again does not reach it either. */
  method MissReview(t: CareTicket, u: CareTicket, lost: Review, missed: Review, incidents: Registry)
    returns (first: Result<Changed>, second: Result<Changed>)
    requires t.incidentId in incidents && u.incidentId in incidents && !Mirrors(t, incidents) && !Mirrors(u, incidents)
    requires lost.ticketId == t.id && lost.incidentId !in incidents && missed.ticketId == u.id && lost != missed
    modifies t, u, lost, missed
    ensures first == Err(KeyError) && second == Ok(Changed({}, {}))
    ensures Mirrors(t, incidents) && Mirrors(u, incidents)
    ensures missed.incidentStatus == old(missed.incidentStatus)
  {
    ghost var stale, n;
    assert [t, u][0] == t && [t, u][1] == u && [lost, missed][0] == lost && [lost, missed][1] == missed;
    first, second, stale, n := RefreshTwice([t, u], [lost, missed], incidents);
    assert t.id in stale;
  }

  /** Once the second incident alone is reopened, only its own review is looked up, and is brought up to date. */
  method ReopenAndRefresh(t: CareTicket, u: CareTicket, lost: Review, missed: Review, incidents: Registry,
                          status: IncidentStatus)
    returns (r: Result<Changed>)
    requires t.incidentId in incidents && u.incidentId in incidents && Mirrors(t, incidents) && Mirrors(u, incidents)
    requires incidents[t.incidentId] != incidents[u.incidentId] && t.id != u.id && t != u
    requires incidents[u.incidentId].status == Closed && status != Closed
    requires lost.ticketId == t.id && lost.incidentId !in incidents && lost != missed
    requires missed.ticketId == u.id && missed.incidentId == u.incidentId
    modifies t, u, lost, missed, incidents[u.incidentId]
    ensures r.Ok? && incidents[u.incidentId].status == missed.incidentStatus == status
  {
    ghost var stale, n;
    incidents[u.incidentId].status := status;
    assert Mirrors(t, incidents) && !Mirrors(u, incidents);
    assert [t, u][0] == t && [t, u][1] == u && [lost, missed][0] == lost && [lost, missed][1] == missed;
    r, stale, n := RefreshCareStatus([t, u], [lost, missed], incidents);
    assert stale == {u.id};
  }

  /** Such a case: a refresh that raises, a second one that does not help, and a third after reopening that does. */
  method MissedReview() returns (first: Result<Changed>, second: Result<Changed>, third: Result<Changed>)
    ensures first == Err(KeyError) && second == Ok(Changed({}, {})) && third.Ok?
  {
    var a := new Incident("A", None, 0, Closed, None);
    var b := new Incident("B", None, 0, Closed, None);
    var t := new CareTicket("T", "A", None, false, None);
    var u := new CareTicket("U", "B", None, false, None);
    var lost := new Review("T", "X", Closed);
    var missed := new Review("U", "B", OtherStatus("OPEN"));
    var incidents := map["A" := a, "B" := b];
    first, second := MissReview(t, u, lost, missed, incidents);
    third := ReopenAndRefresh(t, u, lost, missed, incidents, OtherStatus("REOPENED"));
  }

  /** Built records can always be refreshed: each of their reviews names a registered incident. */
  lemma BuiltReviewsAreKnown(tickets: seq<CareTicket>, reviews: seq<Review>, contacts: seq<Contact>, roots: Roots,
                             matchOf: Contact -> Option<PredictiveTicket>, shown: map<string, Shown>,
                             incidents: Registry, changedTickets: set<string>)
    requires RecordsFor(tickets, reviews, contacts, roots, matchOf, shown) && shown.Keys == incidents.Keys
    ensures AllKnown(reviews, changedTickets, incidents)
  {
    forall v | v in reviews && LooksUp(v, changedTickets) ensures v.incidentId in incidents {
      var i :| 0 <= i < |reviews| && reviews[i] == v;
      assert ReviewOf(reviews[i], tickets[i], shown);
    }
  }
}
