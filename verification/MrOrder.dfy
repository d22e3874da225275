/** The sequence check and the open report of maintenance requests, in terms of the rows, their times and statuses. */
module MrOrder {
  import opened Ordering
  import opened EvidenceRows
  import opened MrLifecycle
  import opened EvidenceAcceptance

  /** Row `a` happened before row `b`: by their times as written, or as read when the times are the same. */
  ghost predicate Earlier(rows: seq<Row>, a: nat, b: nat)
    requires a < |rows| && b < |rows|
  {
    if rows[a].eventAt == rows[b].eventAt then a < b else StrLe(rows[a].eventAt, rows[b].eventAt)
  }

  /** The first status is further along than the second. A request goes from CREATED through ACCEPTED, ASSIGNED and
      REPAIRED to CLOSED or REJECTED; of other statuses nothing is known. */
  predicate Ahead(s: MrStatus, t: MrStatus) {
    match t
    case CREATED => s in {ACCEPTED, ASSIGNED, REPAIRED, CLOSED, REJECTED}
    case ACCEPTED => s in {ASSIGNED, REPAIRED, CLOSED, REJECTED}
    case ASSIGNED => s in {REPAIRED, CLOSED, REJECTED}
    case REPAIRED => s in {CLOSED, REJECTED}
    case _ => false
  }

  lemma AheadIsHigher(a: Row, b: Row)
    ensures Ahead(a.status, b.status) <==> Known(a) && Known(b) && Level(a) > Level(b)
  {
  }

  // ------------------------------------------------------------------ which of two rows comes first

  function Pair(x: Row, y: Row): Row -> bool { (r: Row) => r == x || r == y }

  /** Of the two rows, `x` stands before `y`. */
  ghost predicate Before(s: seq<Row>, x: Row, y: Row) { Filter(s, Pair(x, y)) == [x, y] }

  lemma SplitAtTwo(s: seq<Row>, i: nat, k: nat)
    requires i < k < |s|
    ensures s == s[..i] + [s[i]] + s[i + 1..k] + [s[k]] + s[k + 1..]
  {
  }

  lemma FilterOfFive(a: seq<Row>, x: Row, b: seq<Row>, y: Row, c: seq<Row>, p: Row -> bool)
    requires Filter(a, p) == Filter(b, p) == Filter(c, p) == [] && p(x) && p(y)
    ensures Filter(a + [x] + b + [y] + c, p) == [x, y]
  {
    FilterAppend(a + [x] + b + [y], c, p);
    FilterAppend(a + [x] + b, [y], p);
    FilterAppend(a + [x], b, p);
    FilterAppend(a, [x], p);
  }

  lemma PlacesAreBefore(s: seq<Row>, i: nat, k: nat)
    requires DistinctBy(s, Key) && i < k < |s|
    ensures Before(s, s[i], s[k])
  {
    var p := Pair(s[i], s[k]);
    forall n | 0 <= n < |s| && n != i && n != k ensures !p(s[n]) {
      assert Key(s[n]) != Key(s[i]) && Key(s[n]) != Key(s[k]);
    }
    FilterNone(s[..i], p);
    FilterNone(s[i + 1..k], p);
    FilterNone(s[k + 1..], p);
    SplitAtTwo(s, i, k);
    FilterOfFive(s[..i], s[i], s[i + 1..k], s[k], s[k + 1..], p);
  }

  lemma BeforeHasPlaces(s: seq<Row>, x: Row, y: Row) returns (i: nat, k: nat)
    requires Before(s, x, y)
    ensures i < k < |s| && s[i] == x && s[k] == y
  {
    i, k := FilterPositions(s, Pair(x, y), 0, 1);
  }

  lemma SortedOne(y: Row)
    ensures Sorted([y], EventLe) == [y]
  {
    assert [y][1..] == [];
  }

  lemma SortedPair(x: Row, y: Row)
    ensures Sorted([x, y], EventLe) == if EventLe(x, y) then [x, y] else [y, x]
  {
    assert [x, y][1..] == [y];
    SortedOne(y);
  }

  lemma PairTurned(x: Row, y: Row)
    ensures forall r :: Pair(x, y)(r) == Pair(y, x)(r)
  {
  }

  /** Sorting by time puts two rows in the order in which they happened. */
  lemma SortedInOrder(rows: seq<Row>, a: nat, b: nat)
    requires DistinctBy(rows, Key) && a < |rows| && b < |rows| && a != b
    ensures Before(Sorted(rows, EventLe), rows[a], rows[b]) <==> Earlier(rows, a, b)
  {
    var i, k := if a < b then a else b, if a < b then b else a;
    var x, y, sorted := rows[i], rows[k], Sorted(rows, EventLe);
    EventLeOrder();
    StrLeTotal(x.eventAt, y.eventAt);
    PlacesAreBefore(rows, i, k);
    SortedFilter(rows, EventLe, Pair(x, y));
    SortedPair(x, y);
    PairTurned(x, y);
    FilterCongruent(sorted, Pair(x, y), Pair(y, x));
    assert Key(x) != Key(y);
  }

  /** The events of a request keep that order. */
  lemma EventsInOrder(rows: seq<Row>, mr: string, a: nat, b: nat)
    requires DistinctBy(rows, Key) && a < |rows| && b < |rows| && a != b && rows[a].mrId == rows[b].mrId == mr
    ensures Before(EventsOf(rows, mr), rows[a], rows[b]) <==> Earlier(rows, a, b)
  {
    var x, y, sorted := rows[a], rows[b], Sorted(rows, EventLe);
    EventsWithinAll(rows, mr);
    FilterCommute(sorted, OfMr(mr), Pair(x, y));
    FilterAll(Filter(sorted, Pair(x, y)), OfMr(mr));
    SortedInOrder(rows, a, b);
  }

  lemma PlaceOf(rows: seq<Row>, mr: string, x: Row) returns (a: nat)
    requires x in EventsOf(rows, mr)
    ensures a < |rows| && rows[a] == x && x.mrId == mr
  {
    EventsMembers(rows, mr);
    a :| a < |rows| && rows[a] == x;
  }

  // ------------------------------------------------------------------ the sequence check

  /** Some row of the same request happened earlier and is further along. */
  ghost predicate TakesBack(rows: seq<Row>, b: nat)
    requires b < |rows|
  {
    exists a: nat :: a < |rows| && rows[a].mrId == rows[b].mrId && a != b && Earlier(rows, a, b)
                     && Ahead(rows[a].status, rows[b].status)
  }

  /** The check puts an event in error exactly when an earlier event of its request is further along. */
  lemma OutOfOrderIff(rows: seq<Row>, b: nat)
    requires DistinctBy(rows, Key) && b < |rows|
    ensures HasError(rows[b].key, SequenceIssues(rows)) <==> TakesBack(rows, b)
  {
    var y, mr := rows[b], rows[b].mrId;
    var events := EventsOf(rows, mr);
    SequenceErrorIff(rows, y);
    EventsDistinct(rows, mr);
    EventsMembers(rows, mr);
    if FallsBack(rows, y) {
      var k :| 0 <= k < |events| && events[k] == y && Regresses(events, k);
      var i :| 0 <= i < k && Known(events[i]) && Level(events[i]) > Level(events[k]);
      var a := PlaceOf(rows, mr, events[i]);
      AheadIsHigher(events[i], y);
      PlacesAreBefore(events, i, k);
      EventsInOrder(rows, mr, a, b);
    }
    if a: nat :| a < |rows| && rows[a].mrId == mr && a != b && Earlier(rows, a, b) && Ahead(rows[a].status, y.status) {
      EventsInOrder(rows, mr, a, b);
      var i, k := BeforeHasPlaces(events, rows[a], y);
      AheadIsHigher(rows[a], y);
      assert Regresses(events, k);
    }
  }

  // ------------------------------------------------------------------ the open report

  ghost predicate LatestAt(rows: seq<Row>, mr: string, b: nat) {
    b < |rows| && rows[b].mrId == mr
    && forall a: nat :: a < |rows| && rows[a].mrId == mr && a != b ==> Earlier(rows, a, b)
  }

  lemma EventPlaces(rows: seq<Row>, mr: string, i: nat, k: nat, a: nat, b: nat)
    requires DistinctBy(rows, Key) && a < |rows| && b < |rows| && a != b && rows[a].mrId == rows[b].mrId == mr
    requires i < k < |EventsOf(rows, mr)| && EventsOf(rows, mr)[i] == rows[a] && EventsOf(rows, mr)[k] == rows[b]
    ensures Earlier(rows, a, b)
  {
    EventsDistinct(rows, mr);
    PlacesAreBefore(EventsOf(rows, mr), i, k);
    EventsInOrder(rows, mr, a, b);
  }

  lemma LastComesAfter(rows: seq<Row>, mr: string, a: nat, b: nat)
    requires DistinctBy(rows, Key) && a < |rows| && b < |rows| && a != b && rows[a].mrId == rows[b].mrId == mr
    requires EventsOf(rows, mr) != [] && rows[b] == Last(EventsOf(rows, mr))
    ensures Earlier(rows, a, b)
  {
    var n := |EventsOf(rows, mr)| - 1;
    assert Key(rows[a]) != Key(rows[b]);
    var i := EventPlace(rows, rows[a]);
    EventPlaces(rows, mr, i, n, a, b);
  }

  lemma LatestIsLast(rows: seq<Row>, mr: string) returns (b: nat)
    requires DistinctBy(rows, Key) && EventsOf(rows, mr) != []
    ensures LatestAt(rows, mr, b) && rows[b] == Last(EventsOf(rows, mr))
  {
    b := PlaceOf(rows, mr, Last(EventsOf(rows, mr)));
    forall a: nat | a < |rows| && rows[a].mrId == mr && a != b ensures Earlier(rows, a, b) {
      LastComesAfter(rows, mr, a, b);
    }
  }

  lemma LatestIsOne(rows: seq<Row>, mr: string, a: nat, b: nat)
    requires LatestAt(rows, mr, a) && LatestAt(rows, mr, b)
    ensures a == b
  {
    StrLeTotal(rows[a].eventAt, rows[b].eventAt);
  }

  /** A request is reported open exactly when its latest event is neither CLOSED nor REJECTED nor CANCELLED. */
  lemma OpenIff(rows: seq<Row>, mr: string)
    requires DistinctBy(rows, Key)
    ensures ReportedOpen(rows, mr) <==>
              exists b: nat :: LatestAt(rows, mr, b) && rows[b].status !in {CLOSED, REJECTED, CANCELLED}
  {
    if EventsOf(rows, mr) != [] { var b := LatestIsLast(rows, mr); }
    if c: nat :| LatestAt(rows, mr, c) && rows[c].status !in {CLOSED, REJECTED, CANCELLED} {
      EventsMembers(rows, mr);
      assert rows[c] in EventsOf(rows, mr);
      var b := LatestIsLast(rows, mr);
      LatestIsOne(rows, mr, b, c);
    }
  }
}
