/** Maintenance-request event sequences: the order check and the open/closed report. */
module MrLifecycle {
  import opened Common
  import opened Ordering
  import opened EvidenceRows

  /** The position of a status in the lifecycle; None when the status is not known. */
  function Rank(status: MrStatus): Option<nat> {
    match status
    case CREATED => Some(0)
    case ACCEPTED => Some(1)
    case ASSIGNED => Some(2)
    case REPAIRED => Some(3)
    case CLOSED => Some(4)
    case REJECTED => Some(4)
    case _ => None
  }

  predicate Known(r: Row) { Rank(r.status).Some? }

  function Level(r: Row): int { if Known(r) then Rank(r.status).value else -1 }

  predicate EventLe(a: Row, b: Row) { StrLe(a.eventAt, b.eventAt) }

  lemma EventLeOrder()
    ensures TotalPreorder(EventLe)
  {
    forall a, b ensures EventLe(a, b) || EventLe(b, a) { StrLeTotal(a.eventAt, b.eventAt); }
    forall a, b, c | EventLe(a, b) && EventLe(b, c) ensures EventLe(a, c) {
      StrLeTransitive(a.eventAt, b.eventAt, c.eventAt);
    }
  }

  function OfMr(mr: string): Row -> bool { (r: Row) => r.mrId == mr }

  /** The events of one MR in event order. */
  function EventsOf(rows: seq<Row>, mr: string): seq<Row> { Sorted(Filter(rows, OfMr(mr)), EventLe) }

  // ------------------------------------------------------------------ the sequence check

  /** The highest lifecycle level among the known events. */
  function Peak(events: seq<Row>): int {
    if events == [] then -1 else Max(Peak(events[..|events| - 1]), Level(events[|events| - 1]))
  }

  function Verdict(r: Row, peak: int): seq<Issue> {
    if !Known(r) then [Issue(StatusUnknown, WARNING, Some(r.key))]
    else if Level(r) < peak then [Issue(LifecycleOutOfOrder, ERROR, Some(r.key))]
    else []
  }

  function ScanIssues(events: seq<Row>): seq<Issue> {
    if events == [] then []
    else
      var before, r := events[..|events| - 1], events[|events| - 1];
      ScanIssues(before) + Verdict(r, Peak(before))
  }

  function MrIds(rows: seq<Row>): (ids: seq<string>)
    ensures forall r :: r in rows ==> r.mrId in ids
  {
    if rows == [] then []
    else
      var ids, id := MrIds(rows[..|rows| - 1]), rows[|rows| - 1].mrId;
      assert rows == rows[..|rows| - 1] + [rows[|rows| - 1]];
      if id in ids then ids else ids + [id]
  }

  function IssuesFor(rows: seq<Row>, ids: seq<string>): seq<Issue> {
    if ids == [] then []
    else IssuesFor(rows, ids[..|ids| - 1]) + ScanIssues(EventsOf(rows, ids[|ids| - 1]))
  }

  function SequenceIssues(rows: seq<Row>): seq<Issue> { IssuesFor(rows, MrIds(rows)) }

  /** `byMr` groups exactly the given rows, each group in input order. */
  ghost predicate Grouped(byMr: map<string, seq<Row>>, rows: seq<Row>) {
    && (forall r :: r in rows ==> r.mrId in byMr)
    && (forall mr :: mr in byMr ==> byMr[mr] == Filter(rows, OfMr(mr)))
  }

  function AddToGroup(byMr: map<string, seq<Row>>, row: Row): map<string, seq<Row>> {
    byMr[row.mrId := (if row.mrId in byMr then byMr[row.mrId] else []) + [row]]
  }

  lemma GroupGrows(byMr: map<string, seq<Row>>, rows: seq<Row>, row: Row)
    requires Grouped(byMr, rows)
    ensures Grouped(AddToGroup(byMr, row), rows + [row])
  {
    var t := AddToGroup(byMr, row);
    forall mr | mr in t ensures t[mr] == Filter(rows + [row], OfMr(mr)) {
      FilterAppend(rows, [row], OfMr(mr));
      if mr !in byMr { FilterNone(rows, OfMr(mr)); }
    }
  }

  lemma NextMrId(rows: seq<Row>, i: nat)
    requires i < |rows|
    ensures rows[..i + 1] == rows[..i] + [rows[i]]
    ensures MrIds(rows[..i + 1])
            == if rows[i].mrId in MrIds(rows[..i]) then MrIds(rows[..i]) else MrIds(rows[..i]) + [rows[i].mrId]
  {
    assert rows[..i + 1][..i] == rows[..i];
  }

  /** Groups the rows by MR, remembering the order in which the MRs first appear. */
  method GroupByMr(rows: seq<Row>) returns (ids: seq<string>, byMr: map<string, seq<Row>>)
    ensures ids == MrIds(rows) && Grouped(byMr, rows)
    ensures forall mr :: mr in byMr <==> mr in ids
  {
    ids, byMr := [], map[];
    for i := 0 to |rows|
      invariant ids == MrIds(rows[..i]) && Grouped(byMr, rows[..i])
      invariant forall mr :: mr in byMr <==> mr in ids
    {
      var row := rows[i];
      NextMrId(rows, i);
      GroupGrows(byMr, rows[..i], row);
      if row.mrId !in byMr { ids := ids + [row.mrId]; }
      byMr := AddToGroup(byMr, row);
    }
    assert rows[..|rows|] == rows;
  }

  lemma NextGroup(rows: seq<Row>, ids: seq<string>, m: nat)
    requires m < |ids|
    ensures IssuesFor(rows, ids[..m + 1]) == IssuesFor(rows, ids[..m]) + ScanIssues(EventsOf(rows, ids[m]))
  {
    assert ids[..m + 1][..m] == ids[..m];
  }

  /** `_jtrack_sequence_checks`: one pass per MR, remembering the highest level seen. */
  method SequenceChecks(rows: seq<Row>) returns (issues: seq<Issue>)
    ensures issues == SequenceIssues(rows)
  {
    var ids, byMr := GroupByMr(rows);
    issues := [];
    for m := 0 to |ids|
      invariant issues == IssuesFor(rows, ids[..m])
    {
      assert ids[m] in byMr;
      var found := ScanEvents(Sorted(byMr[ids[m]], EventLe));
      NextGroup(rows, ids, m);
      issues := issues + found;
    }
    assert ids[..|ids|] == ids;
  }

  method ScanEvents(ordered: seq<Row>) returns (issues: seq<Issue>)
    ensures issues == ScanIssues(ordered)
  {
    issues := [];
    var lastRank := -1;
    for i := 0 to |ordered|
      invariant issues == ScanIssues(ordered[..i])
      invariant lastRank == Peak(ordered[..i]) >= -1
    {
      var row := ordered[i];
      assert ordered[..i + 1][..i] == ordered[..i];
      match Rank(row.status) {
        case None =>
          issues := issues + [Issue(StatusUnknown, WARNING, Some(row.key))];
        case Some(rank) =>
          if rank < lastRank {
            issues := issues + [Issue(LifecycleOutOfOrder, ERROR, Some(row.key))];
          }
          lastRank := Max(lastRank, rank);
      }
    }
    assert ordered[..|ordered|] == ordered;
  }

  // ------------------------------------------------------------------ what the check means

  /** An earlier event of the sequence stands at a strictly higher level than event `i`. */
  ghost predicate Regresses(events: seq<Row>, i: nat)
    requires i < |events|
  {
    Known(events[i]) && exists j :: 0 <= j < i && Known(events[j]) && Level(events[j]) > Level(events[i])
  }

  lemma {:induction false} PeakIsMaximum(events: seq<Row>, bound: int)
    requires bound >= -1
    ensures Peak(events) > bound <==> exists j :: 0 <= j < |events| && Level(events[j]) > bound
  {
    if events != [] {
      var before := events[..|events| - 1];
      PeakIsMaximum(before, bound);
      if j :| 0 <= j < |events| && Level(events[j]) > bound {
        if j < |before| { assert Level(before[j]) > bound; }
      }
    }
  }

  lemma RegressIffBelowPeak(events: seq<Row>, i: nat)
    requires i < |events| && Known(events[i])
    ensures Regresses(events, i) <==> Level(events[i]) < Peak(events[..i])
  {
    PeakIsMaximum(events[..i], Level(events[i]));
    if Regresses(events, i) {
      var j :| 0 <= j < i && Known(events[j]) && Level(events[j]) > Level(events[i]);
      assert events[..i][j] == events[j];
    }
    if j :| 0 <= j < i && Level(events[..i][j]) > Level(events[i]) {
      assert events[..i][j] == events[j];
    }
  }

  /** The last event of a sequence is flagged exactly when it stands below the peak of those before it. */
  lemma LastFlagged(events: seq<Row>, n: nat)
    requires |events| == n + 1 && forall r :: r in events[..n] ==> r.key != events[n].key
    ensures HasError(events[n].key, ScanIssues(events)) <==> Regresses(events, n)
  {
    var before, last := events[..n], events[n];
    ErrorsAdd(last.key, ScanIssues(before), Verdict(last, Peak(before)));
    ScanNamesItsEvents(before, last.key);
    VerdictErrors(last, Peak(before));
    if Known(last) { RegressIffBelowPeak(events, n); }
  }

  /** The last event's verdict concerns no earlier event. */
  lemma EarlierFlagged(events: seq<Row>, n: nat, i: nat)
    requires |events| == n + 1 && i < n && events[i].key != events[n].key
    ensures HasError(events[i].key, ScanIssues(events)) <==> HasError(events[i].key, ScanIssues(events[..n]))
  {
    ErrorsAdd(events[i].key, ScanIssues(events[..n]), Verdict(events[n], Peak(events[..n])));
    VerdictErrors(events[n], Peak(events[..n]));
  }

  /** An event is flagged out of order exactly when an earlier event of its MR stands strictly higher. */
  lemma {:induction false} ScanFlagsRegressions(events: seq<Row>, i: nat)
    requires DistinctBy(events, Key) && i < |events|
    ensures HasError(events[i].key, ScanIssues(events)) <==> Regresses(events, i)
  {
    var n := |events| - 1;
    DistinctPrefix(events, n, Key);
    if i < n {
      assert events[..n][i] in events[..n];
      EarlierFlagged(events, n, i);
      ScanFlagsRegressions(events[..n], i);
      RegressesInPrefix(events, n, i);
    } else {
      LastFlagged(events, n);
    }
  }

  lemma VerdictErrors(r: Row, peak: int)
    ensures HasError(r.key, Verdict(r, peak)) <==> Known(r) && Level(r) < peak
    ensures forall k :: k != r.key ==> !HasError(k, Verdict(r, peak))
  {
    if Known(r) && Level(r) < peak {
      assert Verdict(r, peak)[0].severity == ERROR;
    }
  }

  lemma RegressesInPrefix(events: seq<Row>, n: nat, i: nat)
    requires i < n <= |events|
    ensures Regresses(events[..n], i) <==> Regresses(events, i)
  {
    if Regresses(events, i) {
      var j :| 0 <= j < i && Known(events[j]) && Level(events[j]) > Level(events[i]);
      assert events[..n][j] == events[j];
    }
  }

  lemma {:induction false} ScanNamesItsEvents(events: seq<Row>, key: RowKey)
    requires forall r :: r in events ==> r.key != key
    ensures !HasError(key, ScanIssues(events))
  {
    if events != [] {
      var before, last := events[..|events| - 1], events[|events| - 1];
      assert last in events;
      ScanNamesItsEvents(before, key);
      ErrorsAdd(key, ScanIssues(before), Verdict(last, Peak(before)));
      VerdictErrors(last, Peak(before));
    }
  }

  // ------------------------------------------------------------------ across all MRs

  lemma {:induction false} IssuesForOneMr(rows: seq<Row>, ids: seq<string>, r: Row)
    requires DistinctBy(rows, Key) && r in rows
    ensures HasError(r.key, IssuesFor(rows, ids)) <==>
              r.mrId in ids && HasError(r.key, ScanIssues(EventsOf(rows, r.mrId)))
  {
    if ids != [] {
      var before, mr := ids[..|ids| - 1], ids[|ids| - 1];
      assert ids == before + [mr];
      IssuesForOneMr(rows, before, r);
      ErrorsAdd(r.key, IssuesFor(rows, before), ScanIssues(EventsOf(rows, mr)));
      if mr != r.mrId {
        forall x | x in EventsOf(rows, mr) ensures x.key != r.key {
          EventsMembers(rows, mr);
          if x.key == r.key { DistinctByMember(rows, Key, x, r); }
        }
        ScanNamesItsEvents(EventsOf(rows, mr), r.key);
      }
    }
  }

  /** The sequence check names only its own rows. */
  lemma {:induction false} SequenceNamesItsRows(rows: seq<Row>, ids: seq<string>, key: RowKey)
    requires forall r :: r in rows ==> r.key != key
    ensures !HasError(key, IssuesFor(rows, ids))
  {
    if ids != [] {
      var before, mr := ids[..|ids| - 1], ids[|ids| - 1];
      SequenceNamesItsRows(rows, before, key);
      EventsMembers(rows, mr);
      ScanNamesItsEvents(EventsOf(rows, mr), key);
      ErrorsAdd(key, IssuesFor(rows, before), ScanIssues(EventsOf(rows, mr)));
    }
  }

  lemma EventsMembers(rows: seq<Row>, mr: string)
    ensures forall x :: x in EventsOf(rows, mr) <==> x in rows && x.mrId == mr
  {
    SameElements(EventsOf(rows, mr), Filter(rows, OfMr(mr)));
  }

  lemma EventsDistinct(rows: seq<Row>, mr: string)
    requires DistinctBy(rows, Key)
    ensures DistinctBy(EventsOf(rows, mr), Key)
  {
    var group, events := Filter(rows, OfMr(mr)), EventsOf(rows, mr);
    FilterKeepsDistinct(rows, OfMr(mr), Key);
    PermutationKeepsDistinct(group, events, Key);
  }

  /** Over a whole import, the flagged events of an MR are exactly the regressions in its event order. */
  lemma FlaggedExactlyWhenRegressing(rows: seq<Row>, mr: string, i: nat)
    requires DistinctBy(rows, Key) && i < |EventsOf(rows, mr)|
    ensures HasError(EventsOf(rows, mr)[i].key, SequenceIssues(rows)) <==> Regresses(EventsOf(rows, mr), i)
  {
    var events := EventsOf(rows, mr);
    EventsMembers(rows, mr);
    EventsDistinct(rows, mr);
    assert events[i] in events;
    IssuesForOneMr(rows, MrIds(rows), events[i]);
    ScanFlagsRegressions(events, i);
  }

  // ------------------------------------------------------------------ open maintenance requests

  function Last(events: seq<Row>): Row
    requires events != []
  {
    events[|events| - 1]
  }

  /** The entry of an MR is the last of its events. */
  ghost predicate HoldsLatestOf(latest: map<string, Row>, ordered: seq<Row>, mr: string) {
    var events := Filter(ordered, OfMr(mr));
    if mr in latest then events != [] && latest[mr] == Last(events) else events == []
  }

  ghost predicate HoldsLatest(latest: map<string, Row>, ordered: seq<Row>) {
    forall mr :: HoldsLatestOf(latest, ordered, mr)
  }

  lemma LatestGrowsFor(latest: map<string, Row>, ordered: seq<Row>, row: Row, mr: string)
    requires HoldsLatestOf(latest, ordered, mr)
    ensures HoldsLatestOf(latest[row.mrId := row], ordered + [row], mr)
  {
    FilterAppend(ordered, [row], OfMr(mr));
  }

  lemma LatestGrows(latest: map<string, Row>, ordered: seq<Row>, row: Row)
    requires HoldsLatest(latest, ordered)
    ensures HoldsLatest(latest[row.mrId := row], ordered + [row])
  {
    var after := latest[row.mrId := row];
    forall mr ensures HoldsLatestOf(after, ordered + [row], mr) {
      assert HoldsLatestOf(latest, ordered, mr);
      LatestGrowsFor(latest, ordered, row, mr);
    }
  }

  /** Within the order of all events, each MR's events stand in their own event order. */
  lemma EventsWithinAll(rows: seq<Row>, mr: string)
    ensures Filter(Sorted(rows, EventLe), OfMr(mr)) == EventsOf(rows, mr)
  {
    EventLeOrder();
    SortedFilter(rows, EventLe, OfMr(mr));
  }

  /** The latest event of every MR, found by overwriting along the order of all events. */
  method LatestByMr(rows: seq<Row>) returns (latest: map<string, Row>)
    ensures HoldsLatest(latest, Sorted(rows, EventLe))
  {
    var ordered := Sorted(rows, EventLe);
    latest := map[];
    for i := 0 to |ordered|
      invariant HoldsLatest(latest, ordered[..i])
    {
      assert ordered[..i + 1] == ordered[..i] + [ordered[i]];
      LatestGrows(latest, ordered[..i], ordered[i]);
      latest := latest[ordered[i].mrId := ordered[i]];
    }
    assert ordered[..|ordered|] == ordered;
  }

  predicate Finished(r: Row) { r.status == CLOSED || r.status == REJECTED || r.status == CANCELLED }

  predicate ReportedOpen(rows: seq<Row>, mr: string) {
    EventsOf(rows, mr) != [] && !Finished(Last(EventsOf(rows, mr)))
  }

  /** `_open_jtrack`: the MRs whose latest event is not final, with that event. */
  method OpenMrs(rows: seq<Row>) returns (open: map<string, Row>)
    ensures forall mr :: mr in open <==> ReportedOpen(rows, mr)
    ensures forall mr :: mr in open ==> ReportedOpen(rows, mr) && open[mr] == Last(EventsOf(rows, mr))
  {
    var latest := LatestByMr(rows);
    forall mr ensures Filter(Sorted(rows, EventLe), OfMr(mr)) == EventsOf(rows, mr)
                      && HoldsLatestOf(latest, Sorted(rows, EventLe), mr)
    {
      EventsWithinAll(rows, mr);
    }
    open := map mr | mr in latest && !Finished(latest[mr]) :: latest[mr];
  }

  predicate ClosedOrRejected(r: Row) { r.status == CLOSED || r.status == REJECTED }

  /** Accepted events of an MR never fall back: unflagged known events are ordered by level. */
  lemma AcceptedLevelsRise(rows: seq<Row>, mr: string, i: nat, j: nat)
    requires DistinctBy(rows, Key) && i < j < |EventsOf(rows, mr)|
    requires var e := EventsOf(rows, mr); Known(e[i]) && Known(e[j]) && !HasError(e[j].key, SequenceIssues(rows))
    ensures Level(EventsOf(rows, mr)[i]) <= Level(EventsOf(rows, mr)[j])
  {
    FlaggedExactlyWhenRegressing(rows, mr, j);
  }

  lemma KeptEvents(rows: seq<Row>, keep: Row -> bool, mr: string)
    ensures EventsOf(Filter(rows, keep), mr) == Filter(EventsOf(rows, mr), keep)
  {
    EventLeOrder();
    FilterCommute(rows, keep, OfMr(mr));
    SortedFilter(Filter(rows, OfMr(mr)), EventLe, keep);
  }

  /** `keep` selects only rows without a sequence error. */
  ghost predicate KeepsUnflagged(rows: seq<Row>, keep: Row -> bool) {
    forall r :: r in rows && keep(r) ==> !HasError(r.key, SequenceIssues(rows))
  }

  ghost predicate AllKnown(rows: seq<Row>, mr: string) {
    forall r :: r in rows && r.mrId == mr ==> Known(r)
  }

  /** No kept event stands below an earlier one. */
  ghost predicate Rising(events: seq<Row>, keep: Row -> bool) {
    forall i, j :: 0 <= i < j < |events| && keep(events[j]) ==> Level(events[i]) <= Level(events[j])
  }

  lemma KeptEventsRise(rows: seq<Row>, keep: Row -> bool, mr: string)
    requires DistinctBy(rows, Key) && AllKnown(rows, mr) && KeepsUnflagged(rows, keep)
    ensures Rising(EventsOf(rows, mr), keep)
  {
    var all := EventsOf(rows, mr);
    EventsMembers(rows, mr);
    forall i, j | 0 <= i < j < |all| && keep(all[j]) ensures Level(all[i]) <= Level(all[j]) {
      assert all[i] in all && all[j] in all;
      AcceptedLevelsRise(rows, mr, i, j);
    }
  }

  /** Where no kept event falls back, the last kept one stands highest. */
  lemma LastIsHighest(events: seq<Row>, keep: Row -> bool, k: nat)
    requires Rising(events, keep) && k < |Filter(events, keep)|
    ensures Level(Filter(events, keep)[k]) <= Level(Last(Filter(events, keep)))
  {
    var last := |Filter(events, keep)| - 1;
    if k < last {
      var i, j := FilterPositions(events, keep, k, last);
      FilterElement(events, keep, last);
    }
  }

  lemma TopLevelIsFinal(r: Row)
    requires Known(r)
    ensures Level(r) <= 4 && (Level(r) == 4 <==> ClosedOrRejected(r))
    ensures Finished(r) <==> ClosedOrRejected(r)
  {
  }

  /** A rising sequence of known events ends in a final one exactly when it holds a final one. */
  lemma FinalIffSomeFinal(events: seq<Row>, keep: Row -> bool)
    requires Rising(events, keep) && Filter(events, keep) != []
    requires forall r :: r in events ==> Known(r)
    ensures var kept := Filter(events, keep);
            Finished(Last(kept)) <==> exists r :: r in kept && ClosedOrRejected(r)
  {
    var kept := Filter(events, keep);
    var last := Last(kept);
    assert last in kept;
    TopLevelIsFinal(last);
    if r :| r in kept && ClosedOrRejected(r) {
      var k :| 0 <= k < |kept| && kept[k] == r;
      LastIsHighest(events, keep, k);
      TopLevelIsFinal(r);
    }
  }

  /** Of any accepted rows, an MR with only known statuses is reported open exactly when it has an accepted
      event and none of them is CLOSED or REJECTED. */
  lemma OpenExactlyWhenNoneFinal(rows: seq<Row>, keep: Row -> bool, mr: string)
    requires DistinctBy(rows, Key) && AllKnown(rows, mr) && KeepsUnflagged(rows, keep)
    ensures ReportedOpen(Filter(rows, keep), mr) <==>
              (exists r :: r in Filter(rows, keep) && r.mrId == mr)
              && (forall r :: r in Filter(rows, keep) && r.mrId == mr ==> !ClosedOrRejected(r))
  {
    var events := EventsOf(rows, mr);
    EventsMembers(rows, mr);
    EventsMembers(Filter(rows, keep), mr);
    KeptEvents(rows, keep, mr);
    KeptEventsRise(rows, keep, mr);
    var kept := Filter(events, keep);
    if kept != [] {
      FinalIffSomeFinal(events, keep);
      assert kept[0] in kept;
    }
  }
}
