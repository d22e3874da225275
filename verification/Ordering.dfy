/** Sequences as the Python code uses them: filters, sums, `str` order and the stable `sorted`. */
module Ordering {
  import opened Common

  // ------------------------------------------------------------------ filters and sums

  function Filter<T(!new)>(s: seq<T>, p: T -> bool): (r: seq<T>)
    ensures forall x :: x in r <==> x in s && p(x)
    ensures |r| <= |s|
  {
    if s == [] then []
    else if p(s[0]) then [s[0]] + Filter(s[1..], p)
    else Filter(s[1..], p)
  }

  function Map<A(!new), B(!new)>(s: seq<A>, f: A -> B): (r: seq<B>)
    ensures |r| == |s| && forall i :: 0 <= i < |s| ==> r[i] == f(s[i])
  {
    seq(|s|, i requires 0 <= i < |s| => f(s[i]))
  }

  lemma MapAppend<A(!new), B(!new)>(s: seq<A>, x: A, f: A -> B)
    ensures Map(s + [x], f) == Map(s, f) + [f(x)]
  {
  }

  function Sum<T(!new)>(s: seq<T>, f: T -> int): int {
    if s == [] then 0 else f(s[0]) + Sum(s[1..], f)
  }

  function Count<T(!new)>(s: seq<T>, p: T -> bool): nat { |Filter(s, p)| }

  lemma PrefixStep<T(!new)>(s: seq<T>, i: nat)
    requires i < |s|
    ensures s[..i + 1] == s[..i] + [s[i]] && s[..i + 1][..i] == s[..i]
  {
  }

  /** Putting an element before a sequence split in two puts it before the first part. */
  lemma ConsSplit<T(!new)>(x: T, whole: seq<T>, left: seq<T>, right: seq<T>)
    requires whole == left + right
    ensures [x] + whole == ([x] + left) + right
  {
  }

  lemma FilterCons<T(!new)>(x: T, s: seq<T>, p: T -> bool)
    ensures Filter([x] + s, p) == if p(x) then [x] + Filter(s, p) else Filter(s, p)
  {
    assert ([x] + s)[1..] == s;
  }

  lemma {:induction false} FilterAppend<T(!new)>(a: seq<T>, b: seq<T>, p: T -> bool)
    ensures Filter(a + b, p) == Filter(a, p) + Filter(b, p)
  {
    if a == [] {
      assert a + b == b;
    } else {
      var x, rest := a[0], a[1..];
      assert a == [x] + rest;
      ConsSplit(x, rest + b, rest, b);
      FilterAppend(rest, b, p);
      FilterCons(x, rest, p);
      FilterCons(x, rest + b, p);
      ConsSplit(x, Filter(rest + b, p), Filter(rest, p), Filter(b, p));
    }
  }

  lemma {:induction false} SumAppend<T(!new)>(a: seq<T>, b: seq<T>, f: T -> int)
    ensures Sum(a + b, f) == Sum(a, f) + Sum(b, f)
  {
    if a == [] {
      assert a + b == b;
    } else {
      assert (a + b)[0] == a[0] && (a + b)[1..] == a[1..] + b;
      SumAppend(a[1..], b, f);
    }
  }

  lemma {:induction false} FilterMultiplicity<T(!new)>(s: seq<T>, p: T -> bool, x: T)
    ensures multiset(Filter(s, p))[x] == if p(x) then multiset(s)[x] else 0
  {
    if s != [] {
      assert s == [s[0]] + s[1..];
      FilterMultiplicity(s[1..], p, x);
    }
  }

  lemma FilterPermutation<T(!new)>(s: seq<T>, t: seq<T>, p: T -> bool)
    requires multiset(s) == multiset(t)
    ensures multiset(Filter(s, p)) == multiset(Filter(t, p))
  {
    forall x: T | x in multiset(Filter(s, p)) || x in multiset(Filter(t, p))
      ensures multiset(Filter(s, p))[x] == multiset(Filter(t, p))[x]
    {
      FilterMultiplicity(s, p, x);
      FilterMultiplicity(t, p, x);
    }
  }

  /** A filter and its complement partition the sequence. */
  lemma {:induction false} FilterPartition<T(!new)>(s: seq<T>, p: T -> bool, q: T -> bool)
    requires forall x :: x in s ==> (q(x) <==> !p(x))
    ensures multiset(Filter(s, p)) + multiset(Filter(s, q)) == multiset(s)
    ensures |Filter(s, p)| + |Filter(s, q)| == |s|
  {
    if s != [] {
      assert s == [s[0]] + s[1..];
      FilterPartition(s[1..], p, q);
    }
  }

  lemma {:induction false} FilterWithin<T(!new)>(s: seq<T>, wide: T -> bool, narrow: T -> bool)
    requires forall x :: narrow(x) ==> wide(x)
    ensures Filter(Filter(s, wide), narrow) == Filter(s, narrow)
  {
    if s != [] {
      FilterWithin(s[1..], wide, narrow);
      if wide(s[0]) { assert Filter(s, wide)[1..] == Filter(s[1..], wide); }
    }
  }

  lemma {:induction false} FilterCommute<T(!new)>(s: seq<T>, p: T -> bool, q: T -> bool)
    ensures Filter(Filter(s, p), q) == Filter(Filter(s, q), p)
  {
    if s != [] {
      FilterCommute(s[1..], p, q);
      if p(s[0]) { assert Filter(s, p)[1..] == Filter(s[1..], p); }
      if q(s[0]) { assert Filter(s, q)[1..] == Filter(s[1..], q); }
    }
  }

  lemma {:induction false} FilterAll<T(!new)>(s: seq<T>, p: T -> bool)
    requires forall x :: x in s ==> p(x)
    ensures Filter(s, p) == s
  {
    if s != [] { FilterAll(s[1..], p); }
  }

  lemma {:induction false} FilterCongruent<T(!new)>(s: seq<T>, p: T -> bool, q: T -> bool)
    requires forall x :: x in s ==> p(x) == q(x)
    ensures Filter(s, p) == Filter(s, q)
  {
    if s != [] { FilterCongruent(s[1..], p, q); }
  }

  lemma {:induction false} FilterNone<T(!new)>(s: seq<T>, p: T -> bool)
    requires forall x :: x in s ==> !p(x)
    ensures Filter(s, p) == []
  {
    if s != [] { FilterNone(s[1..], p); }
  }

  lemma RemoveAt<T(!new)>(t: seq<T>, k: nat)
    requires k < |t|
    ensures multiset(t[..k] + t[k + 1..]) == multiset(t) - multiset{t[k]}
  {
    assert t == t[..k] + [t[k]] + t[k + 1..];
  }

  lemma RemoveHead<T(!new)>(t: seq<T>)
    requires t != []
    ensures multiset(t[1..]) == multiset(t) - multiset{t[0]}
  {
    assert t == [t[0]] + t[1..];
  }

  lemma SumRemoveAt<T(!new)>(t: seq<T>, k: nat, f: T -> int)
    requires k < |t|
    ensures Sum(t, f) == f(t[k]) + Sum(t[..k] + t[k + 1..], f)
  {
    assert t == t[..k] + t[k..] && t[k..][1..] == t[k + 1..];
    SumAppend(t[..k], t[k..], f);
    SumAppend(t[..k], t[k + 1..], f);
  }

  lemma {:induction false} CountImplies<T(!new)>(s: seq<T>, p: T -> bool, q: T -> bool)
    requires forall x :: x in s && p(x) ==> q(x)
    ensures Count(s, p) <= Count(s, q)
  {
    if s != [] { CountImplies(s[1..], p, q); }
  }

  lemma {:induction false} SumPermutation<T(!new)>(s: seq<T>, t: seq<T>, f: T -> int)
    requires multiset(s) == multiset(t)
    ensures Sum(s, f) == Sum(t, f)
  {
    SameElements(s, t);
    if s != [] {
      assert s[0] in t;
      var k :| 0 <= k < |t| && t[k] == s[0];
      RemoveHead(s);
      RemoveAt(t, k);
      SumPermutation(s[1..], t[..k] + t[k + 1..], f);
      SumRemoveAt(t, k, f);
    }
  }

  /** What a search from the end finds: the last element with property `p`. */
  function LastWhere<T(!new)>(s: seq<T>, p: T -> bool): Option<T> {
    if s == [] then None
    else if p(s[|s| - 1]) then Some(s[|s| - 1])
    else LastWhere(s[..|s| - 1], p)
  }

  lemma {:induction false} LastWhereFinds<T(!new)>(s: seq<T>, p: T -> bool)
    ensures LastWhere(s, p).Some? ==> LastWhere(s, p).value in s && p(LastWhere(s, p).value)
    ensures LastWhere(s, p).None? <==> forall x :: x in s ==> !p(x)
  {
    if s != [] {
      LastWhereFinds(s[..|s| - 1], p);
      assert s == s[..|s| - 1] + [s[|s| - 1]];
    }
  }

  lemma MapConcat<A(!new), B(!new)>(a: seq<A>, b: seq<A>, f: A -> B)
    ensures Map(a + b, f) == Map(a, f) + Map(b, f)
  {
  }

  lemma MapRemoveAt<A(!new), B(!new)>(t: seq<A>, k: nat, f: A -> B)
    requires k < |t|
    ensures multiset(Map(t, f)) == multiset{f(t[k])} + multiset(Map(t[..k] + t[k + 1..], f))
  {
    assert t == t[..k] + ([t[k]] + t[k + 1..]);
    MapConcat(t[..k], [t[k]] + t[k + 1..], f);
    MapConcat([t[k]], t[k + 1..], f);
    MapConcat(t[..k], t[k + 1..], f);
    assert Map([t[k]], f) == [f(t[k])];
  }

  lemma MapHead<A(!new), B(!new)>(a: seq<A>, f: A -> B)
    requires a != []
    ensures multiset(Map(a, f)) == multiset{f(a[0])} + multiset(Map(a[1..], f))
  {
    assert Map(a, f) == [f(a[0])] + Map(a[1..], f);
  }

  lemma {:induction false} MapPermutation<A(!new), B(!new)>(a: seq<A>, b: seq<A>, f: A -> B)
    requires multiset(a) == multiset(b)
    ensures multiset(Map(a, f)) == multiset(Map(b, f))
  {
    SameElements(a, b);
    if a != [] {
      assert a[0] in b;
      var k :| 0 <= k < |b| && b[k] == a[0];
      RemoveHead(a);
      RemoveAt(b, k);
      MapPermutation(a[1..], b[..k] + b[k + 1..], f);
      MapRemoveAt(b, k, f);
      MapHead(a, f);
    }
  }

  // ------------------------------------------------------------------ distinct keys

  ghost predicate DistinctBy<A(!new), B(!new)>(s: seq<A>, key: A -> B) {
    forall i, j :: 0 <= i < j < |s| ==> key(s[i]) != key(s[j])
  }

  lemma DistinctByMember<A(!new), B(!new)>(s: seq<A>, key: A -> B, a: A, b: A)
    requires DistinctBy(s, key) && a in s && b in s && key(a) == key(b)
    ensures a == b
  {
    var i :| 0 <= i < |s| && s[i] == a;
    var j :| 0 <= j < |s| && s[j] == b;
  }

  lemma DistinctPrefix<A(!new), B(!new)>(s: seq<A>, n: nat, key: A -> B)
    requires DistinctBy(s, key) && n < |s|
    ensures DistinctBy(s[..n], key) && forall x :: x in s[..n] ==> key(x) != key(s[n])
  {
    forall x | x in s[..n] ensures key(x) != key(s[n]) {
      var i :| 0 <= i < n && s[..n][i] == x;
      assert key(s[i]) != key(s[n]);
    }
    forall i, j | 0 <= i < j < n ensures key(s[..n][i]) != key(s[..n][j]) {
      assert key(s[i]) != key(s[j]);
    }
  }

  lemma {:induction false} FilterKeepsDistinct<A(!new), B(!new)>(s: seq<A>, p: A -> bool, key: A -> B)
    requires DistinctBy(s, key)
    ensures DistinctBy(Filter(s, p), key)
  {
    if s != [] {
      FilterKeepsDistinct(s[1..], p, key);
      forall x | x in Filter(s[1..], p) ensures key(x) != key(s[0]) {
        var k :| 0 <= k < |s[1..]| && s[1..][k] == x;
        assert key(s[0]) != key(s[k + 1]);
      }
    }
  }

  lemma PermutationKeepsDistinct<A(!new), B(!new)>(s: seq<A>, t: seq<A>, key: A -> B)
    requires DistinctBy(s, key) && multiset(s) == multiset(t)
    ensures DistinctBy(t, key)
  {
    forall i, j | 0 <= i < j < |t| ensures key(t[i]) != key(t[j]) {
      assert t[i] in multiset(s) && t[j] in multiset(s);
      if key(t[i]) == key(t[j]) {
        DistinctByMember(s, key, t[i], t[j]);
        TwoPlaces(t, i, j);
        MultiplicityOfDistinct(s, key, t[i]);
      }
    }
  }

  lemma TwoPlaces<T(!new)>(t: seq<T>, i: nat, j: nat)
    requires i < j < |t| && t[i] == t[j]
    ensures multiset(t)[t[i]] >= 2
  {
    assert t == t[..j] + [t[j]] + t[j + 1..];
    assert t[i] == t[..j][i];
    assert t[i] in multiset(t[..j]);
  }

  lemma {:induction false} MultiplicityOfDistinct<A(!new), B(!new)>(s: seq<A>, key: A -> B, x: A)
    requires DistinctBy(s, key)
    ensures multiset(s)[x] <= 1
  {
    if s != [] {
      assert s == [s[0]] + s[1..];
      MultiplicityOfDistinct(s[1..], key, x);
      if s[0] == x {
        forall k | 0 <= k < |s[1..]| ensures s[1..][k] != x { assert s[1..][k] == s[k + 1]; }
      }
    }
  }

  lemma FilterElement<T(!new)>(s: seq<T>, p: T -> bool, k: nat)
    requires k < |Filter(s, p)|
    ensures Filter(s, p)[k] in s && p(Filter(s, p)[k])
  {
    assert Filter(s, p)[k] in Filter(s, p);
  }

  /** Two elements of a filtered sequence come from two places of the original, in the same order. */
  lemma {:induction false} FilterPositions<T(!new)>(s: seq<T>, p: T -> bool, a: nat, b: nat)
    returns (i: nat, j: nat)
    requires a < b < |Filter(s, p)|
    ensures i < j < |s| && s[i] == Filter(s, p)[a] && s[j] == Filter(s, p)[b]
  {
    if !p(s[0]) {
      i, j := FilterPositions(s[1..], p, a, b);
      i, j := i + 1, j + 1;
    } else if a > 0 {
      i, j := FilterPositions(s[1..], p, a - 1, b - 1);
      i, j := i + 1, j + 1;
    } else {
      var x := Filter(s[1..], p)[b - 1];
      assert x in Filter(s[1..], p);
      var k :| 0 <= k < |s[1..]| && s[1..][k] == x;
      i, j := 0, k + 1;
    }
  }

  // ------------------------------------------------------------------ Python's order on str

  predicate StrLe(a: string, b: string) {
    if a == [] then true
    else if b == [] then false
    else if a[0] != b[0] then a[0] < b[0]
    else StrLe(a[1..], b[1..])
  }

  ghost predicate SmallerAt(a: string, b: string, k: nat) {
    k < |a| && k < |b| && a[..k] == b[..k] && a[k] < b[k]
  }

  lemma SmallerAtNext(x: char, a: string, b: string, k: nat)
    ensures SmallerAt([x] + a, [x] + b, k + 1) <==> SmallerAt(a, b, k)
  {
    if k <= |a| && k <= |b| {
      assert ([x] + a)[..k + 1] == [x] + a[..k] && ([x] + b)[..k + 1] == [x] + b[..k];
      assert ([x] + a[..k])[1..] == a[..k] && ([x] + b[..k])[1..] == b[..k];
    }
  }

  /** Texts are ordered by the first character in which they differ, and a text comes before its extensions. */
  lemma {:induction false} StrLeIff(a: string, b: string)
    ensures StrLe(a, b) <==> a <= b || exists k: nat :: SmallerAt(a, b, k)
  {
    if a != [] && b != [] && a[0] == b[0] {
      StrLeIff(a[1..], b[1..]);
      assert a == [a[0]] + a[1..] && b == [a[0]] + b[1..];
      if k: nat :| SmallerAt(a, b, k) { SmallerAtNext(a[0], a[1..], b[1..], k - 1); }
      if k: nat :| SmallerAt(a[1..], b[1..], k) { SmallerAtNext(a[0], a[1..], b[1..], k); }
    } else if a != [] && b != [] && a[0] < b[0] {
      assert SmallerAt(a, b, 0);
    }
  }

  lemma {:induction false} StrLeTotal(a: string, b: string)
    ensures StrLe(a, b) || StrLe(b, a)
    ensures StrLe(a, b) && StrLe(b, a) ==> a == b
  {
    if a != [] && b != [] && a[0] == b[0] {
      StrLeTotal(a[1..], b[1..]);
      assert a == [a[0]] + a[1..] && b == [b[0]] + b[1..];
    }
  }

  lemma {:induction false} StrLeTransitive(a: string, b: string, c: string)
    requires StrLe(a, b) && StrLe(b, c)
    ensures StrLe(a, c)
  {
    if a != [] && b != [] && c != [] && a[0] == b[0] == c[0] {
      StrLeTransitive(a[1..], b[1..], c[1..]);
    }
  }

  // ------------------------------------------------------------------ stable sorting

  /** What a Python sort key induces: a total preorder. */
  ghost predicate TotalPreorder<T(!new)>(le: (T, T) -> bool) {
    && (forall a, b :: le(a, b) || le(b, a))
    && (forall a, b, c :: le(a, b) && le(b, c) ==> le(a, c))
  }

  ghost predicate SortedBy<T(!new)>(s: seq<T>, le: (T, T) -> bool) {
    forall i, j :: 0 <= i < j < |s| ==> le(s[i], s[j])
  }

  function Insert<T(!new)>(x: T, s: seq<T>, le: (T, T) -> bool): (r: seq<T>)
    ensures multiset(r) == multiset{x} + multiset(s)
  {
    if s == [] then [x]
    else if le(x, s[0]) then [x] + s
    else
      assert s == [s[0]] + s[1..];
      [s[0]] + Insert(x, s[1..], le)
  }

  /** The result of Python's `sorted`: elements with equal keys keep their input order. */
  function Sorted<T(!new)>(s: seq<T>, le: (T, T) -> bool): (r: seq<T>)
    ensures multiset(r) == multiset(s)
    ensures |r| == |s|
  {
    if s == [] then []
    else
      assert s == [s[0]] + s[1..];
      var r := Insert(s[0], Sorted(s[1..], le), le);
      assert |multiset(r)| == |r|;
      r
  }

  lemma SameElements<T(!new)>(s: seq<T>, t: seq<T>)
    requires multiset(s) == multiset(t)
    ensures |s| == |t|
    ensures forall x :: x in s <==> x in t
  {
    assert |multiset(s)| == |s| && |multiset(t)| == |t|;
    forall x ensures x in s <==> x in t {
      assert x in multiset(s) <==> x in multiset(t);
    }
  }

  lemma ConsSorted<T(!new)>(x: T, s: seq<T>, le: (T, T) -> bool)
    requires SortedBy(s, le) && forall y :: y in s ==> le(x, y)
    ensures SortedBy([x] + s, le)
  {
  }

  lemma TailSorted<T(!new)>(s: seq<T>, le: (T, T) -> bool)
    requires s != [] && SortedBy(s, le)
    ensures SortedBy(s[1..], le) && forall y :: y in s[1..] ==> le(s[0], y)
  {
    forall y | y in s[1..] ensures le(s[0], y) {
      var k :| 0 <= k < |s[1..]| && s[1..][k] == y;
      assert le(s[0], s[k + 1]);
    }
  }

  lemma InsertMembers<T(!new)>(x: T, s: seq<T>, le: (T, T) -> bool)
    ensures forall y :: y in Insert(x, s, le) <==> y == x || y in s
  {
    assert multiset(Insert(x, s, le)) == multiset([x] + s);
    SameElements(Insert(x, s, le), [x] + s);
  }

  lemma {:induction false} InsertSorted<T(!new)>(x: T, s: seq<T>, le: (T, T) -> bool)
    requires TotalPreorder(le) && SortedBy(s, le)
    ensures SortedBy(Insert(x, s, le), le)
  {
    if s != [] {
      TailSorted(s, le);
      if le(x, s[0]) {
        forall y | y in s ensures le(x, y) { assert y == s[0] || y in s[1..]; }
        ConsSorted(x, s, le);
      } else {
        InsertSorted(x, s[1..], le);
        InsertMembers(x, s[1..], le);
        ConsSorted(s[0], Insert(x, s[1..], le), le);
      }
    }
  }

  lemma {:induction false} SortedIsSorted<T(!new)>(s: seq<T>, le: (T, T) -> bool)
    requires TotalPreorder(le)
    ensures SortedBy(Sorted(s, le), le)
  {
    if s != [] {
      SortedIsSorted(s[1..], le);
      InsertSorted(s[0], Sorted(s[1..], le), le);
    }
  }

  /** A sorted arrangement is unique when equal keys mean equal elements. */
  lemma {:induction false} SortedUnique<T(!new)>(s: seq<T>, t: seq<T>, le: (T, T) -> bool)
    requires SortedBy(s, le) && SortedBy(t, le) && multiset(s) == multiset(t)
    requires forall x, y :: x in s && y in s && le(x, y) && le(y, x) ==> x == y
    ensures s == t
  {
    SameElements(s, t);
    if s != [] {
      assert s[0] in t && t[0] in s;
      var k :| 0 <= k < |s| && s[k] == t[0];
      var m :| 0 <= m < |t| && t[m] == s[0];
      assert s[0] == t[0] by {
        if k > 0 && m > 0 { assert le(s[0], s[k]) && le(t[0], t[m]); }
      }
      RemoveHead(s);
      RemoveHead(t);
      SortedUnique(s[1..], t[1..], le);
    }
  }

  lemma {:induction false} InsertFilter<T(!new)>(x: T, s: seq<T>, le: (T, T) -> bool, p: T -> bool)
    requires TotalPreorder(le) && SortedBy(s, le)
    ensures Filter(Insert(x, s, le), p) == if p(x) then Insert(x, Filter(s, p), le) else Filter(s, p)
  {
    if s == [] {
    } else if le(x, s[0]) {
      assert ([x] + s)[1..] == s;
      var f := Filter(s, p);
      if f != [] {
        assert f[0] in s;
        var k :| 0 <= k < |s| && s[k] == f[0];
        assert le(x, f[0]) by { if k > 0 { assert le(s[0], s[k]); } }
      }
    } else {
      InsertFilter(x, s[1..], le, p);
      assert ([s[0]] + Insert(x, s[1..], le))[1..] == Insert(x, s[1..], le);
      if p(s[0]) {
        assert Filter(s, p)[1..] == Filter(s[1..], p);
      } else if p(x) {
        assert Filter(s, p) == Filter(s[1..], p);
      }
    }
  }

  /** Sorting is stable: sorting then filtering is filtering then sorting. */
  lemma {:induction false} SortedFilter<T(!new)>(s: seq<T>, le: (T, T) -> bool, p: T -> bool)
    requires TotalPreorder(le)
    ensures Filter(Sorted(s, le), p) == Sorted(Filter(s, p), le)
  {
    if s != [] {
      SortedIsSorted(s[1..], le);
      SortedFilter(s[1..], le, p);
      InsertFilter(s[0], Sorted(s[1..], le), le, p);
      if p(s[0]) { assert Filter(s, p)[1..] == Filter(s[1..], p); }
    }
  }

  /** Elements that may stand in either order stay where they are. */
  lemma {:induction false} AlikeStayInOrder<T(!new)>(s: seq<T>, le: (T, T) -> bool)
    requires forall x, y :: x in s && y in s ==> le(x, y)
    ensures Sorted(s, le) == s
  {
    if s != [] {
      AlikeStayInOrder(s[1..], le);
      if |s| > 1 { assert s[1..][0] == s[1] && s[0] in s && s[1] in s; }
      assert s == [s[0]] + s[1..];
    }
  }

  /** Order independence: rearranging the input of `sorted` changes nothing when keys are unique. */
  lemma SortedPermutation<T(!new)>(s: seq<T>, t: seq<T>, le: (T, T) -> bool)
    requires TotalPreorder(le) && multiset(s) == multiset(t)
    requires forall x, y :: x in s && y in s && le(x, y) && le(y, x) ==> x == y
    ensures Sorted(s, le) == Sorted(t, le)
  {
    SortedIsSorted(s, le);
    SortedIsSorted(t, le);
    SameElements(Sorted(s, le), s);
    SortedUnique(Sorted(s, le), Sorted(t, le), le);
  }

  lemma {:induction false} SortedFilterStaysSorted<T(!new)>(s: seq<T>, le: (T, T) -> bool, p: T -> bool)
    requires SortedBy(s, le)
    ensures SortedBy(Filter(s, p), le)
  {
    if s != [] {
      SortedFilterStaysSorted(s[1..], le, p);
      forall x | x in Filter(s[1..], p) ensures le(s[0], x) {
        var k :| 0 <= k < |s[1..]| && s[1..][k] == x;
        assert le(s[0], s[k + 1]);
      }
    }
  }

  /** No element of `s` has property `p` unless everything sorted before it does too. */
  ghost predicate DownClosed<T(!new)>(s: seq<T>, le: (T, T) -> bool, p: T -> bool) {
    forall x, y :: x in s && y in s && le(x, y) && p(y) ==> p(x)
  }

  /** Wherever `p` holds, it holds of everything before. */
  ghost predicate LeadsWith<T(!new)>(s: seq<T>, p: T -> bool) {
    forall i, j :: 0 <= i < j < |s| && p(s[j]) ==> p(s[i])
  }

  lemma LeadsWithTail<T(!new)>(s: seq<T>, p: T -> bool)
    requires s != [] && LeadsWith(s, p)
    ensures LeadsWith(s[1..], p)
    ensures !p(s[0]) ==> forall x :: x in s ==> !p(x)
  {
    forall i, j | 0 <= i < j < |s[1..]| && p(s[1..][j]) ensures p(s[1..][i]) {
      assert p(s[j + 1]) ==> p(s[i + 1]);
    }
  }

  lemma LeadCons<T(!new)>(x: T, s: seq<T>, p: T -> bool, q: T -> bool)
    requires p(x) && !q(x) && s == Filter(s, p) + Filter(s, q)
    ensures [x] + s == Filter([x] + s, p) + Filter([x] + s, q)
  {
    FilterCons(x, s, p);
    FilterCons(x, s, q);
    ConsSplit(x, s, Filter(s, p), Filter(s, q));
  }

  lemma {:induction false} LeadSplit<T(!new)>(s: seq<T>, p: T -> bool, q: T -> bool)
    requires LeadsWith(s, p) && forall x :: x in s ==> (q(x) <==> !p(x))
    ensures s == Filter(s, p) + Filter(s, q)
  {
    if s != [] {
      LeadsWithTail(s, p);
      assert s[0] in s;
      if p(s[0]) {
        LeadSplit(s[1..], p, q);
        LeadCons(s[0], s[1..], p, q);
        assert s == [s[0]] + s[1..];
      } else {
        FilterNone(s, p);
        FilterAll(s, q);
      }
    }
  }

  /** A property that no later element can have before an earlier one splits a sorted sequence. */
  lemma SortedSplit<T(!new)>(s: seq<T>, le: (T, T) -> bool, p: T -> bool, q: T -> bool)
    requires SortedBy(s, le) && DownClosed(s, le, p)
    requires forall x :: x in s ==> (q(x) <==> !p(x))
    ensures s == Filter(s, p) + Filter(s, q)
  {
    forall i, j | 0 <= i < j < |s| && p(s[j]) ensures p(s[i]) {
      assert le(s[i], s[j]) && s[i] in s && s[j] in s;
    }
    LeadSplit(s, p, q);
  }

  lemma SubMultisetSkip<T(!new)>(s: seq<T>, pick: seq<T>)
    requires s != [] && multiset(pick) <= multiset(s) && s[0] !in pick
    ensures multiset(pick) <= multiset(s[1..])
  {
    RemoveHead(s);
    assert multiset(pick)[s[0]] == 0;
  }

  lemma SubMultisetTake<T(!new)>(s: seq<T>, pick: seq<T>, k: nat)
    requires s != [] && multiset(pick) <= multiset(s) && k < |pick| && pick[k] == s[0]
    ensures multiset(pick[..k] + pick[k + 1..]) <= multiset(s[1..])
  {
    RemoveHead(s);
    RemoveAt(pick, k);
  }

  ghost predicate Descending<T(!new)>(s: seq<T>, f: T -> int) {
    forall i, j :: 0 <= i < j < |s| ==> f(s[i]) >= f(s[j])
  }

  lemma SubMultisetSize<T(!new)>(s: seq<T>, pick: seq<T>)
    requires multiset(pick) <= multiset(s)
    ensures |pick| <= |s|
  {
    assert multiset(s) == multiset(pick) + (multiset(s) - multiset(pick));
    assert |multiset(s)| == |s| && |multiset(pick)| == |pick|;
  }

  lemma PrefixBeatsShift<T(!new)>(s: seq<T>, m: nat, f: T -> int)
    requires Descending(s, f) && m < |s|
    ensures Sum(s[..m], f) >= Sum(s[1..][..m], f)
  {
    var a, b := s[..m], s[1..][..m];
    forall i | 0 <= i < m ensures f(a[i]) >= f(b[i]) { assert f(s[i]) >= f(s[i + 1]); }
    SumDominates(a, b, f);
  }

  lemma SumOfPrefix<T(!new)>(s: seq<T>, m: nat, f: T -> int)
    requires 0 < m <= |s|
    ensures Sum(s[..m], f) == f(s[0]) + Sum(s[1..][..m - 1], f)
  {
    assert s[..m][1..] == s[1..][..m - 1];
  }

  /** Among all selections of a given size, a prefix of a sequence in descending order is worth most. */
  lemma {:induction false} BestPrefix<T(!new)>(s: seq<T>, pick: seq<T>, f: T -> int)
    requires Descending(s, f) && multiset(pick) <= multiset(s)
    ensures |pick| <= |s| && Sum(pick, f) <= Sum(s[..|pick|], f)
  {
    SubMultisetSize(s, pick);
    if pick == [] {
    } else if k :| 0 <= k < |pick| && pick[k] == s[0] {
      DescendingTail(s, f);
      SubMultisetTake(s, pick, k);
      BestPrefix(s[1..], pick[..k] + pick[k + 1..], f);
      SumRemoveAt(pick, k, f);
      SumOfPrefix(s, |pick|, f);
    } else {
      DescendingTail(s, f);
      SubMultisetSkip(s, pick);
      BestPrefix(s[1..], pick, f);
      PrefixBeatsShift(s, |pick|, f);
    }
  }

  lemma DescendingTail<T(!new)>(s: seq<T>, f: T -> int)
    requires Descending(s, f) && s != []
    ensures Descending(s[1..], f)
  {
    assert forall i :: 0 <= i < |s[1..]| ==> s[1..][i] == s[i + 1];
  }

  lemma {:induction false} SumDominates<T(!new)>(a: seq<T>, b: seq<T>, f: T -> int)
    requires |a| == |b| && forall i :: 0 <= i < |a| ==> f(a[i]) >= f(b[i])
    ensures Sum(a, f) >= Sum(b, f)
  {
    if a != [] { SumDominates(a[1..], b[1..], f); }
  }
}
