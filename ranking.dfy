/**
 * `sort((a, b) => b.requestCount - a.requestCount)` on address entries, as
 * both the simulator's top-address list and the chart apply it. The
 * JavaScript sort is stable, so it is modelled as a stable insertion sort
 * on values: an entry goes in front of the first entry whose count does not
 * exceed its own.
 */
module Ranking {
  import opened Types

  /** Ordered by request count, largest first. */
  predicate NonIncreasing(s: seq<TopIP>) {
    forall i, j :: 0 <= i < j < |s| ==> s[i].requestCount >= s[j].requestCount
  }

  /** Puts `x` in front of the first entry whose count does not exceed its own. */
  function Insert(x: TopIP, s: seq<TopIP>): (r: seq<TopIP>)
    ensures |r| == |s| + 1
    ensures r[0] == x || (s != [] && r[0] == s[0])
    decreases |s|
  {
    if s == [] || x.requestCount >= s[0].requestCount then [x] + s
    else [s[0]] + Insert(x, s[1..])
  }

  /** Insertion adds exactly `x`. */
  lemma {:induction false} InsertAddsOne(x: TopIP, s: seq<TopIP>)
    ensures multiset(Insert(x, s)) == multiset(s) + multiset{x}
    decreases |s|
  {
    if s != [] && x.requestCount < s[0].requestCount {
      InsertAddsOne(x, s[1..]);
      assert s == [s[0]] + s[1..];
    }
  }

  /** Insertion into an ordered list keeps it ordered. */
  lemma {:induction false} InsertKeepsOrder(x: TopIP, s: seq<TopIP>)
    requires NonIncreasing(s)
    ensures NonIncreasing(Insert(x, s))
    decreases |s|
  {
    if s != [] && x.requestCount < s[0].requestCount {
      InsertKeepsOrder(x, s[1..]);
      var rest := Insert(x, s[1..]);
      assert rest[0].requestCount <= s[0].requestCount;
      assert forall j :: 0 <= j < |rest| ==> rest[0].requestCount >= rest[j].requestCount;
    }
  }

  /** The entries reordered by request count, largest first; ties keep their order. */
  function SortByRequestCount(s: seq<TopIP>): (r: seq<TopIP>)
    ensures |r| == |s|
    decreases |s|
  {
    if s == [] then [] else Insert(s[0], SortByRequestCount(s[1..]))
  }

  /** Sorting only reorders the entries. */
  lemma {:induction false} SortIsPermutation(s: seq<TopIP>)
    ensures multiset(SortByRequestCount(s)) == multiset(s)
    decreases |s|
  {
    if s != [] {
      SortIsPermutation(s[1..]);
      InsertAddsOne(s[0], SortByRequestCount(s[1..]));
      assert s == [s[0]] + s[1..];
    }
  }

  /** The sorted entries are ordered by count, largest first. */
  lemma {:induction false} SortIsOrdered(s: seq<TopIP>)
    ensures NonIncreasing(SortByRequestCount(s))
    decreases |s|
  {
    if s != [] {
      SortIsOrdered(s[1..]);
      InsertKeepsOrder(s[0], SortByRequestCount(s[1..]));
    }
  }

  /** The sorted list holds exactly the entries of the input, and the first has the largest count. */
  lemma SortedHeadIsMaximal(s: seq<TopIP>)
    requires s != []
    ensures forall x :: x in SortByRequestCount(s) <==> x in s
    ensures forall i :: 0 <= i < |s| ==> SortByRequestCount(s)[0].requestCount >= s[i].requestCount
  {
    var r := SortByRequestCount(s);
    SortIsPermutation(s);
    SortIsOrdered(s);
    assert forall x :: x in r <==> x in multiset(r);
    forall i | 0 <= i < |s|
      ensures r[0].requestCount >= s[i].requestCount
    {
      assert s[i] in multiset(r);
      var j :| 0 <= j < |r| && r[j] == s[i];
    }
  }

  /** No address has two entries. */
  predicate DistinctAddresses(s: seq<TopIP>) {
    forall i, j :: 0 <= i < j < |s| ==> s[i].ip != s[j].ip
  }

  /** Inserting an entry for a new address keeps the addresses distinct. */
  lemma {:induction false} InsertKeepsDistinct(x: TopIP, s: seq<TopIP>)
    requires DistinctAddresses(s)
    requires forall e :: e in s ==> e.ip != x.ip
    ensures DistinctAddresses(Insert(x, s))
    decreases |s|
  {
    if s != [] && x.requestCount < s[0].requestCount {
      var rest := Insert(x, s[1..]);
      InsertKeepsDistinct(x, s[1..]);
      InsertAddsOne(x, s[1..]);
      forall j | 0 <= j < |rest|
        ensures rest[j].ip != s[0].ip
      {
        assert rest[j] in multiset(rest);
        if rest[j] != x {
          assert rest[j] in s[1..];
        }
      }
      assert Insert(x, s) == [s[0]] + rest;
    }
  }

  /** Sorting keeps the addresses distinct. */
  lemma {:induction false} SortKeepsDistinct(s: seq<TopIP>)
    requires DistinctAddresses(s)
    ensures DistinctAddresses(SortByRequestCount(s))
    decreases |s|
  {
    if s != [] {
      var rest := SortByRequestCount(s[1..]);
      SortKeepsDistinct(s[1..]);
      SortIsPermutation(s[1..]);
      forall e | e in rest
        ensures e.ip != s[0].ip
      {
        assert e in multiset(rest);
        assert e in s[1..];
      }
      InsertKeepsDistinct(s[0], rest);
    }
  }

  /**
   * The first `n` sorted entries are a sub-multiset of the input, and every
   * entry the cut leaves out has a count no larger than any entry it keeps.
   */
  lemma CutKeepsBusiest(s: seq<TopIP>, n: nat)
    requires n <= |s|
    ensures var rows := SortByRequestCount(s)[..n];
      && multiset(rows) <= multiset(s)
      && (forall r :: r in rows ==> r in s)
      && forall x, r :: x in multiset(s) - multiset(rows) && r in rows ==> x.requestCount <= r.requestCount
  {
    var sorted := SortByRequestCount(s);
    SortIsPermutation(s);
    SortIsOrdered(s);
    OrderedCutKeepsBusiest(sorted, n);
    SubMultisetMembers(sorted[..n], s);
  }

  /** The same for a list that is already ordered. */
  lemma OrderedCutKeepsBusiest(t: seq<TopIP>, n: nat)
    requires n <= |t| && NonIncreasing(t)
    ensures multiset(t[..n]) <= multiset(t)
    ensures forall x, r :: x in multiset(t) - multiset(t[..n]) && r in t[..n] ==> x.requestCount <= r.requestCount
  {
    var rows, rest := t[..n], t[n..];
    assert t == rows + rest;
    assert multiset(t) == multiset(rows) + multiset(rest);
    forall x, r | x in multiset(t) - multiset(rows) && r in rows
      ensures x.requestCount <= r.requestCount
    {
      assert x in rest;
      var j :| 0 <= j < |rest| && rest[j] == x;
      var i :| 0 <= i < |rows| && rows[i] == r;
      assert t[n + j] == x;
    }
  }

  lemma SubMultisetMembers(a: seq<TopIP>, b: seq<TopIP>)
    requires multiset(a) <= multiset(b)
    ensures forall x :: x in a ==> x in b
  {
    forall x | x in a
      ensures x in b
    {
      assert x in multiset(a);
    }
  }

  /** A cut of the sorted entries repeats no address when the entries do not. */
  lemma CutKeepsDistinct(s: seq<TopIP>, n: nat)
    requires n <= |s| && DistinctAddresses(s)
    ensures DistinctAddresses(SortByRequestCount(s)[..n])
  {
    SortKeepsDistinct(s);
  }

  /** Any prefix of an ordered list is ordered. */
  lemma PrefixNonIncreasing(s: seq<TopIP>, n: nat)
    requires NonIncreasing(s) && n <= |s|
    ensures NonIncreasing(s[..n])
  {
  }
}
