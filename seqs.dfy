/**
 * Sequence operations with the semantics of the JavaScript array methods the
 * dashboard uses: `slice` with relative indices, `filter` and `find`.
 */
module Seqs {
  import opened Wrappers

  function Min(a: int, b: int): int { if a <= b then a else b }

  function Max(a: int, b: int): int { if a >= b then a else b }

  /** How `Array.prototype.slice` turns a relative index into a position in 0..len. */
  function RelativeIndex(k: int, len: nat): (r: nat)
    ensures r <= len
  {
    if k < 0 then (if len + k < 0 then 0 else len + k)
    else if k < len then k
    else len
  }

  /** `s.slice(start, end)`: negative indices count from the end, and out-of-range ones are clamped. */
  function Slice<T>(s: seq<T>, start: int, end: int): (r: seq<T>)
    ensures |r| <= |s|
    ensures 0 <= start <= end ==> r == s[Min(start, |s|)..Min(end, |s|)]
    ensures end < 0 && |s| + end <= 0 ==> r == []
  {
    var from, to := RelativeIndex(start, |s|), RelativeIndex(end, |s|);
    if from < to then s[from..to] else []
  }

  /** `r` can be obtained from `s` by deleting elements, without reordering the rest. */
  ghost predicate IsSubsequence<T>(r: seq<T>, s: seq<T>)
    decreases |s|
  {
    r == [] ||
    (s != [] && ((r[0] == s[0] && IsSubsequence(r[1..], s[1..])) || IsSubsequence(r, s[1..])))
  }

  /** `s.filter(p)`: each element satisfying `p` as often as it occurs in `s`, and nothing else. */
  function Filter<T(==,!new)>(s: seq<T>, p: T -> bool): (r: seq<T>)
    ensures |r| <= |s|
    ensures forall i :: 0 <= i < |r| ==> p(r[i])
    ensures forall i :: 0 <= i < |s| && p(s[i]) ==> s[i] in r
    ensures forall x :: x in r ==> x in s
    ensures forall x {:trigger Occurrences(r, x)} :: Occurrences(r, x) == if p(x) then Occurrences(s, x) else 0
    ensures IsSubsequence(r, s)
  {
    if s == [] then []
    else if p(s[0]) then
      var r := [s[0]] + Filter(s[1..], p);
      assert r[1..] == Filter(s[1..], p);
      r
    else Filter(s[1..], p)
  }

  /** Filtering with a predicate every element satisfies returns the sequence itself. */
  lemma {:induction false} FilterKeepsAll<T(!new)>(s: seq<T>, p: T -> bool)
    requires forall i :: 0 <= i < |s| ==> p(s[i])
    ensures Filter(s, p) == s
  {
    if s != [] {
      FilterKeepsAll(s[1..], p);
    }
  }

  /** How many times `x` occurs in `xs`. */
  function Occurrences<T(==)>(xs: seq<T>, x: T): nat {
    if xs == [] then 0 else (if xs[0] == x then 1 else 0) + Occurrences(xs[1..], x)
  }

  /** `s.find(p)`: the first element satisfying `p`, or nothing when there is none. */
  function Find<T>(s: seq<T>, p: T -> bool): (r: Option<T>)
    ensures r.None? <==> forall i :: 0 <= i < |s| ==> !p(s[i])
    ensures r.Some? ==>
      exists k :: 0 <= k < |s| && s[k] == r.value && p(s[k]) && forall j :: 0 <= j < k ==> !p(s[j])
  {
    if s == [] then None
    else if p(s[0]) then Some(s[0])
    else Find(s[1..], p)
  }
}
