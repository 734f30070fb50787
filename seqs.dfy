/**
 * The JavaScript array operations the site's derivations are built from:
 * `filter`, `find`, `map`, `slice` and `Math.min(...xs)`.
 */
module Seqs {
  import opened Wrappers

  /** `s.filter(p)`: the elements of s that satisfy p, in their original order. */
  function Filter<T(!new)>(p: T -> bool, s: seq<T>): (r: seq<T>)
    ensures |r| <= |s|
    ensures forall i :: 0 <= i < |r| ==> p(r[i])
    ensures forall x :: x in r <==> x in s && p(x)
    decreases |s|
  {
    if s == [] then [] else (if p(s[0]) then [s[0]] else []) + Filter(p, s[1..])
  }

  /** Each value occurs in the filter as often as in the input when it passes, else never. */
  lemma {:induction false} FilterMultiset<T(!new)>(p: T -> bool, s: seq<T>)
    ensures forall x :: multiset(Filter(p, s))[x] == if p(x) then multiset(s)[x] else 0
    decreases |s|
  {
    if s != [] {
      FilterMultiset(p, s[1..]);
      assert s == [s[0]] + s[1..];
    }
  }

  /** Filtering distributes over concatenation: the order of the input is kept. */
  lemma {:induction false} FilterConcat<T(!new)>(p: T -> bool, a: seq<T>, b: seq<T>)
    ensures Filter(p, a + b) == Filter(p, a) + Filter(p, b)
    decreases |a|
  {
    if a == [] {
      assert a + b == b;
    } else {
      assert (a + b)[0] == a[0];
      assert (a + b)[1..] == a[1..] + b;
      FilterConcat(p, a[1..], b);
    }
  }

  /** A filter is shorter than its input as soon as one element fails the test. */
  lemma {:induction false} FilterShorterIfRejects<T(!new)>(p: T -> bool, s: seq<T>, i: nat)
    requires i < |s| && !p(s[i])
    ensures |Filter(p, s)| < |s|
    decreases |s|
  {
    if i > 0 {
      assert s[1..][i - 1] == s[i];
      FilterShorterIfRejects(p, s[1..], i - 1);
    }
  }

  /** A filter that every element passes is its input. */
  lemma {:induction false} FilterKeepsAll<T(!new)>(p: T -> bool, s: seq<T>)
    requires forall i :: 0 <= i < |s| ==> p(s[i])
    ensures Filter(p, s) == s
    decreases |s|
  {
    if s != [] {
      assert p(s[0]);
      assert forall i :: 0 <= i < |s[1..]| ==> s[1..][i] == s[i + 1];
      FilterKeepsAll(p, s[1..]);
      assert s == [s[0]] + s[1..];
    }
  }

  /** The filter drops something exactly when some element fails the test. */
  lemma FilterShorterIffRejects<T(!new)>(p: T -> bool, s: seq<T>)
    ensures |Filter(p, s)| < |s| <==> exists i :: 0 <= i < |s| && !p(s[i])
    ensures |Filter(p, s)| == |s| ==> Filter(p, s) == s
  {
    if i :| 0 <= i < |s| && !p(s[i]) {
      FilterShorterIfRejects(p, s, i);
    } else {
      FilterKeepsAll(p, s);
    }
  }

  /** `s.findIndex(p)`, with None for -1. */
  function FindIndex<T>(p: T -> bool, s: seq<T>): (r: Option<nat>)
    ensures r.Some? ==> r.value < |s| && p(s[r.value])
    ensures r.Some? ==> forall j :: 0 <= j < r.value ==> !p(s[j])
    ensures r.None? <==> forall j :: 0 <= j < |s| ==> !p(s[j])
    decreases |s|
  {
    if s == [] then None
    else if p(s[0]) then Some(0)
    else
      match FindIndex(p, s[1..])
      case None =>
        assert forall j :: 1 <= j < |s| ==> s[j] == s[1..][j - 1];
        None
      case Some(i) =>
        assert forall j :: 1 <= j < i + 1 ==> s[j] == s[1..][j - 1];
        Some(i + 1)
  }

  /** `s.find(p)`: the first element that satisfies p, None for `undefined`. */
  function Find<T(!new)>(p: T -> bool, s: seq<T>): (r: Option<T>)
    ensures r.Some? ==> r.value in s && p(r.value)
    ensures r.None? <==> forall x :: x in s ==> !p(x)
    ensures r == if Filter(p, s) == [] then None else Some(Filter(p, s)[0])
  {
    FindIsFilterHead(p, s);
    match FindIndex(p, s)
    case None => None
    case Some(i) => Some(s[i])
  }

  lemma {:induction false} FindIsFilterHead<T(!new)>(p: T -> bool, s: seq<T>)
    ensures FindIndex(p, s).None? <==> Filter(p, s) == []
    ensures FindIndex(p, s).Some? ==> Filter(p, s)[0] == s[FindIndex(p, s).value]
    decreases |s|
  {
    if s != [] && !p(s[0]) {
      FindIsFilterHead(p, s[1..]);
    }
  }

  /** `s.map(f)`. */
  function Map<T, U>(f: T -> U, s: seq<T>): (r: seq<U>)
    ensures |r| == |s|
    ensures forall i :: 0 <= i < |s| ==> r[i] == f(s[i])
  {
    seq(|s|, i requires 0 <= i < |s| => f(s[i]))
  }

  lemma MapConcat<T, U>(f: T -> U, a: seq<T>, b: seq<T>)
    ensures Map(f, a + b) == Map(f, a) + Map(f, b)
  {
  }

  /** Mapping the two halves of a split by complementary tests gives the mapped whole, each element once. */
  lemma {:induction false} MapFilterSplit<T(!new), U>(f: T -> U, p: T -> bool, q: T -> bool, s: seq<T>)
    requires forall x :: p(x) <==> !q(x)
    ensures multiset(Map(f, Filter(p, s))) + multiset(Map(f, Filter(q, s))) == multiset(Map(f, s))
    decreases |s|
  {
    if s != [] {
      var x, rest := s[0], s[1..];
      MapFilterSplit(f, p, q, rest);
      assert s == [x] + rest;
      MapConcat(f, [x], rest);
      assert Map(f, s) == [f(x)] + Map(f, rest);
      if p(x) {
        assert Filter(p, s) == [x] + Filter(p, rest);
        assert Filter(q, s) == Filter(q, rest);
        MapConcat(f, [x], Filter(p, rest));
      } else {
        assert Filter(q, s) == [x] + Filter(q, rest);
        assert Filter(p, s) == Filter(p, rest);
        MapConcat(f, [x], Filter(q, rest));
      }
    }
  }

  function MinNat(a: nat, b: nat): nat { if a <= b then a else b }

  /**
   * `s.slice(start, end)` for non-negative bounds: both are clamped to the
   * length, and a start at or past the end gives the empty array.
   */
  function Slice<T>(s: seq<T>, start: nat, end: nat): (r: seq<T>)
    ensures |r| == if MinNat(start, |s|) < MinNat(end, |s|) then MinNat(end, |s|) - MinNat(start, |s|) else 0
    ensures forall i :: 0 <= i < |r| ==> r[i] == s[start + i]
  {
    var a, b := MinNat(start, |s|), MinNat(end, |s|);
    if a < b then s[a..b] else []
  }

  /** `Slice(s, 0, n)` is the prefix of s of length min(n, |s|). */
  lemma PrefixSlice<T>(s: seq<T>, n: nat)
    ensures Slice(s, 0, n) == s[..MinNat(n, |s|)]
  {
  }

  /** `Math.min(...xs)`; None stands for the `Infinity` that an empty list yields. */
  function Minimum(xs: seq<int>): (r: Option<int>)
    ensures r.None? <==> xs == []
    ensures r.Some? ==> r.value in xs
    ensures r.Some? ==> forall i :: 0 <= i < |xs| ==> r.value <= xs[i]
    decreases |xs|
  {
    if xs == [] then None
    else
      match Minimum(xs[1..])
      case None => Some(xs[0])
      case Some(m) =>
        assert forall i :: 1 <= i < |xs| ==> xs[i] == xs[1..][i - 1];
        Some(if xs[0] <= m then xs[0] else m)
  }
}
