/**
 * Generic sequence operations behind the list views: Array.prototype.filter,
 * Array.prototype.slice (with its negative-index rules), flatMap, and the
 * insertion-ordered de-duplication of `Array.from(new Set(xs))`.
 */
module Seqs {

  /** `r` is `s` with some elements left out and the rest in their original order. */
  predicate IsSubsequence<T(==)>(r: seq<T>, s: seq<T>)
    decreases |s|
  {
    if r == [] then true
    else if s == [] then false
    else (r[0] == s[0] && IsSubsequence(r[1..], s[1..])) || IsSubsequence(r, s[1..])
  }

  predicate NoDuplicates<T(==)>(s: seq<T>)
  {
    forall i, j :: 0 <= i < j < |s| ==> s[i] != s[j]
  }

  /** `s.filter(p)`: the elements that satisfy `p`, in their original order. */
  function Filter<T(==,!new)>(s: seq<T>, p: T -> bool): (r: seq<T>)
    ensures |r| <= |s|
  {
    if s == [] then []
    else if p(s[0]) then [s[0]] + Filter(s[1..], p)
    else Filter(s[1..], p)
  }

  /** An element is in the filtered list iff it is in the list and passes. */
  lemma {:induction false} FilterMembers<T(!new)>(s: seq<T>, p: T -> bool)
    ensures forall x :: x in Filter(s, p) <==> x in s && p(x)
  {
    if s != [] {
      FilterMembers(s[1..], p);
      assert s == [s[0]] + s[1..];
    }
  }

  /** Each passing element occurs as often as in the list, each failing one not at all. */
  lemma {:induction false} FilterMultiplicity<T(!new)>(s: seq<T>, p: T -> bool)
    ensures forall x :: multiset(Filter(s, p))[x] == if p(x) then multiset(s)[x] else 0
  {
    if s != [] {
      FilterMultiplicity(s[1..], p);
      assert s == [s[0]] + s[1..];
    }
  }

  /** Filtering only drops elements: the result is a subsequence of the list. */
  lemma {:induction false} FilterIsSubsequence<T(!new)>(s: seq<T>, p: T -> bool)
    ensures IsSubsequence(Filter(s, p), s)
  {
    if s != [] {
      FilterIsSubsequence(s[1..], p);
      var r := Filter(s[1..], p);
      if p(s[0]) {
        assert ([s[0]] + r)[1..] == r;
      }
    }
  }

  /** Filtering a list without duplicates gives a list without duplicates. */
  lemma {:induction false} FilterNoDuplicates<T(!new)>(s: seq<T>, p: T -> bool)
    ensures NoDuplicates(s) ==> NoDuplicates(Filter(s, p))
  {
    if s != [] && NoDuplicates(s) {
      var rest := s[1..];
      assert forall i, j :: 0 <= i < j < |rest| ==> rest[i] == s[i + 1] && rest[j] == s[j + 1];
      FilterNoDuplicates(rest, p);
      if p(s[0]) {
        FilterMembers(rest, p);
        assert s[0] !in rest by {
          forall i | 0 <= i < |rest|
            ensures rest[i] != s[0]
          {
            assert rest[i] == s[i + 1];
          }
        }
        var r := Filter(rest, p);
        forall i, j | 0 <= i < j < |[s[0]] + r|
          ensures ([s[0]] + r)[i] != ([s[0]] + r)[j]
        {
          if i == 0 {
            assert ([s[0]] + r)[j] == r[j - 1];
          } else {
            assert ([s[0]] + r)[i] == r[i - 1] && ([s[0]] + r)[j] == r[j - 1];
          }
        }
      }
    }
  }

  /** When every element passes, filtering returns the list itself. */
  lemma {:induction false} FilterKeepsAll<T(!new)>(s: seq<T>, p: T -> bool)
    requires forall x :: x in s ==> p(x)
    ensures Filter(s, p) == s
  {
    if s != [] {
      FilterKeepsAll(s[1..], p);
    }
  }

  /** Filtering distributes over concatenation. */
  lemma {:induction false} FilterAppend<T(!new)>(a: seq<T>, b: seq<T>, p: T -> bool)
    ensures Filter(a + b, p) == Filter(a, p) + Filter(b, p)
  {
    if a == [] {
      assert a + b == b;
    } else {
      assert (a + b)[1..] == a[1..] + b;
      FilterAppend(a[1..], b, p);
    }
  }

  /** A stronger predicate keeps a subsequence of what a weaker one keeps. */
  lemma {:induction false} FilterMonotone<T(!new)>(s: seq<T>, p: T -> bool, q: T -> bool)
    requires forall x :: x in s && p(x) ==> q(x)
    ensures IsSubsequence(Filter(s, p), Filter(s, q))
    ensures |Filter(s, p)| <= |Filter(s, q)|
  {
    if s != [] {
      FilterMonotone(s[1..], p, q);
      var fp, fq := Filter(s[1..], p), Filter(s[1..], q);
      if p(s[0]) {
        assert ([s[0]] + fp)[1..] == fp && ([s[0]] + fq)[1..] == fq;
      } else if q(s[0]) {
        SubsequenceCons(fp, fq, s[0]);
      }
    }
  }

  function Indicator(b: bool): nat { if b then 1 else 0 }

  /** When each element satisfies exactly one of four predicates, the four filters split the list. */
  lemma {:induction false} FilterPartition4<T(!new)>(s: seq<T>, p1: T -> bool, p2: T -> bool, p3: T -> bool, p4: T -> bool)
    requires forall i :: 0 <= i < |s| ==>
      Indicator(p1(s[i])) + Indicator(p2(s[i])) + Indicator(p3(s[i])) + Indicator(p4(s[i])) == 1
    ensures |Filter(s, p1)| + |Filter(s, p2)| + |Filter(s, p3)| + |Filter(s, p4)| == |s|
    ensures multiset(Filter(s, p1)) + multiset(Filter(s, p2)) + multiset(Filter(s, p3)) + multiset(Filter(s, p4))
         == multiset(s)
  {
    if s != [] {
      var x, rest := s[0], s[1..];
      assert forall i :: 0 <= i < |rest| ==> rest[i] == s[i + 1];
      FilterPartition4(rest, p1, p2, p3, p4);
      assert multiset(s) == multiset{x} + multiset(rest) by {
        assert s == [x] + rest;
      }
    }
  }

  /** A subsequence of `t` is also a subsequence of `[x] + t`. */
  lemma SubsequenceCons<T>(r: seq<T>, t: seq<T>, x: T)
    requires IsSubsequence(r, t)
    ensures IsSubsequence(r, [x] + t)
  {
    assert ([x] + t)[1..] == t;
  }

  /** A subsequence of `t` is also a subsequence of `t + [x]`. */
  lemma {:induction false} SubsequenceSnoc<T>(r: seq<T>, t: seq<T>, x: T)
    requires IsSubsequence(r, t)
    ensures IsSubsequence(r, t + [x])
    decreases |t|
  {
    if r != [] {
      assert (t + [x])[1..] == t[1..] + [x];
      if r[0] == t[0] && IsSubsequence(r[1..], t[1..]) {
        SubsequenceSnoc(r[1..], t[1..], x);
      } else {
        SubsequenceSnoc(r, t[1..], x);
      }
    }
  }

  /** Appending the same element to both sides keeps the subsequence relation. */
  lemma {:induction false} SubsequenceSnocBoth<T>(r: seq<T>, t: seq<T>, x: T)
    requires IsSubsequence(r, t)
    ensures IsSubsequence(r + [x], t + [x])
    decreases |t|
  {
    if r == [] {
      if t == [] {
        assert IsSubsequence([x][1..], [x][1..]);
      } else {
        SubsequenceSnocBoth(r, t[1..], x);
        assert (t + [x])[1..] == t[1..] + [x];
      }
    } else {
      assert t != [];
      assert (r + [x])[1..] == r[1..] + [x];
      assert (t + [x])[1..] == t[1..] + [x];
      if r[0] == t[0] && IsSubsequence(r[1..], t[1..]) {
        SubsequenceSnocBoth(r[1..], t[1..], x);
      } else {
        SubsequenceSnocBoth(r, t[1..], x);
      }
    }
  }

  /** `s.flatMap(f)` where `f` already produced the inner lists. */
  function Flatten<T(!new)>(ss: seq<seq<T>>): (r: seq<T>)
    ensures forall x :: x in r <==> exists i :: 0 <= i < |ss| && x in ss[i]
  {
    if ss == [] then []
    else
      var r := ss[0] + Flatten(ss[1..]);
      assert forall i :: 0 < i < |ss| ==> ss[i] == ss[1..][i - 1];
      r
  }

  /**
   * `Array.from(new Set(s))`: every value of `s` once, in an order that
   * follows `s` (a Set iterates in insertion order).
   */
  function Distinct<T(==,!new)>(s: seq<T>): (r: seq<T>)
    ensures NoDuplicates(r)
    ensures forall x :: x in r <==> x in s
    ensures IsSubsequence(r, s)
  {
    if s == [] then []
    else
      var init, last := s[..|s| - 1], s[|s| - 1];
      assert s == init + [last];
      var r := Distinct(init);
      if last in r then
        SubsequenceSnoc(r, init, last);
        r
      else
        SubsequenceSnocBoth(r, init, last);
        r + [last]
  }

  /** Array.prototype.slice's reading of an index: negative counts from the end, then clamp to [0, n]. */
  function SliceIndex(k: int, n: nat): (r: nat)
    ensures r <= n
    ensures 0 <= k <= n ==> r == k
    ensures k > n ==> r == n
    ensures 0 < -k <= n ==> r == n + k
    ensures -k > n ==> r == 0
  {
    if k < 0 then (if n + k < 0 then 0 else n + k)
    else if k > n then n
    else k
  }

  /** `s.slice(start, end)`. */
  function Slice<T>(s: seq<T>, start: int, end: int): (r: seq<T>)
    ensures 0 <= start <= end <= |s| ==> r == s[start..end]
    ensures |r| <= |s|
  {
    var a, b := SliceIndex(start, |s|), SliceIndex(end, |s|);
    if a < b then s[a..b] else []
  }
}
