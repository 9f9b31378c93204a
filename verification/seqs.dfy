/** The array operations the application leans on (`filter`, `reduce` to a sum,
    `findIndex`, `slice`), stated once over generic sequences. */
module Seqs {

  datatype Option<+T> = None | Some(value: T)

  /** Number of elements of `s` that satisfy `p`. */
  function Count<T>(s: seq<T>, p: T -> bool): (n: nat)
    ensures n <= |s|
  {
    if s == [] then 0 else (if p(s[0]) then 1 else 0) + Count(s[1..], p)
  }

  /** No element counts exactly when none satisfies `p`; all count exactly when
      all do. */
  lemma {:induction false} CountExtremes<T>(s: seq<T>, p: T -> bool)
    ensures Count(s, p) == 0 <==> forall i :: 0 <= i < |s| ==> !p(s[i])
    ensures Count(s, p) == |s| <==> forall i :: 0 <= i < |s| ==> p(s[i])
  {
    if s != [] {
      var rest := s[1..];
      CountExtremes(rest, p);
      assert forall i :: 1 <= i < |s| ==> s[i] == rest[i - 1];
    }
  }

  /** `r` is obtained from `s` by deleting elements, keeping the order of the rest. */
  ghost predicate IsSubsequence<T>(r: seq<T>, s: seq<T>)
    decreases |s|
  {
    r == [] || (s != [] && ((r[0] == s[0] && IsSubsequence(r[1..], s[1..])) || IsSubsequence(r, s[1..])))
  }

  /** Every element of a subsequence is an element of the whole. */
  lemma {:induction false} SubsequenceMembers<T>(r: seq<T>, s: seq<T>)
    requires IsSubsequence(r, s)
    ensures forall i :: 0 <= i < |r| ==> r[i] in s
    decreases |s|
  {
    if r != [] {
      if r[0] == s[0] && IsSubsequence(r[1..], s[1..]) {
        SubsequenceMembers(r[1..], s[1..]);
        assert forall i :: 1 <= i < |r| ==> r[i] == r[1..][i - 1];
      } else {
        SubsequenceMembers(r, s[1..]);
      }
    }
  }

  /** A subsequence of elements with pairwise different keys has pairwise different keys. */
  lemma {:induction false} SubsequenceKeepsDistinct<T, K>(r: seq<T>, s: seq<T>, key: T -> K)
    requires IsSubsequence(r, s)
    requires forall i, j :: 0 <= i < j < |s| ==> key(s[i]) != key(s[j])
    ensures forall i, j :: 0 <= i < j < |r| ==> key(r[i]) != key(r[j])
    decreases |s|
  {
    if r != [] {
      if r[0] == s[0] && IsSubsequence(r[1..], s[1..]) {
        SubsequenceKeepsDistinct(r[1..], s[1..], key);
        SubsequenceMembers(r[1..], s[1..]);
        forall j | 1 <= j < |r| ensures key(r[0]) != key(r[j]) {
          assert r[j] == r[1..][j - 1];
          var m :| 0 <= m < |s[1..]| && s[1..][m] == r[j];
          assert s[m + 1] == r[j];
        }
        forall i, j | 0 <= i < j < |r| ensures key(r[i]) != key(r[j]) {
          if i > 0 {
            assert r[i] == r[1..][i - 1] && r[j] == r[1..][j - 1];
          }
        }
      } else {
        SubsequenceKeepsDistinct(r, s[1..], key);
      }
    }
  }

  /** `s.filter(p)`: exactly the elements satisfying `p`, in their original order. */
  function Filter<T>(s: seq<T>, p: T -> bool): (r: seq<T>)
    ensures |r| == Count(s, p)
    ensures forall i :: 0 <= i < |r| ==> p(r[i])
    ensures forall i :: 0 <= i < |r| ==> r[i] in s
    ensures forall i :: 0 <= i < |s| && p(s[i]) ==> s[i] in r
    ensures IsSubsequence(r, s)
  {
    if s == [] then []
    else
      var rest := Filter(s[1..], p);
      assert forall i :: 1 <= i < |s| ==> s[i] == s[1..][i - 1];
      if p(s[0]) then
        assert ([s[0]] + rest)[1..] == rest;
        [s[0]] + rest
      else rest
  }

  /** Filtering with a predicate every element satisfies changes nothing. */
  lemma {:induction false} FilterKeepsAll<T>(s: seq<T>, p: T -> bool)
    requires forall i :: 0 <= i < |s| ==> p(s[i])
    ensures Filter(s, p) == s
  {
    if s != [] {
      FilterKeepsAll(s[1..], p);
      assert [s[0]] + s[1..] == s;
    }
  }

  /** Filtering distributes over concatenation. */
  lemma {:induction false} FilterConcat<T>(a: seq<T>, b: seq<T>, p: T -> bool)
    ensures Filter(a + b, p) == Filter(a, p) + Filter(b, p)
  {
    if a == [] {
      assert a + b == b;
    } else {
      assert (a + b)[0] == a[0];
      assert (a + b)[1..] == a[1..] + b;
      FilterConcat(a[1..], b, p);
    }
  }

  /** `s.reduce((acc, x) => acc + f(x), 0)`, folding from the left. */
  function SumOf<T>(s: seq<T>, f: T -> int): int
  {
    if s == [] then 0 else SumOf(s[..|s| - 1], f) + f(s[|s| - 1])
  }

  /** A sum over a concatenation is the sum of the sums. */
  lemma {:induction false} SumOfConcat<T>(a: seq<T>, b: seq<T>, f: T -> int)
    ensures SumOf(a + b, f) == SumOf(a, f) + SumOf(b, f)
  {
    if b == [] {
      assert a + b == a;
    } else {
      assert (a + b)[..|a + b| - 1] == a + b[..|b| - 1];
      SumOfConcat(a, b[..|b| - 1], f);
    }
  }

  /** Replacing one element changes the sum by the difference of the two terms. */
  lemma {:induction false} SumOfUpdate<T>(s: seq<T>, k: nat, x: T, f: T -> int)
    requires k < |s|
    ensures SumOf(s[k := x], f) == SumOf(s, f) - f(s[k]) + f(x)
  {
    var n := |s| - 1;
    if k == n {
      assert s[k := x][..n] == s[..n];
    } else {
      assert s[k := x][..n] == s[..n][k := x];
      SumOfUpdate(s[..n], k, x, f);
    }
  }

  /** Sums of non-negative terms are non-negative. */
  lemma {:induction false} SumOfNonnegative<T>(s: seq<T>, f: T -> int)
    requires forall i :: 0 <= i < |s| ==> f(s[i]) >= 0
    ensures SumOf(s, f) >= 0
  {
    if s != [] {
      SumOfNonnegative(s[..|s| - 1], f);
    }
  }

  /** Filtering a sequence with a known first element. */
  lemma FilterCons<T>(x: T, s: seq<T>, p: T -> bool)
    ensures Filter([x] + s, p) == if p(x) then [x] + Filter(s, p) else Filter(s, p)
  {
    assert ([x] + s)[1..] == s;
  }

  /** Filtering a prefix gives a prefix of the filtered sequence. */
  lemma FilterPrefix<T>(s: seq<T>, n: nat, p: T -> bool)
    requires n <= |s|
    ensures var f := Filter(s[..n], p);
      |f| <= |Filter(s, p)| && f == Filter(s, p)[..|f|]
  {
    assert s == s[..n] + s[n..];
    FilterConcat(s[..n], s[n..], p);
  }

  /** A sum over a sequence with a known first element. */
  lemma SumOfCons<T>(x: T, s: seq<T>, f: T -> int)
    ensures SumOf([x] + s, f) == f(x) + SumOf(s, f)
  {
    SumOfConcat([x], s, f);
    assert [x][..0] == [];
  }

  /** A sum of non-negative terms is non-negative. */
  lemma SumOfSign<T>(s: seq<T>, f: T -> int)
    ensures (forall i :: 0 <= i < |s| ==> f(s[i]) >= 0) ==> SumOf(s, f) >= 0
  {
    if forall i :: 0 <= i < |s| ==> f(s[i]) >= 0 {
      SumOfNonnegative(s, f);
    }
  }

  /** `s.findIndex(p)`: the first index whose element satisfies `p`, or -1. */
  function FirstIndex<T>(s: seq<T>, p: T -> bool): (r: int)
    ensures -1 <= r < |s|
    ensures 0 <= r ==> p(s[r]) && forall j :: 0 <= j < r ==> !p(s[j])
    ensures r == -1 <==> forall j :: 0 <= j < |s| ==> !p(s[j])
  {
    if s == [] then -1
    else if p(s[0]) then 0
    else
      var k := FirstIndex(s[1..], p);
      if k == -1 then -1 else k + 1
  }

  /** `s.slice(0, n)`: the first `n` elements, or all of them when there are fewer. */
  function Take<T>(s: seq<T>, n: nat): (r: seq<T>)
    ensures |r| == if |s| < n then |s| else n
    ensures r == s[..|r|]
  {
    if |s| < n then s else s[..n]
  }
}
