/** Sequence helpers standing in for Array.prototype.filter and for
    "every pair of entries satisfies R". */
module Seqs {

  /** Array.prototype.filter: the elements of s satisfying p, in their order. */
  function Filter<T(!new)>(s: seq<T>, p: T -> bool): (r: seq<T>)
    ensures |r| <= |s|
    ensures forall x :: x in r <==> x in s && p(x)
    decreases |s|
  {
    if s == [] then [] else (if p(s[0]) then [s[0]] else []) + Filter(s[1..], p)
  }

  /** filter keeps every copy of a kept element and drops every copy of the others. */
  lemma {:induction false} FilterMultiplicity<T(!new)>(s: seq<T>, p: T -> bool)
    ensures forall x :: multiset(Filter(s, p))[x] == if p(x) then multiset(s)[x] else 0
    decreases |s|
  {
    if s != [] {
      FilterMultiplicity(s[1..], p);
      assert s == [s[0]] + s[1..];
    }
  }

  /** a is s with some entries left out and the rest kept in order. */
  predicate IsSubseq<T(==)>(a: seq<T>, s: seq<T>)
    decreases |s|
  {
    && |a| <= |s|
    && (a == [] || (s != [] && ((a[0] == s[0] && IsSubseq(a[1..], s[1..])) || IsSubseq(a, s[1..]))))
  }

  lemma {:induction false} FilterIsSubseq<T(!new)>(s: seq<T>, p: T -> bool)
    ensures IsSubseq(Filter(s, p), s)
    decreases |s|
  {
    if s != [] {
      FilterIsSubseq(s[1..], p);
      if p(s[0]) {
        assert Filter(s, p) == [s[0]] + Filter(s[1..], p);
        assert Filter(s, p)[1..] == Filter(s[1..], p);
      } else {
        assert Filter(s, p) == Filter(s[1..], p);
      }
    }
  }

  lemma FilterCons<T(!new)>(x: T, s: seq<T>, p: T -> bool)
    ensures Filter([x] + s, p) == (if p(x) then [x] else []) + Filter(s, p)
  {
    assert ([x] + s)[1..] == s;
  }

  /** Filtering with a predicate every element satisfies returns the sequence itself. */
  lemma {:induction false} FilterKeepsAll<T(!new)>(s: seq<T>, p: T -> bool)
    requires forall x :: x in s ==> p(x)
    ensures Filter(s, p) == s
    decreases |s|
  {
    if s != [] {
      assert s == [s[0]] + s[1..];
      FilterKeepsAll(s[1..], p);
    }
  }

  /** The elements kept by p and those kept by its negation add up to the whole. */
  lemma {:induction false} FilterSplitsLength<T(!new)>(s: seq<T>, p: T -> bool, q: T -> bool)
    requires forall x :: x in s ==> (q(x) <==> !p(x))
    ensures |Filter(s, p)| + |Filter(s, q)| == |s|
    decreases |s|
  {
    if s != [] {
      FilterSplitsLength(s[1..], p, q);
    }
  }

  /** R holds from every entry to every later one. */
  predicate Pairwise<T>(s: seq<T>, R: (T, T) -> bool) {
    forall i, j :: 0 <= i < j < |s| ==> R(s[i], s[j])
  }

  /** The first entry of a pairwise sequence is related to every later one. */
  lemma HeadRelated<T>(s: seq<T>, R: (T, T) -> bool)
    requires s != [] && Pairwise(s, R)
    ensures forall y :: y in s[1..] ==> R(s[0], y)
  {
    forall y | y in s[1..] ensures R(s[0], y) {
      var k :| 0 <= k < |s[1..]| && s[1..][k] == y;
      assert s[k + 1] == y;
    }
  }

  lemma {:induction false} FilterKeepsPairwise<T(!new)>(s: seq<T>, p: T -> bool, R: (T, T) -> bool)
    requires Pairwise(s, R)
    ensures Pairwise(Filter(s, p), R)
    decreases |s|
  {
    if s != [] {
      var t := Filter(s[1..], p);
      assert Pairwise(s[1..], R) by {
        forall i, j | 0 <= i < j < |s[1..]| ensures R(s[1..][i], s[1..][j]) {
          assert s[1..][i] == s[i + 1] && s[1..][j] == s[j + 1];
        }
      }
      FilterKeepsPairwise(s[1..], p, R);
      if p(s[0]) {
        HeadRelated(s, R);
        var f := [s[0]] + t;
        forall i, j | 0 <= i < j < |f| ensures R(f[i], f[j]) {
          assert f[j] == t[j - 1] && t[j - 1] in t;
          if i > 0 {
            assert f[i] == t[i - 1];
          }
        }
        assert Filter(s, p) == f;
      } else {
        assert Filter(s, p) == t;
      }
    }
  }

  /** Appending an entry related to all before it keeps the relation pairwise. */
  lemma AppendKeepsPairwise<T>(s: seq<T>, x: T, R: (T, T) -> bool)
    requires Pairwise(s, R)
    requires forall k :: 0 <= k < |s| ==> R(s[k], x)
    ensures Pairwise(s + [x], R)
  {
    var f := s + [x];
    forall i, j | 0 <= i < j < |f| ensures R(f[i], f[j]) {
      if j < |s| {
        assert f[i] == s[i] && f[j] == s[j];
      } else {
        assert f[i] == s[i] && f[j] == x;
      }
    }
  }

  /** Prepending an entry related to all after it keeps the relation pairwise. */
  lemma PrependKeepsPairwise<T>(x: T, s: seq<T>, R: (T, T) -> bool)
    requires Pairwise(s, R)
    requires forall k :: 0 <= k < |s| ==> R(x, s[k])
    ensures Pairwise([x] + s, R)
  {
    var f := [x] + s;
    forall i, j | 0 <= i < j < |f| ensures R(f[i], f[j]) {
      if i == 0 {
        assert f[j] == s[j - 1];
      } else {
        assert f[i] == s[i - 1] && f[j] == s[j - 1];
      }
    }
  }
}
