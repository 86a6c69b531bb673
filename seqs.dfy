/**
 * Sequence operations that the source uses through `Array.prototype`:
 * `filter`, `find`, `map` and `[...new Set(s)]`, with what each one
 * promises about order and multiplicity.
 */
module Seqs {
  import opened Wrappers

  /** `a` can be obtained from `b` by deleting elements (greedy matching). */
  predicate IsSubsequence<T(==)>(a: seq<T>, b: seq<T>)
    decreases |b|
  {
    if a == [] then true
    else if b == [] then false
    else if a[0] == b[0] then IsSubsequence(a[1..], b[1..])
    else IsSubsequence(a, b[1..])
  }

  /**
   * `r` keeps exactly the elements of `s` that satisfy `p`: every copy of
   * them and nothing else, in their original relative order.
   */
  ghost predicate Selected<T>(r: seq<T>, s: seq<T>, p: T -> bool) {
    && IsSubsequence(r, s)
    && forall x | x in multiset(s) :: multiset(r)[x] == if p(x) then multiset(s)[x] else 0
  }

  /** `s.filter(p)`. */
  function Filter<T(==)>(s: seq<T>, p: T -> bool): (r: seq<T>)
    ensures |r| <= |s|
    ensures forall x | x in r :: x in s && p(x)
    ensures forall x | x in s && p(x) :: x in r
  {
    if s == [] then []
    else if p(s[0]) then [s[0]] + Filter(s[1..], p)
    else Filter(s[1..], p)
  }

  /** The filter keeps every copy of the elements satisfying `p`, in order, and nothing else. */
  lemma {:induction false} FilterSelected<T>(s: seq<T>, p: T -> bool)
    ensures Selected(Filter(s, p), s, p)
  {
    if s != [] {
      var rest := Filter(s[1..], p);
      FilterSelected(s[1..], p);
      assert s == [s[0]] + s[1..];
      assert multiset(s) == multiset{s[0]} + multiset(s[1..]);
      if p(s[0]) {
        assert ([s[0]] + rest)[1..] == rest;
        assert multiset([s[0]] + rest) == multiset{s[0]} + multiset(rest);
      } else {
        assert rest == [] || rest[0] != s[0] by {
          if rest != [] { assert rest[0] in rest; }
        }
      }
    }
  }

  lemma {:induction false} FilterConcat<T>(a: seq<T>, b: seq<T>, p: T -> bool)
    ensures Filter(a + b, p) == Filter(a, p) + Filter(b, p)
  {
    if a == [] {
      assert a + b == b;
    } else {
      assert (a + b)[0] == a[0];
      assert (a + b)[1..] == a[1..] + b;
      FilterConcat(a[1..], b, p);
    }
  }

  /** Filtering by a predicate every element satisfies is the identity. */
  lemma {:induction false} FilterAll<T>(s: seq<T>, p: T -> bool)
    requires forall x :: x in s ==> p(x)
    ensures Filter(s, p) == s
  {
    if s != [] {
      assert s[0] in s;
      FilterAll(s[1..], p);
    }
  }

  /** `s` read back to front. */
  function Reverse<T>(s: seq<T>): (r: seq<T>)
    ensures |r| == |s|
    ensures forall i | 0 <= i < |s| :: r[i] == s[|s| - 1 - i]
  {
    if s == [] then [] else Reverse(s[1..]) + [s[0]]
  }

  /** Filtering the reversed sequence gives the reversed filter. */
  lemma {:induction false} FilterReverse<T>(s: seq<T>, p: T -> bool)
    ensures Filter(Reverse(s), p) == Reverse(Filter(s, p))
  {
    if s != [] {
      FilterReverse(s[1..], p);
      FilterConcat(Reverse(s[1..]), [s[0]], p);
      if p(s[0]) {
        var f := [s[0]] + Filter(s[1..], p);
        assert f[1..] == Filter(s[1..], p);
      }
    }
  }

  /** `s.map(f)`. */
  function Map<T, U>(s: seq<T>, f: T -> U): (r: seq<U>)
    ensures |r| == |s| && forall i :: 0 <= i < |s| ==> r[i] == f(s[i])
  {
    if s == [] then [] else [f(s[0])] + Map(s[1..], f)
  }

  /** The values of `s.map(f)` are exactly the images of the elements of `s`. */
  lemma MapMembers<T, U>(s: seq<T>, f: T -> U)
    ensures forall y :: y in Map(s, f) <==> exists x :: x in s && f(x) == y
  {
    var r := Map(s, f);
    forall y ensures y in r <==> exists x :: x in s && f(x) == y {
      if y in r {
        var i :| 0 <= i < |r| && r[i] == y;
        assert s[i] in s;
      }
      if exists x :: x in s && f(x) == y {
        var x :| x in s && f(x) == y;
        var i :| 0 <= i < |s| && s[i] == x;
        assert r[i] == y;
      }
    }
  }

  lemma MapPair<T, U>(a: T, b: T, f: T -> U)
    ensures Map([a, b], f) == [f(a), f(b)]
  {
  }

  /** No element occurs twice. */
  predicate Distinct<T(==)>(s: seq<T>) {
    forall i, j :: 0 <= i < j < |s| ==> s[i] != s[j]
  }

  /**
   * `[...new Set(s)]`: the distinct elements of `s`, each where it first
   * occurs.
   */
  function Dedupe<T(==)>(s: seq<T>): (r: seq<T>)
    ensures Distinct(r)
    ensures forall x | x in r :: x in s
    ensures forall x | x in s :: x in r
  {
    if s == [] then []
    else
      var r := Dedupe(s[..|s| - 1]);
      assert s == s[..|s| - 1] + [s[|s| - 1]];
      if s[|s| - 1] in r then r else r + [s[|s| - 1]]
  }

  /** A prefix one longer is the prefix plus the next element. */
  lemma PrefixSnoc<T>(s: seq<T>, i: nat)
    requires i < |s|
    ensures s[..i + 1] == s[..i] + [s[i]]
  {
  }

  /** One step of the filter over a suffix. */
  lemma FilterStep<T>(s: seq<T>, k: nat, p: T -> bool)
    requires k < |s|
    ensures Filter(s[k..], p) == (if p(s[k]) then [s[k]] else []) + Filter(s[k + 1..], p)
  {
    assert s[k..][1..] == s[k + 1..];
  }

  /** Filtering from `i` and from `j` agree when nothing in between satisfies `p`. */
  lemma FilterSkip<T>(s: seq<T>, i: nat, j: nat, p: T -> bool)
    requires i <= j <= |s|
    requires forall m | i <= m < j :: !p(s[m])
    ensures Filter(s[i..], p) == Filter(s[j..], p)
  {
    forall x | x in s[i..j] ensures !p(x) {
      var m :| 0 <= m < j - i && s[i..j][m] == x;
      assert s[i + m] == x;
    }
    FilterNone(s[i..j], p);
    assert s[i..] == s[i..j] + s[j..];
    FilterConcat(s[i..j], s[j..], p);
  }

  /** When `s[k]` is the last element from `k` on that satisfies `p`, the filter from `k` keeps just it. */
  lemma FilterLastFrom<T>(s: seq<T>, k: nat, p: T -> bool)
    requires k < |s| && p(s[k])
    requires forall m | k < m < |s| :: !p(s[m])
    ensures Filter(s[k..], p) == [s[k]]
  {
    FilterStep(s, k, p);
    FilterSkip(s, k + 1, |s|, p);
    assert s[|s|..] == [];
  }

  /** Past the first of two kept positions, only the second remains. */
  lemma FilterOnlySecond<T>(s: seq<T>, i: nat, j: nat, p: T -> bool)
    requires i < j < |s|
    requires forall m | 0 <= m < |s| :: p(s[m]) <==> m == i || m == j
    ensures Filter(s[i + 1..], p) == [s[j]]
  {
    FilterLastFrom(s, j, p);
    FilterSkip(s, i + 1, j, p);
  }

  /** From the first of two kept positions on, both remain. */
  lemma FilterBothFrom<T>(s: seq<T>, i: nat, j: nat, p: T -> bool)
    requires i < j < |s|
    requires forall m | 0 <= m < |s| :: p(s[m]) <==> m == i || m == j
    ensures Filter(s[i..], p) == [s[i], s[j]]
  {
    FilterOnlySecond(s, i, j, p);
    FilterStep(s, i, p);
  }

  /** When exactly the elements at `i < j` satisfy `p`, the filter keeps those two. */
  lemma FilterExactlyTwo<T>(s: seq<T>, i: nat, j: nat, p: T -> bool)
    requires i < j < |s|
    requires forall m | 0 <= m < |s| :: p(s[m]) <==> m == i || m == j
    ensures Filter(s, p) == [s[i], s[j]]
  {
    FilterBothFrom(s, i, j, p);
    FilterSkip(s, 0, i, p);
    assert s[0..] == s;
  }

  /** Filters agreeing on every element give the same result. */
  lemma {:induction false} FilterExtensional<T>(s: seq<T>, p: T -> bool, q: T -> bool)
    requires forall x | x in s :: p(x) == q(x)
    ensures Filter(s, p) == Filter(s, q)
  {
    if s != [] {
      assert s[0] in s;
      FilterExtensional(s[1..], p, q);
    }
  }

  /** Filtering by a predicate no element satisfies leaves nothing. */
  lemma FilterNone<T>(s: seq<T>, p: T -> bool)
    requires forall x :: x in s ==> !p(x)
    ensures Filter(s, p) == []
  {
  }

  /** Two successive filters equal one filter by the conjunction. */
  lemma {:induction false} FilterFilter<T>(s: seq<T>, p: T -> bool, q: T -> bool, pq: T -> bool)
    requires forall x :: pq(x) == (p(x) && q(x))
    ensures Filter(Filter(s, p), q) == Filter(s, pq)
  {
    if s != [] {
      FilterFilter(s[1..], p, q, pq);
      if p(s[0]) {
        assert Filter([s[0]] + Filter(s[1..], p), q)
            == Filter([s[0]], q) + Filter(Filter(s[1..], p), q) by {
          FilterConcat([s[0]], Filter(s[1..], p), q);
        }
      }
    }
  }

  /** The filter is the only order-preserving selection: `Selected` determines it. */
  lemma {:induction false} SelectedIsFilter<T>(r: seq<T>, s: seq<T>, p: T -> bool)
    requires Selected(r, s, p)
    ensures r == Filter(s, p)
    decreases |s|
  {
    if s == [] {
      assert r == [];
    } else {
      var x := s[0];
      assert s == [x] + s[1..];
      assert multiset(s) == multiset{x} + multiset(s[1..]);
      if r != [] && r[0] == x {
        assert r == [x] + r[1..];
        assert multiset(r) == multiset{x} + multiset(r[1..]);
        assert p(x) by {
          assert multiset(r)[x] > 0;
        }
        SelectedIsFilter(r[1..], s[1..], p);
      } else {
        assert IsSubsequence(r, s[1..]);
        SubsequenceMultiset(r, s[1..]);
        SelectedIsFilter(r, s[1..], p);
      }
    }
  }

  lemma {:induction false} SubsequenceMultiset<T>(a: seq<T>, b: seq<T>)
    requires IsSubsequence(a, b)
    ensures multiset(a) <= multiset(b)
    decreases |b|
  {
    if a != [] {
      assert b == [b[0]] + b[1..];
      if a[0] == b[0] {
        assert a == [a[0]] + a[1..];
        SubsequenceMultiset(a[1..], b[1..]);
      } else {
        SubsequenceMultiset(a, b[1..]);
      }
    }
  }

  /** `s.find(p)`: the first element satisfying `p`, if any. */
  function Find<T>(s: seq<T>, p: T -> bool): (r: Option<T>)
    ensures r.None? <==> forall i :: 0 <= i < |s| ==> !p(s[i])
    ensures r.Some? ==> exists i :: 0 <= i < |s| && s[i] == r.value && p(s[i])
                                     && forall j :: 0 <= j < i ==> !p(s[j])
  {
    if s == [] then None
    else if p(s[0]) then Some(s[0])
    else
      var r := Find(s[1..], p);
      assert forall i :: 1 <= i < |s| ==> s[i] == s[1..][i - 1];
      r
  }
}
