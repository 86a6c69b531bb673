/**
 * `Array.prototype.sort` with a numeric comparator of the form
 * `order === "asc" ? key(a) - key(b) : key(b) - key(a)`, which the
 * client list uses for every sort. Since ECMAScript 2019 the sort is
 * stable, so its result is fully determined: it is ordered by the key
 * and, among elements with equal keys, keeps their earlier order.
 * `Sort` is that result (an insertion sort written as a function);
 * `SortInPlace` is the in-place sort on an array, proved to produce it;
 * `StableSortIsUnique` shows any other stable sort produces it too.
 */
module StableSort {
  import opened Seqs

  datatype SortOrder = Asc | Desc

  /** The comparator is negative: `x` must come strictly before `y`. */
  predicate Before<T>(key: T -> int, order: SortOrder, x: T, y: T) {
    if order == Asc then key(x) < key(y) else key(x) > key(y)
  }

  /** No element belongs strictly before an earlier one. */
  ghost predicate Ordered<T>(s: seq<T>, key: T -> int, order: SortOrder) {
    forall i, j :: 0 <= i < j < |s| ==> !Before(key, order, s[j], s[i])
  }

  /** The test "carries key `k`". */
  function KeyIs<T>(key: T -> int, k: int): T -> bool {
    x => key(x) == k
  }

  /** The elements of `s` whose key is `k`, in order: the run a stable sort must not reorder. */
  function WithKey<T(==)>(s: seq<T>, key: T -> int, k: int): seq<T> {
    Filter(s, KeyIs(key, k))
  }

  lemma WithKeySnoc<T>(s: seq<T>, x: T, key: T -> int, k: int)
    ensures WithKey(s + [x], key, k) == WithKey(s, key, k) + (if key(x) == k then [x] else [])
  {
    FilterConcat(s, [x], KeyIs(key, k));
  }

  /** Inserts `x` into `t` after every element it does not belong strictly before. */
  function Insert<T(==)>(t: seq<T>, x: T, key: T -> int, order: SortOrder): (r: seq<T>)
    ensures |r| == |t| + 1
  {
    if t == [] || !Before(key, order, x, t[|t| - 1]) then t + [x]
    else
      assert t == t[..|t| - 1] + [t[|t| - 1]];
      Insert(t[..|t| - 1], x, key, order) + [t[|t| - 1]]
  }

  /** The stable sort of `s`: sort all but the last element, then insert the last. */
  function Sort<T(==)>(s: seq<T>, key: T -> int, order: SortOrder): (r: seq<T>)
    ensures |r| == |s|
  {
    if s == [] then []
    else
      assert s == s[..|s| - 1] + [s[|s| - 1]];
      Insert(Sort(s[..|s| - 1], key, order), s[|s| - 1], key, order)
  }

  /** Insertion adds exactly `x`. */
  lemma {:induction false} InsertPermutes<T>(t: seq<T>, x: T, key: T -> int, order: SortOrder)
    ensures multiset(Insert(t, x, key, order)) == multiset(t) + multiset{x}
  {
    if t != [] && Before(key, order, x, t[|t| - 1]) {
      var t' := t[..|t| - 1];
      assert t == t' + [t[|t| - 1]];
      InsertPermutes(t', x, key, order);
    }
  }

  /** The sort's result is a permutation of its input. */
  lemma {:induction false} SortPermutes<T>(s: seq<T>, key: T -> int, order: SortOrder)
    ensures multiset(Sort(s, key, order)) == multiset(s)
  {
    if s != [] {
      var s' := s[..|s| - 1];
      assert s == s' + [s[|s| - 1]];
      SortPermutes(s', key, order);
      InsertPermutes(Sort(s', key, order), s[|s| - 1], key, order);
    }
  }

  /** Inserting into an ordered sequence keeps it ordered. */
  lemma {:induction false} InsertOrdered<T>(t: seq<T>, x: T, key: T -> int, order: SortOrder)
    requires Ordered(t, key, order)
    ensures Ordered(Insert(t, x, key, order), key, order)
  {
    if t == [] || !Before(key, order, x, t[|t| - 1]) {
      forall i | 0 <= i < |t| - 1 ensures !Before(key, order, x, t[i]) {
        assert !Before(key, order, t[|t| - 1], t[i]);
      }
    } else {
      var t', last := t[..|t| - 1], t[|t| - 1];
      var r' := Insert(t', x, key, order);
      InsertOrdered(t', x, key, order);
      InsertPermutes(t', x, key, order);
      forall i | 0 <= i < |r'| ensures !Before(key, order, last, r'[i]) {
        assert r'[i] in multiset(r');
        if r'[i] != x {
          assert r'[i] in multiset(t');
          var j :| 0 <= j < |t'| && t'[j] == r'[i];
          assert !Before(key, order, t[|t| - 1], t[j]);
        }
      }
    }
  }

  /** The sort's result is ordered by the key. */
  lemma {:induction false} SortOrdered<T>(s: seq<T>, key: T -> int, order: SortOrder)
    ensures Ordered(Sort(s, key, order), key, order)
  {
    if s != [] {
      SortOrdered(s[..|s| - 1], key, order);
      InsertOrdered(Sort(s[..|s| - 1], key, order), s[|s| - 1], key, order);
    }
  }

  lemma {:induction false} InsertWithKey<T>(t: seq<T>, x: T, key: T -> int, order: SortOrder, k: int)
    ensures WithKey(Insert(t, x, key, order), key, k)
         == WithKey(t, key, k) + (if key(x) == k then [x] else [])
  {
    if t == [] || !Before(key, order, x, t[|t| - 1]) {
      WithKeySnoc(t, x, key, k);
    } else {
      var t', last := t[..|t| - 1], t[|t| - 1];
      assert t == t' + [last];
      assert Insert(t, x, key, order) == Insert(t', x, key, order) + [last];
      InsertWithKey(t', x, key, order, k);
      WithKeySnoc(Insert(t', x, key, order), last, key, k);
      WithKeySnoc(t', last, key, k);
    }
  }

  /** Stability: for every key, the elements carrying it keep their input order. */
  lemma {:induction false} SortStable<T>(s: seq<T>, key: T -> int, order: SortOrder, k: int)
    ensures WithKey(Sort(s, key, order), key, k) == WithKey(s, key, k)
  {
    if s != [] {
      var s', last := s[..|s| - 1], s[|s| - 1];
      assert s == s' + [last];
      SortStable(s', key, order, k);
      InsertWithKey(Sort(s', key, order), last, key, order, k);
      WithKeySnoc(s', last, key, k);
    }
  }

  /**
   * Any ordered arrangement that keeps every key's run in input order is
   * `Sort(s)`: every stable sort with this comparator gives the same result.
   */
  lemma {:induction false} StableSortIsUnique<T>(s: seq<T>, r: seq<T>, key: T -> int, order: SortOrder)
    requires Ordered(r, key, order)
    requires forall k :: WithKey(r, key, k) == WithKey(s, key, k)
    ensures r == Sort(s, key, order)
  {
    var t := Sort(s, key, order);
    SortOrdered(s, key, order);
    forall k ensures WithKey(r, key, k) == WithKey(t, key, k) {
      SortStable(s, key, order, k);
    }
    OrderedRunsDetermine(r, t, key, order);
  }

  lemma {:induction false} OrderedRunsDetermine<T>(a: seq<T>, b: seq<T>, key: T -> int, order: SortOrder)
    requires Ordered(a, key, order) && Ordered(b, key, order)
    requires forall k :: WithKey(a, key, k) == WithKey(b, key, k)
    ensures a == b
    decreases |a| + |b|
  {
    if a == [] || b == [] {
      if a != [] { LastRunNonEmpty(a, b, key); }
      if b != [] { LastRunNonEmpty(b, a, key); }
    } else {
      var a', x := a[..|a| - 1], a[|a| - 1];
      var b', y := b[..|b| - 1], b[|b| - 1];
      assert a == a' + [x] && b == b' + [y];
      // The last elements carry the same, extreme, key.
      KeyPresent(a, b, key, order, |a| - 1);
      KeyPresent(b, a, key, order, |b| - 1);
      assert key(y) == key(x);
      DropLastOfRuns(a', x, b', y, key);
      OrderedRunsDetermine(a', b', key, order);
    }
  }

  /** Equal runs stay equal once a common-key last element is dropped from both sides. */
  lemma DropLastOfRuns<T>(a: seq<T>, x: T, b: seq<T>, y: T, key: T -> int)
    requires key(x) == key(y)
    requires forall k :: WithKey(a + [x], key, k) == WithKey(b + [y], key, k)
    ensures x == y
    ensures forall k :: WithKey(a, key, k) == WithKey(b, key, k)
  {
    var m := key(x);
    WithKeySnoc(a, x, key, m);
    WithKeySnoc(b, y, key, m);
    var w := WithKey(a + [x], key, m);
    assert w == WithKey(a, key, m) + [x] && w == WithKey(b, key, m) + [y];
    assert w[|w| - 1] == x && w[|w| - 1] == y;
    forall k ensures WithKey(a, key, k) == WithKey(b, key, k) {
      WithKeySnoc(a, x, key, k);
      WithKeySnoc(b, y, key, k);
      assert WithKey(a + [x], key, k) == WithKey(b + [y], key, k);
      if k == m {
        assert WithKey(a, key, k) == w[..|w| - 1];
        assert WithKey(b, key, k) == w[..|w| - 1];
      } else {
        assert WithKey(a + [x], key, k) == WithKey(a, key, k);
        assert WithKey(b + [y], key, k) == WithKey(b, key, k);
      }
    }
  }

  /** A non-empty sequence has a non-empty run, so one with the same runs is non-empty. */
  lemma LastRunNonEmpty<T>(a: seq<T>, b: seq<T>, key: T -> int)
    requires a != []
    requires forall k :: WithKey(a, key, k) == WithKey(b, key, k)
    ensures b != []
  {
    assert a[0] in WithKey(a, key, key(a[0]));
  }

  /** The key of `a`'s element `i` occurs in `b`, so `b`'s last key is at least as extreme. */
  lemma KeyPresent<T>(a: seq<T>, b: seq<T>, key: T -> int, order: SortOrder, i: nat)
    requires i < |a| && b != []
    requires Ordered(b, key, order)
    requires forall k :: WithKey(a, key, k) == WithKey(b, key, k)
    ensures !Before(key, order, b[|b| - 1], a[i])
  {
    var k := key(a[i]);
    assert a[i] in WithKey(a, key, k);
    assert a[i] in WithKey(b, key, k);
    var j :| 0 <= j < |b| && b[j] == a[i];
  }

  /** Filtering keeps an ordered sequence ordered. */
  lemma {:induction false} FilterOrdered<T>(s: seq<T>, p: T -> bool, key: T -> int, order: SortOrder)
    requires Ordered(s, key, order)
    ensures Ordered(Filter(s, p), key, order)
  {
    if s != [] {
      FilterOrdered(s[1..], p, key, order);
      var rest := Filter(s[1..], p);
      if p(s[0]) {
        forall j | 0 <= j < |rest| ensures !Before(key, order, rest[j], s[0]) {
          assert rest[j] in s[1..];
        }
      }
    }
  }

  /** `x` lands at `j` when it belongs before every element from `j` on, and not before `p[j - 1]`. */
  lemma {:induction false} InsertPosition<T>(p: seq<T>, x: T, j: nat, key: T -> int, order: SortOrder)
    requires j <= |p|
    requires j == 0 || !Before(key, order, x, p[j - 1])
    requires forall k :: j <= k < |p| ==> Before(key, order, x, p[k])
    ensures Insert(p, x, key, order) == p[..j] + [x] + p[j..]
    decreases |p|
  {
    if j < |p| {
      var p', last := p[..|p| - 1], p[|p| - 1];
      assert Before(key, order, x, last);
      assert Insert(p, x, key, order) == Insert(p', x, key, order) + [last];
      InsertPosition(p', x, j, key, order);
      assert p'[..j] == p[..j];
      assert p'[j..] + [last] == p[j..];
    } else if p != [] {
      assert p[..j] == p && p[j..] == [];
    }
  }

  lemma SwapShape<T>(p: seq<T>, x: T, j: nat, i: nat, rest: seq<T>)
    requires 0 < j <= i <= |p|
    ensures (p[..j] + [x] + p[j..i] + rest)[j - 1 := x][j := p[j - 1]] == p[..j - 1] + [x] + p[j - 1..i] + rest
  {
  }

  /**
   * One pass of the insertion sort: `a` holds `p`, then `x` at index `i`,
   * then `rest`; swap `x` leftwards past the elements it belongs strictly before.
   */
  method InsertAt<T(==)>(a: array<T>, i: nat, key: T -> int, order: SortOrder,
                         ghost p: seq<T>, ghost x: T, ghost rest: seq<T>)
    requires |p| == i && a[..] == p + [x] + rest
    modifies a
    ensures a[..] == Insert(p, x, key, order) + rest
  {
    assert a[i] == x;
    assert a[..] == p[..i] + [x] + p[i..i] + rest;
    var j := i;
    while j > 0 && Before(key, order, a[j], a[j - 1])
      invariant 0 <= j <= i
      invariant a[..] == p[..j] + [x] + p[j..i] + rest
      invariant forall k :: j <= k < i ==> Before(key, order, x, p[k])
    {
      ghost var before := a[..];
      assert a[j - 1] == before[j - 1] == p[j - 1];
      assert a[j] == x;
      a[j - 1], a[j] := a[j], a[j - 1];
      assert a[..] == before[j - 1 := x][j := p[j - 1]];
      SwapShape(p, x, j, i, rest);
      j := j - 1;
    }
    assert j > 0 ==> a[j - 1] == p[j - 1] && a[j] == x;
    InsertPosition(p, x, j, key, order);
  }

  /** One outer step of the insertion sort, as sequences. */
  lemma SortStep<T>(s: seq<T>, i: nat, key: T -> int, order: SortOrder)
    requires i < |s|
    ensures |Sort(s[..i], key, order)| == i
    ensures Sort(s[..i], key, order) + s[i..] == Sort(s[..i], key, order) + [s[i]] + s[i + 1..]
    ensures Sort(s[..i + 1], key, order) + s[i + 1..] == Insert(Sort(s[..i], key, order), s[i], key, order) + s[i + 1..]
  {
    assert s[..i + 1][..i] == s[..i];
    assert s[i..] == [s[i]] + s[i + 1..];
  }

  /** `a.sort(cmp)` on an array, by insertion. */
  method SortInPlace<T(==)>(a: array<T>, key: T -> int, order: SortOrder)
    modifies a
    ensures a[..] == Sort(old(a[..]), key, order)
  {
    ghost var s := a[..];
    var i := 0;
    while i < a.Length
      invariant 0 <= i <= a.Length
      invariant a[..] == Sort(s[..i], key, order) + s[i..]
    {
      SortStep(s, i, key, order);
      InsertAt(a, i, key, order, Sort(s[..i], key, order), s[i], s[i + 1..]);
      i := i + 1;
    }
    assert s[..a.Length] == s;
  }

  /** `[...s].sort(cmp)`: sort a fresh copy, leaving the input alone. */
  method SortedCopy<T(==)>(s: seq<T>, key: T -> int, order: SortOrder) returns (r: seq<T>)
    ensures r == Sort(s, key, order)
  {
    var a := new T[|s|](i requires 0 <= i < |s| => s[i]);
    assert a[..] == s;
    SortInPlace(a, key, order);
    r := a[..];
  }

  /** No two elements of `s` share a key. */
  predicate KeysDistinct<T>(s: seq<T>, key: T -> int) {
    forall i, j :: 0 <= i < j < |s| ==> key(s[i]) != key(s[j])
  }

  /** With no two keys alike, each key's run holds at most one element. */
  lemma {:induction false} DistinctRunsShort<T>(s: seq<T>, key: T -> int, k: int)
    requires KeysDistinct(s, key)
    ensures |WithKey(s, key, k)| <= 1
  {
    if s != [] {
      assert KeysDistinct(s[1..], key) by {
        forall i, j | 0 <= i < j < |s[1..]| ensures key(s[1..][i]) != key(s[1..][j]) {
          assert s[1..][i] == s[i + 1] && s[1..][j] == s[j + 1];
        }
      }
      DistinctRunsShort(s[1..], key, k);
      if key(s[0]) == k {
        assert forall j | 0 <= j < |s[1..]| :: key(s[1..][j]) != k by {
          forall j | 0 <= j < |s[1..]| ensures key(s[1..][j]) != k {
            assert s[1..][j] == s[j + 1];
          }
        }
        FilterNone(s[1..], KeyIs(key, k));
      }
    }
  }

  /**
   * When no two keys tie, the descending order is the ascending order read
   * backwards: stability has no ties to decide.
   */
  lemma SortReverse<T>(s: seq<T>, key: T -> int)
    requires KeysDistinct(s, key)
    ensures Sort(s, key, Desc) == Reverse(Sort(s, key, Asc))
  {
    var t := Sort(s, key, Asc);
    var r := Reverse(t);
    SortOrdered(s, key, Asc);
    assert Ordered(r, key, Desc) by {
      forall i, j | 0 <= i < j < |r| ensures !Before(key, Desc, r[j], r[i]) {
        assert r[i] == t[|t| - 1 - i] && r[j] == t[|t| - 1 - j];
      }
    }
    forall k ensures WithKey(r, key, k) == WithKey(s, key, k) {
      SortStable(s, key, Asc, k);
      FilterReverse(t, KeyIs(key, k));
      DistinctRunsShort(s, key, k);
    }
    StableSortIsUnique(s, r, key, Desc);
  }

  /** Everything `Array.prototype.sort` promises, for the result `Sort` describes. */
  lemma SortContract<T>(s: seq<T>, key: T -> int, order: SortOrder)
    ensures multiset(Sort(s, key, order)) == multiset(s)
    ensures Ordered(Sort(s, key, order), key, order)
    ensures forall k :: WithKey(Sort(s, key, order), key, k) == WithKey(s, key, k)
  {
    SortPermutes(s, key, order);
    SortOrdered(s, key, order);
    forall k ensures WithKey(Sort(s, key, order), key, k) == WithKey(s, key, k) {
      SortStable(s, key, order, k);
    }
  }
}
