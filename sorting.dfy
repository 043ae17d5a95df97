/** The JavaScript array operations the dashboard relies on, as functions:
    the stable `Array.prototype.sort` (driven by a numeric sort key),
    `filter`, `slice(0, n)` and the summing `reduce`. */
module Sorting {

  function Min(a: int, b: int): int { if a <= b then a else b }

  function Max(a: int, b: int): int { if a >= b then a else b }

  /** Every element's key is at least the key of every later element. */
  ghost predicate SortedDesc<T>(s: seq<T>, key: T -> real) {
    forall i, j :: 0 <= i < j < |s| ==> key(s[i]) >= key(s[j])
  }

  /** Every element's key is at most the key of every later element. */
  ghost predicate SortedAsc<T>(s: seq<T>, key: T -> real) {
    forall i, j :: 0 <= i < j < |s| ==> key(s[i]) <= key(s[j])
  }

  /** The elements of `s` whose key is `k`, in their order in `s`. */
  function WithKey<T>(s: seq<T>, key: T -> real, k: real): seq<T>
  {
    if s == [] then []
    else (if key(s[0]) == k then [s[0]] else []) + WithKey(s[1..], key, k)
  }

  /** `r` keeps every group of equal-key elements of `s` in its original
      relative order: what makes a sort stable. */
  ghost predicate StableWrt<T>(r: seq<T>, s: seq<T>, key: T -> real) {
    forall k :: WithKey(r, key, k) == WithKey(s, key, k)
  }

  /** The key read backwards: a stable descending sort on it is the stable
      ascending sort on `key`. */
  function Negated<T>(key: T -> real): T -> real {
    x => -key(x)
  }

  /** An element no smaller than the head of a sorted sequence can go in front. */
  lemma SortedCons<T>(h: T, t: seq<T>, key: T -> real)
    requires SortedDesc(t, key)
    requires t == [] || key(h) >= key(t[0])
    ensures SortedDesc([h] + t, key)
  {
    var r := [h] + t;
    forall i, j | 0 <= i < j < |r| ensures key(r[i]) >= key(r[j]) {
      if i == 0 && j > 1 {
        assert r[j] == t[j - 1];
      }
    }
  }

  /** Places `x` in front of the first element whose key is not larger,
      so `x` goes before the elements of equal key that follow it. */
  function Insert<T>(x: T, r: seq<T>, key: T -> real): (r': seq<T>)
    requires SortedDesc(r, key)
    ensures |r'| == |r| + 1
    ensures multiset(r') == multiset(r) + multiset{x}
    ensures r'[0] == x || (r != [] && r'[0] == r[0])
    ensures SortedDesc(r', key)
  {
    if r == [] || key(r[0]) <= key(x) then
      SortedCons(x, r, key);
      [x] + r
    else
      var t := Insert(x, r[1..], key);
      assert r == [r[0]] + r[1..];
      assert key(r[0]) >= key(t[0]);
      SortedCons(r[0], t, key);
      [r[0]] + t
  }

  /** The stable descending sort `[...s].sort((a, b) => key(b) - key(a))`. */
  function SortDesc<T>(s: seq<T>, key: T -> real): (r: seq<T>)
    ensures |r| == |s|
    ensures multiset(r) == multiset(s)
    ensures SortedDesc(r, key)
  {
    if s == [] then []
    else
      assert s == [s[0]] + s[1..];
      Insert(s[0], SortDesc(s[1..], key), key)
  }

  /** The stable ascending sort `[...s].sort((a, b) => key(a) - key(b))`. */
  function SortAsc<T>(s: seq<T>, key: T -> real): (r: seq<T>)
    ensures |r| == |s|
    ensures multiset(r) == multiset(s)
    ensures SortedAsc(r, key)
  {
    var r := SortDesc(s, Negated(key));
    assert forall i, j :: 0 <= i < j < |r| ==> Negated(key)(r[i]) >= Negated(key)(r[j]);
    r
  }

  /** `s.slice(0, n)` for a non-negative `n`: the prefix of `s` with
      `n` elements, or all of `s` when it is shorter. */
  function Take<T>(s: seq<T>, n: nat): (r: seq<T>)
    ensures |r| == Min(n, |s|)
    ensures r <= s
    ensures multiset(r) <= multiset(s)
  {
    var r := s[..Min(n, |s|)];
    assert s == r + s[|r|..];
    assert multiset(s) == multiset(r) + multiset(s[|r|..]);
    r
  }

  /** `s.filter(p)`. */
  function Filter<T>(s: seq<T>, p: T -> bool): (r: seq<T>)
    ensures |r| <= |s|
    ensures forall i :: 0 <= i < |r| ==> p(r[i])
    ensures multiset(r) <= multiset(s)
    ensures forall i :: 0 <= i < |s| && p(s[i]) ==> multiset(r)[s[i]] == multiset(s)[s[i]]
  {
    if s == [] then []
    else
      assert s == [s[0]] + s[1..];
      (if p(s[0]) then [s[0]] else []) + Filter(s[1..], p)
  }

  /** `s.reduce((sum, x) => sum + f(x), 0)` over integer values. */
  function SumInt<T>(s: seq<T>, f: T -> int): int
  {
    if s == [] then 0 else f(s[0]) + SumInt(s[1..], f)
  }

  /** `s.reduce((sum, x) => sum + f(x), 0)` over real values. */
  function SumReal<T>(s: seq<T>, f: T -> real): real
  {
    if s == [] then 0.0 else f(s[0]) + SumReal(s[1..], f)
  }

  /** The number of elements satisfying `p`: `s.filter(p).length`. */
  function CountWhere<T>(s: seq<T>, p: T -> bool): (n: nat)
    ensures n == |Filter(s, p)|
  {
    if s == [] then 0 else (if p(s[0]) then 1 else 0) + CountWhere(s[1..], p)
  }

  // ---------------------------------------------------------------------
  // Lemmas

  lemma {:induction false} WithKeyConcat<T>(a: seq<T>, b: seq<T>, key: T -> real, k: real)
    ensures WithKey(a + b, key, k) == WithKey(a, key, k) + WithKey(b, key, k)
  {
    if a == [] {
      assert a + b == b;
    } else {
      var h := if key(a[0]) == k then [a[0]] else [];
      assert (a + b)[0] == a[0];
      assert (a + b)[1..] == a[1..] + b;
      calc {
        WithKey(a + b, key, k);
        h + WithKey(a[1..] + b, key, k);
        { WithKeyConcat(a[1..], b, key, k); }
        h + (WithKey(a[1..], key, k) + WithKey(b, key, k));
        (h + WithKey(a[1..], key, k)) + WithKey(b, key, k);
        WithKey(a, key, k) + WithKey(b, key, k);
      }
    }
  }

  lemma {:induction false} InsertStable<T>(x: T, r: seq<T>, key: T -> real, k: real)
    requires SortedDesc(r, key)
    ensures WithKey(Insert(x, r, key), key, k) == WithKey([x] + r, key, k)
  {
    if r == [] || key(r[0]) <= key(x) {
    } else {
      var t := Insert(x, r[1..], key);
      InsertStable(x, r[1..], key, k);
      WithKeyConcat([r[0]], t, key, k);
      WithKeyConcat([x], r[1..], key, k);
      WithKeyConcat([x], r, key, k);
      assert r == [r[0]] + r[1..];
      WithKeyConcat([r[0]], r[1..], key, k);
    }
  }

  /** The sort is stable: within each key, input order is kept. */
  lemma {:induction false} SortDescStable<T>(s: seq<T>, key: T -> real)
    ensures StableWrt(SortDesc(s, key), s, key)
  {
    forall k ensures WithKey(SortDesc(s, key), key, k) == WithKey(s, key, k) {
      SortDescStableAt(s, key, k);
    }
  }

  lemma {:induction false} SortDescStableAt<T>(s: seq<T>, key: T -> real, k: real)
    ensures WithKey(SortDesc(s, key), key, k) == WithKey(s, key, k)
  {
    if s != [] {
      var t := SortDesc(s[1..], key);
      assert s == [s[0]] + s[1..];
      calc {
        WithKey(SortDesc(s, key), key, k);
        WithKey(Insert(s[0], t, key), key, k);
        { InsertStable(s[0], t, key, k); }
        WithKey([s[0]] + t, key, k);
        { WithKeyConcat([s[0]], t, key, k); }
        WithKey([s[0]], key, k) + WithKey(t, key, k);
        { SortDescStableAt(s[1..], key, k); }
        WithKey([s[0]], key, k) + WithKey(s[1..], key, k);
        { WithKeyConcat([s[0]], s[1..], key, k); }
        WithKey(s, key, k);
      }
    }
  }

  lemma {:induction false} WithKeyNegated<T>(s: seq<T>, key: T -> real, k: real)
    ensures WithKey(s, Negated(key), -k) == WithKey(s, key, k)
  {
    if s != [] {
      WithKeyNegated(s[1..], key, k);
    }
  }

  /** The ascending sort is stable as well. */
  lemma SortAscStable<T>(s: seq<T>, key: T -> real)
    ensures StableWrt(SortAsc(s, key), s, key)
  {
    forall k ensures WithKey(SortAsc(s, key), key, k) == WithKey(s, key, k) {
      SortDescStableAt(s, Negated(key), -k);
      WithKeyNegated(SortAsc(s, key), key, k);
      WithKeyNegated(s, key, k);
    }
  }

  /** Taking a prefix keeps a prefix of every equal-key group. */
  lemma TakeWithKeyPrefix<T>(s: seq<T>, n: nat, key: T -> real, k: real)
    ensures WithKey(Take(s, n), key, k) <= WithKey(s, key, k)
  {
    var m := Min(n, |s|);
    assert s == s[..m] + s[m..];
    WithKeyConcat(s[..m], s[m..], key, k);
  }

  lemma {:induction false} SumIntConcat<T>(a: seq<T>, b: seq<T>, f: T -> int)
    ensures SumInt(a + b, f) == SumInt(a, f) + SumInt(b, f)
  {
    if a == [] {
      assert a + b == b;
    } else {
      assert (a + b)[1..] == a[1..] + b;
      SumIntConcat(a[1..], b, f);
    }
  }

  lemma {:induction false} SumIntNonNegative<T>(s: seq<T>, f: T -> int)
    requires forall i :: 0 <= i < |s| ==> f(s[i]) >= 0
    ensures SumInt(s, f) >= 0
  {
    if s != [] {
      SumIntNonNegative(s[1..], f);
    }
  }

  /** With non-negative values a prefix never sums to more than the whole. */
  lemma TakeSumIntLe<T>(s: seq<T>, n: nat, f: T -> int)
    requires forall i :: 0 <= i < |s| ==> f(s[i]) >= 0
    ensures SumInt(Take(s, n), f) <= SumInt(s, f)
  {
    var m := Min(n, |s|);
    assert s == s[..m] + s[m..];
    SumIntConcat(s[..m], s[m..], f);
    SumIntNonNegative(s[m..], f);
  }

  lemma {:induction false} InsertSumInt<T>(x: T, r: seq<T>, key: T -> real, f: T -> int)
    requires SortedDesc(r, key)
    ensures SumInt(Insert(x, r, key), f) == f(x) + SumInt(r, f)
  {
    if r != [] && key(r[0]) > key(x) {
      InsertSumInt(x, r[1..], key, f);
    }
  }

  /** Sorting does not change a sum. */
  lemma {:induction false} SortDescSumInt<T>(s: seq<T>, key: T -> real, f: T -> int)
    ensures SumInt(SortDesc(s, key), f) == SumInt(s, f)
  {
    if s != [] {
      SortDescSumInt(s[1..], key, f);
      InsertSumInt(s[0], SortDesc(s[1..], key), key, f);
    }
  }

  lemma {:induction false} SumRealBounds<T>(s: seq<T>, f: T -> real, lo: real, hi: real)
    requires forall i :: 0 <= i < |s| ==> lo <= f(s[i]) <= hi
    ensures |s| as real * lo <= SumReal(s, f) <= |s| as real * hi
  {
    if s != [] {
      SumRealBounds(s[1..], f, lo, hi);
    }
  }

  lemma {:induction false} FilterConcat<T>(a: seq<T>, b: seq<T>, p: T -> bool)
    ensures Filter(a + b, p) == Filter(a, p) + Filter(b, p)
  {
    if a == [] {
      assert a + b == b;
    } else {
      assert (a + b)[1..] == a[1..] + b;
      FilterConcat(a[1..], b, p);
    }
  }

  /** Elements of `s` whose predicates disagree cannot be counted twice. */
  lemma {:induction false} CountWhereDisjoint<T>(s: seq<T>, p: T -> bool, q: T -> bool)
    requires forall i :: 0 <= i < |s| ==> !(p(s[i]) && q(s[i]))
    ensures CountWhere(s, p) + CountWhere(s, q) <= |s|
  {
    if s != [] {
      CountWhereDisjoint(s[1..], p, q);
    }
  }

  /** An element occurring more often in sorted `r` than in its prefix of
      length `m` has a key no larger than any element of that prefix. */
  lemma PrefixDominates<T>(r: seq<T>, m: nat, key: T -> real, x: T, i: nat)
    requires SortedDesc(r, key) && i < m <= |r|
    requires multiset(r[..m])[x] < multiset(r)[x]
    ensures key(x) <= key(r[i])
  {
    var rest := r[m..];
    assert r == r[..m] + rest;
    assert multiset(r) == multiset(r[..m]) + multiset(rest);
    assert x in multiset(rest);
    var j :| 0 <= j < |rest| && rest[j] == x;
    assert r[m + j] == x;
  }

  /** No element left out of the first `n` of the sort has a larger key
      than one taken. */
  lemma TopNDominates<T>(s: seq<T>, n: nat, key: T -> real)
    ensures var t := Take(SortDesc(s, key), n);
      forall x, i :: 0 <= i < |t| && multiset(t)[x] < multiset(s)[x] ==> key(x) <= key(t[i])
  {
    var r := SortDesc(s, key);
    var t := Take(r, n);
    forall x, i | 0 <= i < |t| && multiset(t)[x] < multiset(s)[x]
      ensures key(x) <= key(t[i])
    {
      PrefixDominates(r, |t|, key, x, i);
    }
  }

  /** The first `n` of the sort are some of the elements of `s`. */
  lemma TopNSubMultiset<T>(s: seq<T>, n: nat, key: T -> real)
    ensures multiset(Take(SortDesc(s, key), n)) <= multiset(s)
  {
    var r := SortDesc(s, key);
    assert multiset(Take(r, n)) <= multiset(r);
  }

  /** Within each key the first `n` of the sort are the earliest in `s`. */
  lemma TopNStablePrefix<T>(s: seq<T>, n: nat, key: T -> real)
    ensures forall k :: WithKey(Take(SortDesc(s, key), n), key, k) <= WithKey(s, key, k)
  {
    forall k ensures WithKey(Take(SortDesc(s, key), n), key, k) <= WithKey(s, key, k) {
      TakeWithKeyPrefix(SortDesc(s, key), n, key, k);
      SortDescStableAt(s, key, k);
    }
  }

  /** The first `n` of the stable descending sort are `n` (or all) of the
      elements, in descending order, none below an element left out, and
      within each key they are the earliest ones in input order. */
  lemma TopN<T>(s: seq<T>, n: nat, key: T -> real)
    ensures var t := Take(SortDesc(s, key), n);
      && |t| == Min(n, |s|)
      && multiset(t) <= multiset(s)
      && SortedDesc(t, key)
      && (forall x, i :: 0 <= i < |t| && multiset(t)[x] < multiset(s)[x] ==> key(x) <= key(t[i]))
      && (forall k :: WithKey(t, key, k) <= WithKey(s, key, k))
  {
    TopNSubMultiset(s, n, key);
    TopNDominates(s, n, key);
    TopNStablePrefix(s, n, key);
  }

  /** The first `n` of a descending sort of non-negative values add up to
      between zero and the whole sum. */
  lemma TopNSumBounds<T>(s: seq<T>, n: nat, key: T -> real, f: T -> int)
    requires forall i :: 0 <= i < |s| ==> f(s[i]) >= 0
    ensures 0 <= SumInt(Take(SortDesc(s, key), n), f) <= SumInt(s, f)
  {
    var r := SortDesc(s, key);
    forall i | 0 <= i < |r| ensures f(r[i]) >= 0 {
      assert r[i] in multiset(s);
      var j :| 0 <= j < |s| && s[j] == r[i];
    }
    SortDescSumInt(s, key, f);
    TakeSumIntLe(r, n, f);
    SumIntNonNegative(Take(r, n), f);
  }

  /** Taking at least all of a sort keeps the whole sum. */
  lemma TopNSumAll<T>(s: seq<T>, n: nat, key: T -> real, f: T -> int)
    requires |s| <= n
    ensures SumInt(Take(SortDesc(s, key), n), f) == SumInt(s, f)
  {
    var r := SortDesc(s, key);
    assert Take(r, n) == r;
    SortDescSumInt(s, key, f);
  }

  lemma FilterCons<T>(s: seq<T>, p: T -> bool)
    requires s != []
    ensures Filter(s, p) == if p(s[0]) then [s[0]] + Filter(s[1..], p) else Filter(s[1..], p)
  {
  }

  lemma FilterNone<T>(s: seq<T>, p: T -> bool)
    requires forall i :: 0 <= i < |s| ==> !p(s[i])
    ensures Filter(s, p) == []
  {
  }

  lemma SortDescConsHead<T>(x: T, r: seq<T>, key: T -> real)
    ensures SortDesc([x] + r, key) != []
    ensures var t := SortDesc(r, key);
      SortDesc([x] + r, key)[0] == if t == [] || key(t[0]) <= key(x) then x else t[0]
  {
    assert ([x] + r)[1..] == r;
  }

  /** What the head of a filtered descending sort is: an index of `s`
      holding a maximal `p`-element with no earlier one of equal key. */
  ghost predicate IsFilteredSortHead<T>(s: seq<T>, p: T -> bool, key: T -> real, j: nat) {
    && j < |s| && p(s[j])
    && SortDesc(Filter(s, p), key) != [] && SortDesc(Filter(s, p), key)[0] == s[j]
    && (forall i :: 0 <= i < |s| && p(s[i]) ==> key(s[i]) <= key(s[j]))
    && (forall i :: 0 <= i < j && p(s[i]) ==> key(s[i]) < key(s[j]))
  }

  /** Step case where `s[0]` is a `p`-element at least as large as the
      head of the tail: it becomes the head. */
  lemma FilteredSortHeadFirst<T>(s: seq<T>, p: T -> bool, key: T -> real, j': nat)
    requires s != [] && IsFilteredSortHead(s[1..], p, key, j')
    requires p(s[0]) && key(s[1..][j']) <= key(s[0])
    ensures IsFilteredSortHead(s, p, key, 0)
  {
    var tail := s[1..];
    FilterCons(s, p);
    SortDescConsHead(s[0], Filter(tail, p), key);
    forall i | 0 < i < |s| && p(s[i]) ensures key(s[i]) <= key(s[0]) {
      assert s[i] == tail[i - 1];
    }
  }

  /** The maximum and tie facts of the step case where the head of the
      tail stays the head. */
  lemma FilteredSortHeadLaterBounds<T>(s: seq<T>, p: T -> bool, key: T -> real, j': nat)
    requires s != [] && IsFilteredSortHead(s[1..], p, key, j')
    requires !(p(s[0]) && key(s[1..][j']) <= key(s[0]))
    ensures forall i :: 0 <= i < |s| && p(s[i]) ==> key(s[i]) <= key(s[1 + j'])
    ensures forall i :: 0 <= i < 1 + j' && p(s[i]) ==> key(s[i]) < key(s[1 + j'])
  {
    var tail := s[1..];
    forall i | 0 < i < |s| && p(s[i]) ensures key(s[i]) <= key(s[1 + j']) {
      assert s[i] == tail[i - 1];
    }
    forall i | 0 < i < 1 + j' && p(s[i]) ensures key(s[i]) < key(s[1 + j']) {
      assert s[i] == tail[i - 1];
    }
  }

  /** Step case where the head of the tail stays the head. */
  lemma FilteredSortHeadLater<T>(s: seq<T>, p: T -> bool, key: T -> real, j': nat)
    requires s != [] && IsFilteredSortHead(s[1..], p, key, j')
    requires !(p(s[0]) && key(s[1..][j']) <= key(s[0]))
    ensures IsFilteredSortHead(s, p, key, 1 + j')
  {
    FilterCons(s, p);
    if p(s[0]) {
      SortDescConsHead(s[0], Filter(s[1..], p), key);
    }
    FilteredSortHeadLaterBounds(s, p, key, j');
  }

  /** Base case: `s[0]` is the only element satisfying `p`. */
  lemma FilteredSortHeadAlone<T>(s: seq<T>, p: T -> bool, key: T -> real)
    requires s != [] && p(s[0])
    requires forall i :: 0 <= i < |s[1..]| ==> !p(s[1..][i])
    ensures IsFilteredSortHead(s, p, key, 0)
  {
    FilterCons(s, p);
    FilterNone(s[1..], p);
    SortDescConsHead(s[0], [], key);
    assert [s[0]] + [] == [s[0]];
  }

  /** Filtering by `p` and sorting descending puts first the earliest
      element of `s` among those satisfying `p` with the largest key:
      `s.filter(p).sort((a, b) => key(b) - key(a))[0]`. */
  lemma {:induction false} FilteredSortHead<T>(s: seq<T>, p: T -> bool, key: T -> real) returns (j: nat)
    requires exists i :: 0 <= i < |s| && p(s[i])
    ensures IsFilteredSortHead(s, p, key, j)
  {
    var tail := s[1..];
    if exists i :: 0 <= i < |tail| && p(tail[i]) {
      var j' := FilteredSortHead(tail, p, key);
      if p(s[0]) && key(tail[j']) <= key(s[0]) {
        FilteredSortHeadFirst(s, p, key, j');
        j := 0;
      } else {
        FilteredSortHeadLater(s, p, key, j');
        j := 1 + j';
      }
    } else {
      assert p(s[0]);
      FilteredSortHeadAlone(s, p, key);
      j := 0;
    }
  }
}
