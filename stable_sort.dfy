/** `Array.prototype.sort` with a comparator of the form `(a, b) => key(b) - key(a)`:
 *  a stable sort into non-increasing key order (ECMA-262 10th edition, section
 *  22.1.3.27, requires stability). `Sort` is the reference definition, an
 *  insertion sort on sequences; `SortInPlace` sorts an array and is proved to
 *  produce exactly `Sort` of the old contents. */
module StableSort {
  import opened Base

  /** A sort key: a real score, or none at all (a comparator that yields NaN). */
  datatype Rank = Unranked | Ranked(score: real)

  /** `a` sorts after `b`: a lower score, and no score below every score. */
  predicate Less(a: Rank, b: Rank) {
    match a
    case Unranked => b.Ranked?
    case Ranked(x) => b.Ranked? && x < b.score
  }

  lemma NotLessTransitive(a: Rank, b: Rank, c: Rank)
    requires !Less(a, b) && !Less(b, c)
    ensures !Less(a, c)
  {
  }

  /** No element ranks below a later one. */
  ghost predicate SortedDesc<T>(s: seq<T>, key: T -> Rank) {
    forall i, j :: 0 <= i < j < |s| ==> !Less(key(s[i]), key(s[j]))
  }

  /** Places `x` after the elements of `s` whose rank is at least its own. */
  function Insert<T>(s: seq<T>, x: T, key: T -> Rank): (r: seq<T>)
    ensures |r| == |s| + 1
  {
    if s == [] then [x]
    else
      var init, last := s[..|s| - 1], s[|s| - 1];
      assert s == init + [last];
      if Less(key(last), key(x)) then Insert(init, x, key) + [last] else s + [x]
  }

  function Sort<T>(s: seq<T>, key: T -> Rank): (r: seq<T>)
    ensures |r| == |s|
  {
    if s == [] then [] else Insert(Sort(s[..|s| - 1], key), s[|s| - 1], key)
  }

  /** The elements of `s` whose key is `r` (used to state stability). */
  function WithRank<T>(key: T -> Rank, r: Rank): T -> bool {
    x => key(x) == r
  }

  lemma {:induction false} InsertPermutation<T>(s: seq<T>, x: T, key: T -> Rank)
    ensures multiset(Insert(s, x, key)) == multiset(s) + multiset{x}
  {
    if s != [] {
      var init, last := s[..|s| - 1], s[|s| - 1];
      assert s == init + [last];
      if Less(key(last), key(x)) {
        InsertPermutation(init, x, key);
      }
    }
  }

  lemma {:induction false} SortPermutation<T>(s: seq<T>, key: T -> Rank)
    ensures multiset(Sort(s, key)) == multiset(s)
  {
    if s != [] {
      var init := s[..|s| - 1];
      SortPermutation(init, key);
      InsertPermutation(Sort(init, key), s[|s| - 1], key);
      assert s == init + [s[|s| - 1]];
    }
  }

  /** Sorting neither adds nor loses elements. */
  lemma SortMembers<T>(s: seq<T>, key: T -> Rank)
    ensures forall x :: x in Sort(s, key) <==> x in s
  {
    SortPermutation(s, key);
    forall x ensures x in Sort(s, key) <==> x in s {
      assert x in Sort(s, key) <==> x in multiset(Sort(s, key));
      assert x in s <==> x in multiset(s);
    }
  }

  lemma {:induction false} InsertSorted<T>(s: seq<T>, x: T, key: T -> Rank)
    requires SortedDesc(s, key)
    ensures SortedDesc(Insert(s, x, key), key)
  {
    if s != [] {
      var init, last := s[..|s| - 1], s[|s| - 1];
      if Less(key(last), key(x)) {
        InsertSorted(init, x, key);
        InsertPermutation(init, x, key);
        var r := Insert(init, x, key);
        forall i | 0 <= i < |r| ensures !Less(key(r[i]), key(last)) {
          assert r[i] in multiset(r);
          if r[i] != x {
            assert r[i] in multiset(init);
            var k :| 0 <= k < |init| && init[k] == r[i];
            assert s[k] == r[i];
          }
        }
      } else {
        forall i | 0 <= i < |s| ensures !Less(key(s[i]), key(x)) {
          if i < |s| - 1 {
            NotLessTransitive(key(s[i]), key(last), key(x));
          }
        }
      }
    }
  }

  lemma {:induction false} SortSorted<T>(s: seq<T>, key: T -> Rank)
    ensures SortedDesc(Sort(s, key), key)
  {
    if s != [] {
      SortSorted(s[..|s| - 1], key);
      InsertSorted(Sort(s[..|s| - 1], key), s[|s| - 1], key);
    }
  }

  /** One step of `InsertStable`: `last` ranks below `x`, so its key differs
   *  from `x`'s, and moving `x` in front of it keeps each key's order. */
  lemma InsertStableStep<T>(init: seq<T>, last: T, x: T, key: T -> Rank, r: Rank, shifted: seq<T>)
    requires Less(key(last), key(x))
    requires Filter(shifted, WithRank(key, r)) == Filter(init, WithRank(key, r)) + (if key(x) == r then [x] else [])
    ensures Filter(shifted + [last], WithRank(key, r))
         == Filter(init + [last], WithRank(key, r)) + (if key(x) == r then [x] else [])
  {
    var p := WithRank(key, r);
    FilterSnoc(shifted, last, p);
    FilterSnoc(init, last, p);
    if key(x) == r {
      assert !p(last);
    }
  }

  lemma {:induction false} InsertStable<T>(s: seq<T>, x: T, key: T -> Rank, r: Rank)
    ensures Filter(Insert(s, x, key), WithRank(key, r))
         == Filter(s, WithRank(key, r)) + (if key(x) == r then [x] else [])
  {
    if s == [] {
      FilterSnoc(s, x, WithRank(key, r));
      assert s + [x] == [x];
    } else {
      var init, last := s[..|s| - 1], s[|s| - 1];
      assert s == init + [last];
      if Less(key(last), key(x)) {
        InsertStable(init, x, key, r);
        InsertStableStep(init, last, x, key, r, Insert(init, x, key));
      } else {
        FilterSnoc(s, x, WithRank(key, r));
      }
    }
  }

  /** Stability: for every key, the elements with that key appear in the
   *  sorted sequence in the order they had in the input. */
  lemma {:induction false} SortStable<T>(s: seq<T>, key: T -> Rank, r: Rank)
    ensures Filter(Sort(s, key), WithRank(key, r)) == Filter(s, WithRank(key, r))
  {
    if s != [] {
      SortStable(s[..|s| - 1], key, r);
      InsertStable(Sort(s[..|s| - 1], key), s[|s| - 1], key, r);
    }
  }

  /** In a sorted sequence, each element of a prefix ranks at least as high as
   *  each element of the rest. */
  lemma PrefixDominates<T>(sorted: seq<T>, key: T -> Rank, n: nat, x: T, y: T)
    requires SortedDesc(sorted, key) && n <= |sorted|
    requires x in sorted[..n] && y in sorted[n..]
    ensures !Less(key(x), key(y))
  {
    var i :| 0 <= i < n && sorted[..n][i] == x;
    var j :| 0 <= j < |sorted| - n && sorted[n..][j] == y;
    assert sorted[i] == x && sorted[n + j] == y;
  }

  /** Sorting and then keeping the first `k` (`sort(...).slice(0, k)`) keeps
   *  `min(k, |s|)` elements drawn from `s`, in non-increasing order, and every
   *  element left out ranks no higher than every element kept. */
  lemma TopK<T>(s: seq<T>, key: T -> Rank, k: nat)
    ensures |Take(Sort(s, key), k)| == Min(k, |s|)
    ensures SortedDesc(Take(Sort(s, key), k), key)
    ensures multiset(Take(Sort(s, key), k)) <= multiset(s)
    ensures forall x, y :: x in Take(Sort(s, key), k) && y in multiset(s) - multiset(Take(Sort(s, key), k))
                           ==> !Less(key(x), key(y))
  {
    var sorted := Sort(s, key);
    SortSorted(s, key);
    var top := Take(sorted, k);
    assert SortedDesc(top, key);
    TopKSelection(s, key, sorted, top);
  }

  /** `top` is a top `k` of `pool` by `key`: `min(k, |pool|)` elements of
   *  the pool, in non-increasing order, none of them ranked below an element
   *  of the pool left out. */
  ghost predicate IsTop<T>(top: seq<T>, pool: seq<T>, key: T -> Rank, k: nat) {
    && |top| == Min(k, |pool|)
    && SortedDesc(top, key)
    && multiset(top) <= multiset(pool)
    && forall x, y :: x in top && y in multiset(pool) - multiset(top) ==> !Less(key(x), key(y))
  }

  /** Sorting any ordering of the pool and keeping the first `k` gives a
   *  top `k` of the pool. */
  lemma TopOfPermutation<T>(s: seq<T>, pool: seq<T>, key: T -> Rank, k: nat)
    requires multiset(s) == multiset(pool)
    ensures IsTop(Take(Sort(s, key), k), pool, key, k)
  {
    TopK(s, key, k);
    assert |s| == |multiset(s)| == |pool|;
  }

  /** Keeping the first `k` after a stable sort keeps, for every key, a
   *  prefix of the input's elements with that key. */
  lemma TopKStable<T>(s: seq<T>, key: T -> Rank, k: nat, r: Rank)
    ensures Filter(Take(Sort(s, key), k), WithRank(key, r)) <= Filter(s, WithRank(key, r))
  {
    var sorted := Sort(s, key);
    var top := Take(sorted, k);
    assert sorted == top + sorted[|top|..];
    FilterAppend(top, sorted[|top|..], WithRank(key, r));
    SortStable(s, key, r);
  }

  lemma TopKSelection<T>(s: seq<T>, key: T -> Rank, sorted: seq<T>, top: seq<T>)
    requires sorted == Sort(s, key) && SortedDesc(sorted, key)
    requires |top| <= |sorted| && top == sorted[..|top|]
    ensures multiset(top) <= multiset(s)
    ensures forall x, y :: x in top && y in multiset(s) - multiset(top) ==> !Less(key(x), key(y))
  {
    SortPermutation(s, key);
    var rest := sorted[|top|..];
    TakeSplit(sorted, top, rest);
    forall x, y | x in top && y in multiset(s) - multiset(top)
      ensures !Less(key(x), key(y))
    {
      PrefixDominates(sorted, key, |top|, x, y);
    }
  }

  lemma TakeSplit<T>(sorted: seq<T>, top: seq<T>, rest: seq<T>)
    requires |top| <= |sorted| && top == sorted[..|top|] && rest == sorted[|top|..]
    ensures multiset(top) <= multiset(sorted)
    ensures multiset(sorted) - multiset(top) == multiset(rest)
  {
    assert sorted == top + rest;
  }

  /** The head of the sorted sequence is the first element of `s` that has
   *  the greatest rank: `sort(...)[0]` picks the earliest of the maxima. */
  lemma FirstOfSortIsFirstMaximum<T>(s: seq<T>, key: T -> Rank) returns (j: nat)
    requires s != []
    ensures j < |s| && Sort(s, key)[0] == s[j]
    ensures forall y :: y in s ==> !Less(key(s[j]), key(y))
    ensures forall i :: 0 <= i < j ==> Less(key(s[i]), key(s[j]))
  {
    var sorted := Sort(s, key);
    var h := sorted[0];
    SortPermutation(s, key);
    SortSorted(s, key);
    forall y | y in s ensures !Less(key(h), key(y)) {
      assert y in multiset(sorted);
      var k :| 0 <= k < |sorted| && sorted[k] == y;
    }
    var p := WithRank(key, key(h));
    SortStable(s, key, key(h));
    assert sorted == [h] + sorted[1..];
    FilterAppend([h], sorted[1..], p);
    assert Filter([h], p) == [] + [h];
    j := FilterFirst(s, p);
    forall i | 0 <= i < j ensures Less(key(s[i]), key(s[j])) {
      assert s[i] in s;
    }
  }

  lemma SortSnoc<T>(s: seq<T>, i: nat, key: T -> Rank)
    requires i < |s|
    ensures Sort(s[..i + 1], key) == Insert(Sort(s[..i], key), s[i], key)
  {
    assert s[..i + 1][..i] == s[..i];
  }

  /** Where `Insert` puts `x`: after a prefix that does not rank below it,
   *  before a suffix that all ranks below it. */
  lemma {:induction false} InsertAt<T>(prev: seq<T>, x: T, key: T -> Rank, j: nat)
    requires j <= |prev|
    requires j == 0 || !Less(key(prev[j - 1]), key(x))
    requires forall k :: j <= k < |prev| ==> Less(key(prev[k]), key(x))
    ensures Insert(prev, x, key) == prev[..j] + [x] + prev[j..]
    decreases |prev|
  {
    if j < |prev| {
      var init, last := prev[..|prev| - 1], prev[|prev| - 1];
      InsertAt(init, x, key, j);
      assert init[..j] == prev[..j] && init[j..] + [last] == prev[j..];
    } else if prev != [] {
      assert prev[..j] == prev;
    }
  }

  /** Moves `a[i]` left past the elements of `a[..i]` that rank below it. */
  method InsertInPlace<T>(a: array<T>, i: nat, key: T -> Rank)
    requires i < a.Length
    modifies a
    ensures a[..i + 1] == Insert(old(a[..i]), old(a[i]), key)
    ensures forall k :: i < k < a.Length ==> a[k] == old(a[k])
  {
    var x := a[i];
    ghost var prev := a[..i];
    var j := i;
    while j > 0 && Less(key(a[j - 1]), key(x))
      invariant 0 <= j <= i
      invariant forall k :: 0 <= k < j ==> a[k] == prev[k]
      invariant forall k :: j < k <= i ==> a[k] == prev[k - 1]
      invariant forall k :: j <= k < i ==> Less(key(prev[k]), key(x))
      invariant forall k :: i < k < a.Length ==> a[k] == old(a[k])
    {
      a[j] := a[j - 1];
      j := j - 1;
    }
    a[j] := x;
    InsertAt(prev, x, key, j);
    assert a[..i + 1] == prev[..j] + [x] + prev[j..] by {
      forall k | 0 <= k <= i ensures a[..i + 1][k] == (prev[..j] + [x] + prev[j..])[k] {
        if k < j {
        } else if k == j {
        } else {
          assert (prev[..j] + [x] + prev[j..])[k] == prev[k - 1];
        }
      }
    }
  }

  /** The copy-and-sort `[...s].sort(cmp)`, in place on a fresh array. */
  method SortInPlace<T>(a: array<T>, key: T -> Rank)
    modifies a
    ensures a[..] == Sort(old(a[..]), key)
  {
    ghost var orig := a[..];
    var i := 0;
    while i < a.Length
      invariant 0 <= i <= a.Length
      invariant a[..i] == Sort(orig[..i], key)
      invariant forall k :: i <= k < a.Length ==> a[k] == orig[k]
    {
      InsertInPlace(a, i, key);
      SortSnoc(orig, i, key);
      i := i + 1;
    }
    assert orig[..a.Length] == orig;
  }

  /** `[...s].sort(cmp)` as a value: copy into a fresh array and sort it there. */
  method SortedCopy<T>(s: seq<T>, key: T -> Rank) returns (r: seq<T>)
    ensures r == Sort(s, key)
  {
    var a := new T[|s|](i requires 0 <= i < |s| => s[i]);
    assert a[..] == s;
    SortInPlace(a, key);
    r := a[..];
  }
}
