/**
 * The Kotlin collection operations the core relies on, as functions with
 * their defining properties: `filter`, `distinct`, and the stable
 * `sortedBy` / `sortedByDescending`.
 */
module SeqUtil {

  /** `a` is `b` with some elements dropped and the order kept. */
  ghost predicate IsSubsequence<T>(a: seq<T>, b: seq<T>)
    decreases |b|
  {
    a == [] || (b != [] && ((a[0] == b[0] && IsSubsequence(a[1..], b[1..])) || IsSubsequence(a, b[1..])))
  }

  lemma {:induction false} SubsequenceRefl<T>(s: seq<T>)
    ensures IsSubsequence(s, s)
    decreases |s|
  {
    if s != [] {
      SubsequenceRefl(s[1..]);
    }
  }

  lemma {:induction false} SubsequenceTrans<T>(a: seq<T>, b: seq<T>, c: seq<T>)
    requires IsSubsequence(a, b) && IsSubsequence(b, c)
    ensures IsSubsequence(a, c)
    decreases |c|
  {
    if a != [] {
      assert b != [] && c != [];
      if b[0] == c[0] && IsSubsequence(b[1..], c[1..]) {
        if a[0] == b[0] && IsSubsequence(a[1..], b[1..]) {
          SubsequenceTrans(a[1..], b[1..], c[1..]);
        } else {
          SubsequenceTrans(a, b[1..], c[1..]);
        }
      } else {
        SubsequenceTrans(a, b, c[1..]);
      }
    }
  }

  /** `filter`: the elements that satisfy `p`, in their original order. */
  function Filter<T>(s: seq<T>, p: T -> bool): (r: seq<T>)
    ensures |r| <= |s|
    ensures forall i :: 0 <= i < |r| ==> p(r[i])
  {
    if s == [] then []
    else if p(s[0]) then [s[0]] + Filter(s[1..], p)
    else Filter(s[1..], p)
  }

  /** `filter` keeps exactly the elements that satisfy `p`. */
  lemma {:induction false} FilterMembers<T>(s: seq<T>, p: T -> bool, x: T)
    ensures x in Filter(s, p) <==> x in s && p(x)
  {
    if s != [] {
      FilterMembers(s[1..], p, x);
      assert x in s <==> x == s[0] || x in s[1..];
    }
  }

  lemma {:induction false} FilterIsSubsequence<T>(s: seq<T>, p: T -> bool)
    ensures IsSubsequence(Filter(s, p), s)
  {
    if s != [] {
      FilterIsSubsequence(s[1..], p);
      if !p(s[0]) {
        if Filter(s[1..], p) != [] {
          assert IsSubsequence(Filter(s[1..], p), s[1..]);
        }
      }
    }
  }

  lemma {:induction false} FilterAppend<T>(a: seq<T>, b: seq<T>, p: T -> bool)
    ensures Filter(a + b, p) == Filter(a, p) + Filter(b, p)
  {
    if a == [] {
      assert a + b == b;
    } else {
      assert (a + b)[1..] == a[1..] + b;
      FilterAppend(a[1..], b, p);
    }
  }

  /** `distinct`: the first occurrence of every element, in order. */
  function Distinct<T(==)>(s: seq<T>): (r: seq<T>)
    ensures forall i :: 0 <= i < |r| ==> r[i] in s
    ensures forall i :: 0 <= i < |s| ==> s[i] in r
    ensures forall i, j :: 0 <= i < j < |r| ==> r[i] != r[j]
    ensures |r| <= |s|
  {
    if s == [] then []
    else
      var d := Distinct(s[..|s| - 1]);
      assert s == s[..|s| - 1] + [s[|s| - 1]];
      if s[|s| - 1] in d then d else d + [s[|s| - 1]]
  }

  /** `s` is ordered by non-decreasing `key`. */
  ghost predicate SortedBy<T>(s: seq<T>, key: T -> int) {
    forall i, j :: 0 <= i < j < |s| ==> key(s[i]) <= key(s[j])
  }

  /** The elements whose key is `k`, in order: what a stable sort must not reorder. */
  function WithKey<T>(s: seq<T>, key: T -> int, k: int): (r: seq<T>)
    ensures forall i :: 0 <= i < |r| ==> key(r[i]) == k
  {
    if s == [] then []
    else if key(s[0]) == k then [s[0]] + WithKey(s[1..], key, k)
    else WithKey(s[1..], key, k)
  }

  lemma {:induction false} WithKeyPrepend<T>(x: T, s: seq<T>, key: T -> int, k: int)
    ensures WithKey([x] + s, key, k) == (if key(x) == k then [x] else []) + WithKey(s, key, k)
  {
    assert ([x] + s)[1..] == s;
  }

  lemma {:induction false} WithKeyIsSubsequence<T>(s: seq<T>, key: T -> int, k: int)
    ensures IsSubsequence(WithKey(s, key, k), s)
  {
    if s != [] {
      WithKeyIsSubsequence(s[1..], key, k);
      if key(s[0]) == k {
        assert WithKey(s, key, k)[1..] == WithKey(s[1..], key, k);
      }
    }
  }

  /** Places `x` before the first element whose key is not smaller. */
  function Insert<T>(x: T, s: seq<T>, key: T -> int): (r: seq<T>)
    ensures multiset(r) == multiset(s) + multiset{x}
    ensures |r| == |s| + 1
  {
    if s == [] || key(x) <= key(s[0]) then [x] + s
    else
      assert s == [s[0]] + s[1..];
      [s[0]] + Insert(x, s[1..], key)
  }

  /** Kotlin's `sortedBy(key)`: a stable insertion sort. */
  function SortBy<T>(s: seq<T>, key: T -> int): (r: seq<T>)
    ensures multiset(r) == multiset(s)
    ensures |r| == |s|
  {
    if s == [] then []
    else
      assert s == [s[0]] + s[1..];
      Insert(s[0], SortBy(s[1..], key), key)
  }

  /** The key that orders by `key` descending. */
  function Negated<T>(key: T -> int): T -> int {
    x => -key(x)
  }

  /** Kotlin's `sortedByDescending(key)`: stable, so it sorts ascending by the negated key. */
  function SortByDescending<T>(s: seq<T>, key: T -> int): (r: seq<T>)
    ensures multiset(r) == multiset(s)
    ensures |r| == |s|
  {
    SortBy(s, Negated(key))
  }

  lemma {:induction false} InsertSorted<T>(x: T, s: seq<T>, key: T -> int)
    requires SortedBy(s, key)
    ensures SortedBy(Insert(x, s, key), key)
  {
    if s == [] || key(x) <= key(s[0]) {
      SortedCons(x, s, key);
    } else {
      var t := Insert(x, s[1..], key);
      InsertSorted(x, s[1..], key);
      InsertLowerBound(x, s[1..], key, key(s[0]));
      assert Insert(x, s, key) == [s[0]] + t;
      SortedCons(s[0], t, key);
    }
  }

  lemma SortedCons<T>(y: T, t: seq<T>, key: T -> int)
    requires SortedBy(t, key) && forall i :: 0 <= i < |t| ==> key(y) <= key(t[i])
    ensures SortedBy([y] + t, key)
  {
    var r := [y] + t;
    forall i, j | 0 <= i < j < |r| ensures key(r[i]) <= key(r[j]) {
      assert r[j] == t[j - 1];
      if i > 0 {
        assert r[i] == t[i - 1];
      }
    }
  }

  /** A bound below `x` and every element of `s` is a bound below everything in `Insert(x, s, key)`. */
  lemma {:induction false} InsertLowerBound<T>(x: T, s: seq<T>, key: T -> int, b: int)
    requires key(x) >= b && forall i :: 0 <= i < |s| ==> key(s[i]) >= b
    ensures forall i :: 0 <= i < |Insert(x, s, key)| ==> key(Insert(x, s, key)[i]) >= b
  {
    if s != [] && key(x) > key(s[0]) {
      InsertLowerBound(x, s[1..], key, b);
      assert Insert(x, s, key) == [s[0]] + Insert(x, s[1..], key);
    }
  }

  /** The result of `sortedBy` is ordered by the key. */
  lemma {:induction false} SortBySorted<T>(s: seq<T>, key: T -> int)
    ensures SortedBy(SortBy(s, key), key)
  {
    if s != [] {
      SortBySorted(s[1..], key);
      InsertSorted(s[0], SortBy(s[1..], key), key);
    }
  }

  lemma {:induction false} InsertWithKey<T>(x: T, s: seq<T>, key: T -> int, k: int)
    ensures WithKey(Insert(x, s, key), key, k)
         == (if key(x) == k then [x] else []) + WithKey(s, key, k)
  {
    if s == [] || key(x) <= key(s[0]) {
      WithKeyPrepend(x, s, key, k);
    } else {
      var t := Insert(x, s[1..], key);
      assert Insert(x, s, key) == [s[0]] + t;
      InsertWithKey(x, s[1..], key, k);
      WithKeyPastHead(s[0], x, t, s[1..], key, k);
      assert s == [s[0]] + s[1..];
    }
  }

  /** Putting `y` in front of both sides keeps the equation when `x` and `y` have different keys. */
  lemma WithKeyPastHead<T>(y: T, x: T, t: seq<T>, u: seq<T>, key: T -> int, k: int)
    requires key(x) != key(y)
    requires WithKey(t, key, k) == (if key(x) == k then [x] else []) + WithKey(u, key, k)
    ensures WithKey([y] + t, key, k) == (if key(x) == k then [x] else []) + WithKey([y] + u, key, k)
  {
    WithKeyPrepend(y, t, key, k);
    WithKeyPrepend(y, u, key, k);
    if key(y) == k {
      assert WithKey([y] + t, key, k) == [y] + WithKey(u, key, k) == WithKey([y] + u, key, k);
    }
  }

  /**
   * `sortedBy` is stable: for every key value, the elements carrying it are
   * in the same order as in the input.
   */
  lemma {:induction false} SortByStable<T>(s: seq<T>, key: T -> int, k: int)
    ensures WithKey(SortBy(s, key), key, k) == WithKey(s, key, k)
  {
    if s != [] {
      SortByStable(s[1..], key, k);
      InsertWithKey(s[0], SortBy(s[1..], key), key, k);
      WithKeyPrepend(s[0], s[1..], key, k);
      assert s == [s[0]] + s[1..];
    }
  }

  /** Every subsequence of a sorted sequence is sorted. */
  lemma {:induction false} SubsequenceSorted<T>(a: seq<T>, b: seq<T>, key: T -> int)
    requires IsSubsequence(a, b) && SortedBy(b, key)
    ensures SortedBy(a, key)
    decreases |b|
  {
    if a != [] {
      if a[0] == b[0] && IsSubsequence(a[1..], b[1..]) {
        SubsequenceSorted(a[1..], b[1..], key);
        forall j | 1 <= j < |a| ensures key(a[0]) <= key(a[j]) {
          SubsequenceMember(a[1..], b[1..], j - 1);
        }
      } else {
        SubsequenceSorted(a, b[1..], key);
      }
    }
  }

  lemma {:induction false} SubsequenceMember<T>(a: seq<T>, b: seq<T>, i: nat)
    requires IsSubsequence(a, b) && i < |a|
    ensures a[i] in b
    decreases |b|
  {
    if a[0] == b[0] && IsSubsequence(a[1..], b[1..]) {
      if i > 0 {
        SubsequenceMember(a[1..], b[1..], i - 1);
      }
    } else {
      SubsequenceMember(a, b[1..], i);
    }
  }

  /** The result of `sortedByDescending` is ordered by non-increasing key. */
  lemma SortByDescendingSorted<T>(s: seq<T>, key: T -> int)
    ensures var r := SortByDescending(s, key);
      forall i, j :: 0 <= i < j < |r| ==> key(r[i]) >= key(r[j])
  {
    SortBySorted(s, Negated(key));
    var r := SortByDescending(s, key);
    forall i, j | 0 <= i < j < |r| ensures key(r[i]) >= key(r[j]) {
      assert Negated(key)(r[i]) <= Negated(key)(r[j]);
    }
  }

  lemma {:induction false} WithKeyNegated<T>(s: seq<T>, key: T -> int, k: int)
    ensures WithKey(s, Negated(key), -k) == WithKey(s, key, k)
  {
    if s != [] {
      WithKeyNegated(s[1..], key, k);
      assert Negated(key)(s[0]) == -key(s[0]);
    }
  }

  /** `sortedByDescending` is stable too. */
  lemma SortByDescendingStable<T>(s: seq<T>, key: T -> int, k: int)
    ensures WithKey(SortByDescending(s, key), key, k) == WithKey(s, key, k)
  {
    SortByStable(s, Negated(key), -k);
    WithKeyNegated(SortByDescending(s, key), key, k);
    WithKeyNegated(s, key, k);
  }

  /** `filter` keeps every copy of an element that satisfies `p` and no copy of one that does not. */
  lemma {:induction false} FilterMultiset<T>(s: seq<T>, p: T -> bool, x: T)
    ensures multiset(Filter(s, p))[x] == if p(x) then multiset(s)[x] else 0
  {
    if s != [] {
      FilterMultiset(s[1..], p, x);
      assert s == [s[0]] + s[1..];
    }
  }

  /** The conjunction of two element tests. */
  function And<T>(p: T -> bool, q: T -> bool): T -> bool {
    x => p(x) && q(x)
  }

  /**
   * One more `filter` in a chain: if `before` holds the elements of `items`
   * that pass `p`, in order and with every copy, then filtering by `q`
   * leaves those that pass both.
   */
  lemma FilterStep<T>(items: seq<T>, before: seq<T>, p: T -> bool, q: T -> bool)
    requires IsSubsequence(before, items)
    requires forall x :: multiset(before)[x] == if p(x) then multiset(items)[x] else 0
    ensures IsSubsequence(Filter(before, q), items)
    ensures forall x :: multiset(Filter(before, q))[x] == if And(p, q)(x) then multiset(items)[x] else 0
  {
    FilterIsSubsequence(before, q);
    SubsequenceTrans(Filter(before, q), before, items);
    forall x ensures multiset(Filter(before, q))[x] == if And(p, q)(x) then multiset(items)[x] else 0 {
      FilterMultiset(before, q, x);
    }
  }
}
