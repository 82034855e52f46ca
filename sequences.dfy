/** Sequence operations the repository takes from the JavaScript runtime:
    `Array.prototype.filter`, the `length` of a filtered array, and
    `Array.prototype.sort` with a numeric comparator (stable since ES2019). */
module Sequences {

  /** `s.filter(p)`: the elements satisfying `p`, in their original order. */
  function Filter<T>(s: seq<T>, p: T -> bool): (r: seq<T>)
    ensures |r| <= |s|
    ensures forall i :: 0 <= i < |r| ==> r[i] in s && p(r[i])
    ensures forall i :: 0 <= i < |s| && p(s[i]) ==> s[i] in r
    decreases |s|
  {
    if s == [] then []
    else (if p(s[0]) then [s[0]] else []) + Filter(s[1..], p)
  }

  /** `s.filter(p).length` */
  function Count<T>(s: seq<T>, p: T -> bool): nat
  {
    |Filter(s, p)|
  }

  /** Filtering distributes over concatenation: this, with the one-element
      case, fixes the order of the result. */
  lemma {:induction false} FilterConcat<T>(a: seq<T>, b: seq<T>, p: T -> bool)
    ensures Filter(a + b, p) == Filter(a, p) + Filter(b, p)
    decreases |a|
  {
    if a == [] {
      assert a + b == b;
    } else {
      assert (a + b)[1..] == a[1..] + b;
      FilterConcat(a[1..], b, p);
    }
  }

  /** A filter that rejects nothing returns its input. */
  lemma {:induction false} FilterKeepsAll<T>(s: seq<T>, p: T -> bool)
    requires forall i :: 0 <= i < |s| ==> p(s[i])
    ensures Filter(s, p) == s
    decreases |s|
  {
    if s != [] {
      FilterKeepsAll(s[1..], p);
    }
  }

  /** Each element occurs in the filtered sequence as often as in the input
      if it satisfies `p`, and never otherwise. */
  lemma {:induction false} FilterMultiset<T>(s: seq<T>, p: T -> bool, x: T)
    ensures multiset(Filter(s, p))[x] == if p(x) then multiset(s)[x] else 0
    decreases |s|
  {
    if s != [] {
      FilterMultiset(s[1..], p, x);
      assert s == [s[0]] + s[1..];
      assert multiset(s) == multiset{s[0]} + multiset(s[1..]);
    }
  }

  /** Reordering the input reorders the filtered sequence and no more. */
  lemma FilterPermutation<T>(a: seq<T>, b: seq<T>, p: T -> bool)
    requires multiset(a) == multiset(b)
    ensures multiset(Filter(a, p)) == multiset(Filter(b, p))
    ensures Count(a, p) == Count(b, p)
  {
    forall x ensures multiset(Filter(a, p))[x] == multiset(Filter(b, p))[x] {
      FilterMultiset(a, p, x);
      FilterMultiset(b, p, x);
    }
    assert multiset(Filter(a, p)) == multiset(Filter(b, p));
    assert |multiset(Filter(a, p))| == |Filter(a, p)|;
    assert |multiset(Filter(b, p))| == |Filter(b, p)|;
  }

  /** Non-decreasing by `key`. A descending order is an ascending one by the
      negated key. */
  ghost predicate SortedBy<T>(s: seq<T>, key: T -> int)
  {
    forall i, j :: 0 <= i < j < |s| ==> key(s[i]) <= key(s[j])
  }

  /** Inserts `x` in front of the first element whose key is not smaller,
      so that `x` precedes the equal elements that come after it. */
  function InsertBy<T>(x: T, s: seq<T>, key: T -> int): (r: seq<T>)
    ensures |r| == |s| + 1
    ensures multiset(r) == multiset(s) + multiset{x}
    decreases |s|
  {
    if s == [] || key(x) <= key(s[0]) then
      [x] + s
    else
      assert s == [s[0]] + s[1..];
      [s[0]] + InsertBy(x, s[1..], key)
  }

  /** Putting an element no larger than any other in front keeps a sorted
      sequence sorted. */
  lemma PrependSorted<T>(x: T, s: seq<T>, key: T -> int)
    requires SortedBy(s, key)
    requires forall i :: 0 <= i < |s| ==> key(x) <= key(s[i])
    ensures SortedBy([x] + s, key)
  {
    var r := [x] + s;
    forall i, j | 0 <= i < j < |r| ensures key(r[i]) <= key(r[j]) {
      assert r[j] == s[j - 1];
      if 0 < i {
        assert r[i] == s[i - 1];
      }
    }
  }

  /** A lower bound on the keys of `x` and of `s` bounds the keys after the
      insertion. */
  lemma {:induction false} InsertByBound<T>(x: T, s: seq<T>, key: T -> int, bound: int)
    requires bound <= key(x)
    requires forall i :: 0 <= i < |s| ==> bound <= key(s[i])
    ensures forall i :: 0 <= i < |InsertBy(x, s, key)| ==> bound <= key(InsertBy(x, s, key)[i])
    decreases |s|
  {
    if s != [] && key(s[0]) < key(x) {
      InsertByBound(x, s[1..], key, bound);
      var r := InsertBy(x, s, key);
      assert r == [s[0]] + InsertBy(x, s[1..], key);
      forall i | 0 < i < |r| ensures bound <= key(r[i]) {
        assert r[i] == InsertBy(x, s[1..], key)[i - 1];
      }
    }
  }

  /** Inserting into a sorted sequence keeps it sorted. */
  lemma {:induction false} InsertBySorted<T>(x: T, s: seq<T>, key: T -> int)
    requires SortedBy(s, key)
    ensures SortedBy(InsertBy(x, s, key), key)
    decreases |s|
  {
    if s == [] || key(x) <= key(s[0]) {
      PrependSorted(x, s, key);
    } else {
      var tail := s[1..];
      assert SortedBy(tail, key);
      InsertBySorted(x, tail, key);
      InsertByBound(x, tail, key, key(s[0]));
      PrependSorted(s[0], InsertBy(x, tail, key), key);
    }
  }

  /** The result of `s.sort((a, b) => key(a) - key(b))`: a stable insertion
      sort. */
  function SortBy<T>(s: seq<T>, key: T -> int): (r: seq<T>)
    ensures |r| == |s|
    ensures multiset(r) == multiset(s)
    ensures SortedBy(r, key)
    decreases |s|
  {
    if s == [] then []
    else
      assert s == [s[0]] + s[1..];
      var sortedTail := SortBy(s[1..], key);
      InsertBySorted(s[0], sortedTail, key);
      InsertBy(s[0], sortedTail, key)
  }

  /** The last element of a sequence sorted by `key` has the largest key. */
  lemma LastIsMaximal<T>(s: seq<T>, key: T -> int, x: T)
    requires SortedBy(s, key)
    requires x in s
    ensures key(x) <= key(s[|s| - 1])
  {
    var k :| 0 <= k < |s| && s[k] == x;
    if k < |s| - 1 {
      assert key(s[k]) <= key(s[|s| - 1]);
    }
  }

  /** The first element of a sequence sorted by `key` has the smallest key. */
  lemma FirstIsMinimal<T>(s: seq<T>, key: T -> int, x: T)
    requires SortedBy(s, key)
    requires x in s
    ensures key(s[0]) <= key(x)
  {
    var k :| 0 <= k < |s| && s[k] == x;
    if 0 < k {
      assert key(s[0]) <= key(s[k]);
    }
  }

  /** Sorting keeps a property every element has. */
  lemma SortByKeepsAll<T>(s: seq<T>, key: T -> int, p: T -> bool)
    requires forall i :: 0 <= i < |s| ==> p(s[i])
    ensures forall i :: 0 <= i < |SortBy(s, key)| ==> p(SortBy(s, key)[i])
  {
    var r := SortBy(s, key);
    forall i | 0 <= i < |r| ensures p(r[i]) {
      assert r[i] in multiset(s);
    }
  }

  /** After sorting, the last element is one of the input's, and no input
      element has a larger key. */
  lemma SortByLastIsMaximum<T>(s: seq<T>, key: T -> int)
    requires |s| > 0
    ensures exists k :: 0 <= k < |s| && s[k] == SortBy(s, key)[|s| - 1]
    ensures forall i :: 0 <= i < |s| ==> key(s[i]) <= key(SortBy(s, key)[|s| - 1])
  {
    var r := SortBy(s, key);
    assert r[|r| - 1] in multiset(s);
    forall i | 0 <= i < |s| ensures key(s[i]) <= key(r[|s| - 1]) {
      assert s[i] in multiset(r);
      LastIsMaximal(r, key, s[i]);
    }
  }
}
