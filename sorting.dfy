/**
 * The stable sort used for every ordering in the source.  `Array.prototype.sort`
 * is stable (ECMAScript 2019), so with a comparator that compares two keys the
 * result is determined uniquely: keys ascending, ties in input order.  It is
 * modelled as an insertion sort that places each element after every element
 * whose key is not greater.
 */
module Sorting {
  import opened Seqs

  /** A sort key compared lexicographically; smaller keys come first. */
  datatype Key = Key(major: int, minor: int)

  predicate KeyLt(a: Key, b: Key) {
    a.major < b.major || (a.major == b.major && a.minor < b.minor)
  }

  predicate KeyLe(a: Key, b: Key) {
    a.major < b.major || (a.major == b.major && a.minor <= b.minor)
  }

  /** `s` is ordered by ascending key. */
  ghost predicate SortedBy<T>(s: seq<T>, key: T -> Key) {
    forall i, j :: 0 <= i < j < |s| ==> KeyLe(key(s[i]), key(s[j]))
  }

  /** Places `x` before the first element of `r` with a strictly greater key. */
  function Insert<T>(x: T, r: seq<T>, key: T -> Key): (res: seq<T>)
    ensures |res| == |r| + 1
  {
    if r == [] then [x]
    else if KeyLt(key(x), key(r[0])) then [x] + r
    else [r[0]] + Insert(x, r[1..], key)
  }

  /** Inserting adds exactly `x` to the elements. */
  lemma {:induction false} InsertPermutes<T>(x: T, r: seq<T>, key: T -> Key)
    ensures multiset(Insert(x, r, key)) == multiset(r) + multiset{x}
  {
    if r != [] && !KeyLt(key(x), key(r[0])) {
      InsertPermutes(x, r[1..], key);
      assert r == [r[0]] + r[1..];
    }
  }

  lemma {:induction false} InsertSorted<T>(x: T, r: seq<T>, key: T -> Key)
    requires SortedBy(r, key)
    ensures SortedBy(Insert(x, r, key), key)
  {
    if r != [] && !KeyLt(key(x), key(r[0])) {
      var tail := Insert(x, r[1..], key);
      InsertSorted(x, r[1..], key);
      forall y | y in tail ensures KeyLe(key(r[0]), key(y)) {
        InsertedFrom(x, r, y, key);
      }
      ConsSorted(r[0], tail, key);
    }
  }

  /** An element of `Insert(x, r[1..])` is `x` or an element of `r` after its head. */
  lemma InsertedFrom<T>(x: T, r: seq<T>, y: T, key: T -> Key)
    requires r != [] && SortedBy(r, key) && !KeyLt(key(x), key(r[0]))
    requires y in Insert(x, r[1..], key)
    ensures KeyLe(key(r[0]), key(y))
  {
    InsertPermutes(x, r[1..], key);
    assert y in multiset(Insert(x, r[1..], key));
    if y != x {
      assert y in multiset(r[1..]);
      var k :| 0 <= k < |r[1..]| && r[1..][k] == y;
      assert r[k + 1] == y;
    }
  }

  /** A head no greater than every element of a sorted tail keeps it sorted. */
  lemma ConsSorted<T>(h: T, tail: seq<T>, key: T -> Key)
    requires SortedBy(tail, key)
    requires forall y :: y in tail ==> KeyLe(key(h), key(y))
    ensures SortedBy([h] + tail, key)
  {
    var res := [h] + tail;
    forall i, j | 0 <= i < j < |res| ensures KeyLe(key(res[i]), key(res[j])) {
      assert res[j] == tail[j - 1];
      if i == 0 {
        assert tail[j - 1] in tail;
      } else {
        assert res[i] == tail[i - 1];
      }
    }
  }

  /** Stable sort of `s` by ascending `key`: a permutation of `s`. */
  function SortBy<T>(s: seq<T>, key: T -> Key): (r: seq<T>)
    ensures |r| == |s|
    ensures multiset(r) == multiset(s)
  {
    if s == [] then []
    else
      assert s == s[..|s| - 1] + [s[|s| - 1]];
      InsertPermutes(s[|s| - 1], SortBy(s[..|s| - 1], key), key);
      Insert(s[|s| - 1], SortBy(s[..|s| - 1], key), key)
  }

  /** The result of `SortBy` is ordered by ascending key. */
  lemma {:induction false} SortBySorted<T>(s: seq<T>, key: T -> Key)
    ensures SortedBy(SortBy(s, key), key)
  {
    if s != [] {
      SortBySorted(s[..|s| - 1], key);
      InsertSorted(s[|s| - 1], SortBy(s[..|s| - 1], key), key);
    }
  }

  /** Inserting `x` between a prefix with keys not above it and a suffix starting above it. */
  lemma {:induction false} InsertBetween<T>(x: T, a: seq<T>, b: seq<T>, key: T -> Key)
    requires forall i :: 0 <= i < |a| ==> !KeyLt(key(x), key(a[i]))
    requires b != [] ==> KeyLt(key(x), key(b[0]))
    ensures Insert(x, a + b, key) == a + [x] + b
  {
    if a == [] {
      assert a + b == b;
    } else {
      forall i | 0 <= i < |a[1..]| ensures !KeyLt(key(x), key(a[1..][i])) {
        assert a[1..][i] == a[i + 1];
      }
      InsertBetween(x, a[1..], b, key);
      InsertPastHead(x, a, b, key);
    }
  }

  /** One step of `Insert` past the head of `a`, which `x` does not go before. */
  lemma InsertPastHead<T>(x: T, a: seq<T>, b: seq<T>, key: T -> Key)
    requires a != [] && !KeyLt(key(x), key(a[0]))
    requires Insert(x, a[1..] + b, key) == a[1..] + [x] + b
    ensures Insert(x, a + b, key) == a + [x] + b
  {
    var ab := a + b;
    assert ab != [] && ab[0] == a[0];
    assert ab[1..] == a[1..] + b;
    assert Insert(x, ab, key) == [a[0]] + (a[1..] + [x] + b);
    assert [a[0]] + (a[1..] + [x] + b) == a + [x] + b;
  }

  /** Every element kept by `p` has the key that `p` implies. */
  lemma {:induction false} FilterKeys<T>(s: seq<T>, key: T -> Key, p: T -> bool, k: Key)
    requires forall i :: 0 <= i < |s| ==> p(s[i]) ==> key(s[i]) == k
    ensures forall i :: 0 <= i < |Filter(s, p)| ==> key(Filter(s, p)[i]) == k
  {
    if s != [] {
      FilterKeys(s[1..], key, p, k);
      var rest := Filter(s[1..], p);
      if p(s[0]) {
        assert Filter(s, p) == [s[0]] + rest;
      } else {
        assert Filter(s, p) == rest;
      }
    }
  }

  /** Inserting a low-key element into "low keys, then high keys" ends the low group. */
  lemma InsertLow<T>(x: T, a: seq<T>, b: seq<T>, key: T -> Key, lo: Key, hi: Key)
    requires KeyLt(lo, hi) && key(x) == lo
    requires forall i :: 0 <= i < |a| ==> key(a[i]) == lo
    requires forall i :: 0 <= i < |b| ==> key(b[i]) == hi
    ensures Insert(x, a + b, key) == (a + [x]) + b
  {
    InsertBetween(x, a, b, key);
  }

  /** Inserting a high-key element into "low keys, then high keys" goes last. */
  lemma InsertHigh<T>(x: T, a: seq<T>, b: seq<T>, key: T -> Key, lo: Key, hi: Key)
    requires KeyLt(lo, hi) && key(x) == hi
    requires forall i :: 0 <= i < |a| ==> key(a[i]) == lo
    requires forall i :: 0 <= i < |b| ==> key(b[i]) == hi
    ensures Insert(x, a + b, key) == a + (b + [x])
  {
    var ab := a + b;
    forall i | 0 <= i < |ab| ensures !KeyLt(key(x), key(ab[i])) {
      if i < |a| { assert ab[i] == a[i]; } else { assert ab[i] == b[i - |a|]; }
    }
    InsertLast(x, ab, key);
  }

  /** An element whose key no element exceeds is inserted last. */
  lemma {:induction false} InsertLast<T>(x: T, s: seq<T>, key: T -> Key)
    requires forall i :: 0 <= i < |s| ==> !KeyLt(key(x), key(s[i]))
    ensures Insert(x, s, key) == s + [x]
  {
    if s != [] {
      forall i | 0 <= i < |s[1..]| ensures !KeyLt(key(x), key(s[1..][i])) {
        assert s[1..][i] == s[i + 1];
      }
      InsertLast(x, s[1..], key);
      assert [s[0]] + (s[1..] + [x]) == s + [x];
    }
  }

  /**
   * Stability for a key with two values: sorting puts the `p` elements first and
   * the `q` elements (the rest) after them, each group in input order.
   */
  lemma {:induction false} SortTwoClasses<T>(s: seq<T>, key: T -> Key, p: T -> bool, q: T -> bool, lo: Key, hi: Key)
    requires KeyLt(lo, hi)
    requires forall i :: 0 <= i < |s| ==> p(s[i]) != q(s[i])
    requires forall i :: 0 <= i < |s| ==> key(s[i]) == if p(s[i]) then lo else hi
    ensures SortBy(s, key) == Filter(s, p) + Filter(s, q)
  {
    if s != [] {
      var init, x := s[..|s| - 1], s[|s| - 1];
      assert s == init + [x];
      SortTwoClasses(init, key, p, q, lo, hi);
      var a, b := Filter(init, p), Filter(init, q);
      FilterKeys(init, key, p, lo);
      FilterKeys(init, key, q, hi);
      assert key(x) == if p(x) then lo else hi;
      FilterSnoc(init, x, p);
      FilterSnoc(init, x, q);
      assert SortBy(s, key) == Insert(x, a + b, key);
      if p(x) {
        InsertLow(x, a, b, key, lo, hi);
        assert Filter(s, p) == a + [x] && Filter(s, q) == b;
      } else {
        InsertHigh(x, a, b, key, lo, hi);
        assert Filter(s, p) == a && Filter(s, q) == b + [x];
      }
    }
  }

  /** Ascending keys that negate a timestamp put the timestamps in descending order. */
  lemma DescendingStamps<T>(s: seq<T>, key: T -> Key, stamp: T -> int)
    requires SortedBy(s, key)
    requires forall x :: key(x).major == -stamp(x)
    ensures forall i, j :: 0 <= i < j < |s| ==> stamp(s[i]) >= stamp(s[j])
  {
    forall i, j | 0 <= i < j < |s| ensures stamp(s[i]) >= stamp(s[j]) {
      assert KeyLe(key(s[i]), key(s[j]));
    }
  }

  /** Ascending keys that are a timestamp put the timestamps in ascending order. */
  lemma AscendingStamps<T>(s: seq<T>, key: T -> Key, stamp: T -> int)
    requires SortedBy(s, key)
    requires forall x :: key(x).major == stamp(x)
    ensures forall i, j :: 0 <= i < j < |s| ==> stamp(s[i]) <= stamp(s[j])
  {
    forall i, j | 0 <= i < j < |s| ensures stamp(s[i]) <= stamp(s[j]) {
      assert KeyLe(key(s[i]), key(s[j]));
    }
  }

  /** Sorting a selection keeps exactly the selected elements, as many as were selected. */
  lemma SortedSelection<T>(s: seq<T>, p: T -> bool, key: T -> Key)
    ensures forall x :: x in SortBy(Filter(s, p), key) <==> x in s && p(x)
    ensures |SortBy(Filter(s, p), key)| == Count(s, p)
    ensures SortedBy(SortBy(Filter(s, p), key), key)
  {
    var sorted := SortBy(Filter(s, p), key);
    FilterContains(s, p);
    SortBySorted(Filter(s, p), key);
    forall x ensures x in sorted <==> x in Filter(s, p) {
      assert x in sorted <==> x in multiset(sorted);
      assert x in Filter(s, p) <==> x in multiset(Filter(s, p));
    }
  }
}
