/** List operations the source performs with `filter`, `find`, `map` and `slice`. */
module Seqs {
  import opened Wrappers

  /** The elements of `s` that satisfy `p`, in their original order (`Array.prototype.filter`). */
  function Filter<T>(s: seq<T>, p: T -> bool): (r: seq<T>)
    ensures |r| <= |s|
    ensures forall i :: 0 <= i < |r| ==> p(r[i])
  {
    if s == [] then []
    else
      (if p(s[0]) then [s[0]] else []) + Filter(s[1..], p)
  }

  /** Filtering keeps every occurrence of an element satisfying `p` and no other. */
  lemma {:induction false} FilterMultiset<T>(s: seq<T>, p: T -> bool)
    ensures forall x :: multiset(Filter(s, p))[x] == if p(x) then multiset(s)[x] else 0
  {
    if s != [] {
      FilterMultiset(s[1..], p);
      assert s == [s[0]] + s[1..];
    }
  }

  /** Filtering draws every kept element from `s`. */
  lemma FilterSubMultiset<T>(s: seq<T>, p: T -> bool)
    ensures multiset(Filter(s, p)) <= multiset(s)
  {
    FilterMultiset(s, p);
  }

  /** A prefix draws every element from the whole. */
  lemma PrefixSubMultiset<T>(s: seq<T>, n: nat)
    requires n <= |s|
    ensures multiset(s[..n]) <= multiset(s)
  {
    assert s == s[..n] + s[n..];
  }

  /** An element is kept exactly when it occurs in `s` and satisfies `p`. */
  lemma FilterContains<T>(s: seq<T>, p: T -> bool)
    ensures forall x :: x in Filter(s, p) <==> x in s && p(x)
  {
    FilterMultiset(s, p);
    forall x ensures x in Filter(s, p) <==> x in s && p(x) {
      assert x in Filter(s, p) <==> x in multiset(Filter(s, p));
      assert x in s <==> x in multiset(s);
    }
  }

  /** A reordering keeps every property all the elements had. */
  lemma PermutationKeepsAll<T>(a: seq<T>, b: seq<T>, p: T -> bool)
    requires multiset(a) == multiset(b)
    requires forall i :: 0 <= i < |a| ==> p(a[i])
    ensures forall i :: 0 <= i < |b| ==> p(b[i])
  {
    forall i | 0 <= i < |b| ensures p(b[i]) {
      assert b[i] in multiset(b);
      assert b[i] in a;
      var j :| 0 <= j < |a| && a[j] == b[i];
    }
  }

  /** Filtering that keeps every element means every element satisfies `p`. */
  lemma {:induction false} AllKept<T>(s: seq<T>, p: T -> bool)
    requires |Filter(s, p)| == |s|
    ensures forall i :: 0 <= i < |s| ==> p(s[i])
  {
    if s != [] {
      assert s == [s[0]] + s[1..];
      assert |Filter(s[1..], p)| <= |s| - 1;
      assert p(s[0]);
      AllKept(s[1..], p);
      forall i | 0 <= i < |s| ensures p(s[i]) {
        if i > 0 {
          assert s[i] == s[1..][i - 1];
        }
      }
    }
  }

  /** When filtering drops something, some element fails `p`. */
  lemma {:induction false} SomeDropped<T>(s: seq<T>, p: T -> bool) returns (i: nat)
    requires |Filter(s, p)| < |s|
    ensures i < |s| && !p(s[i])
  {
    if p(s[0]) {
      var j := SomeDropped(s[1..], p);
      i := j + 1;
    } else {
      i := 0;
    }
  }

  /** What `p` implies on the elements of `s` holds of everything `Filter(s, p)` keeps. */
  lemma {:induction false} FilterImplies<T>(s: seq<T>, p: T -> bool, q: T -> bool)
    requires forall i :: 0 <= i < |s| ==> p(s[i]) ==> q(s[i])
    ensures forall i :: 0 <= i < |Filter(s, p)| ==> q(Filter(s, p)[i])
  {
    if s != [] {
      FilterImplies(s[1..], p, q);
      var r := Filter(s, p);
      var rest := Filter(s[1..], p);
      forall i | 0 <= i < |r| ensures q(r[i]) {
        if p(s[0]) && i == 0 {
          assert r[0] == s[0];
        } else if p(s[0]) {
          assert r[i] == rest[i - 1];
        } else {
          assert r[i] == rest[i];
        }
      }
    }
  }

  /** Filtering distributes over concatenation: the kept elements of `a` come first. */
  lemma {:induction false} FilterAppend<T>(a: seq<T>, b: seq<T>, p: T -> bool)
    ensures Filter(a + b, p) == Filter(a, p) + Filter(b, p)
  {
    if a == [] {
      assert a + b == b;
    } else {
      assert (a + b)[1..] == a[1..] + b;
      FilterAppend(a[1..], b, p);
    }
  }

  /** Filtering one more element at the end appends it exactly when it is kept. */
  lemma FilterSnoc<T>(a: seq<T>, x: T, p: T -> bool)
    ensures Filter(a + [x], p) == Filter(a, p) + (if p(x) then [x] else [])
  {
    FilterAppend(a, [x], p);
    assert [x][1..] == [];
  }

  /** A predicate that holds of every element keeps the whole list. */
  lemma {:induction false} FilterAll<T>(s: seq<T>, p: T -> bool)
    requires forall x :: x in s ==> p(x)
    ensures Filter(s, p) == s
  {
    if s != [] {
      FilterAll(s[1..], p);
    }
  }

  /** A predicate that holds of no element keeps nothing. */
  lemma {:induction false} FilterNone<T>(s: seq<T>, p: T -> bool)
    requires forall x :: x in s ==> !p(x)
    ensures Filter(s, p) == []
  {
    if s != [] {
      FilterNone(s[1..], p);
    }
  }

  /** Two predicates that agree on every element of `s` keep the same elements. */
  lemma {:induction false} FilterCongruent<T>(s: seq<T>, p: T -> bool, q: T -> bool)
    requires forall x :: x in s ==> p(x) == q(x)
    ensures Filter(s, p) == Filter(s, q)
  {
    if s != [] {
      FilterCongruent(s[1..], p, q);
    }
  }

  /** How many elements of `s` satisfy `p` (`s.filter(p).length`). */
  function Count<T>(s: seq<T>, p: T -> bool): nat {
    |Filter(s, p)|
  }

  /** One more element at the end adds one to the count exactly when it satisfies `p`. */
  lemma CountSnoc<T>(s: seq<T>, x: T, p: T -> bool)
    ensures Count(s + [x], p) == Count(s, p) + (if p(x) then 1 else 0)
  {
    FilterSnoc(s, x, p);
  }

  /** A predicate implied by another counts at least as many elements. */
  lemma {:induction false} CountImplies<T>(s: seq<T>, p: T -> bool, q: T -> bool)
    requires forall x :: p(x) ==> q(x)
    ensures Count(s, p) <= Count(s, q)
  {
    if s != [] {
      CountImplies(s[1..], p, q);
      assert s == [s[0]] + s[1..];
    }
  }

  /** The first `n` elements, or all of them when there are fewer (`slice(0, n)`). */
  function Take<T>(s: seq<T>, n: nat): (r: seq<T>)
    ensures |r| == if |s| < n then |s| else n
    ensures r <= s
  {
    if |s| <= n then s else s[..n]
  }

  /** Index of the first element satisfying `p` (`findIndex`), or None. */
  function FirstIndex<T>(s: seq<T>, p: T -> bool): (r: Option<nat>)
    ensures r.Some? ==> r.value < |s| && p(s[r.value])
    ensures r.Some? ==> forall j :: 0 <= j < r.value ==> !p(s[j])
    ensures r.None? ==> forall j :: 0 <= j < |s| ==> !p(s[j])
  {
    if s == [] then None
    else if p(s[0]) then Some(0)
    else match FirstIndex(s[1..], p)
      case None => None
      case Some(i) => Some(i + 1)
  }

  /** The first element satisfying `p` (`Array.prototype.find`), or None. */
  function Find<T>(s: seq<T>, p: T -> bool): (r: Option<T>)
    ensures r.Some? <==> exists i :: 0 <= i < |s| && p(s[i])
    ensures r.Some? ==> r.value in s && p(r.value)
    ensures r.Some? ==> exists i :: 0 <= i < |s| && s[i] == r.value && forall j :: 0 <= j < i ==> !p(s[j])
  {
    match FirstIndex(s, p)
    case None => None
    case Some(i) => Some(s[i])
  }

  /**
   * `s.map(x => idOf(x) === id ? apply(x, patch) : x)`: every element whose id is `id`
   * is rewritten, every other element is kept, and positions do not move.
   */
  function UpdateById<T, I(==), P>(s: seq<T>, idOf: T -> I, id: I, apply: (T, P) -> T, patch: P): (r: seq<T>)
    ensures |r| == |s|
    ensures forall i :: 0 <= i < |s| ==> r[i] == if idOf(s[i]) == id then apply(s[i], patch) else s[i]
  {
    if s == [] then []
    else [if idOf(s[0]) == id then apply(s[0], patch) else s[0]]
         + UpdateById(s[1..], idOf, id, apply, patch)
  }

  /** `x => x._id !== id`: the test the delete actions filter with. */
  function OtherId<T, I(==)>(idOf: T -> I, id: I): T -> bool {
    (x: T) => idOf(x) != id
  }

  /** `s.filter(x => idOf(x) !== id)`: drops exactly the elements with that id. */

  function RemoveById<T, I(==)>(s: seq<T>, idOf: T -> I, id: I): (r: seq<T>)
    ensures r == Filter(s, OtherId(idOf, id))
    ensures forall i :: 0 <= i < |r| ==> idOf(r[i]) != id
    ensures forall i :: 0 <= i < |s| && idOf(s[i]) != id ==> s[i] in r
    ensures multiset(r) <= multiset(s)
    ensures |r| <= |s|
  {
    if s == [] then []
    else
      var r := (if idOf(s[0]) != id then [s[0]] else []) + RemoveById(s[1..], idOf, id);
      assert r == Filter(s, OtherId(idOf, id));
      FilterKeepsOthers(s, idOf, id);
      r
  }

  /** What filtering by `OtherId` keeps: every element with another id, and only those. */
  lemma FilterKeepsOthers<T, I>(s: seq<T>, idOf: T -> I, id: I)
    ensures forall i :: 0 <= i < |s| && idOf(s[i]) != id ==> s[i] in Filter(s, OtherId(idOf, id))
    ensures multiset(Filter(s, OtherId(idOf, id))) <= multiset(s)
  {
    FilterSubMultiset(s, OtherId(idOf, id));
    FilterContains(s, OtherId(idOf, id));
    assert forall i :: 0 <= i < |s| ==> OtherId(idOf, id)(s[i]) == (idOf(s[i]) != id);
  }

  /** Removing an id that no element carries leaves the list as it was. */
  lemma {:induction false} RemoveAbsentId<T, I>(s: seq<T>, idOf: T -> I, id: I)
    requires forall x :: x in s ==> idOf(x) != id
    ensures RemoveById(s, idOf, id) == s
  {
    if s != [] {
      RemoveAbsentId(s[1..], idOf, id);
    }
  }

  /** Removing one id leaves the selection of a predicate that only other ids satisfy as it was. */
  lemma {:induction false} FilterAfterRemove<T, I>(s: seq<T>, idOf: T -> I, id: I, p: T -> bool)
    requires forall x :: p(x) ==> idOf(x) != id
    ensures Filter(RemoveById(s, idOf, id), p) == Filter(s, p)
  {
    if s != [] {
      FilterAfterRemove(s[1..], idOf, id, p);
      var rest := RemoveById(s[1..], idOf, id);
      if idOf(s[0]) != id {
        assert RemoveById(s, idOf, id) == [s[0]] + rest;
        assert ([s[0]] + rest)[1..] == rest;
      } else {
        assert RemoveById(s, idOf, id) == rest;
      }
    }
  }

  /** An update whose id matches nothing changes nothing. */
  lemma UpdateAbsentId<T, I, P>(s: seq<T>, idOf: T -> I, id: I, apply: (T, P) -> T, patch: P)
    requires forall x :: x in s ==> idOf(x) != id
    ensures UpdateById(s, idOf, id, apply, patch) == s
  {
    var r := UpdateById(s, idOf, id, apply, patch);
    assert forall i :: 0 <= i < |s| ==> r[i] == s[i] by {
      forall i | 0 <= i < |s| ensures r[i] == s[i] {
        assert s[i] in s;
      }
    }
  }
}
