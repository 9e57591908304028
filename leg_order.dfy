/** Ordering journey legs by their `leg_order`, as `legs.sort((a, b) =>
    a.leg_order - b.leg_order)` does. JavaScript's `Array.prototype.sort` is
    stable, so the order is that of an insertion sort: equal keys keep their
    original relative order. `SortBy` is that order as a function; the
    in-place sort the components run on arrays is `SortInPlace`. */
module LegOrder {

  predicate SortedBy<T>(s: seq<T>, key: T -> int) {
    forall i, j :: 0 <= i < j < |s| ==> key(s[i]) <= key(s[j])
  }

  /** Inserts `x` after every element whose key is at most its own. */
  function Insert<T>(s: seq<T>, x: T, key: T -> int): seq<T> {
    if s == [] then [x]
    else if key(s[|s| - 1]) <= key(x) then s + [x]
    else Insert(s[..|s| - 1], x, key) + [s[|s| - 1]]
  }

  /** The stable ascending order of `s` by `key`. */
  function SortBy<T>(s: seq<T>, key: T -> int): seq<T> {
    if s == [] then [] else Insert(SortBy(s[..|s| - 1], key), s[|s| - 1], key)
  }

  lemma {:induction false} InsertMultiset<T>(s: seq<T>, x: T, key: T -> int)
    ensures multiset(Insert(s, x, key)) == multiset(s) + multiset{x}
  {
    if s != [] && key(s[|s| - 1]) > key(x) {
      var init, last := s[..|s| - 1], s[|s| - 1];
      InsertMultiset(init, x, key);
      assert s == init + [last];
    }
  }

  lemma {:induction false} InsertSorted<T>(s: seq<T>, x: T, key: T -> int)
    requires SortedBy(s, key)
    ensures SortedBy(Insert(s, x, key), key)
  {
    if s != [] && key(s[|s| - 1]) > key(x) {
      var init, last := s[..|s| - 1], s[|s| - 1];
      InsertSorted(init, x, key);
      InsertMultiset(init, x, key);
      var r := Insert(init, x, key);
      forall y | y in r ensures key(y) <= key(last) {
        assert y in multiset(r);
        if y != x {
          assert y in multiset(init);
          var k :| 0 <= k < |init| && init[k] == y;
          assert s[k] == y;
        }
      }
      assert Insert(s, x, key) == r + [last];
    }
  }

  /** The sorted legs are sorted by `leg_order`. */
  lemma {:induction false} SortBySorted<T>(s: seq<T>, key: T -> int)
    ensures SortedBy(SortBy(s, key), key)
  {
    if s != [] {
      SortBySorted(s[..|s| - 1], key);
      InsertSorted(SortBy(s[..|s| - 1], key), s[|s| - 1], key);
    }
  }

  /** Sorting neither loses nor invents a leg. */
  lemma {:induction false} SortByPermutation<T>(s: seq<T>, key: T -> int)
    ensures multiset(SortBy(s, key)) == multiset(s)
  {
    if s != [] {
      var init, last := s[..|s| - 1], s[|s| - 1];
      SortByPermutation(init, key);
      InsertMultiset(SortBy(init, key), last, key);
      assert s == init + [last];
    }
  }

  /** The first element of the sorted legs has the least key of all legs. */
  lemma SortByFirstIsMinimal<T>(s: seq<T>, key: T -> int)
    requires |s| > 0
    ensures |SortBy(s, key)| == |s|
    ensures SortBy(s, key)[0] in multiset(s)
    ensures forall y :: y in s ==> key(SortBy(s, key)[0]) <= key(y)
  {
    var r := SortBy(s, key);
    SortBySorted(s, key);
    SortByPermutation(s, key);
    assert |r| == |multiset(r)| == |multiset(s)| == |s|;
    assert r[0] in multiset(r);
    forall y | y in s ensures key(r[0]) <= key(y) {
      assert y in multiset(s);
      assert y in multiset(r);
      var k :| 0 <= k < |r| && r[k] == y;
    }
  }

  /** The head after inserting into a sorted list: `x` only when its key is
      strictly below the old head's, so an equal key stays behind. */
  lemma {:induction false} InsertHead<T>(p: seq<T>, x: T, key: T -> int)
    requires |p| > 0 && SortedBy(p, key)
    ensures Insert(p, x, key)[0] == if key(x) < key(p[0]) then x else p[0]
  {
    var init := p[..|p| - 1];
    if key(p[|p| - 1]) > key(x) && init != [] {
      assert init[0] == p[0];
      InsertHead(init, x, key);
    }
  }

  /** Stability at the head: the first sorted leg is the earliest listed one
      among those of least key, so every leg listed before it has a strictly
      larger key. */
  lemma {:induction false} SortByFirstIsEarliest<T>(s: seq<T>, key: T -> int)
    requires |s| > 0
    ensures exists i :: 0 <= i < |s| && s[i] == SortBy(s, key)[0] && forall j :: 0 <= j < i ==> key(s[j]) > key(s[i])
  {
    var init, last := s[..|s| - 1], s[|s| - 1];
    if init == [] {
      assert s[0] == SortBy(s, key)[0];
    } else {
      var p := SortBy(init, key);
      SortByFirstIsEarliest(init, key);
      SortByFirstIsMinimal(init, key);
      SortBySorted(init, key);
      InsertHead(p, last, key);
      var i :| 0 <= i < |init| && init[i] == p[0] && forall j :: 0 <= j < i ==> key(init[j]) > key(init[i]);
      if key(last) < key(p[0]) {
        forall j | 0 <= j < |s| - 1 ensures key(s[j]) > key(s[|s| - 1]) {
          assert init[j] in init;
        }
        assert s[|s| - 1] == SortBy(s, key)[0];
      } else {
        assert s[i] == SortBy(s, key)[0];
        assert forall j :: 0 <= j < i ==> s[j] == init[j];
      }
    }
  }

  /** Inserting `x` into `p` puts it just before the first element of a
      larger key, when every element from `j` on has a larger key and the
      one before `j` does not. */
  lemma {:induction false} InsertAt<T>(p: seq<T>, x: T, key: T -> int, j: nat)
    requires j <= |p|
    requires j > 0 ==> key(p[j - 1]) <= key(x)
    requires forall k :: j <= k < |p| ==> key(p[k]) > key(x)
    ensures Insert(p, x, key) == p[..j] + [x] + p[j..]
  {
    if j < |p| {
      var init := p[..|p| - 1];
      InsertAt(init, x, key, j);
      assert init[..j] == p[..j];
      assert init[j..] + [p[|p| - 1]] == p[j..];
    } else if p != [] {
      assert p[..j] == p;
    }
  }

  /** One pass of the insertion sort: shifts the elements before `i` whose
      key exceeds `a[i]`'s one place right and puts `a[i]` in the gap. */
  method InsertLast<T>(a: array<T>, i: nat, key: T -> int)
    requires i < a.Length
    modifies a
    ensures a[..i + 1] == Insert(old(a[..i]), old(a[i]), key)
    ensures a[i + 1..] == old(a[i + 1..])
  {
    ghost var p := a[..i];
    var x := a[i];
    var j := i;
    while j > 0 && key(a[j - 1]) > key(x)
      invariant 0 <= j <= i
      invariant forall k :: 0 <= k < j ==> a[k] == p[k]
      invariant forall k :: j < k <= i ==> a[k] == p[k - 1]
      invariant forall k :: j <= k < i ==> key(p[k]) > key(x)
      invariant forall k :: i < k < a.Length ==> a[k] == old(a[k])
    {
      a[j] := a[j - 1];
      j := j - 1;
    }
    a[j] := x;
    InsertAt(p, x, key, j);
    assert a[..i + 1] == p[..j] + [x] + p[j..] by {
      forall k | 0 <= k <= i ensures a[..i + 1][k] == (p[..j] + [x] + p[j..])[k] {
        if k > j {
          assert (p[..j] + [x] + p[j..])[k] == p[k - 1];
        }
      }
    }
    assert a[i + 1..] == old(a[i + 1..]);
  }

  /** Sorts `a` in place (an insertion sort), leaving it in `SortBy` order. */
  method SortInPlace<T>(a: array<T>, key: T -> int)
    modifies a
    ensures a[..] == SortBy(old(a[..]), key)
  {
    ghost var orig := a[..];
    var i := 0;
    while i < a.Length
      invariant 0 <= i <= a.Length
      invariant a[..i] == SortBy(orig[..i], key)
      invariant a[i..] == orig[i..]
    {
      assert a[i] == orig[i];
      InsertLast(a, i, key);
      assert orig[..i + 1][..i] == orig[..i];
      i := i + 1;
    }
    assert a[..] == a[..a.Length];
    assert orig == orig[..a.Length];
  }
}
