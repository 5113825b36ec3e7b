// `Array.prototype.sort` with a comparator, on a fresh copy of the array.
// Since ES2019 the sort is stable; for a comparator that is a consistent
// total preorder, the stable sorted order of a sequence is unique, so
// insertion sort below is a reference for what any conforming engine
// returns. A comparator follows the JavaScript convention: a negative or
// zero result lets its first argument stay in front of the second.

module StableSort {

  /** The sign of a difference, as `a.price - b.price` is read by `sort`. */
  function Sign(x: real): (r: int)
    ensures r < 0 <==> x < 0.0
    ensures r == 0 <==> x == 0.0
    ensures -1 <= r <= 1
  {
    if x < 0.0 then -1 else if x > 0.0 then 1 else 0
  }

  lemma SignNegate(x: real)
    ensures Sign(-x) == -Sign(x)
  {
  }

  /** `x` goes in front of the first element it does not compare above. */
  function Insert<T>(x: T, s: seq<T>, cmp: (T, T) -> int): (r: seq<T>)
    ensures multiset(r) == multiset(s) + multiset{x}
    ensures |r| == |s| + 1
    ensures forall k :: 0 <= k < |r| ==> r[k] == x || r[k] in s
  {
    if s == [] then [x]
    else if cmp(x, s[0]) <= 0 then [x] + s
    else
      assert s == [s[0]] + s[1..];
      [s[0]] + Insert(x, s[1..], cmp)
  }

  /**
   * Stable sort: each element is inserted, from the back of the input
   * forwards, in front of every later element it ties with.
   */
  function Sort<T>(s: seq<T>, cmp: (T, T) -> int): (r: seq<T>)
    ensures multiset(r) == multiset(s)
    ensures |r| == |s|
  {
    if s == [] then []
    else
      assert s == [s[0]] + s[1..];
      Insert(s[0], Sort(s[1..], cmp), cmp)
  }

  ghost predicate TotalPreorder<T(!new)>(cmp: (T, T) -> int)
  {
    && (forall a, b :: cmp(a, b) <= 0 || cmp(b, a) <= 0)
    && (forall a, b, c :: cmp(a, b) <= 0 && cmp(b, c) <= 0 ==> cmp(a, c) <= 0)
  }

  ghost predicate Sorted<T>(s: seq<T>, cmp: (T, T) -> int)
  {
    forall i, j :: 0 <= i < j < |s| ==> cmp(s[i], s[j]) <= 0
  }

  /** A comparator that subtracts a numeric key orders consistently. */
  lemma KeyDifferenceIsPreorder<T(!new)>(cmp: (T, T) -> int, key: T -> real)
    requires forall a, b :: cmp(a, b) == Sign(key(a) - key(b))
    ensures TotalPreorder(cmp)
  {
  }

  lemma {:induction false} InsertKeepsSorted<T(!new)>(x: T, s: seq<T>, cmp: (T, T) -> int)
    requires TotalPreorder(cmp)
    requires Sorted(s, cmp)
    ensures Sorted(Insert(x, s, cmp), cmp)
  {
    if s == [] {
    } else if cmp(x, s[0]) <= 0 {
      FrontBelowAll(x, s, cmp);
    } else {
      var tail := Insert(x, s[1..], cmp);
      InsertKeepsSorted(x, s[1..], cmp);
      if tail[0] != x {
        var j :| 0 <= j < |s[1..]| && s[1..][j] == tail[0];
        assert s[j + 1] == tail[0];
      }
      FrontBelowAll(s[0], tail, cmp);
    }
  }

  /** A sorted sequence stays sorted with a front element below all of it. */
  lemma FrontBelowAll<T(!new)>(x: T, s: seq<T>, cmp: (T, T) -> int)
    requires TotalPreorder(cmp)
    requires Sorted(s, cmp)
    requires s != [] ==> cmp(x, s[0]) <= 0
    ensures Sorted([x] + s, cmp)
  {
    var r := [x] + s;
    forall i, j | 0 <= i < j < |r| ensures cmp(r[i], r[j]) <= 0 {
      if i == 0 && j > 1 {
        assert cmp(s[0], s[j - 1]) <= 0;
      }
    }
  }

  /** Under a consistent comparator the output is in comparator order. */
  lemma {:induction false} SortIsSorted<T(!new)>(s: seq<T>, cmp: (T, T) -> int)
    requires TotalPreorder(cmp)
    ensures Sorted(Sort(s, cmp), cmp)
  {
    if s != [] {
      SortIsSorted(s[1..], cmp);
      InsertKeepsSorted(s[0], Sort(s[1..], cmp), cmp);
    }
  }

  /** A comparator that reports every pair as tied leaves the order alone. */
  lemma {:induction false} SortAllTiesIsIdentity<T>(s: seq<T>, cmp: (T, T) -> int)
    requires forall i, j :: 0 <= i < |s| && 0 <= j < |s| ==> cmp(s[i], s[j]) == 0
    ensures Sort(s, cmp) == s
  {
    if s != [] {
      assert forall i, j :: 0 <= i < |s[1..]| && 0 <= j < |s[1..]| ==> s[1..][i] == s[i + 1] && s[1..][j] == s[j + 1];
      SortAllTiesIsIdentity(s[1..], cmp);
      if s[1..] != [] {
        assert cmp(s[0], s[1]) == 0;
      }
    }
  }
}
