/**
 * Stable insertion sort by a comparison, the shape both of Django's
 * `order_by('-count')` over grouped rows and of JavaScript's
 * `Array.prototype.sort` with a numeric comparator (stable since ES2019).
 */
module Sorting {

  /** `le` compares any two elements and its comparisons chain. */
  ghost predicate TotalPreorder<T(!new)>(le: (T, T) -> bool) {
    && (forall a, b :: le(a, b) || le(b, a))
    && (forall a, b, c :: le(a, b) && le(b, c) ==> le(a, c))
  }

  /** Every element comes `le` every later one. */
  predicate SortedBy<T>(s: seq<T>, le: (T, T) -> bool) {
    forall i, j :: 0 <= i < j < |s| ==> le(s[i], s[j])
  }

  /** Inserts `x` into `s` after every element of the tail that is `le` it and
      before the trailing run of elements that are not. */
  function Insert<T>(s: seq<T>, x: T, le: (T, T) -> bool): (r: seq<T>)
    ensures |r| == |s| + 1
    ensures multiset(r) == multiset(s) + multiset{x}
    decreases |s|
  {
    if |s| == 0 then [x]
    else if le(s[|s| - 1], x) then s + [x]
    else
      var init := s[..|s| - 1];
      assert s == init + [s[|s| - 1]];
      Insert(init, x, le) + [s[|s| - 1]]
  }

  /** Sorting: `s` rearranged so that it is SortedBy `le`. */
  function SortBy<T>(s: seq<T>, le: (T, T) -> bool): (r: seq<T>)
    ensures |r| == |s|
    ensures multiset(r) == multiset(s)
    decreases |s|
  {
    if |s| == 0 then []
    else
      var init := s[..|s| - 1];
      assert s == init + [s[|s| - 1]];
      Insert(SortBy(init, le), s[|s| - 1], le)
  }

  /** Every element of an insertion result is either the inserted one or came from `s`,
      and whatever was `le`-above `x` in `s` still is. */
  lemma {:induction false} InsertSorted<T(!new)>(s: seq<T>, x: T, le: (T, T) -> bool)
    requires TotalPreorder(le)
    requires SortedBy(s, le)
    ensures SortedBy(Insert(s, x, le), le)
    decreases |s|
  {
    var r := Insert(s, x, le);
    if |s| == 0 {
    } else if le(s[|s| - 1], x) {
      forall i, j | 0 <= i < j < |r| ensures le(r[i], r[j]) {
        if j == |s| && i < |s| - 1 {
          assert le(s[i], s[|s| - 1]);
        }
      }
    } else {
      InsertSorted(s[..|s| - 1], x, le);
      InsertBelowLast(s, x, le);
    }
  }

  /** When `x` goes before the last element, the insertion into the front
      part stays below that last element. */
  lemma InsertBelowLast<T(!new)>(s: seq<T>, x: T, le: (T, T) -> bool)
    requires TotalPreorder(le)
    requires SortedBy(s, le) && |s| > 0 && !le(s[|s| - 1], x)
    requires SortedBy(Insert(s[..|s| - 1], x, le), le)
    ensures SortedBy(Insert(s, x, le), le)
  {
    var init := s[..|s| - 1];
    var last := s[|s| - 1];
    var r0 := Insert(init, x, le);
    var r := Insert(s, x, le);
    assert r == r0 + [last];
    assert le(x, last);
    forall y | y in multiset(r0) ensures le(y, last) {
      assert y in multiset(init) + multiset{x};
      if y in multiset(init) {
        var k :| 0 <= k < |init| && init[k] == y;
        assert s[k] == y;
      }
    }
    forall i, j | 0 <= i < j < |r| ensures le(r[i], r[j]) {
      if j == |r| - 1 {
        assert r[i] == r0[i];
        assert r0[i] in multiset(r0);
      } else {
        assert r[i] == r0[i] && r[j] == r0[j];
      }
    }
  }

  /** SortBy yields a sorted sequence. */
  lemma {:induction false} SortBySorted<T(!new)>(s: seq<T>, le: (T, T) -> bool)
    requires TotalPreorder(le)
    ensures SortedBy(SortBy(s, le), le)
    decreases |s|
  {
    if |s| > 0 {
      SortBySorted(s[..|s| - 1], le);
      InsertSorted(SortBy(s[..|s| - 1], le), s[|s| - 1], le);
    }
  }

  /** The sorted sequence holds the same elements, and its first one is
      `le` every element. */
  lemma SortByFirst<T(!new)>(s: seq<T>, le: (T, T) -> bool)
    requires TotalPreorder(le)
    ensures forall x :: x in SortBy(s, le) <==> x in s
    ensures |s| > 0 ==> forall x :: x in s ==> le(SortBy(s, le)[0], x)
  {
    var o := SortBy(s, le);
    SortBySorted(s, le);
    assert forall x :: x in o <==> x in multiset(o);
    assert forall x :: x in s <==> x in multiset(s);
    if |s| > 0 {
      forall x | x in s ensures le(o[0], x) {
        assert x in multiset(o);
        var j :| 0 <= j < |o| && o[j] == x;
        if j == 0 {
          assert le(x, x) || le(x, x);
        }
      }
    }
  }

  /** Python slicing `s[:n]`, JavaScript `s.slice(0, n)`: at most `n` leading elements. */
  function Take<T>(s: seq<T>, n: nat): (r: seq<T>)
    ensures |r| == if |s| < n then |s| else n
    ensures r == s[..|r|]
    ensures multiset(r) <= multiset(s)
  {
    if |s| <= n then s
    else
      assert s == s[..n] + s[n..];
      s[..n]
  }

  /** Python's `sorted(s, ...)[:n]`, Django's `.order_by(...)[:n]`: the `n`
      first elements in `le` order, so at most `n` of `s` and none that some
      left-out element comes `le`-before. */
  function Primeros<T(!new)>(s: seq<T>, le: (T, T) -> bool, n: nat): (r: seq<T>)
    requires TotalPreorder(le)
    ensures |r| == if |s| < n then |s| else n
    ensures multiset(r) <= multiset(s)
    ensures forall x :: x in r ==> x in s
    ensures SortedBy(r, le)
    ensures forall x, y :: x in s && x !in r && y in r ==> le(y, x)
  {
    var o := SortBy(s, le);
    SortBySorted(s, le);
    assert forall x :: x in o <==> x in s by {
      assert forall x :: x in o <==> x in multiset(o);
      assert forall x :: x in s <==> x in multiset(s);
    }
    var r := Take(o, n);
    assert forall x, y :: x in s && x !in r && y in r ==> le(y, x) by {
      forall x | x in s && x !in r
        ensures forall y :: y in r ==> le(y, x)
      {
        TakeOfSortedIsTop(o, n, le, x);
      }
    }
    r
  }

  /** Sorting then cutting keeps the best elements: whatever is left out of the
      first `n` is `le`-after each element that was kept. */
  lemma TakeOfSortedIsTop<T>(s: seq<T>, n: nat, le: (T, T) -> bool, y: T)
    requires SortedBy(s, le)
    requires y in s && y !in Take(s, n)
    ensures forall x :: x in Take(s, n) ==> le(x, y)
  {
    var j :| 0 <= j < |s| && s[j] == y;
    forall x | x in Take(s, n) ensures le(x, y) {
      var i :| 0 <= i < |Take(s, n)| && Take(s, n)[i] == x;
    }
  }
}
