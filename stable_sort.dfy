/**
  Python's `list.sort(key=...)` is a stable sort. Both packaging resolvers sort their
  candidates by a preference key, and the forecasting wizard sorts its result lines by
  forecast. This module states what a stable sort by a total preorder `le` computes
  (`SortBy`, insertion from the right), proves that an in-place insertion sort on an array
  computes exactly that, and proves the properties the callers rely on: the result is
  ordered, a permutation, stable, and its head is the first minimal element.
*/
module StableSort {

  /** `le` is total and transitive: the order a sort key induces. */
  ghost predicate TotalPreorder<T(!new)>(le: (T, T) -> bool) {
    && (forall a, b :: le(a, b) || le(b, a))
    && (forall a, b, c :: le(a, b) && le(b, c) ==> le(a, c))
  }

  ghost predicate Sorted<T>(s: seq<T>, le: (T, T) -> bool) {
    forall i, j :: 0 <= i < j < |s| ==> le(s[i], s[j])
  }

  /** Inserts `x` after every trailing element that is not greater than it. */
  function InsertLast<T>(l: seq<T>, x: T, le: (T, T) -> bool): (r: seq<T>)
    ensures |r| == |l| + 1
    decreases |l|
  {
    if l == [] then [x]
    else if le(l[|l| - 1], x) then l + [x]
    else
      assert l == l[..|l| - 1] + [l[|l| - 1]];
      InsertLast(l[..|l| - 1], x, le) + [l[|l| - 1]]
  }

  /** The stable sort of `s` by `le`: each element is inserted after the ones before it. */
  function SortBy<T>(s: seq<T>, le: (T, T) -> bool): (r: seq<T>)
    ensures |r| == |s|
    decreases |s|
  {
    if s == [] then []
    else
      assert s == s[..|s| - 1] + [s[|s| - 1]];
      InsertLast(SortBy(s[..|s| - 1], le), s[|s| - 1], le)
  }

  /** Sorts `a` in place; the result is exactly the stable sort of the old contents. */
  method SortInPlace<T>(a: array<T>, le: (T, T) -> bool)
    modifies a
    ensures a[..] == SortBy(old(a[..]), le)
  {
    ghost var s := a[..];
    var i := 0;
    while i < a.Length
      invariant 0 <= i <= a.Length
      invariant a[..i] == SortBy(s[..i], le)
      invariant a[i..] == s[i..]
    {
      assert a[i] == s[i];
      ghost var before := a[..];
      InsertAt(a, i, le);
      assert s[..i + 1][..i] == s[..i];
      assert SortBy(s[..i + 1], le) == InsertLast(SortBy(s[..i], le), s[i], le);
      assert a[i + 1..] == before[i + 1..] == s[i + 1..];
      i := i + 1;
    }
    assert s[..a.Length] == s;
  }

  /** One step of insertion sort: moves `a[i]` into the ordered prefix `a[..i]`. */
  method InsertAt<T>(a: array<T>, i: nat, le: (T, T) -> bool)
    requires i < a.Length
    modifies a
    ensures a[..i + 1] == InsertLast(old(a[..i]), old(a[i]), le)
    ensures a[i + 1..] == old(a[i + 1..])
  {
    var x := a[i];
    ghost var p := a[..i];
    ghost var rest := a[i + 1..];
    var j := i;
    while j > 0 && !le(a[j - 1], x)
      invariant 0 <= j <= i
      invariant a[..j] == p[..j]
      invariant a[j + 1..i + 1] == p[j..i]
      invariant a[i + 1..] == rest
      invariant InsertLast(p, x, le) == InsertLast(p[..j], x, le) + p[j..i]
    {
      ShiftStep(p, j, i, x, le);
      a[j] := a[j - 1];
      j := j - 1;
    }
    a[j] := x;
    assert a[..i + 1] == a[..j] + [a[j]] + a[j + 1..i + 1];
    assert a[..i + 1] == p[..j] + [x] + p[j..i];
    InsertStop(p, j, x, le);
  }

  lemma ShiftStep<T>(p: seq<T>, j: nat, i: nat, x: T, le: (T, T) -> bool)
    requires 0 < j <= i == |p| && !le(p[j - 1], x)
    ensures InsertLast(p[..j], x, le) + p[j..i] == InsertLast(p[..j - 1], x, le) + p[j - 1..i]
  {
    assert p[..j][..j - 1] == p[..j - 1];
    assert p[j - 1..i] == [p[j - 1]] + p[j..i];
  }

  lemma InsertStop<T>(p: seq<T>, j: nat, x: T, le: (T, T) -> bool)
    requires j <= |p| && (j == 0 || le(p[j - 1], x))
    ensures InsertLast(p[..j], x, le) == p[..j] + [x]
  {
  }

  /** Insertion adds exactly the inserted element. */
  lemma {:induction false} InsertLastPerm<T>(l: seq<T>, x: T, le: (T, T) -> bool)
    ensures multiset(InsertLast(l, x, le)) == multiset(l) + multiset{x}
    decreases |l|
  {
    if l != [] && !le(l[|l| - 1], x) {
      var init := l[..|l| - 1];
      assert l == init + [l[|l| - 1]];
      InsertLastPerm(init, x, le);
    }
  }

  /** The stable sort is a permutation of its input. */
  lemma {:induction false} SortByPerm<T>(s: seq<T>, le: (T, T) -> bool)
    ensures multiset(SortBy(s, le)) == multiset(s)
    decreases |s|
  {
    if s != [] {
      var init := s[..|s| - 1];
      assert s == init + [s[|s| - 1]];
      SortByPerm(init, le);
      InsertLastPerm(SortBy(init, le), s[|s| - 1], le);
    }
  }

  /** Inserting into an ordered sequence keeps it ordered. */
  lemma {:induction false} InsertLastSorted<T(!new)>(l: seq<T>, x: T, le: (T, T) -> bool)
    requires TotalPreorder(le) && Sorted(l, le)
    ensures Sorted(InsertLast(l, x, le), le)
    decreases |l|
  {
    if l != [] && !le(l[|l| - 1], x) {
      var last := l[|l| - 1];
      var init := l[..|l| - 1];
      InsertLastSorted(init, x, le);
      var r := InsertLast(init, x, le);
      InsertLastPerm(init, x, le);
      forall k | 0 <= k < |r| ensures le(r[k], last) {
        assert r[k] in multiset(r);
        if r[k] != x {
          assert r[k] in multiset(init);
          var m :| 0 <= m < |init| && init[m] == r[k];
          assert l[m] == r[k];
        }
      }
    }
  }

  /** The stable sort is ordered by `le`. */
  lemma {:induction false} SortBySorted<T(!new)>(s: seq<T>, le: (T, T) -> bool)
    requires TotalPreorder(le)
    ensures Sorted(SortBy(s, le), le)
    decreases |s|
  {
    if s != [] {
      SortBySorted(s[..|s| - 1], le);
      InsertLastSorted(SortBy(s[..|s| - 1], le), s[|s| - 1], le);
    }
  }

  /** The elements of `s` that `le` ranks equal to `p`, in their order in `s`. */
  function Class<T>(s: seq<T>, p: T, le: (T, T) -> bool): seq<T>
    decreases |s|
  {
    if s == [] then []
    else Class(s[..|s| - 1], p, le) + (if le(s[|s| - 1], p) && le(p, s[|s| - 1]) then [s[|s| - 1]] else [])
  }

  lemma {:induction false} ClassAppend<T>(s: seq<T>, x: T, p: T, le: (T, T) -> bool)
    ensures Class(s + [x], p, le) == Class(s, p, le) + (if le(x, p) && le(p, x) then [x] else [])
  {
    assert (s + [x])[..|s|] == s;
  }

  lemma {:induction false} InsertLastStable<T(!new)>(l: seq<T>, x: T, p: T, le: (T, T) -> bool)
    requires TotalPreorder(le) && Sorted(l, le)
    ensures Class(InsertLast(l, x, le), p, le) == Class(l, p, le) + (if le(x, p) && le(p, x) then [x] else [])
    decreases |l|
  {
    if l == [] {
      ClassAppend([], x, p, le);
    } else if le(l[|l| - 1], x) {
      ClassAppend(l, x, p, le);
    } else {
      var last := l[|l| - 1];
      var init := l[..|l| - 1];
      assert l == init + [last];
      InsertLastStable(init, x, p, le);
      ClassAppend(InsertLast(init, x, le), last, p, le);
      ClassAppend(init, last, p, le);
    }
  }

  /** Stability: elements ranked equal keep their relative order. */
  lemma {:induction false} SortByStable<T(!new)>(s: seq<T>, p: T, le: (T, T) -> bool)
    requires TotalPreorder(le)
    ensures Class(SortBy(s, le), p, le) == Class(s, p, le)
    decreases |s|
  {
    if s != [] {
      var init := s[..|s| - 1];
      assert s == init + [s[|s| - 1]];
      SortByStable(init, p, le);
      SortBySorted(init, le);
      InsertLastStable(SortBy(init, le), s[|s| - 1], p, le);
      ClassAppend(init, s[|s| - 1], p, le);
    }
  }

  /** `s[i]` is minimal and every element before it is strictly greater. */
  ghost predicate IsFirstMin<T>(s: seq<T>, i: int, le: (T, T) -> bool) {
    && 0 <= i < |s|
    && (forall j :: 0 <= j < |s| ==> le(s[i], s[j]))
    && (forall j :: 0 <= j < i ==> !le(s[j], s[i]))
  }

  lemma {:induction false} InsertLastHead<T(!new)>(l: seq<T>, x: T, le: (T, T) -> bool)
    requires TotalPreorder(le) && Sorted(l, le)
    ensures InsertLast(l, x, le)[0] == if l == [] || !le(l[0], x) then x else l[0]
    decreases |l|
  {
    if l != [] && !le(l[|l| - 1], x) {
      var init := l[..|l| - 1];
      if init != [] {
        InsertLastHead(init, x, le);
      }
    }
  }

  /** The head of the stable sort is the first minimal element of the input. */
  lemma {:induction false} SortByHead<T(!new)>(s: seq<T>, le: (T, T) -> bool) returns (i: nat)
    requires TotalPreorder(le) && |s| > 0
    ensures IsFirstMin(s, i, le) && SortBy(s, le)[0] == s[i]
    decreases |s|
  {
    var init := s[..|s| - 1];
    var x := s[|s| - 1];
    assert s == init + [x];
    if init == [] {
      i := 0;
    } else {
      var k := SortByHead(init, le);
      SortBySorted(init, le);
      InsertLastHead(SortBy(init, le), x, le);
      assert SortBy(s, le) == InsertLast(SortBy(init, le), x, le);
      var m := init[k];
      if le(m, x) {
        i := k;
        forall j | 0 <= j < |s| ensures le(s[i], s[j]) {
          if j < |init| { assert s[j] == init[j]; }
        }
        forall j | 0 <= j < i ensures !le(s[j], s[i]) {
          assert s[j] == init[j];
        }
      } else {
        i := |s| - 1;
        assert le(x, m);
        forall j | 0 <= j < |s| ensures le(x, s[j]) {
          if j < |init| { assert s[j] == init[j]; assert le(m, init[j]); }
        }
        forall j | 0 <= j < i ensures !le(s[j], x) {
          assert s[j] == init[j];
          assert le(m, init[j]);
        }
      }
    }
  }
}
