/** Stable sorting by a comparator, the model of JavaScript's
    `Array.prototype.sort(cmp)` (stable since ECMAScript 2019) and of a
    database `ORDER BY`.  A comparator `cmp(a, b)` of the source is given
    here as the relation `le(a, b)`, which holds when `cmp(a, b) <= 0`, so
    that `a` may stay before `b`.

    `SortBy` is insertion sort: each element, taken in input order, is
    placed after every element already placed that is not greater than it.
    For a total preorder a stable sort has exactly one result, so `SortBy`
    is the specification; `SortInPlace` is the array algorithm proved to
    produce it. */
module Sorting {
  import opened Seqs

  ghost predicate TotalPreorder<T(!new)>(le: (T, T) -> bool)
  {
    && (forall x, y :: le(x, y) || le(y, x))
    && (forall x, y, z :: le(x, y) && le(y, z) ==> le(x, z))
  }

  predicate Sorted<T>(s: seq<T>, le: (T, T) -> bool)
  {
    forall i, j :: 0 <= i < j < |s| ==> le(s[i], s[j])
  }

  /** Place `x` after the longest suffix-free prefix of `s` whose last element is `le` to `x`. */
  function Insert<T>(x: T, s: seq<T>, le: (T, T) -> bool): seq<T>
  {
    if s == [] || le(s[|s| - 1], x) then s + [x]
    else Insert(x, s[..|s| - 1], le) + [s[|s| - 1]]
  }

  /** Stable sort of `s` by `le`. */
  function SortBy<T>(s: seq<T>, le: (T, T) -> bool): seq<T>
  {
    if s == [] then [] else Insert(s[|s| - 1], SortBy(s[..|s| - 1], le), le)
  }

  // ------------------------------------------------------------ permutation

  lemma {:induction false} InsertPermutation<T>(x: T, s: seq<T>, le: (T, T) -> bool)
    ensures multiset(Insert(x, s, le)) == multiset(s) + multiset{x}
  {
    if !(s == [] || le(s[|s| - 1], x)) {
      InsertPermutation(x, s[..|s| - 1], le);
      assert s == s[..|s| - 1] + [s[|s| - 1]];
    }
  }

  /** Sorting only reorders: the result is a permutation of the input. */
  lemma {:induction false} SortByPermutation<T>(s: seq<T>, le: (T, T) -> bool)
    ensures multiset(SortBy(s, le)) == multiset(s)
  {
    if s != [] {
      SortByPermutation(s[..|s| - 1], le);
      InsertPermutation(s[|s| - 1], SortBy(s[..|s| - 1], le), le);
      assert s == s[..|s| - 1] + [s[|s| - 1]];
    }
  }

  lemma SortByLength<T>(s: seq<T>, le: (T, T) -> bool)
    ensures |SortBy(s, le)| == |s|
  {
    SortByPermutation(s, le);
    assert |multiset(SortBy(s, le))| == |multiset(s)|;
  }

  // -------------------------------------------------------------- sortedness

  lemma {:induction false} InsertSorted<T(!new)>(x: T, s: seq<T>, le: (T, T) -> bool)
    requires TotalPreorder(le) && Sorted(s, le)
    ensures Sorted(Insert(x, s, le), le)
  {
    if !(s == [] || le(s[|s| - 1], x)) {
      var init, last := s[..|s| - 1], s[|s| - 1];
      InsertSorted(x, init, le);
      InsertPermutation(x, init, le);
      var r := Insert(x, init, le);
      // every element of r is le to last: init's by sortedness, x by totality
      forall k | 0 <= k < |r| ensures le(r[k], last) {
        assert r[k] in multiset(r);
        assert r[k] in multiset(init) || r[k] == x;
        if r[k] != x {
          var m :| 0 <= m < |init| && init[m] == r[k];
          assert le(s[m], s[|s| - 1]);
        }
      }
    }
  }

  /** Sorting by a total preorder yields a list ordered by it. */
  lemma {:induction false} SortBySorted<T(!new)>(s: seq<T>, le: (T, T) -> bool)
    requires TotalPreorder(le)
    ensures Sorted(SortBy(s, le), le)
  {
    if s != [] {
      SortBySorted(s[..|s| - 1], le);
      InsertSorted(s[|s| - 1], SortBy(s[..|s| - 1], le), le);
    }
  }

  // --------------------------------------------------------------- stability

  /** The elements of `s` that `le` cannot tell apart from `y`, in order. */
  function Ties<T>(s: seq<T>, y: T, le: (T, T) -> bool): seq<T>
  {
    Filter(s, TiesWith(y, le))
  }

  /** Holds of the elements that `le` cannot tell apart from `y`. */
  function TiesWith<T>(y: T, le: (T, T) -> bool): T -> bool
  {
    x => le(x, y) && le(y, x)
  }

  lemma {:induction false} InsertTies<T(!new)>(x: T, s: seq<T>, y: T, le: (T, T) -> bool)
    requires TotalPreorder(le)
    ensures Ties(Insert(x, s, le), y, le) == Ties(s, y, le) + Ties([x], y, le)
  {
    var p := TiesWith(y, le);
    if s == [] || le(s[|s| - 1], x) {
      FilterConcat(s, [x], p);
    } else {
      var init, last := s[..|s| - 1], s[|s| - 1];
      InsertTies(x, init, y, le);
      FilterConcat(Insert(x, init, le), [last], p);
      FilterConcat(init, [last], p);
      assert s == init + [last];
      // x and last cannot both tie with y, since then le(last, x)
      assert !(p(x) && p(last));
      assert [x][1..] == [] && [last][1..] == [];
      assert Ties([x], y, le) == if p(x) then [x] else [];
      assert Ties([last], y, le) == if p(last) then [last] else [];
    }
  }

  /** Stability: elements the order cannot tell apart keep their relative order. */
  lemma {:induction false} SortByStable<T(!new)>(s: seq<T>, y: T, le: (T, T) -> bool)
    requires TotalPreorder(le)
    ensures Ties(SortBy(s, le), y, le) == Ties(s, y, le)
  {
    if s != [] {
      var init, last := s[..|s| - 1], s[|s| - 1];
      SortByStable(init, y, le);
      InsertTies(last, SortBy(init, le), y, le);
      FilterConcat(init, [last], TiesWith(y, le));
      assert s == init + [last];
    }
  }

  /** Sorting an already sorted list changes nothing. */
  lemma {:induction false} SortBySortedInput<T>(s: seq<T>, le: (T, T) -> bool)
    requires Sorted(s, le)
    ensures SortBy(s, le) == s
  {
    if s != [] {
      var init := s[..|s| - 1];
      assert Sorted(init, le);
      SortBySortedInput(init, le);
      if |s| > 1 { assert le(s[|s| - 2], s[|s| - 1]); }
    }
  }

  /** A sub-list kept by a filter of an ordered list is ordered. */
  lemma {:induction false} FilterSorted<T>(s: seq<T>, p: T -> bool, le: (T, T) -> bool)
    requires Sorted(s, le)
    ensures Sorted(Filter(s, p), le)
  {
    if s != [] {
      assert Sorted(s[1..], le);
      FilterSorted(s[1..], p, le);
      var rest := Filter(s[1..], p);
      if p(s[0]) {
        forall k | 0 <= k < |rest| ensures le(s[0], rest[k]) {
          FilterCounts(s[1..], p, rest[k]);
          assert rest[k] in multiset(rest);
          var m :| 0 <= m < |s[1..]| && s[1..][m] == rest[k];
          assert le(s[0], s[m + 1]);
        }
        assert Filter(s, p) == [s[0]] + rest;
      }
    }
  }

  /** Two elements that pass a filter are related as the filtered list orders them. */
  lemma {:induction false} FilteredPair<T>(s: seq<T>, p: T -> bool, le: (T, T) -> bool, i: nat, j: nat)
    requires Sorted(Filter(s, p), le)
    requires i < j < |s| && p(s[i]) && p(s[j])
    ensures le(s[i], s[j])
  {
    var rest := Filter(s[1..], p);
    if i == 0 {
      assert Filter(s, p) == [s[0]] + rest;
      FilterCounts(s[1..], p, s[j]);
      assert s[j] == s[1..][j - 1];
      assert s[j] in multiset(rest);
      var m :| 0 <= m < |rest| && rest[m] == s[j];
      assert Filter(s, p)[0] == s[0] && Filter(s, p)[m + 1] == s[j];
    } else {
      if p(s[0]) {
        assert Filter(s, p) == [s[0]] + rest;
        SortedTail(Filter(s, p), le);
        assert Filter(s, p)[1..] == rest;
      } else {
        assert Filter(s, p) == rest;
      }
      FilteredPair(s[1..], p, le, i - 1, j - 1);
    }
  }

  lemma SortedTail<T>(s: seq<T>, le: (T, T) -> bool)
    requires s != [] && Sorted(s, le)
    ensures Sorted(s[1..], le)
  {
    forall i, j | 0 <= i < j < |s[1..]| ensures le(s[1..][i], s[1..][j]) {
      assert s[1..][i] == s[i + 1] && s[1..][j] == s[j + 1];
    }
  }

  /** Sorting by a second key after a first one orders by the second key and,
      among elements the second key cannot tell apart, by the first. */
  lemma SortByThenBy<T(!new)>(s: seq<T>, first: (T, T) -> bool, second: (T, T) -> bool)
    requires TotalPreorder(first) && TotalPreorder(second)
    ensures var r := SortBy(SortBy(s, first), second);
      forall i, j :: 0 <= i < j < |r| ==>
        second(r[i], r[j]) && (second(r[j], r[i]) ==> first(r[i], r[j]))
  {
    var once := SortBy(s, first);
    var r := SortBy(once, second);
    SortBySorted(once, second);
    forall i, j | 0 <= i < j < |r| && second(r[j], r[i]) ensures first(r[i], r[j]) {
      var p := TiesWith(r[i], second);
      SortBySorted(s, first);
      FilterSorted(once, p, first);
      SortByStable(once, r[i], second);
      FilteredPair(r, p, first, i, j);
    }
  }

  // ----------------------------------------------------- in-place algorithm

  /** In-place insertion sort: `a.sort(cmp)` on the array itself. */
  method SortInPlace<T>(a: array<T>, le: (T, T) -> bool)
    modifies a
    ensures a[..] == SortBy(old(a[..]), le)
  {
    ghost var orig := a[..];
    var i := 0;
    while i < a.Length
      invariant 0 <= i <= a.Length
      invariant a[..i] == SortBy(orig[..i], le)
      invariant a[i..] == orig[i..]
    {
      ghost var sorted := a[..i];
      ghost var x := a[i];
      assert x == orig[i] by { assert a[i..][0] == orig[i..][0]; }
      var j := i;
      while j > 0 && !le(a[j - 1], a[j])
        invariant 0 <= j <= i
        invariant a[j] == x
        invariant a[i + 1..] == orig[i + 1..]
        invariant Insert(x, sorted, le) == Insert(x, a[..j], le) + a[j + 1..i + 1]
      {
        ghost var before := a[..];
        a[j - 1], a[j] := a[j], a[j - 1];
        SwapStep(before, a[..], j, i, x, le);
        j := j - 1;
      }
      InsertStops(a[..], j, i, x, le);
      assert a[..i + 1] == Insert(x, sorted, le);
      SortByStep(orig, i, le);
      i := i + 1;
    }
    assert a[..] == a[..a.Length] && orig == orig[..a.Length];
  }

  /** One swap of the inner loop keeps its invariant. */
  lemma SwapStep<T>(b: seq<T>, c: seq<T>, j: nat, i: nat, x: T, le: (T, T) -> bool)
    requires 0 < j <= i < |b| && b[j] == x && !le(b[j - 1], x)
    requires c == b[j - 1 := b[j]][j := b[j - 1]]
    ensures c[j - 1] == x && c[i + 1..] == b[i + 1..]
    ensures Insert(x, b[..j], le) + b[j + 1..i + 1] == Insert(x, c[..j - 1], le) + c[j..i + 1]
  {
    assert b[..j][..j - 1] == c[..j - 1];
    assert c[j..i + 1] == [b[j - 1]] + b[j + 1..i + 1];
  }

  /** When the inner loop stops, the prefix holds `x` inserted into the sorted part. */
  lemma InsertStops<T>(c: seq<T>, j: nat, i: nat, x: T, le: (T, T) -> bool)
    requires j <= i < |c| && c[j] == x
    requires j == 0 || le(c[j - 1], c[j])
    ensures Insert(x, c[..j], le) + c[j + 1..i + 1] == c[..i + 1]
  {
    assert c[..i + 1] == c[..j] + [x] + c[j + 1..i + 1];
  }

  /** Sorting one more element of the input inserts it into the sorted prefix. */
  lemma SortByStep<T>(s: seq<T>, i: nat, le: (T, T) -> bool)
    requires i < |s|
    ensures SortBy(s[..i + 1], le) == Insert(s[i], SortBy(s[..i], le), le)
  {
    assert s[..i + 1][..i] == s[..i];
  }
}
