/** Order-preserving filtering of sequences, the model of JavaScript's
    `Array.prototype.filter` and of Python list comprehensions with a
    condition, together with the sub-list relation it establishes. */
module Seqs {

  /** The elements of `s` that satisfy `p`, in their original order. */
  function Filter<T>(s: seq<T>, p: T -> bool): seq<T>
  {
    if s == [] then []
    else (if p(s[0]) then [s[0]] else []) + Filter(s[1..], p)
  }

  /** `a` is obtained from `b` by deleting elements (an order-preserving sub-list). */
  predicate Subseq<T(==)>(a: seq<T>, b: seq<T>)
    decreases |b|
  {
    if a == [] then true
    else if b == [] then false
    else if a[0] == b[0] && Subseq(a[1..], b[1..]) then true
    else Subseq(a, b[1..])
  }

  /** Number of elements of `s` that satisfy `p`. */
  function CountIf<T>(s: seq<T>, p: T -> bool): (n: nat)
    ensures n <= |s|
  {
    if s == [] then 0 else (if p(s[0]) then 1 else 0) + CountIf(s[1..], p)
  }

  /** Every element of a filtered list satisfies the predicate. */
  lemma {:induction false} FilterAll<T>(s: seq<T>, p: T -> bool)
    ensures forall k :: 0 <= k < |Filter(s, p)| ==> p(Filter(s, p)[k])
  {
    if s != [] {
      FilterAll(s[1..], p);
      var rest := Filter(s[1..], p);
      var head := if p(s[0]) then [s[0]] else [];
      assert Filter(s, p) == head + rest;
      forall k | 0 <= k < |Filter(s, p)| ensures p(Filter(s, p)[k]) {
        if k >= |head| { assert Filter(s, p)[k] == rest[k - |head|]; }
      }
    }
  }

  /** Each element of a filtered list comes from the input and satisfies the predicate. */
  lemma FilterMember<T>(s: seq<T>, p: T -> bool, k: nat)
    requires k < |Filter(s, p)|
    ensures Filter(s, p)[k] in s && p(Filter(s, p)[k])
  {
    FilterAll(s, p);
    FilterCounts(s, p, Filter(s, p)[k]);
    assert Filter(s, p)[k] in multiset(Filter(s, p));
  }

  /** An element found in a filtered list comes from the input and satisfies the predicate. */
  lemma FilterContains<T>(s: seq<T>, p: T -> bool, x: T)
    requires x in Filter(s, p)
    ensures x in s && p(x)
  {
    FilterCounts(s, p, x);
    assert x in multiset(Filter(s, p));
  }

  /** Filtering keeps exactly the occurrences that satisfy the predicate. */
  lemma {:induction false} FilterCounts<T>(s: seq<T>, p: T -> bool, x: T)
    ensures multiset(Filter(s, p))[x] == if p(x) then multiset(s)[x] else 0
  {
    if s != [] {
      FilterCounts(s[1..], p, x);
      assert s == [s[0]] + s[1..];
      assert multiset(s) == multiset{s[0]} + multiset(s[1..]);
    }
  }

  /** `FilterCounts` for every element at once. */
  lemma FilterCountsAll<T>(s: seq<T>, p: T -> bool)
    ensures forall x :: multiset(Filter(s, p))[x] == if p(x) then multiset(s)[x] else 0
  {
    forall x ensures multiset(Filter(s, p))[x] == if p(x) then multiset(s)[x] else 0 {
      FilterCounts(s, p, x);
    }
  }

  /** The filtered list is an order-preserving sub-list of the input. */
  lemma {:induction false} FilterSubseq<T>(s: seq<T>, p: T -> bool)
    ensures Subseq(Filter(s, p), s)
  {
    if s != [] {
      FilterSubseq(s[1..], p);
      if p(s[0]) {
        assert Filter(s, p) == [s[0]] + Filter(s[1..], p);
        assert Filter(s, p)[1..] == Filter(s[1..], p);
      } else {
        assert Filter(s, p) == Filter(s[1..], p);
        SubseqDropHead(Filter(s, p), s);
      }
    }
  }

  /** Every list is a sub-list of itself. */
  lemma {:induction false} SubseqReflexive<T>(s: seq<T>)
    ensures Subseq(s, s)
  {
    if s != [] {
      SubseqReflexive(s[1..]);
    }
  }

  /** A sub-list of the tail is a sub-list of the whole. */
  lemma SubseqDropHead<T>(a: seq<T>, b: seq<T>)
    requires b != [] && Subseq(a, b[1..])
    ensures Subseq(a, b)
  {
  }

  /** Filtering with a predicate that holds everywhere changes nothing. */
  lemma {:induction false} FilterTrue<T>(s: seq<T>, p: T -> bool)
    requires forall x :: p(x)
    ensures Filter(s, p) == s
  {
    if s != [] {
      FilterTrue(s[1..], p);
    }
  }

  /** When one element alone passes, the filter yields just that element;
      when none passes it yields nothing. */
  lemma {:induction false} FilterUnique<T>(s: seq<T>, p: T -> bool, e: int)
    requires e < |s|
    requires forall i :: 0 <= i < |s| && i != e ==> !p(s[i])
    requires 0 <= e ==> p(s[e])
    ensures Filter(s, p) == if 0 <= e then [s[e]] else []
  {
    if s != [] {
      FilterUnique(s[1..], p, e - 1);
    }
  }

  /** Filtering distributes over concatenation. */
  lemma {:induction false} FilterConcat<T>(a: seq<T>, b: seq<T>, p: T -> bool)
    ensures Filter(a + b, p) == Filter(a, p) + Filter(b, p)
  {
    if a != [] {
      assert (a + b)[1..] == a[1..] + b;
      FilterConcat(a[1..], b, p);
    } else {
      assert a + b == b;
    }
  }

  /** The length of a filtered list is the number of elements that pass. */
  lemma {:induction false} FilterLength<T>(s: seq<T>, p: T -> bool)
    ensures |Filter(s, p)| == CountIf(s, p)
  {
    if s != [] {
      FilterLength(s[1..], p);
    }
  }

  /** Two predicates that never hold together select at most |s| elements between them. */
  lemma {:induction false} CountDisjoint<T>(s: seq<T>, p: T -> bool, q: T -> bool)
    requires forall x :: !(p(x) && q(x))
    ensures CountIf(s, p) + CountIf(s, q) <= |s|
  {
    if s != [] {
      CountDisjoint(s[1..], p, q);
    }
  }
}
