/** A stable insertion sort over a caller-supplied total preorder, used wherever the
    source sorts (`Array.prototype.sort`, SQL `ORDER BY`). */
module Sorting {

  /** `leq` is total and transitive. */
  ghost predicate TotalPreorder<T(!new)>(leq: (T, T) -> bool) {
    && (forall a: T, b: T :: leq(a, b) || leq(b, a))
    && (forall a: T, b: T, c: T :: leq(a, b) && leq(b, c) ==> leq(a, c))
  }

  predicate SortedBy<T>(s: seq<T>, leq: (T, T) -> bool) {
    forall i, j :: 0 <= i < j < |s| ==> leq(s[i], s[j])
  }

  /** Inserts `x` into the sorted `s` after every element that is `leq` to it,
      so equal elements keep their arrival order. */
  function InsertSorted<T(!new)>(s: seq<T>, x: T, leq: (T, T) -> bool): (r: seq<T>)
    requires TotalPreorder(leq)
    requires SortedBy(s, leq)
    ensures SortedBy(r, leq)
    ensures multiset(r) == multiset(s) + multiset{x}
    ensures |r| == |s| + 1
  {
    if s == [] then [x]
    else if leq(s[|s| - 1], x) then s + [x]
    else
      var init, last := s[..|s| - 1], s[|s| - 1];
      var rest := InsertSorted(init, x, leq);
      assert s == init + [last];
      AllBelow(init, x, last, rest, leq);
      rest + [last]
  }

  /** Every element of a permutation of `init + [x]` is below `last` when `x` and every
      element of `init` are. */
  lemma AllBelow<T>(init: seq<T>, x: T, last: T, rest: seq<T>, leq: (T, T) -> bool)
    requires forall k :: 0 <= k < |init| ==> leq(init[k], last)
    requires leq(x, last)
    requires multiset(rest) == multiset(init) + multiset{x}
    ensures forall k :: 0 <= k < |rest| ==> leq(rest[k], last)
  {
    forall k | 0 <= k < |rest| ensures leq(rest[k], last) {
      assert rest[k] in multiset(rest);
      if rest[k] != x {
        assert rest[k] in multiset(init);
        var j :| 0 <= j < |init| && init[j] == rest[k];
      }
    }
  }

  /** Sorts `s` by `leq`: the result is ordered and is a permutation of `s`. */
  function SortBy<T(!new)>(s: seq<T>, leq: (T, T) -> bool): (r: seq<T>)
    requires TotalPreorder(leq)
    ensures SortedBy(r, leq)
    ensures multiset(r) == multiset(s)
    ensures |r| == |s|
  {
    if s == [] then []
    else
      assert s == s[..|s| - 1] + [s[|s| - 1]];
      InsertSorted(SortBy(s[..|s| - 1], leq), s[|s| - 1], leq)
  }

  /** No element occurs twice. */
  predicate NoDup<T(==)>(s: seq<T>) {
    forall i, j :: 0 <= i < j < |s| ==> s[i] != s[j]
  }

  lemma {:induction false} NoDupCount<T>(s: seq<T>, x: T)
    requires NoDup(s)
    ensures multiset(s)[x] <= 1
    decreases |s|
  {
    if s != [] {
      var init, last := s[..|s| - 1], s[|s| - 1];
      assert s == init + [last];
      assert NoDup(init) by {
        forall i, j | 0 <= i < j < |init| ensures init[i] != init[j] { assert init[i] == s[i] && init[j] == s[j]; }
      }
      NoDupCount(init, x);
      if last == x {
        forall k | 0 <= k < |init| ensures init[k] != x {
          assert init[k] == s[k];
        }
      }
    }
  }

  /** A permutation of a list without repetition has no repetition. */
  lemma NoDupPermutation<T>(a: seq<T>, b: seq<T>)
    requires NoDup(a) && multiset(a) == multiset(b)
    ensures NoDup(b)
  {
    forall i, j | 0 <= i < j < |b| ensures b[i] != b[j] {
      if b[i] == b[j] {
        TwoOccurrences(b, i, j);
        NoDupCount(a, b[i]);
      }
    }
  }

  lemma TwoOccurrences<T>(b: seq<T>, i: nat, j: nat)
    requires i < j < |b| && b[i] == b[j]
    ensures multiset(b)[b[i]] >= 2
  {
    assert b == b[..i] + [b[i]] + b[i + 1..j] + [b[j]] + b[j + 1..];
  }

  /** Every element of a permutation of `a` is an element of `a`. */
  lemma PermutationMembers<T>(a: seq<T>, b: seq<T>)
    requires multiset(a) == multiset(b)
    ensures forall k :: 0 <= k < |b| ==> b[k] in a
  {
    forall k | 0 <= k < |b| ensures b[k] in a {
      assert b[k] in multiset(b);
    }
  }

  /** In a list whose every element is `x`, `x` occurs as often as the list is long. */
  lemma {:induction false} ConstantCount<T>(s: seq<T>, x: T)
    requires forall k :: 0 <= k < |s| ==> s[k] == x
    ensures multiset(s)[x] == |s|
    decreases |s|
  {
    if s != [] {
      var init := s[..|s| - 1];
      assert s == init + [s[|s| - 1]];
      ConstantCount(init, x);
    }
  }

  /** A list without repetition whose every element is `x` has at most one element. */
  lemma ConstantNoDup<T>(s: seq<T>, x: T)
    requires NoDup(s) && forall k :: 0 <= k < |s| ==> s[k] == x
    ensures |s| <= 1
  {
    ConstantCount(s, x);
    NoDupCount(s, x);
  }

  /** A list is its part before `j`, its element at `j` and its part after `j`. */
  lemma SplitAt<T>(b: seq<T>, j: nat)
    requires j < |b|
    ensures b == b[..j] + [b[j]] + b[j + 1..]
  {
  }
}
