/**
 * Generic sequence operations behind `Array.prototype.filter` and
 * `Array.prototype.sort`, with the facts the question views rely on.
 */
module Sequences {

  /** The elements of `s` that `keep` accepts, in their original order. */
  function Filter<T>(s: seq<T>, keep: T -> bool): (r: seq<T>)
    ensures |r| <= |s|
    ensures forall i :: 0 <= i < |r| ==> keep(r[i])
  {
    if s == [] then [] else (if keep(s[0]) then [s[0]] else []) + Filter(s[1..], keep)
  }

  /** `a` is obtained from `b` by deleting elements (an order-preserving subsequence). */
  ghost predicate IsSubsequence<T>(a: seq<T>, b: seq<T>)
    decreases |b|
  {
    if a == [] then true
    else if b == [] then false
    else (a[0] == b[0] && IsSubsequence(a[1..], b[1..])) || IsSubsequence(a, b[1..])
  }

  /** Filtering a concatenation filters each part, and keeps the parts in order. */
  lemma {:induction false} FilterAppend<T>(a: seq<T>, b: seq<T>, keep: T -> bool)
    ensures Filter(a + b, keep) == Filter(a, keep) + Filter(b, keep)
  {
    if a == [] {
      assert a + b == b;
    } else {
      assert (a + b)[0] == a[0];
      assert (a + b)[1..] == a[1..] + b;
      FilterAppend(a[1..], b, keep);
    }
  }

  /** Filtering never reorders or invents elements. */
  lemma {:induction false} FilterIsSubsequence<T>(s: seq<T>, keep: T -> bool)
    ensures IsSubsequence(Filter(s, keep), s)
  {
    if s != [] {
      FilterIsSubsequence(s[1..], keep);
      var r := Filter(s, keep);
      if keep(s[0]) {
        assert r[0] == s[0] && r[1..] == Filter(s[1..], keep);
      } else {
        assert r == Filter(s[1..], keep);
      }
    }
  }

  /** An element survives filtering exactly when it is in `s` and accepted. */
  lemma {:induction false} FilterMembership<T>(s: seq<T>, keep: T -> bool, x: T)
    ensures x in Filter(s, keep) <==> x in s && keep(x)
  {
    if s != [] {
      FilterMembership(s[1..], keep, x);
      assert s == [s[0]] + s[1..];
    }
  }

  /** When every element is accepted, filtering returns the sequence unchanged. */
  lemma {:induction false} FilterKeepsAll<T>(s: seq<T>, keep: T -> bool)
    requires forall i :: 0 <= i < |s| ==> keep(s[i])
    ensures Filter(s, keep) == s
  {
    if s != [] {
      FilterKeepsAll(s[1..], keep);
      assert s == [s[0]] + s[1..];
    }
  }

  /** `leq` is total and transitive: a comparator a sort can rely on. */
  ghost predicate TotalPreorder<T(!new)>(leq: (T, T) -> bool)
  {
    && (forall a, b :: leq(a, b) || leq(b, a))
    && (forall a, b, c :: leq(a, b) && leq(b, c) ==> leq(a, c))
  }

  /** Every earlier element is `leq` every later one. */
  ghost predicate SortedBy<T>(s: seq<T>, leq: (T, T) -> bool)
  {
    forall i, j :: 0 <= i < j < |s| ==> leq(s[i], s[j])
  }

  /** Places `x` after the leading elements that are `leq` it. */
  function InsertBy<T>(x: T, s: seq<T>, leq: (T, T) -> bool): (r: seq<T>)
    ensures |r| == |s| + 1
  {
    if s == [] then [x]
    else if leq(s[0], x) then [s[0]] + InsertBy(x, s[1..], leq)
    else [x] + s
  }

  /**
   * A stable sort: each element, taken left to right, is inserted after every
   * element already placed that is `leq` it, so equal keys keep their order
   * (`SortByStable`).
   */
  function SortBy<T>(s: seq<T>, leq: (T, T) -> bool): (r: seq<T>)
    ensures |r| == |s|
  {
    if s == [] then [] else InsertBy(s[|s| - 1], SortBy(s[..|s| - 1], leq), leq)
  }

  lemma {:induction false} InsertByPermutes<T>(x: T, s: seq<T>, leq: (T, T) -> bool)
    ensures multiset(InsertBy(x, s, leq)) == multiset(s) + multiset{x}
  {
    if s != [] {
      assert s == [s[0]] + s[1..];
      if leq(s[0], x) {
        InsertByPermutes(x, s[1..], leq);
      }
    }
  }

  lemma {:induction false} InsertBySorted<T(!new)>(x: T, s: seq<T>, leq: (T, T) -> bool)
    requires TotalPreorder(leq) && SortedBy(s, leq)
    ensures SortedBy(InsertBy(x, s, leq), leq)
  {
    if s != [] {
      var r := InsertBy(x, s, leq);
      if leq(s[0], x) {
        var tail := InsertBy(x, s[1..], leq);
        assert SortedBy(s[1..], leq);
        InsertBySorted(x, s[1..], leq);
        InsertByPermutes(x, s[1..], leq);
        forall j | 0 <= j < |tail| ensures leq(s[0], tail[j]) {
          assert tail[j] in multiset(tail);
          if tail[j] != x {
            assert tail[j] in multiset(s[1..]);
            var k :| 0 <= k < |s[1..]| && s[1..][k] == tail[j];
            assert s[k + 1] == tail[j];
          }
        }
        assert r == [s[0]] + tail;
      } else {
        assert leq(x, s[0]);
        assert r == [x] + s;
      }
    }
  }

  /** Sorting rearranges: the result has exactly the same elements. */
  lemma {:induction false} SortByPermutes<T>(s: seq<T>, leq: (T, T) -> bool)
    ensures multiset(SortBy(s, leq)) == multiset(s)
  {
    if s != [] {
      var init := s[..|s| - 1];
      SortByPermutes(init, leq);
      InsertByPermutes(s[|s| - 1], SortBy(init, leq), leq);
      assert s == init + [s[|s| - 1]];
    }
  }

  /** Under a total preorder, the sort's result is in order. */
  lemma {:induction false} SortBySorted<T(!new)>(s: seq<T>, leq: (T, T) -> bool)
    requires TotalPreorder(leq)
    ensures SortedBy(SortBy(s, leq), leq)
  {
    if s != [] {
      SortBySorted(s[..|s| - 1], leq);
      InsertBySorted(s[|s| - 1], SortBy(s[..|s| - 1], leq), leq);
    }
  }

  /** No element of `s` is accepted, so nothing survives filtering. */
  lemma {:induction false} FilterNone<T>(s: seq<T>, keep: T -> bool)
    requires forall i :: 0 <= i < |s| ==> !keep(s[i])
    ensures Filter(s, keep) == []
  {
    if s != [] {
      FilterNone(s[1..], keep);
    }
  }

  /**
   * Inserting into a sorted sequence puts `x` after every element tied with it:
   * among elements that are pairwise `leq`, `x` comes last.
   */
  lemma {:induction false} InsertByAfterTies<T(!new)>(x: T, s: seq<T>, leq: (T, T) -> bool, tied: T -> bool)
    requires TotalPreorder(leq) && SortedBy(s, leq)
    requires forall a, b :: tied(a) && tied(b) ==> leq(a, b)
    ensures Filter(InsertBy(x, s, leq), tied) == Filter(s, tied) + (if tied(x) then [x] else [])
  {
    if s == [] {
    } else if leq(s[0], x) {
      assert SortedBy(s[1..], leq);
      InsertByAfterTies(x, s[1..], leq, tied);
      assert InsertBy(x, s, leq)[1..] == InsertBy(x, s[1..], leq);
    } else {
      assert InsertBy(x, s, leq) == [x] + s;
      assert ([x] + s)[1..] == s;
      if tied(x) {
        forall i | 0 <= i < |s| ensures !tied(s[i]) {
          var y := s[i];
          assert i == 0 || leq(s[0], y);
          assert tied(y) ==> leq(y, x);
        }
        FilterNone(s, tied);
      }
    }
  }

  /**
   * The sort is stable: elements that are pairwise `leq` (tied keys) appear in
   * the result in the order they had in the input.
   */
  lemma {:induction false} SortByStable<T(!new)>(s: seq<T>, leq: (T, T) -> bool, tied: T -> bool)
    requires TotalPreorder(leq)
    requires forall a, b :: tied(a) && tied(b) ==> leq(a, b)
    ensures Filter(SortBy(s, leq), tied) == Filter(s, tied)
  {
    if s != [] {
      var init, last := s[..|s| - 1], s[|s| - 1];
      SortByStable(init, leq, tied);
      SortBySorted(init, leq);
      InsertByAfterTies(last, SortBy(init, leq), leq, tied);
      assert s == init + [last];
      FilterAppend(init, [last], tied);
    }
  }
}
