/**
  The two array idioms the storefront builds its derived views from:
  `Array.prototype.filter` (an order-preserving selection) and
  `Array.from(new Set(xs))` (de-duplication in order of first insertion).
 */
module Sequences {

  /** `r` can be obtained from `s` by deleting elements, keeping the order of the rest. */
  ghost predicate IsSubsequence<T>(r: seq<T>, s: seq<T>)
    decreases |s|
  {
    r == [] ||
    (s != [] && ((r[0] == s[0] && IsSubsequence(r[1..], s[1..])) || IsSubsequence(r, s[1..])))
  }

  /** No element occurs twice. */
  predicate Distinct<T(==)>(s: seq<T>) {
    forall i, j :: 0 <= i < j < |s| ==> s[i] != s[j]
  }

  /**
    `s.filter(keep)`: the elements of `s` that pass `keep`, in their original
    order. Its properties are stated by the lemmas that follow it, so that
    proofs about long concrete sequences do not carry them at every step.
   */
  function Filter<T>(s: seq<T>, keep: T -> bool): seq<T>
    decreases |s|
  {
    if s == [] then []
    else (if keep(s[0]) then [s[0]] else []) + Filter(s[1..], keep)
  }

  /** A filter's result is a subsequence of its input. */
  lemma {:induction false} FilterIsSubsequence<T>(s: seq<T>, keep: T -> bool)
    ensures IsSubsequence(Filter(s, keep), s)
    decreases |s|
  {
    if s != [] {
      FilterIsSubsequence(s[1..], keep);
      var rest := Filter(s[1..], keep);
      if keep(s[0]) {
        assert ([s[0]] + rest)[0] == s[0] && ([s[0]] + rest)[1..] == rest;
      } else {
        assert Filter(s, keep) == rest;
      }
    }
  }

  /** An element is in a filter's result exactly when it is in the input and passes the test. */
  lemma {:induction false} FilterMembership<T(!new)>(s: seq<T>, keep: T -> bool)
    ensures forall x :: x in Filter(s, keep) <==> x in s && keep(x)
    decreases |s|
  {
    if s != [] {
      FilterMembership(s[1..], keep);
      assert s == [s[0]] + s[1..];
    }
  }

  /** One step of the filter over the suffix of `s` starting at `k`. */
  lemma FilterSuffixStep<T>(s: seq<T>, k: nat, keep: T -> bool)
    requires k < |s|
    ensures Filter(s[k..], keep) == (if keep(s[k]) then [s[k]] else []) + Filter(s[k + 1..], keep)
  {
    assert s[k..][0] == s[k] && s[k..][1..] == s[k + 1..];
  }

  /** Filtering distributes over concatenation. */
  lemma {:induction false} FilterAppend<T>(a: seq<T>, b: seq<T>, keep: T -> bool)
    ensures Filter(a + b, keep) == Filter(a, keep) + Filter(b, keep)
    decreases |a|
  {
    if a == [] {
      assert a + b == b;
    } else {
      assert (a + b)[0] == a[0] && (a + b)[1..] == a[1..] + b;
      FilterAppend(a[1..], b, keep);
      if keep(a[0]) {
        assert Filter(a + b, keep) == [a[0]] + Filter(a[1..] + b, keep);
      } else {
        assert Filter(a + b, keep) == Filter(a[1..] + b, keep);
      }
    }
  }

  /** A filter keeps every copy of an element that passes and no copy of one that fails. */
  lemma {:induction false} FilterCount<T>(s: seq<T>, keep: T -> bool, x: T)
    ensures multiset(Filter(s, keep))[x] == if keep(x) then multiset(s)[x] else 0
    decreases |s|
  {
    if s != [] {
      FilterCount(s[1..], keep, x);
      assert s == [s[0]] + s[1..];
      assert multiset(s) == multiset([s[0]]) + multiset(s[1..]);
      if keep(s[0]) {
        assert multiset(Filter(s, keep)) == multiset([s[0]]) + multiset(Filter(s[1..], keep));
      }
    }
  }

  /** A filter that every element passes is the identity. */
  lemma {:induction false} FilterAllPass<T>(s: seq<T>, keep: T -> bool)
    requires forall x :: x in s ==> keep(x)
    ensures Filter(s, keep) == s
    decreases |s|
  {
    if s != [] {
      FilterAllPass(s[1..], keep);
      assert s == [s[0]] + s[1..];
    }
  }

  /** Filtering twice is filtering once by the conjunction of both tests. */
  lemma {:induction false} FilterConjunction<T>(s: seq<T>, first: T -> bool, second: T -> bool, both: T -> bool)
    requires forall x :: both(x) == (first(x) && second(x))
    ensures Filter(Filter(s, first), second) == Filter(s, both)
    decreases |s|
  {
    if s != [] {
      FilterConjunction(s[1..], first, second, both);
      var once := Filter(s, first);
      if first(s[0]) {
        assert once == [s[0]] + Filter(s[1..], first);
        assert once[0] == s[0] && once[1..] == Filter(s[1..], first);
        assert Filter(once, second) == (if second(s[0]) then [s[0]] else []) + Filter(once[1..], second);
      } else {
        assert once == Filter(s[1..], first);
      }
    }
  }

  /** Filtering a sequence without duplicates keeps it without duplicates. */
  lemma {:induction false} FilterDistinct<T(!new)>(s: seq<T>, keep: T -> bool)
    requires Distinct(s)
    ensures Distinct(Filter(s, keep))
    decreases |s|
  {
    if s != [] {
      FilterDistinct(s[1..], keep);
      FilterMembership(s[1..], keep);
      var rest := Filter(s[1..], keep);
      if keep(s[0]) {
        assert s[0] !in s[1..];
        assert s[0] !in rest;
        var r := [s[0]] + rest;
        forall i, j | 0 <= i < j < |r| ensures r[i] != r[j] {
          if i == 0 {
            assert r[j] == rest[j - 1];
          } else {
            assert r[i] == rest[i - 1] && r[j] == rest[j - 1];
          }
        }
      }
    }
  }

  /** In a sequence without duplicates, each element occurs exactly once. */
  lemma {:induction false} DistinctCountsOnce<T>(s: seq<T>, x: T)
    requires Distinct(s) && x in s
    ensures multiset(s)[x] == 1
    decreases |s|
  {
    assert s == [s[0]] + s[1..];
    if s[0] == x {
      assert x !in s[1..] by {
        forall k | 1 <= k < |s| ensures s[k] != x {
        }
      }
    } else {
      DistinctCountsOnce(s[1..], x);
    }
  }

  /** The position of the first occurrence of `x` in `s`. */
  function FirstIndex<T(==)>(s: seq<T>, x: T): (k: nat)
    requires x in s
    ensures k < |s| && s[k] == x
    ensures forall j :: 0 <= j < k ==> s[j] != x
    decreases |s|
  {
    if s[0] == x then 0
    else
      FirstIndex(s[1..], x) + 1
  }

  /** Appending to a sequence does not move the first occurrence of an element already in it. */
  lemma FirstIndexSnoc<T>(s: seq<T>, y: T, x: T)
    requires x in s
    ensures FirstIndex(s + [y], x) == FirstIndex(s, x)
  {
    var k, k' := FirstIndex(s, x), FirstIndex(s + [y], x);
    assert (s + [y])[k] == x;
    assert k' < |s| ==> s[k'] == x;
  }

  /**
    `Array.from(new Set(s))`: each element of `s` once, in the order in which
    a Set first receives it when fed `s` from left to right.
   */
  function Dedup<T(==)>(s: seq<T>): seq<T>
    decreases |s|
  {
    if s == [] then []
    else
      var d := Dedup(s[..|s| - 1]);
      if s[|s| - 1] in d then d else d + [s[|s| - 1]]
  }

  /** Feeding the Set the element at position `k` of `s` after the ones before it. */
  lemma DedupPrefixStep<T>(s: seq<T>, k: nat)
    requires k < |s|
    ensures Dedup(s[..k + 1]) == if s[k] in Dedup(s[..k]) then Dedup(s[..k]) else Dedup(s[..k]) + [s[k]]
  {
    assert s[..k + 1][..k] == s[..k];
  }

  /** `Dedup(s)` holds exactly the elements of `s`, each once. */
  lemma {:induction false} DedupDistinctMembers<T(!new)>(s: seq<T>)
    ensures Distinct(Dedup(s))
    ensures forall x :: x in Dedup(s) <==> x in s
    decreases |s|
  {
    if s != [] {
      var init, last := s[..|s| - 1], s[|s| - 1];
      assert s == init + [last];
      DedupDistinctMembers(init);
    }
  }

  /**
    The elements of `d` occur in `s`, and in the order of their first
    occurrence there.
   */
  ghost predicate InFirstOccurrenceOrder<T>(d: seq<T>, s: seq<T>) {
    forall i, j :: 0 <= i < j < |d| ==>
      d[i] in s && d[j] in s && FirstIndex(s, d[i]) < FirstIndex(s, d[j])
  }

  /** The elements of `Dedup(s)` appear in the order of their first occurrence in `s`. */
  lemma {:induction false} DedupFirstOccurrenceOrder<T(!new)>(s: seq<T>)
    ensures InFirstOccurrenceOrder(Dedup(s), s)
    decreases |s|
  {
    if s != [] {
      var init, last := s[..|s| - 1], s[|s| - 1];
      DedupFirstOccurrenceOrder(init);
      DedupOrderSnoc(init, last);
      assert s == init + [last];
    }
  }

  /** Feeding one more element to the Set keeps the first-occurrence order. */
  lemma DedupOrderSnoc<T(!new)>(init: seq<T>, last: T)
    requires InFirstOccurrenceOrder(Dedup(init), init)
    ensures InFirstOccurrenceOrder(Dedup(init + [last]), init + [last])
  {
    forall i, j | 0 <= i < j < |Dedup(init + [last])|
      ensures Dedup(init + [last])[i] in init + [last] && Dedup(init + [last])[j] in init + [last]
      ensures FirstIndex(init + [last], Dedup(init + [last])[i]) < FirstIndex(init + [last], Dedup(init + [last])[j])
    {
      DedupOrderSnocPair(init, last, i, j);
    }
  }

  /** One pair of positions of `Dedup(init + [last])` is in first-occurrence order. */
  lemma DedupOrderSnocPair<T(!new)>(init: seq<T>, last: T, i: nat, j: nat)
    requires InFirstOccurrenceOrder(Dedup(init), init)
    requires i < j < |Dedup(init + [last])|
    ensures Dedup(init + [last])[i] in init + [last] && Dedup(init + [last])[j] in init + [last]
    ensures FirstIndex(init + [last], Dedup(init + [last])[i]) < FirstIndex(init + [last], Dedup(init + [last])[j])
  {
    var s := init + [last];
    assert s[..|s| - 1] == init;
    DedupDistinctMembers(init);
    var d, r := Dedup(init), Dedup(s);
    assert r[i] == d[i] && d[i] in init;
    FirstIndexSnoc(init, last, d[i]);
    if j < |d| {
      assert r[j] == d[j] && d[j] in init;
      FirstIndexSnoc(init, last, d[j]);
    } else {
      assert r[j] == last && last !in init;
      FirstIndexOfNew(init, last);
    }
  }

  /** An element appended to a sequence that lacks it first occurs at the end. */
  lemma FirstIndexOfNew<T>(s: seq<T>, x: T)
    requires x !in s
    ensures FirstIndex(s + [x], x) == |s|
  {
    var k := FirstIndex(s + [x], x);
    assert (s + [x])[k] == x;
    assert forall i :: 0 <= i < |s| ==> (s + [x])[i] == s[i];
  }
}
