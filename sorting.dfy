/**
 * The two sorts of the shopping list: `Array.prototype.sort`, which is stable, under a
 * comparison that is a total preorder. It is modelled by a stable insertion sort on
 * sequences; what is proved of it is what the engine's sort promises: a sorted permutation
 * that keeps equivalent elements in their original order.
 *
 * Strings are compared character by character (`.sort()` with no comparator compares
 * UTF-16 code units, which is character order for text in the Basic Multilingual Plane).
 */
module Sorting {

  /** leq is total and transitive: a comparison that `sort` can order by. */
  ghost predicate TotalPreorder<T(!new)>(leq: (T, T) -> bool) {
    && (forall a, b :: leq(a, b) || leq(b, a))
    && (forall a, b, c :: leq(a, b) && leq(b, c) ==> leq(a, c))
  }

  predicate Sorted<T>(s: seq<T>, leq: (T, T) -> bool) {
    forall i, j :: 0 <= i < j < |s| ==> leq(s[i], s[j])
  }

  /** The elements of s that compare equal to e, in their order in s. */
  function Equivalents<T>(s: seq<T>, e: T, leq: (T, T) -> bool): (r: seq<T>)
    ensures |r| <= |s|
  {
    if s == [] then []
    else (if leq(s[0], e) && leq(e, s[0]) then [s[0]] else []) + Equivalents(s[1..], e, leq)
  }

  /** The number of leading elements of s that are at most x: where x goes in. */
  function InsertPos<T>(x: T, s: seq<T>, leq: (T, T) -> bool): (k: nat)
    ensures k <= |s|
  {
    if s == [] || !leq(s[0], x) then 0 else 1 + InsertPos(x, s[1..], leq)
  }

  /** x inserted after every leading element that is at most x. */
  function Insert<T>(x: T, s: seq<T>, leq: (T, T) -> bool): (r: seq<T>)
    ensures |r| == |s| + 1
  {
    if s == [] || !leq(s[0], x) then [x] + s else [s[0]] + Insert(x, s[1..], leq)
  }

  /** Everything before the insertion point is at most x, the element at it is not. */
  lemma {:induction false} InsertPosBounds<T>(x: T, s: seq<T>, leq: (T, T) -> bool)
    ensures forall i :: 0 <= i < InsertPos(x, s, leq) ==> leq(s[i], x)
    ensures InsertPos(x, s, leq) < |s| ==> !leq(s[InsertPos(x, s, leq)], x)
    decreases |s|
  {
    if s != [] && leq(s[0], x) {
      InsertPosBounds(x, s[1..], leq);
    }
  }

  /** Insert puts x at the insertion point and leaves the rest in order. */
  lemma {:induction false} InsertSplits<T>(x: T, s: seq<T>, leq: (T, T) -> bool)
    ensures Insert(x, s, leq) == s[..InsertPos(x, s, leq)] + [x] + s[InsertPos(x, s, leq)..]
    decreases |s|
  {
    if s != [] && leq(s[0], x) {
      InsertSplits(x, s[1..], leq);
      var k := InsertPos(x, s[1..], leq);
      assert s[..k + 1] == [s[0]] + s[1..][..k];
      assert s[k + 1..] == s[1..][k..];
    }
  }

  /** Stable insertion sort: the elements are inserted in their input order. */
  function SortBy<T>(s: seq<T>, leq: (T, T) -> bool): (r: seq<T>)
    ensures |r| == |s|
    decreases |s|
  {
    if s == [] then [] else Insert(s[|s| - 1], SortBy(s[..|s| - 1], leq), leq)
  }

  lemma {:induction false} InsertSorted<T(!new)>(x: T, s: seq<T>, leq: (T, T) -> bool)
    requires TotalPreorder(leq) && Sorted(s, leq)
    ensures Sorted(Insert(x, s, leq), leq)
  {
    var k := InsertPos(x, s, leq);
    var r := Insert(x, s, leq);
    InsertPosBounds(x, s, leq);
    InsertSplits(x, s, leq);
    forall i, j | 0 <= i < j < |r| ensures leq(r[i], r[j]) {
      if j < k {
        assert r[i] == s[i] && r[j] == s[j];
      } else if j == k {
        assert r[j] == x && r[i] == s[i];
      } else if i == k {
        assert r[i] == x && r[j] == s[j - 1];
        assert leq(s[k], s[j - 1]) || k == j - 1;
        assert !leq(s[k], x);
      } else if i < k {
        assert r[i] == s[i] && r[j] == s[j - 1];
      } else {
        assert r[i] == s[i - 1] && r[j] == s[j - 1];
      }
    }
  }

  /** The sort returns its input in order. */
  lemma {:induction false} SortBySorted<T(!new)>(s: seq<T>, leq: (T, T) -> bool)
    requires TotalPreorder(leq)
    ensures Sorted(SortBy(s, leq), leq)
    decreases |s|
  {
    if s != [] {
      SortBySorted(s[..|s| - 1], leq);
      InsertSorted(s[|s| - 1], SortBy(s[..|s| - 1], leq), leq);
    }
  }

  lemma InsertMultiset<T>(x: T, s: seq<T>, leq: (T, T) -> bool)
    ensures multiset(Insert(x, s, leq)) == multiset(s) + multiset{x}
  {
    var k := InsertPos(x, s, leq);
    InsertSplits(x, s, leq);
    assert s == s[..k] + s[k..];
  }

  /** The sort returns a permutation of its input. */
  lemma {:induction false} SortByPermutation<T>(s: seq<T>, leq: (T, T) -> bool)
    ensures multiset(SortBy(s, leq)) == multiset(s)
    decreases |s|
  {
    if s != [] {
      var init, x := s[..|s| - 1], s[|s| - 1];
      SortByPermutation(init, leq);
      InsertMultiset(x, SortBy(init, leq), leq);
      assert s == init + [x];
    }
  }

  lemma {:induction false} EquivalentsAppend<T>(a: seq<T>, b: seq<T>, e: T, leq: (T, T) -> bool)
    ensures Equivalents(a + b, e, leq) == Equivalents(a, e, leq) + Equivalents(b, e, leq)
    decreases |a|
  {
    if a == [] {
      assert a + b == b;
    } else {
      assert (a + b)[1..] == a[1..] + b;
      EquivalentsAppend(a[1..], b, e, leq);
    }
  }

  lemma {:induction false} EquivalentsNone<T>(s: seq<T>, e: T, leq: (T, T) -> bool)
    requires forall i :: 0 <= i < |s| ==> !(leq(s[i], e) && leq(e, s[i]))
    ensures Equivalents(s, e, leq) == []
    decreases |s|
  {
    if s != [] {
      EquivalentsNone(s[1..], e, leq);
    }
  }

  /** Behind the insertion point of x nothing is equivalent to x. */
  lemma AfterInsertPos<T(!new)>(x: T, s: seq<T>, e: T, leq: (T, T) -> bool)
    requires TotalPreorder(leq) && Sorted(s, leq)
    requires leq(x, e) && leq(e, x)
    ensures forall i :: InsertPos(x, s, leq) <= i < |s| ==> !(leq(s[i], e) && leq(e, s[i]))
  {
    var k := InsertPos(x, s, leq);
    InsertPosBounds(x, s, leq);
    forall i | k <= i < |s| ensures !(leq(s[i], e) && leq(e, s[i])) {
      if i > k {
        assert leq(s[k], s[i]);
      }
    }
  }

  lemma InsertEquivalents<T(!new)>(x: T, s: seq<T>, e: T, leq: (T, T) -> bool)
    requires TotalPreorder(leq) && Sorted(s, leq)
    ensures Equivalents(Insert(x, s, leq), e, leq) ==
            Equivalents(s, e, leq) + (if leq(x, e) && leq(e, x) then [x] else [])
  {
    var k := InsertPos(x, s, leq);
    var a, b := s[..k], s[k..];
    assert s == a + b;
    InsertSplits(x, s, leq);
    assert Insert(x, s, leq) == (a + [x]) + b;
    EquivalentsAppend(a, b, e, leq);
    EquivalentsAppend(a + [x], b, e, leq);
    EquivalentsAppend(a, [x], e, leq);
    assert Equivalents([x], e, leq) == (if leq(x, e) && leq(e, x) then [x] else []) by {
      assert [x][1..] == [];
    }
    if leq(x, e) && leq(e, x) {
      NoEquivalentsAfterInsertPos(x, s, e, leq);
    }
  }

  /** Nothing equivalent to an element x comes after the place where x is inserted. */
  lemma NoEquivalentsAfterInsertPos<T(!new)>(x: T, s: seq<T>, e: T, leq: (T, T) -> bool)
    requires TotalPreorder(leq) && Sorted(s, leq) && leq(x, e) && leq(e, x)
    ensures InsertPos(x, s, leq) <= |s| && Equivalents(s[InsertPos(x, s, leq)..], e, leq) == []
  {
    var k := InsertPos(x, s, leq);
    var b := s[k..];
    AfterInsertPos(x, s, e, leq);
    assert forall i :: 0 <= i < |b| ==> b[i] == s[k + i];
    EquivalentsNone(b, e, leq);
  }

  /** The sort is stable: elements that compare equal keep their input order. */
  lemma {:induction false} SortByStable<T(!new)>(s: seq<T>, e: T, leq: (T, T) -> bool)
    requires TotalPreorder(leq)
    ensures Equivalents(SortBy(s, leq), e, leq) == Equivalents(s, e, leq)
    decreases |s|
  {
    if s != [] {
      var init, x := s[..|s| - 1], s[|s| - 1];
      SortByStable(init, e, leq);
      SortBySorted(init, leq);
      InsertEquivalents(x, SortBy(init, leq), e, leq);
      assert s == init + [x];
      EquivalentsAppend(init, [x], e, leq);
      assert [x][1..] == [];
    }
  }

  /** Sorting an already sorted sequence leaves it unchanged. */
  lemma {:induction false} SortBySortedInput<T(!new)>(s: seq<T>, leq: (T, T) -> bool)
    requires Sorted(s, leq)
    ensures SortBy(s, leq) == s
    decreases |s|
  {
    if s != [] {
      var init, x := s[..|s| - 1], s[|s| - 1];
      SortBySortedInput(init, leq);
      InsertAtEnd(x, init, leq);
      assert s == init + [x];
    }
  }

  lemma {:induction false} InsertAtEnd<T>(x: T, s: seq<T>, leq: (T, T) -> bool)
    requires forall i :: 0 <= i < |s| ==> leq(s[i], x)
    ensures Insert(x, s, leq) == s + [x]
    decreases |s|
  {
    if s != [] {
      InsertAtEnd(x, s[1..], leq);
      assert s == [s[0]] + s[1..];
    }
  }

  // ---------------------------------------------------------------------------
  // Character order on strings
  // ---------------------------------------------------------------------------

  /** a comes before b, or equals it, in character order. */
  predicate StringLeq(a: string, b: string) {
    a == [] || (b != [] && (a[0] < b[0] || (a[0] == b[0] && StringLeq(a[1..], b[1..]))))
  }

  lemma {:induction false} StringLeqTotal(a: string, b: string)
    ensures StringLeq(a, b) || StringLeq(b, a)
    decreases |a|
  {
    if a != [] && b != [] && a[0] == b[0] {
      StringLeqTotal(a[1..], b[1..]);
    }
  }

  lemma {:induction false} StringLeqTransitive(a: string, b: string, c: string)
    requires StringLeq(a, b) && StringLeq(b, c)
    ensures StringLeq(a, c)
    decreases |a|
  {
    if a != [] && a[0] == b[0] && b[0] == c[0] {
      StringLeqTransitive(a[1..], b[1..], c[1..]);
    }
  }

  lemma {:induction false} StringLeqAntisymmetric(a: string, b: string)
    requires StringLeq(a, b) && StringLeq(b, a)
    ensures a == b
    decreases |a|
  {
    if a != [] {
      StringLeqAntisymmetric(a[1..], b[1..]);
      assert a == [a[0]] + a[1..] && b == [b[0]] + b[1..];
    }
  }

  /** Character order is a total order on strings. */
  lemma StringLeqTotalPreorder()
    ensures TotalPreorder(StringLeq)
  {
    forall a, b ensures StringLeq(a, b) || StringLeq(b, a) {
      StringLeqTotal(a, b);
    }
    forall a, b, c | StringLeq(a, b) && StringLeq(b, c) ensures StringLeq(a, c) {
      StringLeqTransitive(a, b, c);
    }
  }
}
