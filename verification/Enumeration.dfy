/** Exhaustive enumeration: permutations of a list and products of lists. */
module Enumeration {
  import opened Basics

  function Range(n: nat): (r: seq<nat>)
    ensures |r| == n && forall i :: 0 <= i < n ==> r[i] == i
  {
    if n == 0 then [] else Range(n - 1) + [n - 1]
  }

  function Prefixed<T>(x: T, tails: seq<seq<T>>): (r: seq<seq<T>>)
    ensures |r| == |tails| && forall i :: 0 <= i < |r| ==> r[i] == [x] + tails[i]
  {
    if tails == [] then [] else [[x] + tails[0]] + Prefixed(x, tails[1..])
  }

  /** All arrangements of `items`, those starting with `items[0]` first. */
  function Permutations<T>(items: seq<T>): seq<seq<T>>
    decreases |items|, |items| + 1
  {
    if items == [] then [[]] else StartingBefore(items, |items|)
  }

  /** The arrangements that start with one of the first `i` items. */
  function StartingBefore<T>(items: seq<T>, i: nat): seq<seq<T>>
    requires i <= |items|
    decreases |items|, i
  {
    if i == 0 then [] else StartingBefore(items, i - 1) + Prefixed(items[i - 1], Permutations(Without(items, i - 1)))
  }

  lemma StartingBeforeStep<T>(items: seq<T>, i: nat)
    requires 0 < i <= |items|
    ensures StartingBefore(items, i) == StartingBefore(items, i - 1)
            + Prefixed(items[i - 1], Permutations(Without(items, i - 1)))
  {
    hide Permutations, Prefixed, Without;
  }

  lemma HeadAndTail<T>(x: T, tail: seq<T>)
    ensures multiset([x] + tail) == multiset{x} + multiset(tail)
  {}

  lemma {:induction false} StartingBeforeIsSound<T>(items: seq<T>, i: nat, p: seq<T>)
    requires 0 < i <= |items| && p in StartingBefore(items, i)
    ensures multiset(p) == multiset(items)
    decreases |items|, i
  {
    StartingBeforeStep(items, i);
    hide StartingBefore, Permutations, Without, Prefixed;
    var rest := Without(items, i - 1);
    var tails := Permutations(rest);
    if p in Prefixed(items[i - 1], tails) {
      var k :| 0 <= k < |tails| && Prefixed(items[i - 1], tails)[k] == p;
      PermutationsAreSound(rest, tails[k]);
      WithoutMultiset(items, i - 1);
      HeadAndTail(items[i - 1], tails[k]);
    } else {
      NothingBeforeFirst(items);
      StartingBeforeIsSound(items, i - 1, p);
    }
  }

  lemma NothingBeforeFirst<T>(items: seq<T>)
    ensures StartingBefore(items, 0) == []
  {
    hide Permutations;
  }

  lemma {:induction false} PermutationsAreSound<T>(items: seq<T>, p: seq<T>)
    requires p in Permutations(items)
    ensures multiset(p) == multiset(items)
    decreases |items|, |items| + 1
  {
    hide StartingBefore;
    if items != [] {
      StartingBeforeIsSound(items, |items|, p);
    }
  }

  lemma {:induction false} StartingBeforeGrows<T>(items: seq<T>, i: nat, j: nat, p: seq<T>)
    requires i <= j <= |items| && p in StartingBefore(items, i)
    ensures p in StartingBefore(items, j)
  {
    hide StartingBefore, Permutations, Without, Prefixed;
    if i < j {
      StartingBeforeStep(items, j);
      StartingBeforeGrows(items, i, j - 1, p);
    }
  }

  lemma StartsWith<T>(items: seq<T>, i: nat, tail: seq<T>)
    requires i < |items| && tail in Permutations(Without(items, i))
    ensures [items[i]] + tail in StartingBefore(items, i + 1)
  {
    StartingBeforeStep(items, i + 1);
    hide StartingBefore, Permutations, Without, Prefixed;
    var tails := Permutations(Without(items, i));
    var k :| 0 <= k < |tails| && tails[k] == tail;
    assert Prefixed(items[i], tails)[k] in Prefixed(items[i], tails);
  }

  lemma HeadSplit<T>(items: seq<T>, p: seq<T>) returns (i: nat)
    requires multiset(p) == multiset(items) && items != []
    ensures i < |items| && p != [] && p[0] == items[i] && multiset(p[1..]) == multiset(Without(items, i))
  {
    hide Without;
    assert |p| == |multiset(p)| == |multiset(items)| == |items|;
    assert p[0] in multiset(items);
    i :| 0 <= i < |items| && items[i] == p[0];
    WithoutMultiset(items, i);
    assert multiset(Without(items, i)) == multiset(items) - multiset{items[i]};
    assert p == [p[0]] + p[1..];
    assert multiset(p[1..]) == multiset(p) - multiset{p[0]};
  }

  lemma {:induction false} PermutationsAreComplete<T>(items: seq<T>, p: seq<T>)
    requires multiset(p) == multiset(items)
    ensures p in Permutations(items)
    decreases |items|
  {
    hide StartingBefore, Permutations, Without, Prefixed;
    if items == [] {
      assert |p| == |multiset(p)| == 0;
      WhenEmpty(p);
    } else {
      WhenNonempty(items);
      var i := HeadSplit(items, p);
      PermutationsAreComplete(Without(items, i), p[1..]);
      StartsWith(items, i, p[1..]);
      assert p == [items[i]] + p[1..];
      StartingBeforeGrows(items, i + 1, |items|, p);
    }
  }

  lemma WhenEmpty<T>(p: seq<T>)
    requires p == []
    ensures p in Permutations(p)
  {
    assert Permutations(p)[0] == p;
  }

  lemma WhenNonempty<T>(items: seq<T>)
    requires items != []
    ensures Permutations(items) == StartingBefore(items, |items|)
  {
    hide StartingBefore;
  }

  /** The enumeration lists exactly the rearrangements of its input. */
  lemma PermutationsAreExact<T>(items: seq<T>, p: seq<T>)
    ensures p in Permutations(items) <==> multiset(p) == multiset(items)
  {
    if p in Permutations(items) {
      PermutationsAreSound(items, p);
    }
    if multiset(p) == multiset(items) {
      PermutationsAreComplete(items, p);
    }
  }

  /** `p` visits each of 0..n-1 exactly once. */
  ghost predicate IsPermutation(p: seq<nat>, n: nat) {
    |p| == n && Distinct(p) && forall i :: 0 <= i < |p| ==> p[i] < n
  }

  lemma {:induction false} DistinctCounts<T>(s: seq<T>, x: T)
    requires Distinct(s)
    ensures multiset(s)[x] == if x in s then 1 else 0
  {
    if s != [] {
      var front := s[..|s| - 1];
      DistinctCounts(front, x);
      assert s == front + [s[|s| - 1]];
    }
  }

  lemma RangeCounts(n: nat, x: nat)
    ensures multiset(Range(n))[x] == if x < n then 1 else 0
  {
    DistinctCounts(Range(n), x);
    assert x < n ==> Range(n)[x] == x;
  }

  lemma DistinctSameMembers<T>(a: seq<T>, b: seq<T>)
    requires Distinct(a) && Distinct(b) && (forall x :: x in a <==> x in b)
    ensures multiset(a) == multiset(b)
  {
    forall x
      ensures multiset(a)[x] == multiset(b)[x]
    {
      DistinctCounts(a, x);
      DistinctCounts(b, x);
    }
  }

  lemma {:induction false} CountsAreDistinct<T>(s: seq<T>)
    requires forall x :: multiset(s)[x] <= 1
    ensures Distinct(s)
  {
    forall i, j | 0 <= i < j < |s|
      ensures s[i] != s[j]
    {
      assert s == s[..j] + [s[j]] + s[j + 1..];
      assert s[..j][i] == s[i];
      assert multiset(s)[s[i]] == multiset(s[..j])[s[i]] + multiset([s[j]])[s[i]] + multiset(s[j + 1..])[s[i]];
    }
  }

  ghost function Below(n: nat): (r: set<nat>)
    ensures |r| == n && forall x: nat :: x in r <==> x < n
  {
    if n == 0 then {} else Below(n - 1) + {n - 1}
  }

  function Elements<T(==,!new)>(s: seq<T>): (r: set<T>)
    ensures forall x :: x in r <==> x in s
  {
    set x | x in s
  }

  lemma {:induction false} DistinctCardinality<T(!new)>(s: seq<T>)
    requires Distinct(s)
    ensures |Elements(s)| == |s|
  {
    if s != [] {
      var front, last := s[..|s| - 1], s[|s| - 1];
      DistinctCardinality(front);
      assert s == front + [last] && last !in front;
      assert Elements(s) == Elements(front) + {last};
    }
  }

  lemma SubsetOfSameSize<T>(a: set<T>, b: set<T>)
    requires a <= b && |a| == |b|
    ensures a == b
  {
    assert b == a + (b - a);
  }

  /** A permutation of 0..n-1 meets every number below `n`. */
  lemma PermutationCovers(p: seq<nat>, n: nat)
    requires IsPermutation(p, n)
    ensures forall x: nat :: x < n <==> x in p
  {
    DistinctCardinality(p);
    SubsetOfSameSize(Elements(p), Below(n));
    assert forall x: nat :: x in Below(n) <==> x in Elements(p);
  }

  lemma PermutationMeaning(p: seq<nat>, n: nat)
    ensures IsPermutation(p, n) <==> p in Permutations(Range(n))
  {
    PermutationsAreExact(Range(n), p);
    if IsPermutation(p, n) {
      PermutationCovers(p, n);
      forall x: nat
        ensures multiset(p)[x] == multiset(Range(n))[x]
      {
        DistinctCounts(p, x);
        RangeCounts(n, x);
      }
    }
    if multiset(p) == multiset(Range(n)) {
      assert |p| == |multiset(p)| == n;
      forall x: nat
        ensures multiset(p)[x] == if x < n then 1 else 0
      {
        RangeCounts(n, x);
      }
      CountsAreDistinct(p);
      assert forall i :: 0 <= i < |p| ==> p[i] in multiset(p);
    }
  }

  /** The elements of `s` at the listed positions. */
  function Picked<T>(s: seq<T>, order: seq<nat>): (r: seq<T>)
    requires forall i :: 0 <= i < |order| ==> order[i] < |s|
    ensures |r| == |order| && forall i :: 0 <= i < |r| ==> r[i] == s[order[i]]
  {
    if order == [] then [] else [s[order[0]]] + Picked(s, order[1..])
  }

  /** What is picked depends only on how often each position is listed. */
  lemma {:induction false} PickedMultiset<T>(s: seq<T>, a: seq<nat>, b: seq<nat>)
    requires forall i :: 0 <= i < |a| ==> a[i] < |s|
    requires forall i :: 0 <= i < |b| ==> b[i] < |s|
    requires multiset(a) == multiset(b)
    ensures multiset(Picked(s, a)) == multiset(Picked(s, b))
    decreases |a|
  {
    assert |multiset(a)| == |a| && |multiset(b)| == |b|;
    if a != [] {
      var p := HeadFound(a, b);
      PickedMultiset(s, a[1..], Without(b, p));
      PickedWithout(s, b, p);
      WithoutMultiset(Picked(s, b), p);
      assert Picked(s, a) == [s[a[0]]] + Picked(s, a[1..]);
    }
  }

  lemma HeadFound<T>(a: seq<T>, b: seq<T>) returns (p: nat)
    requires multiset(a) == multiset(b) && a != []
    ensures p < |b| && b[p] == a[0] && multiset(a[1..]) == multiset(Without(b, p))
  {
    assert a == [a[0]] + a[1..];
    HeadAndTail(a[0], a[1..]);
    assert a[0] in multiset(b);
    p := IndexOf(b, a[0]);
    WithoutMultiset(b, p);
    assert multiset(a[1..]) == multiset(a) - multiset{a[0]};
    assert multiset(Without(b, p)) == multiset(b) - multiset{b[p]};
  }

  lemma PickedWithout<T>(s: seq<T>, order: seq<nat>, p: nat)
    requires forall i :: 0 <= i < |order| ==> order[i] < |s|
    requires p < |order|
    ensures Picked(s, Without(order, p)) == Without(Picked(s, order), p)
  {}

  /** Picking by a permutation of the positions rearranges a list. */
  lemma PickedByPermutation<T>(s: seq<T>, order: seq<nat>)
    requires IsPermutation(order, |s|)
    ensures multiset(Picked(s, order)) == multiset(s)
  {
    assert forall i :: 0 <= i < |order| ==> order[i] < |s|;
    assert Picked(s, Range(|s|)) == s;
    PermutationIsRange(order, |s|);
    hide Range, Picked, IsPermutation;
    PickedMultiset(s, order, Range(|s|));
  }

  lemma PermutationIsRange(order: seq<nat>, n: nat)
    requires IsPermutation(order, n)
    ensures multiset(order) == multiset(Range(n))
  {
    hide Permutations, Range, IsPermutation;
    PermutationMeaning(order, n);
    PermutationsAreExact(Range(n), order);
  }

  function Extended<T>(head: seq<T>, group: seq<T>): (r: seq<seq<T>>)
    ensures |r| == |group| && forall i :: 0 <= i < |r| ==> r[i] == head + [group[i]]
  {
    if group == [] then [] else [head + [group[0]]] + Extended(head, group[1..])
  }

  function Appended<T>(heads: seq<seq<T>>, group: seq<T>): seq<seq<T>> {
    if heads == [] then [] else Extended(heads[0], group) + Appended(heads[1..], group)
  }

  /** Every way of picking one member from each group, the last choice varying fastest. */
  function Product<T>(groups: seq<seq<T>>): seq<seq<T>> {
    if groups == [] then [[]] else Appended(Product(groups[..|groups| - 1]), groups[|groups| - 1])
  }

  lemma {:induction false} AppendedMembers<T>(heads: seq<seq<T>>, group: seq<T>, s: seq<T>)
    ensures s in Appended(heads, group) <==> s != [] && s[..|s| - 1] in heads && s[|s| - 1] in group
  {
    if heads != [] {
      AppendedMembers(heads[1..], group, s);
      var first := Extended(heads[0], group);
      if s != [] && s[..|s| - 1] == heads[0] && s[|s| - 1] in group {
        var i :| 0 <= i < |group| && group[i] == s[|s| - 1];
        assert s == heads[0] + [group[i]];
        assert first[i] == s;
      }
      assert s in first ==> s != [] && s[..|s| - 1] == heads[0] && s[|s| - 1] in group;
      assert heads == [heads[0]] + heads[1..];
    }
  }

  /** The product lists exactly the sequences that take their i-th member from group i. */
  lemma {:induction false} ProductIsExact<T>(groups: seq<seq<T>>, s: seq<T>)
    ensures s in Product(groups) <==> |s| == |groups| && forall i :: 0 <= i < |s| ==> s[i] in groups[i]
  {
    if groups != [] {
      AppendedMembers(Product(groups[..|groups| - 1]), groups[|groups| - 1], s);
      if s != [] {
        ProductIsExact(groups[..|groups| - 1], s[..|s| - 1]);
        if |s| == |groups| {
          assert forall i :: 0 <= i < |s| - 1 ==> s[..|s| - 1][i] == s[i];
        }
      }
    }
  }
}
