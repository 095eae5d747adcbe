/** Open-path travelling salesman over a distance matrix (algo.js): exact enumeration, and nearest
    neighbour improved by 2-opt. Point 0 is the start; stops are points 1 to n. */
module OpenPath {
  import opened Basics
  import opened Enumeration

  type Matrix = seq<seq<real>>

  ghost predicate Square(d: Matrix, n: nat) {
    |d| == n + 1 && forall i :: 0 <= i < |d| ==> |d[i]| == n + 1
  }

  ghost predicate InRange(route: seq<nat>, n: nat) { forall x :: x in route ==> 1 <= x <= n }

  /** The stops 1 to n in order. */
  function Stops(n: nat): (r: seq<nat>)
    ensures |r| == n && forall i :: 0 <= i < n ==> r[i] == i + 1
  {
    if n == 0 then [] else Stops(n - 1) + [n]
  }

  /** A visiting order of all n stops. */
  ghost predicate Visits(route: seq<nat>, n: nat) { multiset(route) == multiset(Stops(n)) }

  /** Distance between two points; only points inside the matrix are ever looked up. */
  function Dist(d: Matrix, i: nat, j: nat): real { if i < |d| && j < |d[i]| then d[i][j] else 0.0 }

  /** Length of the first `k` hops of a route that starts at point 0. */
  function Length(d: Matrix, route: seq<nat>, k: nat): real
    requires k <= |route|
  {
    if k == 0 then 0.0 else Length(d, route, k - 1) + Dist(d, if k == 1 then 0 else route[k - 2], route[k - 1])
  }

  function PathLength(d: Matrix, route: seq<nat>): real { Length(d, route, |route|) }

  lemma VisitsInRange(route: seq<nat>, n: nat)
    requires Visits(route, n)
    ensures InRange(route, n) && |route| == n
  {
    forall x | x in route
      ensures 1 <= x <= n
    {
      assert x in multiset(route);
      assert x in Stops(n);
    }
    assert |multiset(route)| == |route| && |multiset(Stops(n))| == n;
  }

  method PathLen(d: Matrix, route: seq<nat>) returns (len: real)
    requires |d| > 0 && Square(d, |d| - 1) && InRange(route, |d| - 1)
    ensures len == PathLength(d, route)
  {
    len := 0.0;
    var prev := 0;
    for k := 0 to |route|
      invariant len == Length(d, route, k) && prev == (if k == 0 then 0 else route[k - 1]) && prev < |d|
    {
      assert route[k] in route;
      len := len + d[prev][route[k]];
      prev := route[k];
    }
  }

  // ------------------------------------------------------------------------ exact

  /** The best order found so far; `None` stands for an infinite length. */
  type Best = Option<seq<nat>>

  ghost predicate NoLonger(d: Matrix, best: Best, route: seq<nat>) {
    best.Some? && PathLength(d, best.value) <= PathLength(d, route)
  }

  /** The best order after trying `cur` as a complete order. */
  method Consider(d: Matrix, n: nat, cur: seq<nat>, best: Best) returns (r: Best)
    requires Square(d, n) && InRange(cur, n) && (best.Some? ==> InRange(best.value, n))
    ensures r == best || r == Some(cur)
    ensures NoLonger(d, r, cur) && (best.Some? ==> NoLonger(d, r, best.value))
  {
    var len := PathLen(d, cur);
    if best.None? { return Some(cur); }
    var bestLen := PathLen(d, best.value);
    r := if len < bestLen then Some(cur) else best;
  }

  /** Whether the order is `before` or a completion of `cur` by the stops of `arr`. */
  ghost predicate From(r: Best, before: Best, cur: seq<nat>, arr: seq<nat>) {
    r == before || (r.Some? && multiset(r.value) == multiset(cur + arr))
  }

  /** The order is at least as short as every completion of `cur` by `arr` that starts with stop `k` of `arr`. */
  ghost predicate BeatsFrom(d: Matrix, r: Best, cur: seq<nat>, arr: seq<nat>, k: nat)
    requires k < |arr|
  {
    forall p: seq<nat> :: multiset(p) == multiset(Without(arr, k)) ==> NoLonger(d, r, (cur + [arr[k]]) + p)
  }

  ghost predicate BeatsAll(d: Matrix, r: Best, cur: seq<nat>, arr: seq<nat>) {
    forall p: seq<nat> :: multiset(p) == multiset(arr) ==> NoLonger(d, r, cur + p)
  }

  lemma BeatsEveryHead(d: Matrix, r: Best, cur: seq<nat>, arr: seq<nat>)
    requires arr != [] && forall k :: 0 <= k < |arr| ==> BeatsFrom(d, r, cur, arr, k)
    ensures BeatsAll(d, r, cur, arr)
  {
    hide NoLonger;
    forall p: seq<nat> | multiset(p) == multiset(arr)
      ensures NoLonger(d, r, cur + p)
    {
      var k := HeadOf(p, arr);
      assert BeatsFrom(d, r, cur, arr, k);
      assert cur + p == (cur + [arr[k]]) + p[1..];
    }
  }

  lemma BeatsNothingLeft(d: Matrix, r: Best, cur: seq<nat>)
    requires NoLonger(d, r, cur)
    ensures BeatsAll(d, r, cur, [])
  {
    forall p: seq<nat> | multiset(p) == multiset([])
      ensures NoLonger(d, r, cur + p)
    {
      EmptyMultiset(p);
      assert cur + p == cur;
    }
  }

  /** A shorter order beats whatever a longer one beat. */
  lemma ShorterBeats(d: Matrix, before: Best, r: Best, cur: seq<nat>, arr: seq<nat>, k: nat)
    requires k < |arr| && BeatsFrom(d, before, cur, arr, k) && before.Some? && NoLonger(d, r, before.value)
    ensures BeatsFrom(d, r, cur, arr, k)
  {
    hide PathLength;
  }

  /** Completes `cur` by every arrangement of `arr`, keeping the shortest order met. */
  method Permute(d: Matrix, n: nat, arr: seq<nat>, cur: seq<nat>, best: Best) returns (r: Best)
    requires Square(d, n) && InRange(cur + arr, n) && (best.Some? ==> InRange(best.value, n))
    ensures r.Some? && InRange(r.value, n) && From(r, best, cur, arr)
    ensures best.Some? ==> NoLonger(d, r, best.value)
    ensures BeatsAll(d, r, cur, arr)
    decreases |arr|
  {
    hide PathLength;
    if arr == [] {
      assert cur + arr == cur;
      r := Consider(d, n, cur, best);
      BeatsNothingLeft(d, r, cur);
      return;
    }
    r := best;
    hide Square, InRange, BeatsAll, BeatsFrom;
    for i := 0 to |arr|
      invariant (i > 0 ==> r.Some?) && (r.Some? ==> InRange(r.value, n)) && From(r, best, cur, arr)
      invariant best.Some? ==> NoLonger(d, r, best.value)
      invariant forall k :: 0 <= k < i ==> BeatsFrom(d, r, cur, arr, k)
    {
      var before := r;
      PickOne(cur, arr, i, n);
      r := Permute(d, n, Without(arr, i), cur + [arr[i]], before);
      BeatsHead(d, r, cur, arr, i);
      forall k | 0 <= k < i
        ensures BeatsFrom(d, r, cur, arr, k)
      {
        ShorterBeats(d, before, r, cur, arr, k);
      }
    }
    BeatsEveryHead(d, r, cur, arr);
  }

  lemma BeatsHead(d: Matrix, r: Best, cur: seq<nat>, arr: seq<nat>, k: nat)
    requires k < |arr| && BeatsAll(d, r, cur + [arr[k]], Without(arr, k))
    ensures BeatsFrom(d, r, cur, arr, k)
  {}

  /** Moving one stop from the rest to the prefix keeps the stops. */
  lemma PickOne(cur: seq<nat>, arr: seq<nat>, i: nat, n: nat)
    requires i < |arr| && InRange(cur + arr, n)
    ensures multiset((cur + [arr[i]]) + Without(arr, i)) == multiset(cur + arr)
            && InRange((cur + [arr[i]]) + Without(arr, i), n)
  {
    WithoutMultiset(arr, i);
    InRangeOf((cur + [arr[i]]) + Without(arr, i), cur + arr, n);
  }

  lemma EmptyMultiset(p: seq<nat>)
    requires multiset(p) == multiset([])
    ensures p == []
  {
    assert |multiset(p)| == |p|;
  }

  lemma InRangeOf(a: seq<nat>, b: seq<nat>, n: nat)
    requires multiset(a) == multiset(b) && InRange(b, n)
    ensures InRange(a, n)
  {
    forall x | x in a ensures 1 <= x <= n { assert x in multiset(a); assert x in b; }
  }

  lemma HeadOf(p: seq<nat>, arr: seq<nat>) returns (k: nat)
    requires multiset(p) == multiset(arr) && arr != []
    ensures k < |arr| && p != [] && p[0] == arr[k] && multiset(p[1..]) == multiset(Without(arr, k))
  {
    assert |multiset(p)| == |p| && |multiset(arr)| == |arr|;
    assert p[0] in multiset(p);
    assert p[0] in arr;
    k :| 0 <= k < |arr| && arr[k] == p[0];
    WithoutMultiset(arr, k);
    assert p == [p[0]] + p[1..];
    assert multiset(p[1..]) == multiset(p) - multiset{p[0]};
    assert multiset(Without(arr, k)) == multiset(arr) - multiset{arr[k]};
  }

  /** The route that an order counting stops from 0 stands for. */
  function ToPoints(order: seq<nat>): (r: seq<nat>)
    ensures |r| == |order| && forall i :: 0 <= i < |r| ==> r[i] == order[i] + 1
  {
    if order == [] then [] else [order[0] + 1] + ToPoints(order[1..])
  }

  /** The order handed back, counting stops from 0. */
  method FromZero(route: seq<nat>) returns (order: seq<nat>)
    requires forall x :: x in route ==> x >= 1
    ensures ToPoints(order) == route
  {
    order := [];
    for k := 0 to |route|
      invariant |order| == k && forall i :: 0 <= i < k ==> order[i] + 1 == route[i]
    {
      assert route[k] in route;
      order := order + [route[k] - 1];
    }
    assert ToPoints(order) == route;
  }

  /** The exact solver returns a visiting order no longer than any other. */
  method SolveOrderExact(d: Matrix, n: nat) returns (order: seq<nat>)
    requires Square(d, n)
    ensures Visits(ToPoints(order), n)
    ensures forall other: seq<nat> :: Visits(other, n) ==> PathLength(d, ToPoints(order)) <= PathLength(d, other)
  {
    assert [] + Stops(n) == Stops(n);
    var best := Permute(d, n, Stops(n), [], None);
    forall other: seq<nat> | Visits(other, n)
      ensures PathLength(d, best.value) <= PathLength(d, other)
    {
      assert [] + other == other;
      assert NoLonger(d, best, [] + other);
    }
    VisitsInRange(best.value, n);
    order := FromZero(best.value);
  }

  // --------------------------------------------------------------- nearest neighbour

  /** The first unvisited stop at the least distance from `cur`, among stops 1 to `j`. */
  function Nearest(d: Matrix, cur: nat, route: seq<nat>, j: nat): (r: Option<nat>)
    ensures r.Some? ==> 1 <= r.value <= j && r.value !in route
    ensures r.None? ==> forall x :: 1 <= x <= j ==> x in route
    ensures r.Some? ==> forall x :: 1 <= x <= j && x !in route ==> Dist(d, cur, r.value) <= Dist(d, cur, x)
    ensures r.Some? ==> forall x :: 1 <= x < r.value && x !in route ==> Dist(d, cur, r.value) < Dist(d, cur, x)
  {
    if j == 0 then None
    else
      var best := Nearest(d, cur, route, j - 1);
      if j !in route && (best.None? || Dist(d, cur, j) < Dist(d, cur, best.value)) then Some(j) else best
  }

  /** The point the hop to position `k` leaves from. */
  function Before(route: seq<nat>, k: nat): nat
    requires k <= |route|
  {
    if k == 0 then 0 else route[k - 1]
  }

  /** Each stop is the nearest one not yet visited. */
  ghost predicate Greedy(d: Matrix, n: nat, route: seq<nat>) {
    && InRange(route, n)
    && forall k :: 0 <= k < |route| ==> Nearest(d, Before(route, k), route[..k], n) == Some(route[k])
  }

  method NearestNeighbour(d: Matrix, n: nat) returns (route: seq<nat>)
    requires Square(d, n)
    ensures Visits(route, n) && Greedy(d, n, route)
  {
    var visited := new bool[n + 1](i => i == 0);
    var cur := 0;
    route := [];
    hide Nearest, Greedy;
    assert Greedy(d, n, []) by { NoStepGreedy(d, n); }
    for k := 0 to n
      invariant |route| == k && Distinct(route) && Greedy(d, n, route) && fresh(visited)
      invariant cur == Before(route, k) <= n
      invariant forall x :: 1 <= x <= n ==> (visited[x] <==> x in route)
    {
      var best := NearestUnvisited(d, n, cur, route, visited);
      visited[best] := true;
      GreedyExtends(d, n, route, best);
      route := route + [best];
      cur := best;
    }
    GreedyInRange(d, n, route);
    AllVisited(route, n);
  }

  /** The inner scan for the nearest unvisited stop. */
  method NearestUnvisited(d: Matrix, n: nat, cur: nat, route: seq<nat>, visited: array<bool>) returns (next: nat)
    requires Square(d, n) && cur <= n && Distinct(route) && |route| < n && visited.Length == n + 1
    requires forall x :: 1 <= x <= n ==> (visited[x] <==> x in route)
    ensures 1 <= next <= n && next !in route && Nearest(d, cur, route, n) == Some(next)
  {
    var best: Option<nat> := None;
    for j := 1 to n + 1
      invariant best == Nearest(d, cur, route, j - 1)
    {
      if !visited[j] && (best.None? || d[cur][j] < d[cur][best.value]) { best := Some(j); }
    }
    var x := SomeUnvisited(route, n);
    next := best.value;
  }

  lemma NoStepGreedy(d: Matrix, n: nat)
    ensures Greedy(d, n, [])
  {}

  lemma GreedyInRange(d: Matrix, n: nat, route: seq<nat>)
    requires Greedy(d, n, route)
    ensures InRange(route, n)
  {}

  lemma GreedyExtends(d: Matrix, n: nat, route: seq<nat>, next: nat)
    requires Greedy(d, n, route) && 1 <= next <= n
    requires Nearest(d, Before(route, |route|), route, n) == Some(next)
    ensures Greedy(d, n, route + [next])
  {
    hide Nearest;
    var all := route + [next];
    forall k | 0 <= k < |all|
      ensures Nearest(d, Before(all, k), all[..k], n) == Some(all[k])
    {
      if k < |route| {
        assert all[..k] == route[..k];
        assert all[k] == route[k] && Before(all, k) == Before(route, k);
        assert Nearest(d, Before(route, k), route[..k], n) == Some(route[k]);
      } else {
        assert all[..k] == route && Before(all, k) == Before(route, |route|);
      }
    }
  }

  lemma SomeUnvisited(route: seq<nat>, n: nat) returns (x: nat)
    requires Distinct(route) && |route| < n
    ensures 1 <= x <= n && x !in route
  {
    DistinctCardinality(route);
    DistinctCardinality(Stops(n));
    var all, seen := Elements(Stops(n)), Elements(route);
    assert seen == all * seen + (seen - all);
    assert all == all * seen + (all - seen);
    x :| x in all - seen;
  }

  lemma AllVisited(route: seq<nat>, n: nat)
    requires Distinct(route) && |route| == n && InRange(route, n)
    ensures Visits(route, n)
  {
    DistinctCardinality(route);
    DistinctCardinality(Stops(n));
    forall x | x in Elements(route)
      ensures x in Elements(Stops(n))
    {
      assert Stops(n)[x - 1] == x;
    }
    SubsetOfSameSize(Elements(route), Elements(Stops(n)));
    DistinctSameMembers(route, Stops(n));
  }

  // ------------------------------------------------------------------------- 2-opt

  function Reversed(s: seq<nat>): (r: seq<nat>)
    ensures |r| == |s|
  {
    if s == [] then [] else Reversed(s[1..]) + [s[0]]
  }

  lemma {:induction false} ReversedMultiset(s: seq<nat>)
    ensures multiset(Reversed(s)) == multiset(s)
  {
    if s != [] {
      ReversedMultiset(s[1..]);
      assert s == [s[0]] + s[1..];
    }
  }

  /** The route with the stops from position `i` to `j` turned around. */
  function Flip(route: seq<nat>, i: nat, j: nat): (r: seq<nat>)
    requires i < j < |route|
    ensures |r| == |route|
  {
    route[..i] + Reversed(route[i..j + 1]) + route[j + 1..]
  }

  lemma FlipMultiset(route: seq<nat>, i: nat, j: nat)
    requires i < j < |route|
    ensures multiset(Flip(route, i, j)) == multiset(route)
  {
    ReversedMultiset(route[i..j + 1]);
    assert route == route[..i] + route[i..j + 1] + route[j + 1..];
  }

  const TOLERANCE := 0.000000001
  const MAX_PASSES := 200

  ghost predicate Improves(d: Matrix, route: seq<nat>, i: nat, j: nat)
    requires i < j < |route|
  {
    PathLength(d, Flip(route, i, j)) + TOLERANCE < PathLength(d, route)
  }

  /** No reversal among the pairs before (i, j) gains more than the tolerance. */
  ghost predicate OptimalBefore(d: Matrix, route: seq<nat>, i: nat, j: nat)
  {
    forall a, b :: 0 <= a < b < |route| && (a < i || (a == i && b < j)) ==> !Improves(d, route, a, b)
  }

  ghost predicate LocallyOptimal(d: Matrix, route: seq<nat>)
  {
    forall a, b :: 0 <= a < b < |route| ==> !Improves(d, route, a, b)
  }

  /** Tries one reversal. */
  method TryFlip(d: Matrix, n: nat, route: seq<nat>, i: nat, j: nat) returns (next: seq<nat>, took: bool)
    requires Square(d, n) && Visits(route, n) && InRange(route, n) && i < j < |route|
    ensures Visits(next, n) && InRange(next, n) && |next| == |route|
    ensures took <==> Improves(d, route, i, j)
    ensures next == if took then Flip(route, i, j) else route
  {
    hide Visits, Flip, PathLength;
    var cand := Flip(route, i, j);
    FlipVisits(route, i, j, n);
    var candLen := PathLen(d, cand);
    var routeLen := PathLen(d, route);
    took := candLen + TOLERANCE < routeLen;
    next := if took then cand else route;
  }

  /** `improved` says the route got shorter by more than the tolerance; otherwise it is untouched. */
  ghost predicate Progress(d: Matrix, start: seq<nat>, route: seq<nat>, improved: bool) {
    if improved then PathLength(d, route) + TOLERANCE < PathLength(d, start) else route == start
  }

  lemma ProgressStep(d: Matrix, start: seq<nat>, route: seq<nat>, improved: bool, i: nat, j: nat)
    requires i < j < |route| && Progress(d, start, route, improved) && Improves(d, route, i, j)
    ensures Progress(d, start, Flip(route, i, j), true)
  {
    hide PathLength, Flip;
  }

  /** One pass over all pairs, taking every improvement at once. */
  method Pass(d: Matrix, n: nat, start: seq<nat>) returns (route: seq<nat>, improved: bool)
    requires Square(d, n) && Visits(start, n) && InRange(start, n) && n >= 1
    ensures Visits(route, n) && InRange(route, n) && PathLength(d, route) <= PathLength(d, start)
    ensures improved ==> PathLength(d, route) + TOLERANCE < PathLength(d, start)
    ensures !improved ==> route == start && LocallyOptimal(d, route)
  {
    route, improved := start, false;
    VisitsInRange(start, n);
    hide Visits, Flip, PathLength, Square, InRange, Improves;
    for i := 0 to n - 1
      invariant Visits(route, n) && InRange(route, n) && |route| == n && Progress(d, start, route, improved)
      invariant !improved ==> OptimalBefore(d, route, i, 0)
    {
      for j := i + 1 to |route|
        invariant Visits(route, n) && InRange(route, n) && |route| == n && Progress(d, start, route, improved)
        invariant !improved ==> OptimalBefore(d, route, i, j)
      {
        var next, took := TryFlip(d, n, route, i, j);
        if took { ProgressStep(d, start, route, improved, i, j); }
        route, improved := next, improved || took;
      }
    }
  }

  lemma FlipVisits(route: seq<nat>, i: nat, j: nat, n: nat)
    requires i < j < |route| && Visits(route, n)
    ensures Visits(Flip(route, i, j), n) && InRange(Flip(route, i, j), n) && |Flip(route, i, j)| == |route|
  {
    FlipMultiset(route, i, j);
    VisitsInRange(Flip(route, i, j), n);
  }

  /** The heuristic visits every stop once, is never longer than the nearest-neighbour route it starts
      from, and no reversal still gains more than the tolerance unless all passes were used. */
  method SolveOrder(d: Matrix, n: nat) returns (order: seq<nat>, passes: nat)
    requires Square(d, n)
    ensures Visits(ToPoints(order), n)
    ensures exists greedy :: Visits(greedy, n) && Greedy(d, n, greedy) && PathLength(d,
            ToPoints(order)) <= PathLength(d, greedy)
    ensures passes <= MAX_PASSES && (passes < MAX_PASSES ==> LocallyOptimal(d, ToPoints(order)))
  {
    var current := NearestNeighbour(d, n);
    ghost var greedy := current;
    passes := 0;
    VisitsInRange(current, n);
    hide Visits, Greedy, PathLength, Improves;
    if n > 1 {
      var improved := true;
      while improved && passes < MAX_PASSES
        invariant Visits(current, n) && InRange(current, n) && PathLength(d, current) <= PathLength(d, greedy)
        invariant passes <= MAX_PASSES && (!improved ==> LocallyOptimal(d, current))
        decreases MAX_PASSES - passes
      {
        passes := passes + 1;
        current, improved := Pass(d, n, current);
      }
    }
    order := FromZero(current);
  }
}
