/** Plans that visit one place more than once: what the generated moves do to stops that share a
    place id (replanning.py). */
module SharedPlaces {
  import opened Basics
  import opened Enumeration
  import opened RouteEvaluation
  import opened PlanPatch

  /** Equal ids stand next to each other. */
  ghost predicate Grouped(ids: seq<StopId>) {
    forall i, j, k :: 0 <= i < j < k < |ids| && ids[i] == ids[k] ==> ids[j] == ids[k]
  }

  /** One more target: an id seen before takes its first occurrence to the end. */
  ghost function Pass(done: seq<StopId>, id: StopId): (r: seq<StopId>)
    ensures |r| == |done| + 1 && multiset(r) == multiset(done) + multiset{id}
  {
    if id in done then
      WithoutMultiset(done, IndexOf(done, id));
      Without(done, IndexOf(done, id)) + [id, id]
    else done + [id]
  }

  /** What the moves make of ids that are in the target order already. */
  ghost function Shuffled(ids: seq<StopId>): (r: seq<StopId>)
    ensures |r| == |ids| && multiset(r) == multiset(ids)
  {
    if ids == [] then []
    else
      assert ids == ids[..|ids| - 1] + [ids[|ids| - 1]];
      Pass(Shuffled(ids[..|ids| - 1]), ids[|ids| - 1])
  }

  /** The same on the stops: the new stop is passed by the first one with its id. */
  ghost function PassStop(done: seq<Stop>, stop: Stop): (r: seq<Stop>)
    ensures |r| == |done| + 1
  {
    var i := Find(done, stop.poi.id);
    if i < |done| then Without(done, i) + [stop, done[i]] else done + [stop]
  }

  ghost function ShuffledStops(stops: seq<Stop>): (r: seq<Stop>)
    ensures |r| == |stops|
  {
    if stops == [] then [] else PassStop(ShuffledStops(stops[..|stops| - 1]), stops[|stops| - 1])
  }

  lemma ShuffleIds(stops: seq<Stop>)
    ensures Ids(ShuffledStops(stops)) == Shuffled(Ids(stops))
  {
    hide PassStop, Pass, Ids;
    if stops != [] {
      var last := |stops| - 1;
      ShuffleIds(stops[..last]);
      IdsOfFront(stops);
      PassIds(ShuffledStops(stops[..last]), stops[last]);
    }
  }

  lemma IdsOfFront(stops: seq<Stop>)
    requires stops != []
    ensures var last := |stops| - 1;
            Ids(stops)[..last] == Ids(stops[..last]) && Ids(stops)[last] == stops[last].poi.id
  {
    var ids, front := Ids(stops), Ids(stops[..|stops| - 1]);
    hide Ids;
    assert forall i :: 0 <= i < |front| ==> front[i] == ids[i];
  }

  lemma FindIsIndex(stops: seq<Stop>, id: StopId)
    ensures Find(stops, id) == IndexOf(Ids(stops), id)
  {
    var i, j, ids := Find(stops, id), IndexOf(Ids(stops), id), Ids(stops);
    hide Ids;
    if i < |stops| { assert ids[i] == id; }
    if j < |stops| { assert stops[j].poi.id == id; }
  }

  lemma IdsConcat(a: seq<Stop>, b: seq<Stop>)
    ensures Ids(a + b) == Ids(a) + Ids(b)
  {
    var all, front, back := Ids(a + b), Ids(a), Ids(b);
    hide Ids;
    forall i | 0 <= i < |all|
      ensures all[i] == (front + back)[i]
    {
      assert all[i] == (a + b)[i].poi.id;
    }
  }

  lemma PassIds(done: seq<Stop>, stop: Stop)
    ensures Ids(PassStop(done, stop)) == Pass(Ids(done), stop.poi.id)
  {
    var (i, id) := (Find(done, stop.poi.id), stop.poi.id);
    FindIsIndex(done, id);
    if i < |done| {
      var pair := [stop, done[i]];
      IdsWithout(done, i);
      IdsConcat(Without(done, i), pair);
      assert Ids(pair) == [id, id];
    } else {
      IdsConcat(done, [stop]);
      assert Ids([stop]) == [id];
    }
  }

  // ------------------------------------------------------ what the moves do

  /** After k targets, the first k stops are shuffled and the others are where they were. */
  ghost function HalfWay(stops: seq<Stop>, k: nat): (r: seq<Stop>)
    requires k <= |stops|
    ensures |r| == |stops|
  {
    ShuffledStops(stops[..k]) + stops[k..]
  }

  /** One target further: a stop with a new id stays, one with an id seen before is passed. */
  lemma NextHalf(stops: seq<Stop>, k: nat)
    requires k < |stops|
    ensures var (now, source) := (HalfWay(stops, k), IndexOf(Ids(HalfWay(stops, k)), stops[k].poi.id));
            && source <= k
            && HalfWay(stops, k + 1) == if source == k then now else Move(now, source, k)
  {
    hide Ids, Find, Move;
    var (done, rest) := (ShuffledStops(stops[..k]), stops[k..]);
    HalfGrows(stops, k);
    FindIsIndex(done + rest, stops[k].poi.id);
    FindInFront(done, rest, stops[k].poi.id);
    hide ShuffledStops;
    PassIsMove(done, rest);
    assert rest[1..] == stops[k + 1..];
  }

  lemma HalfGrows(stops: seq<Stop>, k: nat)
    requires k < |stops|
    ensures ShuffledStops(stops[..k + 1]) == PassStop(ShuffledStops(stops[..k]), stops[k])
  {
    hide PassStop;
    assert stops[..k + 1][..k] == stops[..k] && stops[..k + 1][k] == stops[k];
  }

  lemma PassIsMove(done: seq<Stop>, rest: seq<Stop>)
    requires rest != []
    ensures var i := Find(done, rest[0].poi.id);
            PassStop(done, rest[0]) + rest[1..] == if i < |done| then Move(done + rest, i, |done|) else done + rest
  {
    var i := Find(done, rest[0].poi.id);
    hide Find, Move, Without;
    if i < |done| {
      MoveOverBorder(done, rest, i);
    } else {
      PassBorder(done, rest);
    }
  }

  lemma PassBorder<T>(a: seq<T>, b: seq<T>)
    requires b != []
    ensures a + [b[0]] + b[1..] == a + b
  {}

  lemma AppendCancels<T>(a: seq<T>, b: seq<T>, x: T)
    ensures a + [x] == b + [x] <==> a == b
  {
    if a + [x] == b + [x] {
      assert a == (a + [x])[..|a|] && b == (b + [x])[..|b|];
    }
  }

  lemma MoveOverBorder<T>(a: seq<T>, b: seq<T>, i: nat)
    requires i < |a| && b != []
    ensures Move(a + b, i, |a|) == Without(a, i) + [b[0], a[i]] + b[1..]
  {
    var others, front := Without(a + b, i), Without(a, i) + [b[0]];
    WithoutInFront(a, b, i);
    hide Without;
    assert others[..|a|] == front && others[|a|..] == b[1..];
    assert (a + b)[i] == a[i];
    assert front + [a[i]] + b[1..] == Without(a, i) + [b[0], a[i]] + b[1..] by {
      assert front + [a[i]] == Without(a, i) + [b[0], a[i]];
    }
  }

  lemma WithoutInFront<T>(a: seq<T>, b: seq<T>, i: nat)
    requires i < |a| && b != []
    ensures Without(a + b, i) == Without(a, i) + [b[0]] + b[1..]
  {
    assert (a + b)[..i] == a[..i] && (a + b)[i + 1..] == a[i + 1..] + b;
    assert b == [b[0]] + b[1..];
  }

  lemma {:induction false} FindInFront(a: seq<Stop>, b: seq<Stop>, id: StopId)
    requires b != [] && b[0].poi.id == id
    ensures Find(a + b, id) == Find(a, id)
  {
    if a == [] {
      assert a + b == b;
    } else {
      assert (a + b)[1..] == a[1..] + b;
      FindInFront(a[1..], b, id);
    }
  }

  /** On a plan that is already in the target order the moves shuffle the stops. */
  lemma {:induction false} MovesShuffle(d: Draft, stops: seq<Stop>, k: nat)
    requires k <= |stops| && d.stops == HalfWay(stops, k) && Movable(Ids(d.stops), Ids(stops), k)
    ensures Run(d, MoveOps(Ids(d.stops), Ids(stops), k)) == Ok(d.(stops := ShuffledStops(stops)))
    decreases |stops| - k
  {
    hide Move, ShuffledStops, HalfWay, Ids, Run, MoveOps, Movable;
    if k == |stops| {
      AllDone(stops);
      NoMovesLeft(d, Ids(d.stops), Ids(stops));
    } else {
      NextHalf(stops, k);
      var source := IndexOf(Ids(d.stops), Ids(stops)[k]);
      if source == k {
        StaysInPlace(Ids(d.stops), Ids(stops), k);
        MovesShuffle(d, stops, k + 1);
      } else {
        MoveRuns(d, Ids(stops), k);
        MovesShuffle(d.(stops := Move(d.stops, source, k)), stops, k + 1);
      }
    }
  }

  lemma NoMovesLeft(d: Draft, working: seq<StopId>, targets: seq<StopId>)
    requires Movable(working, targets, |targets|)
    ensures Run(d, MoveOps(working, targets, |targets|)) == Ok(d)
  {}

  /** Running one generated move, then those for the remaining targets. */
  lemma MoveRuns(d: Draft, targets: seq<StopId>, k: nat)
    requires Movable(Ids(d.stops), targets, k) && k < |targets| && IndexOf(Ids(d.stops), targets[k]) != k
    ensures var next := d.(stops := Move(d.stops, IndexOf(Ids(d.stops), targets[k]), k));
            && Movable(Ids(next.stops), targets, k + 1)
            && Run(d, MoveOps(Ids(d.stops), targets, k)) == Run(next, MoveOps(Ids(next.stops), targets, k + 1))
  {
    hide Move, Ids;
    var working := Ids(d.stops);
    var source := IndexOf(working, targets[k]);
    StillMovable(working, targets, k);
    IdsMove(d.stops, source, k);
    var next := d.(stops := Move(d.stops, source, k));
    var ops, more := MoveOps(working, targets, k), MoveOps(Move(working, source, k), targets, k + 1);
    assert ops == [MoveStop(source, k)] + more && ops[1..] == more;
    assert Run(d, ops) == Run(next, more);
  }

  lemma AllDone(stops: seq<Stop>)
    ensures HalfWay(stops, 0) == stops && HalfWay(stops, |stops|) == ShuffledStops(stops)
  {
    assert stops[..|stops|] == stops;
  }

  lemma InPlaceIsMovable(ids: seq<StopId>)
    ensures Movable(ids, ids, 0)
  {}

  // -------------------------------------------------- when the order is kept

  ghost predicate EndsWith(ids: seq<StopId>, id: StopId, c: nat) {
    c <= |ids| && forall i :: |ids| - c <= i < |ids| ==> ids[i] == id
  }

  /** A run of equal targets leaves at least as long a run behind. */
  lemma {:induction false} RunSurvives(ids: seq<StopId>, id: StopId, c: nat)
    requires EndsWith(ids, id, c)
    ensures EndsWith(Shuffled(ids), id, c)
  {
    if c > 0 {
      var last := |ids| - 1;
      RunSurvives(ids[..last], id, c - 1);
      RunGrows(Shuffled(ids[..last]), id, c - 1);
    }
  }

  lemma RunGrows(done: seq<StopId>, id: StopId, c: nat)
    requires EndsWith(done, id, c)
    ensures EndsWith(Pass(done, id), id, c + 1)
  {}

  /** The length of the run at the end. */
  ghost function LastRun(ids: seq<StopId>): (c: nat)
    requires ids != []
    ensures 1 <= c <= |ids| && EndsWith(ids, ids[|ids| - 1], c) && !EndsWith(ids, ids[|ids| - 1], c + 1)
  {
    var last := |ids| - 1;
    if last > 0 && ids[last - 1] == ids[last] then 1 + LastRun(ids[..last]) else 1
  }

  /** If the last id was seen before and the shuffle kept the order, then it was so one id earlier,
      and the two stand together. */
  lemma KeptBefore(ids: seq<StopId>)
    requires ids != [] && ids[|ids| - 1] in Shuffled(ids[..|ids| - 1]) && Shuffled(ids) == ids
    ensures Shuffled(ids[..|ids| - 1]) == ids[..|ids| - 1]
    ensures |ids| >= 2 && ids[|ids| - 2] == ids[|ids| - 1]
  {
    var last := |ids| - 1;
    var (done, id, front) := (Shuffled(ids[..last]), ids[last], ids[..last]);
    var i := IndexOf(done, id);
    FrontOfPass(done, id, ids);
    var c := LastRun(front);
    hide Shuffled, Pass;
    RunSurvives(front, id, c);
    if i < |done| - c {
      RunKept(done, id, c, i);
      assert false;
    }
    FirstToEnd(done, id, c);
  }

  lemma FrontOfPass(done: seq<StopId>, id: StopId, ids: seq<StopId>)
    requires id in done && ids == Pass(done, id)
    ensures ids[..|ids| - 1] == Without(done, IndexOf(done, id)) + [id] && |ids| >= 2
    ensures ids[|ids| - 2] == ids[|ids| - 1] == id
  {}

  /** Taking the first of a run to its end changes nothing. */
  lemma FirstToEnd(done: seq<StopId>, id: StopId, c: nat)
    requires EndsWith(done, id, c) && id in done && IndexOf(done, id) >= |done| - c
    ensures Without(done, IndexOf(done, id)) + [id] == done
  {}

  lemma RunKept(done: seq<StopId>, id: StopId, c: nat, i: nat)
    requires EndsWith(done, id, c) && i < |done| - c
    ensures EndsWith(Without(done, i) + [id], id, c + 1)
  {}

  lemma {:induction false} ShuffleKeepsOrderIff(ids: seq<StopId>)
    ensures Shuffled(ids) == ids <==> Grouped(ids)
  {
    hide Grouped, Shuffled, Pass;
    if ids == [] {
      NothingShuffled();
    } else {
      var (front, id) := (ids[..|ids| - 1], ids[|ids| - 1]);
      ShuffleKeepsOrderIff(front);
      GroupedFront(ids);
      ShuffledLast(ids);
      if id in front {
        SeenBefore(front, id);
        if Shuffled(ids) == ids { KeptBefore(ids); }
        if Grouped(ids) { GroupedPass(ids); }
      } else {
        NewIdStays(ids);
      }
    }
  }

  lemma NothingShuffled()
    ensures Shuffled([]) == [] && Grouped([])
  {}

  lemma SeenBefore(front: seq<StopId>, id: StopId)
    ensures id in Shuffled(front) <==> id in front
  {
    assert id in Shuffled(front) <==> id in multiset(Shuffled(front));
    assert id in front <==> id in multiset(front);
  }

  lemma NewIdStays(ids: seq<StopId>)
    requires ids != [] && ids[|ids| - 1] !in ids[..|ids| - 1]
    ensures Shuffled(ids) == ids <==> Shuffled(ids[..|ids| - 1]) == ids[..|ids| - 1]
  {
    hide Shuffled, Pass;
    var (front, id) := (ids[..|ids| - 1], ids[|ids| - 1]);
    SeenBefore(front, id);
    ShuffledLast(ids);
    PassNew(Shuffled(front), id);
    FrontAndLast(ids);
    AppendCancels(Shuffled(front), front, id);
  }

  lemma PassNew(done: seq<StopId>, id: StopId)
    requires id !in done
    ensures Pass(done, id) == done + [id]
  {}

  lemma FrontAndLast<T>(s: seq<T>)
    requires s != []
    ensures s == s[..|s| - 1] + [s[|s| - 1]]
  {}

  lemma ShuffledLast(ids: seq<StopId>)
    requires ids != []
    ensures Shuffled(ids) == Pass(Shuffled(ids[..|ids| - 1]), ids[|ids| - 1])
  {}

  lemma GroupedPass(ids: seq<StopId>)
    requires ids != [] && Grouped(ids) && ids[|ids| - 1] in ids[..|ids| - 1]
    ensures Pass(ids[..|ids| - 1], ids[|ids| - 1]) == ids
  {
    var last := |ids| - 1;
    var (front, id) := (ids[..last], ids[last]);
    var i := IndexOf(front, id);
    hide IndexOf, Without;
    assert EndsWith(front, id, last - i) by {
      assert ids[i] == ids[last];
      assert forall j :: i < j < last ==> ids[j] == id;
    }
    hide Grouped, EndsWith, Pass;
    FirstToEnd(front, id, last - i);
    FrontAndLast(ids);
    PassToEnd(front, id);
  }

  lemma PassToEnd(done: seq<StopId>, id: StopId)
    requires id in done && Without(done, IndexOf(done, id)) + [id] == done
    ensures Pass(done, id) == done + [id]
  {
    assert Pass(done, id) == Without(done, IndexOf(done, id)) + [id] + [id];
  }

  /** Grouping is grouping of the front, with a last id that is new or repeats its neighbour. */
  lemma GroupedFront(ids: seq<StopId>)
    requires ids != []
    ensures var (front, id) := (ids[..|ids| - 1], ids[|ids| - 1]);
            Grouped(ids) <==> Grouped(front) && (id in front ==> front[|front| - 1] == id)
  {
    var (front, id) := (ids[..|ids| - 1], ids[|ids| - 1]);
    assert forall i :: 0 <= i < |front| ==> ids[i] == front[i];
    if Grouped(ids) && id in front {
      var i :| 0 <= i < |front| && front[i] == id;
      assert i < |front| - 1 ==> ids[|front| - 1] == id;
    }
    if Grouped(front) && (id in front ==> front[|front| - 1] == id) {
      forall i, j, k | 0 <= i < j < k < |ids| && ids[i] == ids[k]
        ensures ids[j] == ids[k]
      {
        if k == |front| {
          var last := |front| - 1;
          assert front[i] == id;
          assert j < last ==> front[j] == front[last];
        }
      }
    }
  }

  /** The stops themselves stay where they are exactly when no id is shared. */
  lemma {:induction false} ShuffleKeepsStopsIff(stops: seq<Stop>)
    requires Distinct(stops)
    ensures ShuffledStops(stops) == stops <==> Distinct(Ids(stops))
  {
    hide ShuffledStops, Ids, Find, PassStop;
    if stops == [] {
      assert Ids(stops) == [] && ShuffledStops(stops) == [];
    } else {
      var (front, stop) := (stops[..|stops| - 1], stops[|stops| - 1]);
      ShuffleKeepsStopsIff(front);
      IdsOfFront(stops);
      DistinctFront(Ids(stops));
      LastIsPassed(stops);
    }
  }

  /** The last stop is passed exactly when its id was seen before. */
  lemma LastIsPassed(stops: seq<Stop>)
    requires stops != [] && Distinct(stops)
    ensures var (front, id) := (stops[..|stops| - 1], stops[|stops| - 1].poi.id);
            ShuffledStops(stops) == stops <==> id !in Ids(front) && ShuffledStops(front) == front
  {
    hide ShuffledStops, Ids, Find, PassStop;
    var (front, stop) := (stops[..|stops| - 1], stops[|stops| - 1]);
    var done := ShuffledStops(front);
    ShuffledLastStop(stops);
    ShuffleIds(front);
    FindIsIndex(done, stop.poi.id);
    SeenBefore(Ids(front), stop.poi.id);
    if Find(done, stop.poi.id) < |done| {
      PassedStop(done, stop);
      assert stop != stops[|done| - 1];
    } else {
      hide Distinct;
      PassNewStop(done, stop);
      FrontAndLast(stops);
      AppendCancels(done, front, stop);
    }
  }

  lemma ShuffledLastStop(stops: seq<Stop>)
    requires stops != []
    ensures ShuffledStops(stops) == PassStop(ShuffledStops(stops[..|stops| - 1]), stops[|stops| - 1])
  {}

  lemma PassNewStop(done: seq<Stop>, stop: Stop)
    requires Find(done, stop.poi.id) == |done|
    ensures PassStop(done, stop) == done + [stop]
  {}

  lemma PassedStop(done: seq<Stop>, stop: Stop)
    requires Find(done, stop.poi.id) < |done|
    ensures PassStop(done, stop)[|done| - 1] == stop
  {
    hide Find;
  }

  lemma DistinctFront(ids: seq<StopId>)
    requires ids != []
    ensures Distinct(ids) <==> Distinct(ids[..|ids| - 1]) && ids[|ids| - 1] !in ids[..|ids| - 1]
  {
    var last := |ids| - 1;
    assert forall i :: 0 <= i < last ==> ids[..last][i] == ids[i];
    if !Distinct(ids) {
      var i, j :| 0 <= i < j < |ids| && ids[i] == ids[j];
      assert ids[..last][i] == ids[i];
    }
  }

  // ------------------------------------------------ a plan that needs no change

  /** Nothing is completed, dropped or re-homed, and the solver answers with the current plan. */
  ghost predicate Settled(r: Replan) {
    && r.completed == {} && r.needs == {} && !r.drop && r.mode == r.base.mode && r.now == r.base.departure
    && |r.order| == |r.base.stops| && forall i :: 0 <= i < |r.order| ==> r.order[i] == i
  }

  ghost function PlainItems(stops: seq<Stop>): (r: seq<Item>)
    ensures |r| == |stops| && forall i :: 0 <= i < |r| ==> r[i] == Item(stops[i].poi.id, stops[i], false)
  {
    if stops == [] then [] else [Item(stops[0].poi.id, stops[0], false)] + PlainItems(stops[1..])
  }

  lemma {:induction false} AllActive(stops: seq<Stop>, found: map<StopId, seq<Poi>>)
    ensures Active(stops, {}, {}, found, false) == PlainItems(stops)
  {
    if stops != [] {
      AllActive(stops[1..], found);
    }
  }

  lemma {:induction false} AllKept(stops: seq<Stop>, keep: seq<StopId>)
    requires forall i :: 0 <= i < |stops| ==> stops[i].poi.id in keep
    ensures Kept(stops, keep) == stops && RemoveOps(stops, keep) == []
  {
    if stops != [] {
      AllKept(stops[1..], keep);
    }
  }

  lemma {:induction false} NoneReplaced(items: seq<Item>, k: nat)
    requires k <= |items| && forall i :: 0 <= i < |items| ==> !items[i].replaced
    ensures ReplaceOps(items, k) == []
    decreases |items| - k
  {
    if k < |items| {
      NoneReplaced(items, k + 1);
    }
  }

  lemma SettledItems(r: Replan)
    requires Settled(r)
    ensures Solved(r) && ActiveItems(r) == Chosen(r) == PlainItems(r.base.stops)
    ensures Sources(Chosen(r)) == Ids(r.base.stops) && Target(r) == r.base && KeptStops(r) == r.base.stops
    ensures RemoveOps(r.base.stops, Sources(ActiveItems(r))) == [] && ReplaceOps(Chosen(r), 0) == []
    ensures SettingOps(r.base, r.mode, r.now) == []
  {
    hide Active, Kept, RemoveOps, ReplaceOps, Ids, Sources, Stops, Picked, PlainItems;
    AllActive(r.base.stops, r.found);
    var items, ids := PlainItems(r.base.stops), Ids(r.base.stops);
    assert Chosen(r) == items;
    assert Sources(items) == ids;
    assert Stops(items) == r.base.stops;
    assert forall i :: 0 <= i < |ids| ==> r.base.stops[i].poi.id == ids[i] && ids[i] in ids;
    AllKept(r.base.stops, ids);
    NoneReplaced(items, 0);
  }

  /** When the plan is already what the solver asks for, its script shuffles the stops that share a
      place. The visiting order of places survives exactly when visits to one place are adjacent, and
      the plan itself (its stops being different) exactly when no place is visited twice. */
  lemma SettledPlanKeptIff(r: Replan)
    requires Settled(r)
    ensures Solved(r) && Target(r) == r.base
    ensures Run(r.base, Compile(r)) == Ok(r.base.(stops := ShuffledStops(r.base.stops)))
    ensures Ids(ShuffledStops(r.base.stops)) == Ids(r.base.stops) <==> Grouped(Ids(r.base.stops))
    ensures Distinct(r.base.stops) ==>
              (Run(r.base, Compile(r)) == Ok(Target(r)) <==> Distinct(Ids(r.base.stops)))
  {
    hide Run, Compile, Solved, MoveOps, Ids, ShuffledStops, Shuffled, Grouped, Distinct, Settled, Movable;
    var stops := r.base.stops;
    SettledScript(r);
    InPlaceIsMovable(Ids(stops));
    AllDone(stops);
    MovesShuffle(r.base, stops, 0);
    assert r.base.(stops := stops) == r.base;
    ShuffleIds(stops);
    ShuffleKeepsOrderIff(Ids(stops));
    if Distinct(stops) {
      ShuffleKeepsStopsIff(stops);
    }
  }

  lemma SettledScript(r: Replan)
    requires Settled(r)
    ensures Solved(r) && Target(r) == r.base && Movable(Ids(r.base.stops), Ids(r.base.stops), 0)
    ensures Compile(r) == MoveOps(Ids(r.base.stops), Ids(r.base.stops), 0)
  {
    hide MoveOps, Ids, Chosen, Target, KeptStops, RemoveOps, ReplaceOps, SettingOps;
    SettledItems(r);
    InPlaceIsMovable(Ids(r.base.stops));
  }

  // Two visits to one place: their order is already the requested one, and the script still moves.
  const SHARED_REPLAN :=
    Replan(Draft([Stop(Place(1), 0, ANY_TASK, 0), Stop(Place(1), 1, ANY_TASK, 0)], Walking, 0.0),
           {}, {}, map[], false, [0, 1], Walking, 0.0)

  /** Stops that share a place id are told apart by nothing, so the script can swap them. */
  lemma SharedPlaceMisorders()
    ensures Solved(SHARED_REPLAN) && Target(SHARED_REPLAN) == SHARED_REPLAN.base
    ensures Compile(SHARED_REPLAN) == [MoveStop(0, 1)]
    ensures Run(SHARED_REPLAN.base, Compile(SHARED_REPLAN)) != Ok(Target(SHARED_REPLAN))
  {
    hide Active, Kept, RemoveOps, MoveOps, ReplaceOps, Sources, Ids, Picked, Stops;
    SharedScript();
    var r := SHARED_REPLAN;
    assert Move(r.base.stops, 0, 1) == [r.base.stops[1], r.base.stops[0]];
    assert Apply(r.base, MoveStop(0, 1)) == Ok(r.base.(stops := Move(r.base.stops, 0, 1)));
  }

  lemma SharedScript()
    ensures Solved(SHARED_REPLAN) && Target(SHARED_REPLAN) == SHARED_REPLAN.base
    ensures Compile(SHARED_REPLAN) == [MoveStop(0, 1)]
  {
    SharedTarget();
    var a, b := SHARED_REPLAN.base.stops[0], SHARED_REPLAN.base.stops[1];
    SharedItems(a, b);
    SharedChoice(Item(1, a, false), Item(1, b, false));
    hide Active, Kept, RemoveOps, MoveOps, ReplaceOps, Sources, Ids, Chosen, Target, Solved, Movable;
    TargetsMovable(SHARED_REPLAN);
    SharedMoves();
  }

  lemma SharedTarget()
    ensures var (r, a, b) := (SHARED_REPLAN, SHARED_REPLAN.base.stops[0], SHARED_REPLAN.base.stops[1]);
            Solved(r) && Chosen(r) == [Item(1, a, false), Item(1, b, false)] && Target(r) == r.base
  {
    hide Active, Stops, Picked;
    var a, b := SHARED_REPLAN.base.stops[0], SHARED_REPLAN.base.stops[1];
    SharedItems(a, b);
    SharedChoice(Item(1, a, false), Item(1, b, false));
  }

  lemma SharedChoice(first: Item, second: Item)
    requires !first.replaced && !second.replaced
    ensures Picked([first, second], [0, 1]) == [first, second] && ReplaceOps([first, second], 0) == []
    ensures Stops([first, second]) == [first.stop, second.stop]
  {
    assert ReplaceOps([first, second], 2) == [] && ReplaceOps([first, second], 1) == [];
  }

  lemma SharedItems(a: Stop, b: Stop)
    requires a.poi.id == b.poi.id == 1
    ensures Active([a, b], {}, {}, map[], false) == [Item(1, a, false), Item(1, b, false)]
    ensures Sources([Item(1, a, false), Item(1, b, false)]) == [1, 1] && Ids([a, b]) == [1, 1]
    ensures Kept([a, b], [1, 1]) == [a, b] && RemoveOps([a, b], [1, 1]) == []
  {
    var tail := [a, b][1..];
    assert tail == [b] && tail[1..] == [];
    assert Active(tail, {}, {}, map[], false) == [Item(1, b, false)];
    assert Kept(tail, [1, 1]) == [b] && RemoveOps(tail, [1, 1]) == [];
  }

  lemma SharedMoves()
    ensures Movable([1, 1], [1, 1], 0) && MoveOps([1, 1], [1, 1], 0) == [MoveStop(0, 1)]
  {
    StillMovable([1, 1], [1, 1], 1);
    assert MoveOps(Move([1, 1], 0, 1), [1, 1], 2) == [];
  }
}
