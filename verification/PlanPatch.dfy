/** Patch scripts over a plan: their interpreter (plan_patch_validator.py) and the compiler that
    turns a re-optimised visiting order into a script (replanning.py). */
module PlanPatch {
  import opened Basics
  import opened Enumeration
  import opened RouteEvaluation

  /** Place ids are only ever compared for equality. */
  type StopId = nat

  datatype Poi = Poi(
    id: StopId,
    sourced: bool,
    rating: Option<real>,
    confidence: real,
    cost: Option<real>,
    openNow: Option<bool>,
    accessible: Option<bool>,
    district: Option<string>)

  datatype Stop = Stop(poi: Poi, taskIndex: int, task: Task, candidateRank: nat)

  datatype Operation =
    | RemoveStop(stopId: StopId)
    | MoveStop(fromPosition: nat, toPosition: nat)
    | ReplaceStop(stopId: StopId, replacement: Option<Stop>)
    | ChangeMode(mode: Option<Mode>)
    | ChangeDeparture(departure: Option<real>)

  /** The part of a plan snapshot a script can change. */
  datatype Draft = Draft(stops: seq<Stop>, mode: Mode, departure: real)

  datatype PatchError =
    StopNotFound | PositionInvalid | ReplacementInvalid | ModeInvalid | DepartureInvalid | EmptyPlan

  // ------------------------------------------------------------ interpreter

  /** Position of the first stop with this id; the number of stops when there is none. */
  function Find(stops: seq<Stop>, id: StopId): (r: nat)
    ensures r <= |stops|
    ensures r < |stops| ==> stops[r].poi.id == id
    ensures forall i :: 0 <= i < r ==> stops[i].poi.id != id
  {
    if stops == [] then 0 else if stops[0].poi.id == id then 0 else 1 + Find(stops[1..], id)
  }

  function Move<T>(s: seq<T>, i: nat, j: nat): seq<T>
    requires i < |s| && j < |s|
  {
    var rest := Without(s, i);
    rest[..j] + [s[i]] + rest[j..]
  }

  /** The stop a replacement leaves behind: its planning task stays. */
  function KeepTask(replacement: Stop, replaced: Stop): Stop {
    replacement.(taskIndex := replaced.taskIndex, task := replaced.task)
  }

  function Apply(d: Draft, op: Operation): Result<Draft, PatchError> {
    match op
    case RemoveStop(id) =>
      var i := Find(d.stops, id);
      if i == |d.stops| then Err(StopNotFound) else Ok(d.(stops := Without(d.stops, i)))
    case MoveStop(i, j) =>
      if i >= |d.stops| || j >= |d.stops| then Err(PositionInvalid) else Ok(d.(stops := Move(d.stops, i, j)))
    case ReplaceStop(id, replacement) =>
      var i := Find(d.stops, id);
      if i == |d.stops| then Err(StopNotFound)
      else if replacement.None? then Err(ReplacementInvalid)
      else Ok(d.(stops := d.stops[i := KeepTask(replacement.value, d.stops[i])]))
    case ChangeMode(mode) => if mode.None? then Err(ModeInvalid) else Ok(d.(mode := mode.value))
    case ChangeDeparture(t) => if t.None? then Err(DepartureInvalid) else Ok(d.(departure := t.value))
  }

  function Run(d: Draft, ops: seq<Operation>): Result<Draft, PatchError>
    decreases |ops|
  {
    if ops == [] then Ok(d)
    else
      match Apply(d, ops[0])
      case Err(e) => Err(e)
      case Ok(next) => Run(next, ops[1..])
  }

  function ApplyPatch(d: Draft, ops: seq<Operation>): Result<Draft, PatchError> {
    var r := Run(d, ops);
    if r.Ok? && r.value.stops == [] then Err(EmptyPlan) else r
  }

  lemma {:induction false} RunConcat(d: Draft, a: seq<Operation>, b: seq<Operation>)
    ensures Run(d, a + b) == if Run(d, a).Ok? then Run(Run(d, a).value, b) else Run(d, a)
    decreases |a|
  {
    if a == [] {
      assert a + b == b;
    } else {
      assert (a + b)[0] == a[0] && (a + b)[1..] == a[1..] + b;
      if Apply(d, a[0]).Ok? {
        RunConcat(Apply(d, a[0]).value, a[1..], b);
      }
    }
  }

  /** The interpreter loop over a mutable stop list. */
  method ApplyPatchStructure(snapshot: Draft, operations: seq<Operation>) returns (r: Result<Draft, PatchError>)
    ensures r == ApplyPatch(snapshot, operations)
  {
    var stops, mode, departure := snapshot.stops, snapshot.mode, snapshot.departure;
    for k := 0 to |operations|
      invariant Run(snapshot, operations) == Run(Draft(stops, mode, departure), operations[k..])
    {
      assert operations[k..][0] == operations[k] && operations[k..][1..] == operations[k + 1..];
      match operations[k]
      case RemoveStop(id) =>
        var i := Find(stops, id);
        if i == |stops| { return Err(StopNotFound); }
        stops := Without(stops, i);
      case MoveStop(i, j) =>
        if i >= |stops| || j >= |stops| { return Err(PositionInvalid); }
        var moved := stops[i];
        stops := Without(stops, i);
        stops := stops[..j] + [moved] + stops[j..];
      case ReplaceStop(id, replacement) =>
        var i := Find(stops, id);
        if i == |stops| { return Err(StopNotFound); }
        if replacement.None? { return Err(ReplacementInvalid); }
        stops := stops[i := KeepTask(replacement.value, stops[i])];
      case ChangeMode(m) =>
        if m.None? { return Err(ModeInvalid); }
        mode := m.value;
      case ChangeDeparture(t) =>
        if t.None? { return Err(DepartureInvalid); }
        departure := t.value;
    }
    if stops == [] { return Err(EmptyPlan); }
    r := Ok(Draft(stops, mode, departure));
  }

  // --------------------------------------------------------------- compiler

  /** One remaining stop of the plan, possibly re-homed to a replacement place. */
  datatype Item = Item(sourceId: StopId, stop: Stop, replaced: bool)

  /** The first offered place other than the stop's own. */
  function PickReplacement(found: seq<Poi>, ownId: StopId): (r: Option<Poi>)
    ensures r.Some? ==> r.value.id != ownId && r.value in found
    ensures r.None? ==> forall i :: 0 <= i < |found| ==> found[i].id == ownId
  {
    if found == [] then None
    else if found[0].id != ownId then Some(found[0])
    else PickReplacement(found[1..], ownId)
  }

  /** `needs` are the stops that must be re-homed, `found` what the map provider offers for them. */
  function ItemFor(stop: Stop, needs: set<StopId>, found: map<StopId, seq<Poi>>): Item {
    var id := stop.poi.id;
    if id !in needs || id !in found || PickReplacement(found[id], id).None? then Item(id, stop, false)
    else Item(id, stop.(poi := PickReplacement(found[id], id).value, candidateRank := 0), true)
  }

  /** Remaining stops in plan order; with `drop`, only those whose task is required. */
  function Active(stops: seq<Stop>, completed: set<StopId>, needs: set<StopId>, found: map<StopId, seq<Poi>>,
      drop: bool)
    : seq<Item>
  {
    if stops == [] then []
    else
      var rest := Active(stops[1..], completed, needs, found, drop);
      if stops[0].poi.id in completed || (drop && !stops[0].task.required) then rest
      else [ItemFor(stops[0], needs, found)] + rest
  }

  function Sources(items: seq<Item>): (r: seq<StopId>)
    ensures |r| == |items| && forall i :: 0 <= i < |r| ==> r[i] == items[i].sourceId
  {
    if items == [] then [] else [items[0].sourceId] + Sources(items[1..])
  }

  function Ids(stops: seq<Stop>): (r: seq<StopId>)
    ensures |r| == |stops| && forall i :: 0 <= i < |r| ==> r[i] == stops[i].poi.id
  {
    if stops == [] then [] else [stops[0].poi.id] + Ids(stops[1..])
  }

  function Kept(stops: seq<Stop>, keep: seq<StopId>): seq<Stop> {
    if stops == [] then []
    else if stops[0].poi.id in keep then [stops[0]] + Kept(stops[1..], keep)
    else Kept(stops[1..], keep)
  }

  function RemoveOps(stops: seq<Stop>, keep: seq<StopId>): seq<Operation> {
    if stops == [] then []
    else if stops[0].poi.id in keep then RemoveOps(stops[1..], keep)
    else [RemoveStop(stops[0].poi.id)] + RemoveOps(stops[1..], keep)
  }

  /** Every target from position `k` on is somewhere in `working`. */
  ghost predicate Movable(working: seq<StopId>, targets: seq<StopId>, k: nat) {
    && k <= |targets| <= |working|
    && forall i :: k <= i < |targets| ==> targets[i] in working
  }

  /** Moves that bring `working` into the order `targets`, positions before `k` being done. */
  function MoveOps(working: seq<StopId>, targets: seq<StopId>, k: nat): seq<Operation>
    requires Movable(working, targets, k)
    decreases |targets| - k
  {
    if k == |targets| then []
    else
      var source := IndexOf(working, targets[k]);
      if source == k then MoveOps(working, targets, k + 1)
      else
        StillMovable(working, targets, k);
        [MoveStop(source, k)] + MoveOps(Move(working, source, k), targets, k + 1)
  }

  lemma StillMovable(working: seq<StopId>, targets: seq<StopId>, k: nat)
    requires Movable(working, targets, k) && k < |targets|
    ensures Movable(Move(working, IndexOf(working, targets[k]), k), targets, k + 1)
  {
    hide Move;
    var source := IndexOf(working, targets[k]);
    MovePermutes(working, source, k);
    forall i | k + 1 <= i < |targets|
      ensures targets[i] in Move(working, source, k)
    {
      assert targets[i] in multiset(working);
    }
  }

  lemma MovePermutes<T>(s: seq<T>, i: nat, j: nat)
    requires i < |s| && j < |s|
    ensures |Move(s, i, j)| == |s| && multiset(Move(s, i, j)) == multiset(s) && Move(s, i, j)[j] == s[i]
    ensures j <= i ==> Move(s, i, j)[..j] == s[..j]
  {
    var rest := Without(s, i);
    assert s == s[..i] + [s[i]] + s[i + 1..];
    assert rest == rest[..j] + rest[j..];
    calc {
      multiset(Move(s, i, j));
      multiset(rest[..j]) + multiset{s[i]} + multiset(rest[j..]);
      multiset(rest[..j] + rest[j..]) + multiset{s[i]};
      multiset(s[..i]) + multiset(s[i + 1..]) + multiset{s[i]};
      multiset(s);
    }
  }

  /** Where the element at `m` of a moved list came from. */
  function Origin(i: nat, j: nat, m: nat): nat {
    if m == j then i
    else
      var r := if m < j then m else m - 1;
      if r < i then r else r + 1
  }

  lemma MoveAt<T>(s: seq<T>, i: nat, j: nat, m: nat)
    requires i < |s| && j < |s| && m < |s|
    ensures |Move(s, i, j)| == |s| && Origin(i, j, m) < |s| && Move(s, i, j)[m] == s[Origin(i, j, m)]
  {}

  function ReplaceOps(items: seq<Item>, k: nat): seq<Operation>
    requires k <= |items|
    decreases |items| - k
  {
    if k == |items| then []
    else if items[k].replaced then [ReplaceStop(items[k].sourceId, Some(items[k].stop))] + ReplaceOps(items, k + 1)
    else ReplaceOps(items, k + 1)
  }

  function SettingOps(base: Draft, mode: Mode, now: real): seq<Operation> {
    (if mode != base.mode then [ChangeMode(Some(mode))] else [])
    + (if MaxReal(now - base.departure, base.departure - now) >= 60.0 then [ChangeDeparture(Some(now))] else [])
  }

  /** One replan: the plan, what has to change in it, and the answer chosen among the solver's. */
  datatype Replan = Replan(
    base: Draft,
    completed: set<StopId>,
    needs: set<StopId>,
    found: map<StopId, seq<Poi>>,
    drop: bool,
    order: seq<nat>,
    mode: Mode,
    now: real)

  function ActiveItems(r: Replan): seq<Item> {
    Active(r.base.stops, r.completed, r.needs, r.found, r.drop)
  }

  /** The solver's order visits every active item once. */
  ghost predicate Solved(r: Replan) { IsPermutation(r.order, |ActiveItems(r)|) }

  /** The active items in the solver's order. */
  function Chosen(r: Replan): seq<Item>
    requires Solved(r)
  {
    Picked(ActiveItems(r), r.order)
  }

  function KeptStops(r: Replan): seq<Stop> { Kept(r.base.stops, Sources(ActiveItems(r))) }

  /** The whole script of a replan. */
  function Compile(r: Replan): seq<Operation>
    requires Solved(r)
  {
    TargetsMovable(r);
    RemoveOps(r.base.stops, Sources(ActiveItems(r)))
    + MoveOps(Ids(KeptStops(r)), Sources(Chosen(r)), 0)
    + ReplaceOps(Chosen(r), 0)
    + SettingOps(r.base, r.mode, r.now)
  }

  /** Each active item still has its stop after the removals, place ids shared by stops included. */
  lemma {:induction false} SourcesAreKept(
    stops: seq<Stop>, completed: set<StopId>, needs: set<StopId>, found: map<StopId, seq<Poi>>, drop: bool,
    keep: seq<StopId>)
    requires forall id :: id in Sources(Active(stops, completed, needs, found, drop)) ==> id in keep
    ensures multiset(Sources(Active(stops, completed, needs, found, drop))) <= multiset(Ids(Kept(stops, keep)))
  {
    if stops != [] {
      var all, rest := Sources(Active(stops, completed, needs, found, drop)),
                       Sources(Active(stops[1..], completed, needs, found, drop));
      var kept, fewer := Ids(Kept(stops, keep)), Ids(Kept(stops[1..], keep));
      var id := stops[0].poi.id;
      assert all == rest || (all == [id] + rest && all[0] == id && kept == [id] + fewer);
      assert kept == fewer || kept == [id] + fewer;
      hide Active, Sources, Ids, Kept;
      assert forall x :: x in rest ==> x in all;
      SourcesAreKept(stops[1..], completed, needs, found, drop, keep);
      SubMultisetCons(id, rest, fewer);
    }
  }

  lemma SubMultisetCons<T>(x: T, a: seq<T>, b: seq<T>)
    requires multiset(a) <= multiset(b)
    ensures multiset(a) <= multiset([x] + b) && multiset([x] + a) <= multiset([x] + b)
  {}

  lemma ChosenSources(r: Replan)
    requires Solved(r)
    ensures multiset(Sources(Chosen(r))) == multiset(Sources(ActiveItems(r)))
    ensures multiset(Sources(Chosen(r))) <= multiset(Ids(KeptStops(r)))
  {
    hide Active, Kept, Ids, Sources, Picked;
    var active := ActiveItems(r);
    SourcesAreKept(r.base.stops, r.completed, r.needs, r.found, r.drop, Sources(active));
    PickedByPermutation(Sources(active), r.order);
    assert Sources(Chosen(r)) == Picked(Sources(active), r.order);
  }

  lemma TargetsMovable(r: Replan)
    requires Solved(r)
    ensures Movable(Ids(KeptStops(r)), Sources(Chosen(r)), 0)
  {
    hide Active, Kept, Sources, Ids, Chosen;
    ChosenSources(r);
    SubMultisetMembers(Sources(Chosen(r)), Ids(KeptStops(r)));
  }

  lemma SubMultisetMembers<T>(a: seq<T>, b: seq<T>)
    requires multiset(a) <= multiset(b)
    ensures |a| <= |b| && forall i :: 0 <= i < |a| ==> a[i] in b
  {
    assert |multiset(a)| == |a| && |multiset(b)| == |b| && multiset(b) == multiset(a) + (multiset(b) - multiset(a));
    assert forall i :: 0 <= i < |a| ==> a[i] in multiset(a);
  }

  // ------------------------------------------------- removes and moves

  lemma {:induction false} FindBehind(done: seq<Stop>, rest: seq<Stop>)
    requires rest != [] && forall i :: 0 <= i < |done| ==> done[i].poi.id != rest[0].poi.id
    ensures Find(done + rest, rest[0].poi.id) == |done|
  {
    assert (done + rest)[|done|] == rest[0];
  }

  /** Running a removal for the first stop of `rest`, then the script for the others. */
  lemma RemoveOne(d: Draft, done: seq<Stop>, rest: seq<Stop>, keep: seq<StopId>)
    requires d.stops == done + rest && rest != [] && rest[0].poi.id !in keep
    requires forall i :: 0 <= i < |done| ==> done[i].poi.id in keep
    ensures Run(d, RemoveOps(rest, keep)) == Run(d.(stops := done + rest[1..]), RemoveOps(rest[1..], keep))
  {
    hide Find;
    FindBehind(done, rest);
    assert Without(done + rest, |done|) == done + rest[1..];
    var ops, more := RemoveOps(rest, keep), RemoveOps(rest[1..], keep);
    assert ops == [RemoveStop(rest[0].poi.id)] + more && ops[1..] == more;
    hide RemoveOps;
    assert Apply(d, ops[0]) == Ok(d.(stops := done + rest[1..]));
  }

  lemma FirstIsKept(stops: seq<Stop>, keep: seq<StopId>)
    requires stops != [] && stops[0].poi.id in keep
    ensures RemoveOps(stops, keep) == RemoveOps(stops[1..], keep)
            && Kept(stops, keep) == [stops[0]] + Kept(stops[1..], keep)
  {}

  lemma FirstIsDropped(stops: seq<Stop>, keep: seq<StopId>)
    requires stops != [] && stops[0].poi.id !in keep
    ensures Kept(stops, keep) == Kept(stops[1..], keep)
  {}

  lemma NothingToKeep(keep: seq<StopId>)
    ensures RemoveOps([], keep) == [] && Kept([], keep) == []
  {}

  /** The generated removals delete exactly the stops that are not kept. */
  lemma {:induction false} RemovesKeep(d: Draft, done: seq<Stop>, rest: seq<Stop>, keep: seq<StopId>)
    requires d.stops == done + rest
    requires forall i :: 0 <= i < |done| ==> done[i].poi.id in keep
    ensures Run(d, RemoveOps(rest, keep)) == Ok(d.(stops := done + Kept(rest, keep)))
    decreases |rest|
  {
    hide Find, Apply, RemoveOps, Kept;
    if rest == [] {
      NothingToKeep(keep);
      assert done + rest == done + Kept(rest, keep);
    } else if rest[0].poi.id in keep {
      hide Run;
      FirstIsKept(rest, keep);
      assert done + rest == (done + [rest[0]]) + rest[1..];
      RemovesKeep(d, done + [rest[0]], rest[1..], keep);
      assert done + Kept(rest, keep) == (done + [rest[0]]) + Kept(rest[1..], keep);
    } else {
      RemoveOne(d, done, rest, keep);
      hide Run;
      FirstIsDropped(rest, keep);
      RemovesKeep(d.(stops := done + rest[1..]), done, rest[1..], keep);
    }
  }

  lemma IdsMove(stops: seq<Stop>, i: nat, j: nat)
    requires i < |stops| && j < |stops|
    ensures Ids(Move(stops, i, j)) == Move(Ids(stops), i, j)
  {
    hide Move, Origin;
    MoveAt(stops, i, j, 0);
    MoveAt(Ids(stops), i, j, 0);
    forall m | 0 <= m < |stops|
      ensures Ids(Move(stops, i, j))[m] == Move(Ids(stops), i, j)[m]
    {
      MoveAt(stops, i, j, m);
      MoveAt(Ids(stops), i, j, m);
    }
  }

  /** The ids are to be sorted into distinct targets, and the first `k` are in place. */
  ghost predicate Sorting(working: seq<StopId>, targets: seq<StopId>, k: nat) {
    && Distinct(targets) && |working| == |targets| && multiset(working) == multiset(targets)
    && k <= |targets| && working[..k] == targets[..k]
  }

  lemma SourceIsAhead(working: seq<StopId>, targets: seq<StopId>, k: nat)
    requires Sorting(working, targets, k) && k < |targets|
    ensures var source := IndexOf(working, targets[k]);
            k <= source < |working| && working[source] == targets[k]
  {
    assert targets[k] in multiset(targets);
    forall i | 0 <= i < k
      ensures working[i] != targets[k]
    {
      assert working[..k][i] == targets[..k][i];
    }
  }

  lemma SortingGrows(working: seq<StopId>, targets: seq<StopId>, k: nat)
    requires Sorting(working, targets, k) && k < |targets| && working[k] == targets[k]
    ensures Sorting(working, targets, k + 1)
  {
    assert working[..k + 1] == working[..k] + [working[k]];
    assert targets[..k + 1] == targets[..k] + [targets[k]];
  }

  lemma MoveExtendsPrefix(working: seq<StopId>, targets: seq<StopId>, k: nat)
    requires Sorting(working, targets, k) && k < |targets|
    ensures var source := IndexOf(working, targets[k]);
            source < |working| && Sorting(Move(working, source, k), targets, k + 1)
  {
    SourceIsAhead(working, targets, k);
    var source := IndexOf(working, targets[k]);
    MovePermutes(working, source, k);
    hide Move, Distinct;
    SortingGrows(Move(working, source, k), targets, k);
  }

  lemma StaysInPlace(working: seq<StopId>, targets: seq<StopId>, k: nat)
    requires Movable(working, targets, k) && k < |targets| && IndexOf(working, targets[k]) == k
    ensures Movable(working, targets, k + 1) && MoveOps(working, targets, k) == MoveOps(working, targets, k + 1)
    ensures Sorting(working, targets, k) ==> Sorting(working, targets, k + 1)
  {
    if Sorting(working, targets, k) {
      hide Distinct, MoveOps, Movable;
      SortingGrows(working, targets, k);
    }
  }

  /** Loop invariant of the move phase: the generated moves run without error and only rearrange
      stops, and they sort ids that can be sorted into the target order. */
  lemma {:induction false} MovesSort(d: Draft, targets: seq<StopId>, k: nat) returns (stops: seq<Stop>)
    requires Movable(Ids(d.stops), targets, k)
    ensures Run(d, MoveOps(Ids(d.stops), targets, k)) == Ok(d.(stops := stops))
    ensures multiset(stops) == multiset(d.stops)
    ensures Sorting(Ids(d.stops), targets, k) ==> Ids(stops) == targets
    decreases |targets| - k, 1
  {
    hide Move, Ids, Distinct;
    var working := Ids(d.stops);
    if k == |targets| {
      stops := d.stops;
      if Sorting(working, targets, k) {
        assert working == working[..k] && targets == targets[..k];
      }
    } else if IndexOf(working, targets[k]) == k {
      StaysInPlace(working, targets, k);
      hide Run, MoveOps, Movable, Sorting;
      stops := MovesSort(d, targets, k + 1);
    } else {
      hide Run, MoveOps, Movable, Sorting;
      stops := MoveOne(d, targets, k);
    }
  }

  /** The step of the move phase that does move a stop. */
  lemma {:induction false} MoveOne(d: Draft, targets: seq<StopId>, k: nat) returns (stops: seq<Stop>)
    requires Movable(Ids(d.stops), targets, k) && k < |targets| && IndexOf(Ids(d.stops), targets[k]) != k
    ensures Run(d, MoveOps(Ids(d.stops), targets, k)) == Ok(d.(stops := stops))
    ensures multiset(stops) == multiset(d.stops)
    ensures Sorting(Ids(d.stops), targets, k) ==> Ids(stops) == targets
    decreases |targets| - k, 0
  {
    hide Move, Ids, Distinct;
    var working := Ids(d.stops);
    var source := IndexOf(working, targets[k]);
    StillMovable(working, targets, k);
    IdsMove(d.stops, source, k);
    MovePermutes(d.stops, source, k);
    var next := d.(stops := Move(d.stops, source, k));
    var ops, more := MoveOps(working, targets, k), MoveOps(Move(working, source, k), targets, k + 1);
    assert ops == [MoveStop(source, k)] + more && ops[1..] == more;
    assert Run(d, ops) == Run(next, more);
    hide Run, MoveOps;
    stops := MovesSort(next, targets, k + 1);
    if Sorting(working, targets, k) {
      MoveExtendsPrefix(working, targets, k);
    }
  }

  // ------------------------------------------------------------- replaces

  /** Effect of one generated replacement on the stop list. */
  ghost function ReplaceFor(stops: seq<Stop>, item: Item): (r: seq<Stop>)
    ensures |r| == |stops|
  {
    var i := Find(stops, item.sourceId);
    if !item.replaced || i == |stops| then stops else stops[i := KeepTask(item.stop, stops[i])]
  }

  ghost function AfterReplaces(stops: seq<Stop>, items: seq<Item>, k: nat): (r: seq<Stop>)
    requires k <= |items|
    ensures |r| == |stops|
  {
    if k == 0 then stops else ReplaceFor(AfterReplaces(stops, items, k - 1), items[k - 1])
  }

  /** `originals[i]` is the plan stop that `items[i]` was made from. */
  ghost predicate MadeFrom(items: seq<Item>, originals: seq<Stop>) {
    && |items| == |originals| && Distinct(Sources(items))
    && forall i :: 0 <= i < |items| ==>
         && originals[i].poi.id == items[i].sourceId
         && KeepTask(items[i].stop, originals[i]) == items[i].stop
         && (if items[i].replaced then items[i].stop.poi.id != items[i].sourceId else items[i].stop == originals[i])
  }

  /** No replacement takes the id of a stop that is replaced later. */
  ghost predicate NoCollision(items: seq<Item>) {
    forall i, j :: 0 <= i < j < |items| && items[i].replaced && items[j].replaced ==>
      items[i].stop.poi.id != items[j].sourceId
  }

  function Stops(items: seq<Item>): (r: seq<Stop>)
    ensures |r| == |items| && forall i :: 0 <= i < |r| ==> r[i] == items[i].stop
  {
    if items == [] then [] else [items[0].stop] + Stops(items[1..])
  }

  /** Replacements reach no further than the position being replaced, so the tail is untouched. */
  lemma {:induction false} TailUntouched(items: seq<Item>, originals: seq<Stop>, k: nat)
    requires MadeFrom(items, originals) && k <= |items|
    ensures forall i :: k <= i < |items| ==> AfterReplaces(originals, items, k)[i] == originals[i]
    ensures k < |items| ==> Find(AfterReplaces(originals, items, k), items[k].sourceId) <= k
  {
    if k > 0 {
      TailUntouched(items, originals, k - 1);
    }
  }

  /** The sources still to be replaced are still on the plan, however often an id occurs. */
  lemma {:induction false} SourcesRemain(originals: seq<Stop>, items: seq<Item>, k: nat)
    requires k <= |items| && multiset(Sources(items)) <= multiset(Ids(originals))
    ensures multiset(Sources(items)[k..]) <= multiset(Ids(AfterReplaces(originals, items, k)))
  {
    hide Sources, Ids;
    if k == 0 {
      assert Sources(items)[0..] == Sources(items);
    } else {
      SourcesRemain(originals, items, k - 1);
      var before, id := AfterReplaces(originals, items, k - 1), Sources(items)[k - 1];
      assert Sources(items)[k - 1..] == [id] + Sources(items)[k..];
      assert id in multiset(Ids(before));
      IdFound(before, id);
      OneReplaced(before, items[k - 1]);
    }
  }

  lemma IdFound(stops: seq<Stop>, id: StopId)
    requires id in Ids(stops)
    ensures Find(stops, id) < |stops|
  {
    var i :| 0 <= i < |stops| && Ids(stops)[i] == id;
  }

  /** A replacement takes at most its own source off the plan. */
  lemma OneReplaced(stops: seq<Stop>, item: Item)
    requires Find(stops, item.sourceId) < |stops|
    ensures multiset(Ids(stops)) - multiset{item.sourceId} <= multiset(Ids(ReplaceFor(stops, item)))
  {
    var i := Find(stops, item.sourceId);
    var ids, after := Ids(stops), Ids(ReplaceFor(stops, item));
    assert forall k :: 0 <= k < |ids| && k != i ==> ids[k] == after[k];
    assert ids[i] == item.sourceId;
    hide Ids, Find, ReplaceFor, KeepTask;
    OneDiffers(ids, after, i);
  }

  lemma OneDiffers<T>(a: seq<T>, b: seq<T>, i: nat)
    requires i < |a| == |b| && forall k :: 0 <= k < |a| && k != i ==> a[k] == b[k]
    ensures multiset(a) - multiset{a[i]} <= multiset(b)
  {
    assert Without(a, i) == Without(b, i);
    WithoutMultiset(a, i);
    WithoutMultiset(b, i);
  }

  /** The generated replacements always find their stop. */
  lemma {:induction false} ReplacesRun(d: Draft, items: seq<Item>, originals: seq<Stop>, k: nat)
    requires multiset(Sources(items)) <= multiset(Ids(originals)) && k <= |items|
    ensures Run(d.(stops := AfterReplaces(originals, items, k)), ReplaceOps(items, k))
            == Ok(d.(stops := AfterReplaces(originals, items, |items|)))
    decreases |items| - k
  {
    hide Sources, Ids;
    if k < |items| {
      ReplaceOne(d, items, originals, k);
      hide Run, ReplaceOps, AfterReplaces;
      ReplacesRun(d, items, originals, k + 1);
    }
  }

  /** One position further in the replacement phase. */
  lemma ReplaceOne(d: Draft, items: seq<Item>, originals: seq<Stop>, k: nat)
    requires multiset(Sources(items)) <= multiset(Ids(originals)) && k < |items|
    ensures Run(d.(stops := AfterReplaces(originals, items, k)), ReplaceOps(items, k))
            == Run(d.(stops := AfterReplaces(originals, items, k + 1)), ReplaceOps(items, k + 1))
  {
    hide KeepTask, Sources, Ids;
    var stops := AfterReplaces(originals, items, k);
    SourcesRemain(originals, items, k);
    assert Sources(items)[k..][0] == items[k].sourceId;
    assert items[k].sourceId in multiset(Ids(stops));
    IdFound(stops, items[k].sourceId);
    if items[k].replaced {
      var ops := ReplaceOps(items, k);
      assert ops[0] == ReplaceStop(items[k].sourceId, Some(items[k].stop)) && ops[1..] == ReplaceOps(items, k + 1);
      hide ReplaceOps;
      assert Apply(d.(stops := stops), ops[0]) == Ok(d.(stops := AfterReplaces(originals, items, k + 1)));
    }
  }

  lemma {:induction false} ReplacesReachTarget(items: seq<Item>, originals: seq<Stop>, k: nat)
    requires MadeFrom(items, originals) && NoCollision(items) && k <= |items|
    ensures forall i :: 0 <= i < k ==> AfterReplaces(originals, items, k)[i] == items[i].stop
  {
    if k > 0 {
      ReplacesReachTarget(items, originals, k - 1);
      if items[k - 1].replaced {
        forall i | 0 <= i < k - 1
          ensures items[i].stop.poi.id != items[k - 1].sourceId
        {
          PlacedIdDiffers(items, originals, i, k - 1);
        }
      }
      hide NoCollision, MadeFrom, AfterReplaces;
      PlaceNext(items, originals, k - 1);
    }
  }

  /** Without collisions no chosen stop carries the source id of a stop replaced later. */
  lemma PlacedIdDiffers(items: seq<Item>, originals: seq<Stop>, i: nat, j: nat)
    requires MadeFrom(items, originals) && NoCollision(items) && i < j < |items| && items[j].replaced
    ensures items[i].stop.poi.id != items[j].sourceId
  {
    assert Sources(items)[i] != Sources(items)[j];
  }

  /** A replacement that no earlier position answers to lands on its own position. */
  lemma PlaceNext(items: seq<Item>, originals: seq<Stop>, k: nat)
    requires MadeFrom(items, originals) && k < |items|
    requires forall i :: 0 <= i < k ==> AfterReplaces(originals, items, k)[i] == items[i].stop
    requires items[k].replaced ==> forall i :: 0 <= i < k ==> items[i].stop.poi.id != items[k].sourceId
    ensures forall i :: 0 <= i < k + 1 ==> AfterReplaces(originals, items, k + 1)[i] == items[i].stop
  {
    hide KeepTask;
    TailUntouched(items, originals, k);
  }

  /** A position keeps its stop while no later replacement looks for its id. */
  lemma {:induction false} IdStays(items: seq<Item>, originals: seq<Stop>, k: nat, m: nat, position: nat)
    requires k <= m <= |items| && position < |originals|
    requires forall i :: k <= i < m ==> items[i].sourceId != AfterReplaces(originals, items, k)[position].poi.id
    ensures AfterReplaces(originals, items, m)[position] == AfterReplaces(originals, items, k)[position]
  {
    if k < m {
      IdStays(items, originals, k, m - 1, position);
    }
  }

  lemma SourcesDiffer(items: seq<Item>, originals: seq<Stop>, j: nat)
    requires MadeFrom(items, originals) && j < |items|
    ensures forall a :: 0 <= a < |items| && a != j ==> items[a].sourceId != items[j].sourceId
  {
    var sources := Sources(items);
    assert forall a :: 0 <= a < |items| && a != j ==> sources[a] != sources[j];
  }

  /** After a colliding replacement the search for the later stop ends too early. */
  lemma CollisionHitsEarlier(items: seq<Item>, originals: seq<Stop>, i: nat, j: nat)
    requires MadeFrom(items, originals) && i < j < |items| && items[i].replaced
    requires items[i].stop.poi.id == items[j].sourceId
    ensures Find(AfterReplaces(originals, items, j), items[j].sourceId) < j
  {
    TailUntouched(items, originals, i);
    SourcesDiffer(items, originals, j);
    var before := AfterReplaces(originals, items, i);
    var hit := Find(before, items[i].sourceId);
    var after := AfterReplaces(originals, items, i + 1);
    assert after == before[hit := KeepTask(items[i].stop, before[hit])];
    hide MadeFrom, AfterReplaces, ReplaceFor;
    IdStays(items, originals, i + 1, j, hit);
  }

  /** With a collision the later stop is never replaced: its old id survives. */
  lemma CollisionMissesTarget(items: seq<Item>, originals: seq<Stop>, i: nat, j: nat)
    requires MadeFrom(items, originals) && i < j < |items| && items[i].replaced && items[j].replaced
    requires items[i].stop.poi.id == items[j].sourceId
    ensures AfterReplaces(originals, items, |items|)[j] != items[j].stop
  {
    TailUntouched(items, originals, j);
    CollisionHitsEarlier(items, originals, i, j);
    SourcesDiffer(items, originals, j);
    assert AfterReplaces(originals, items, j + 1)[j] == originals[j];
    assert originals[j].poi.id == items[j].sourceId != items[j].stop.poi.id;
    hide MadeFrom, AfterReplaces, ReplaceFor, Find;
    IdStays(items, originals, j + 1, |items|, j);
  }

  /** The replacement phase produces the chosen stops exactly when no ids collide. */
  lemma ReplacesCorrectIff(items: seq<Item>, originals: seq<Stop>)
    requires MadeFrom(items, originals)
    ensures AfterReplaces(originals, items, |items|) == Stops(items) <==> NoCollision(items)
  {
    if NoCollision(items) {
      ReplacesReachTarget(items, originals, |items|);
    } else {
      var i: nat, j: nat :| i < j < |items| && items[i].replaced && items[j].replaced
                            && items[i].stop.poi.id == items[j].sourceId;
      CollisionMissesTarget(items, originals, i, j);
      assert Stops(items)[j] == items[j].stop;
    }
  }

  // --------------------------------------------------- the script as a whole

  ghost predicate FromPlanStop(item: Item, stops: seq<Stop>, needs: set<StopId>, found: map<StopId, seq<Poi>>) {
    exists b :: b in stops && item == ItemFor(b, needs, found)
  }

  lemma FromTail(item: Item, stops: seq<Stop>, needs: set<StopId>, found: map<StopId, seq<Poi>>)
    requires stops != [] && Distinct(Ids(stops)) && FromPlanStop(item, stops[1..], needs, found)
    ensures FromPlanStop(item, stops, needs, found) && item.sourceId != stops[0].poi.id
  {
    var b :| b in stops[1..] && item == ItemFor(b, needs, found);
    var k :| 0 <= k < |stops[1..]| && stops[1..][k] == b;
    assert Ids(stops)[0] != Ids(stops)[k + 1];
  }

  lemma {:induction false} ActiveFacts(
    stops: seq<Stop>, completed: set<StopId>, needs: set<StopId>, found: map<StopId, seq<Poi>>, drop: bool)
    requires Distinct(Ids(stops))
    ensures var active := Active(stops, completed, needs, found, drop);
            && (forall i :: 0 <= i < |active| ==> FromPlanStop(active[i], stops, needs, found))
            && Distinct(Sources(active))
  {
    hide FromPlanStop, PickReplacement;
    if stops != [] {
      var rest := Active(stops[1..], completed, needs, found, drop);
      assert Ids(stops[1..]) == Ids(stops)[1..];
      ActiveFacts(stops[1..], completed, needs, found, drop);
      forall i | 0 <= i < |rest|
        ensures FromPlanStop(rest[i], stops, needs, found) && rest[i].sourceId != stops[0].poi.id
      {
        FromTail(rest[i], stops, needs, found);
      }
      HeadFromPlan(stops, needs, found);
    }
  }

  lemma HeadFromPlan(stops: seq<Stop>, needs: set<StopId>, found: map<StopId, seq<Poi>>)
    requires stops != []
    ensures FromPlanStop(ItemFor(stops[0], needs, found), stops, needs, found)
  {}

  lemma {:induction false} KeptDependsOnMembership(stops: seq<Stop>, a: seq<StopId>, b: seq<StopId>)
    requires forall i :: 0 <= i < |stops| ==> (stops[i].poi.id in a <==> stops[i].poi.id in b)
    ensures Kept(stops, a) == Kept(stops, b)
  {
    if stops != [] {
      KeptDependsOnMembership(stops[1..], a, b);
    }
  }

  /** Keeping the sources of the active items keeps exactly their stops, in plan order. */
  lemma {:induction false} KeptAreSources(
    stops: seq<Stop>, completed: set<StopId>, needs: set<StopId>, found: map<StopId, seq<Poi>>, drop: bool)
    requires Distinct(Ids(stops))
    ensures var sources := Sources(Active(stops, completed, needs, found, drop));
            Ids(Kept(stops, sources)) == sources
  {
    if stops != [] {
      var ids := Ids(stops);
      var sources, rest := Sources(Active(stops, completed, needs, found, drop)),
                           Sources(Active(stops[1..], completed, needs, found, drop));
      assert Ids(stops[1..]) == ids[1..];
      assert forall i :: 0 <= i < |stops[1..]| ==> stops[1..][i].poi.id == ids[i + 1] && ids[i + 1] != ids[0];
      KeptAreSources(stops[1..], completed, needs, found, drop);
      SourcesAreIds(stops[1..], completed, needs, found, drop);
      assert ids[0] !in rest;
      assert sources == rest || sources == [ids[0]] + rest;
      KeptDependsOnMembership(stops[1..], sources, rest);
    }
  }

  lemma SourcesAreIds(
    stops: seq<Stop>, completed: set<StopId>, needs: set<StopId>, found: map<StopId, seq<Poi>>, drop: bool)
    requires Distinct(Ids(stops))
    ensures forall id :: id in Sources(Active(stops, completed, needs, found, drop)) ==> id in Ids(stops)
  {
    ActiveFacts(stops, completed, needs, found, drop);
    var active := Active(stops, completed, needs, found, drop);
    forall i | 0 <= i < |active|
      ensures active[i].sourceId in Ids(stops)
    {
      var b :| b in stops && active[i] == ItemFor(b, needs, found);
      var k :| 0 <= k < |stops| && stops[k] == b;
      assert Ids(stops)[k] == active[i].sourceId;
    }
  }

  /** With distinct place ids the kept stops are those of the active items, one each. */
  lemma DistinctReady(r: Replan)
    requires Solved(r) && Distinct(Ids(r.base.stops))
    ensures Sorting(Ids(KeptStops(r)), Sources(Chosen(r)), 0)
  {
    hide Active, Kept, Ids, Sources, FromPlanStop, Movable;
    var active, kept, targets := ActiveItems(r), Ids(KeptStops(r)), Sources(Chosen(r));
    ActiveFacts(r.base.stops, r.completed, r.needs, r.found, r.drop);
    KeptAreSources(r.base.stops, r.completed, r.needs, r.found, r.drop);
    ChosenSources(r);
    assert kept[..0] == targets[..0];
    PickedDistinct(Sources(active), r.order);
    assert targets == Picked(Sources(active), r.order);
    assert |kept| == |active| == |targets|;
  }

  lemma PickedDistinct<T>(s: seq<T>, order: seq<nat>)
    requires Distinct(s) && IsPermutation(order, |s|)
    ensures Distinct(Picked(s, order))
  {
    hide Picked;
  }

  lemma {:induction false} KeptComeFrom(stops: seq<Stop>, keep: seq<StopId>)
    ensures forall b :: b in Kept(stops, keep) ==> b in stops
  {
    if stops != [] {
      KeptComeFrom(stops[1..], keep);
    }
  }

  lemma SameIdSameStop(stops: seq<Stop>, a: Stop, b: Stop)
    requires Distinct(Ids(stops)) && a in stops && b in stops && a.poi.id == b.poi.id
    ensures a == b
  {
    var i, j :| 0 <= i < |stops| && stops[i] == a && 0 <= j < |stops| && stops[j] == b;
    assert Ids(stops)[i] == Ids(stops)[j];
  }

  lemma ItemFits(item: Item, stop: Stop, stops: seq<Stop>, needs: set<StopId>, found: map<StopId, seq<Poi>>)
    requires Distinct(Ids(stops)) && stop in stops && FromPlanStop(item, stops, needs, found)
    requires stop.poi.id == item.sourceId
    ensures KeepTask(item.stop, stop) == item.stop
    ensures if item.replaced then item.stop.poi.id != item.sourceId else item.stop == stop
  {
    hide Ids;
    var b :| b in stops && item == ItemFor(b, needs, found);
    SameIdSameStop(stops, stop, b);
  }

  /** After the moves, position i holds the plan stop that the i-th ordered item was made from. */
  lemma SortedStopsMatch(r: Replan, stops: seq<Stop>)
    requires Solved(r) && Distinct(Ids(r.base.stops))
    requires Ids(stops) == Sources(Chosen(r)) && multiset(stops) == multiset(KeptStops(r))
    ensures MadeFrom(Chosen(r), stops)
  {
    hide Ids, Sources;
    var items, ids, active := Chosen(r), Ids(stops), ActiveItems(r);
    assert forall i :: 0 <= i < |items| ==>
        items[i] == active[r.order[i]] && ids[i] == items[i].sourceId == stops[i].poi.id;
    ActiveFacts(r.base.stops, r.completed, r.needs, r.found, r.drop);
    DistinctReady(r);
    KeptComeFrom(r.base.stops, Sources(active));
    hide Active, Kept, FromPlanStop, KeepTask;
    forall i | 0 <= i < |items|
      ensures KeepTask(items[i].stop, stops[i]) == items[i].stop
      ensures if items[i].replaced then items[i].stop.poi.id != items[i].sourceId else items[i].stop == stops[i]
    {
      assert stops[i] in multiset(stops);
      ItemFits(items[i], stops[i], r.base.stops, r.needs, r.found);
    }
  }

  function NewDeparture(base: Draft, now: real): real {
    if MaxReal(now - base.departure, base.departure - now) >= 60.0 then now else base.departure
  }

  /** What the solver asked for: the chosen stops in solver order, with the new mode and departure. */
  function Target(r: Replan): Draft
    requires Solved(r)
  {
    Draft(Stops(Chosen(r)), r.mode, NewDeparture(r.base, r.now))
  }

  lemma SettingsRun(d: Draft, base: Draft, mode: Mode, now: real)
    requires d.mode == base.mode && d.departure == base.departure
    ensures Run(d, SettingOps(base, mode, now)) == Ok(d.(mode := mode, departure := NewDeparture(base, now)))
  {
    var a := if mode != base.mode then [ChangeMode(Some(mode))] else [];
    var b := if MaxReal(now - base.departure, base.departure - now) >= 60.0 then [ChangeDeparture(Some(now))] else [];
    RunConcat(d, a, b);
    assert Run(d, a) == Ok(d.(mode := mode));
  }

  /** Removals and moves bring the kept stops, and nothing else, into some order; with distinct
      place ids into the solver's. */
  lemma RemoveAndMoveRun(r: Replan) returns (originals: seq<Stop>)
    requires Solved(r) && Movable(Ids(KeptStops(r)), Sources(Chosen(r)), 0)
    ensures multiset(originals) == multiset(KeptStops(r))
    ensures Distinct(Ids(r.base.stops)) ==> MadeFrom(Chosen(r), originals)
    ensures Run(r.base, RemoveOps(r.base.stops, Sources(ActiveItems(r)))
            + MoveOps(Ids(KeptStops(r)), Sources(Chosen(r)), 0))
            == Ok(r.base.(stops := originals))
  {
    hide Run, MoveOps, RemoveOps, Kept, MadeFrom, Sources, Ids, Active, Chosen, Distinct;
    var keep, targets := Sources(ActiveItems(r)), Sources(Chosen(r));
    var kept := r.base.(stops := KeptStops(r));
    assert [] + r.base.stops == r.base.stops && [] + kept.stops == kept.stops;
    RemovesKeep(r.base, [], r.base.stops, keep);
    originals := MovesSort(kept, targets, 0);
    if Distinct(Ids(r.base.stops)) {
      DistinctReady(r);
      SortedStopsMatch(r, originals);
    }
    RunThrough(r.base, RemoveOps(r.base.stops, keep), kept, MoveOps(Ids(kept.stops), targets, 0));
  }

  lemma {:induction false} IdsMultiset(a: seq<Stop>, b: seq<Stop>)
    requires multiset(a) == multiset(b)
    ensures multiset(Ids(a)) == multiset(Ids(b))
    decreases |a|
  {
    assert |multiset(a)| == |a| && |multiset(b)| == |b|;
    if a != [] {
      var p := HeadFound(a, b);
      IdsWithout(b, p);
      assert Ids(a) == [a[0].poi.id] + Ids(a[1..]);
      hide Ids, Without;
      IdsMultiset(a[1..], Without(b, p));
      WithoutMultiset(Ids(b), p);
    }
  }

  lemma IdsWithout(stops: seq<Stop>, i: nat)
    requires i < |stops|
    ensures Ids(Without(stops, i)) == Without(Ids(stops), i)
  {
    var ids, rest, after := Ids(stops), Without(stops, i), Ids(Without(stops, i));
    forall k | 0 <= k < |rest|
      ensures after[k] == Without(ids, i)[k]
    {
      assert rest[k] == stops[if k < i then k else k + 1];
    }
    hide Ids;
  }

  /** The state after all phases, whatever the ids are. */
  lemma ScriptRuns(r: Replan) returns (originals: seq<Stop>)
    requires Solved(r)
    ensures multiset(originals) == multiset(KeptStops(r))
    ensures Distinct(Ids(r.base.stops)) ==> MadeFrom(Chosen(r), originals)
    ensures Run(r.base, Compile(r)) == Ok(Target(r).(stops := AfterReplaces(originals, Chosen(r), |r.order|)))
  {
    hide Run, Active, AfterReplaces, MoveOps, RemoveOps, ReplaceOps, SettingOps, Kept, MadeFrom, Sources, Ids, Distinct;
    var items, keep := Chosen(r), Sources(ActiveItems(r));
    TargetsMovable(r);
    originals := RemoveAndMoveRun(r);
    ChosenSources(r);
    IdsMultiset(originals, KeptStops(r));
    var prefix := RemoveOps(r.base.stops, keep) + MoveOps(Ids(KeptStops(r)), Sources(items), 0);
    var moved := r.base.(stops := originals);
    AfterNone(originals, items);
    ReplacesRun(moved, items, originals, 0);
    var replaced := r.base.(stops := AfterReplaces(originals, items, |items|));
    SettingsRun(replaced, r.base, r.mode, r.now);
    RunThrough(r.base, prefix, moved, ReplaceOps(items, 0));
    RunThrough(r.base, prefix + ReplaceOps(items, 0), replaced, SettingOps(r.base, r.mode, r.now));
  }

  lemma RunThrough(d: Draft, a: seq<Operation>, mid: Draft, b: seq<Operation>)
    requires Run(d, a) == Ok(mid)
    ensures Run(d, a + b) == Run(mid, b)
  {
    hide Run;
    RunConcat(d, a, b);
  }

  lemma AfterNone(originals: seq<Stop>, items: seq<Item>)
    ensures AfterReplaces(originals, items, 0) == originals
  {}

  /** The generated script never fails. For a plan with distinct place ids it produces exactly the
      requested plan if and only if no replacement place is also the old place of a stop replaced
      later in the new order. */
  lemma CompiledScriptIsCorrect(r: Replan)
    requires Solved(r)
    ensures Run(r.base, Compile(r)).Ok?
    ensures Distinct(Ids(r.base.stops)) ==> (Run(r.base, Compile(r)) == Ok(Target(r)) <==> NoCollision(Chosen(r)))
  {
    hide Run, Compile, NoCollision, Active, Kept, Distinct, Ids, MadeFrom, AfterReplaces;
    var originals := ScriptRuns(r);
    if Distinct(Ids(r.base.stops)) {
      ReplacesCorrectIff(Chosen(r), originals);
    }
  }

  // ------------------------------------------------------ proposing a replan

  /** One solved alternative: a transport mode, whether optional stops are dropped, the solver's order. */
  datatype Alternative = Alternative(mode: Mode, drop: bool, feasible: bool, seconds: real, order: seq<nat>)

  /** A pending patch of the trip's run and version, and the event it answers. */
  datatype PendingRow = PendingRow(patch: nat, sourceEvent: Option<nat>)

  datatype Proposal =
    | BudgetExceeded
    | VersionMissing
    | Deduplicated(patch: nat)
    | NoRemainingStops
    | NoFeasibleReplan
    | PlanStillFeasible
    | PendingPatch(operations: seq<Operation>, chosen: Alternative)

  predicate Stays(o: Alternative, baseMode: Mode) {
    o.feasible && o.mode == baseMode && !o.drop
  }

  /** Stay with the current mode and all stops when that is feasible, unless a switch is asked for;
      otherwise the fastest feasible alternative. */
  ghost predicate RightChoice(options: seq<Alternative>, baseMode: Mode, switchRequested: bool, chosen: Alternative) {
    && chosen in options && chosen.feasible
    && if !switchRequested && exists i :: 0 <= i < |options| && Stays(options[i], baseMode) then Stays(chosen, baseMode)
       else forall i :: 0 <= i < |options| && options[i].feasible ==> chosen.seconds <= options[i].seconds
  }

  method ChooseAlternative(options: seq<Alternative>, baseMode: Mode, switchRequested: bool)
      returns (chosen: Option<Alternative>)
    ensures chosen.None? <==> forall i :: 0 <= i < |options| ==> !options[i].feasible
    ensures chosen.Some? ==> RightChoice(options, baseMode, switchRequested, chosen.value)
  {
    var preferred, fastest := None, None;
    for k := 0 to |options|
      invariant fastest.None? <==> forall i :: 0 <= i < k ==> !options[i].feasible
      invariant fastest.Some? ==> fastest.value in options && fastest.value.feasible
      invariant fastest.Some? ==> forall i :: 0 <= i < k && options[i].feasible ==>
              fastest.value.seconds <= options[i].seconds
      invariant preferred.None? <==> forall i :: 0 <= i < k ==> !Stays(options[i], baseMode)
      invariant preferred.Some? ==> preferred.value in options && Stays(preferred.value, baseMode)
    {
      var o := options[k];
      if preferred.None? && Stays(o, baseMode) { preferred := Some(o); }
      if o.feasible && (fastest.None? || o.seconds < fastest.value.seconds) { fastest := Some(o); }
    }
    chosen := if switchRequested || preferred.None? then fastest else preferred;
  }

  /** Removals for the dropped stops, and the ids that stay in `working`. */
  method CompileRemovals(stops: seq<Stop>, keep: seq<StopId>) returns (operations: seq<Operation>, working: seq<StopId>)
    ensures operations == RemoveOps(stops, keep) && working == Ids(Kept(stops, keep))
  {
    hide RemoveOps, Kept, Ids;
    operations, working := [], [];
    NoStops(stops, keep);
    for i := 0 to |stops|
      invariant operations + RemoveOps(stops[i..], keep) == RemoveOps(stops, keep)
      invariant working + Ids(Kept(stops[i..], keep)) == Ids(Kept(stops, keep))
    {
      var id := stops[i].poi.id;
      NextStop(stops, i, keep);
      if id in keep {
        working := working + [id];
      } else {
        operations := operations + [RemoveStop(id)];
      }
    }
  }

  /** Sorts `ids` into the target order, recording each move. */
  method CompileMoves(ids: seq<StopId>, targets: seq<StopId>) returns (operations: seq<Operation>)
    requires Movable(ids, targets, 0)
    ensures operations == MoveOps(ids, targets, 0)
  {
    hide Move;
    var working := ids;
    operations := [];
    for k := 0 to |targets|
      invariant Movable(working, targets, k)
      invariant operations + MoveOps(working, targets, k) == MoveOps(ids, targets, 0)
    {
      var source := IndexOf(working, targets[k]);
      if source != k {
        operations := operations + [MoveStop(source, k)];
        StillMovable(working, targets, k);
        working := Move(working, source, k);
      }
    }
  }

  method CompileReplacements(ordered: seq<Item>) returns (operations: seq<Operation>)
    ensures operations == ReplaceOps(ordered, 0)
  {
    operations := [];
    for k := 0 to |ordered|
      invariant operations + ReplaceOps(ordered, k) == ReplaceOps(ordered, 0)
    {
      if ordered[k].replaced {
        operations := operations + [ReplaceStop(ordered[k].sourceId, Some(ordered[k].stop))];
      }
    }
  }

  method CompilePatch(r: Replan) returns (operations: seq<Operation>)
    requires Solved(r)
    ensures operations == Compile(r)
  {
    hide Kept, Ids, RemoveOps, MoveOps, ReplaceOps, SettingOps, Sources, Active;
    TargetsMovable(r);
    var ordered, keep := Chosen(r), Sources(ActiveItems(r));
    var removes, working := CompileRemovals(r.base.stops, keep);
    var moves := CompileMoves(working, Sources(ordered));
    var swaps := CompileReplacements(ordered);
    operations := removes + moves + swaps + SettingOps(r.base, r.mode, r.now);
  }

  lemma NextStop(stops: seq<Stop>, i: nat, keep: seq<StopId>)
    requires i < |stops|
    ensures var id := stops[i].poi.id;
            && RemoveOps(stops[i..], keep) == (if id in keep then [] else [RemoveStop(id)])
                 + RemoveOps(stops[i + 1..], keep)
            && Ids(Kept(stops[i..], keep)) == (if id in keep then [id] else []) + Ids(Kept(stops[i + 1..], keep))
  {
    assert stops[i..][0] == stops[i] && stops[i..][1..] == stops[i + 1..];
  }

  lemma NoStops(stops: seq<Stop>, keep: seq<StopId>)
    ensures RemoveOps(stops[|stops|..], keep) == [] && Ids(Kept(stops[|stops|..], keep)) == []
    ensures stops[0..] == stops
  {}

  /** The replan that an alternative stands for. */
  function ReplanOf(
    base: Draft, completed: set<StopId>, needs: set<StopId>, found: map<StopId, seq<Poi>>, o: Alternative,
        now: real): Replan
  {
    Replan(base, completed, needs, found, o.drop, o.order, o.mode, now)
  }

  /** The script is empty, which for distinct place ids means that the solver's plan is the plan. */
  ghost predicate NothingToDo(r: Replan) {
    Solved(r) && Compile(r) == [] && (Distinct(Ids(r.base.stops)) ==> Target(r) == r.base)
  }

  /** The script is not empty and runs; with distinct place ids it reaches the solver's plan exactly
      when no ids collide. */
  ghost predicate SomethingToDo(r: Replan, operations: seq<Operation>) {
    && Solved(r) && operations == Compile(r) && operations != [] && Run(r.base, operations).Ok?
    && (Distinct(Ids(r.base.stops)) ==> (Run(r.base, operations) == Ok(Target(r)) <==> NoCollision(Chosen(r))))
  }

  /** This pending patch is the first one that answers the event. */
  predicate AnsweredBy(pending: seq<PendingRow>, sourceEvent: Option<nat>, i: nat) {
    && i < |pending| && sourceEvent.Some? && pending[i].sourceEvent == sourceEvent
    && forall j :: 0 <= j < i ==> pending[j].sourceEvent != sourceEvent
  }

  method FindAnswer(pending: seq<PendingRow>, sourceEvent: Option<nat>) returns (answer: Option<nat>)
    ensures answer.Some? <==> sourceEvent.Some? && exists i ::
            0 <= i < |pending| && pending[i].sourceEvent == sourceEvent
    ensures answer.Some? ==> exists i: nat :: AnsweredBy(pending, sourceEvent, i) && pending[i].patch == answer.value
  {
    if sourceEvent.None? { return None; }
    for i := 0 to |pending|
      invariant forall j :: 0 <= j < i ==> pending[j].sourceEvent != sourceEvent
    {
      if pending[i].sourceEvent == sourceEvent {
        assert AnsweredBy(pending, sourceEvent, i);
        return Some(pending[i].patch);
      }
    }
    answer := None;
  }

  /** The trip may still be replanned, its plan exists and no pending patch answers the event. */
  ghost predicate Replans(count: nat, limit: nat, version: Option<Draft>, pending: seq<PendingRow>,
      sourceEvent: Option<nat>)
  {
    count < limit && version.Some? && forall i :: 0 <= i < |pending| ==>
      sourceEvent.None? || pending[i].sourceEvent != sourceEvent
  }

  /** `count` replans of at most `limit` were stored for the trip before, `version` is its current
      plan, `options` are the solver's answers, each over the active stops it was asked about. */
  method CreatePendingReplan(
    count: nat, limit: nat, version: Option<Draft>, pending: seq<PendingRow>, sourceEvent: Option<nat>,
    completed: set<StopId>, needs: set<StopId>, found: map<StopId, seq<Poi>>, options: seq<Alternative>,
    switchRequested: bool, now: real) returns (r: Proposal, newCount: nat)
    requires version.Some? ==>
               forall o :: o in options ==> Solved(ReplanOf(version.value, completed, needs, found, o, now))
    ensures r.BudgetExceeded? <==> count >= limit
    ensures r.VersionMissing? <==> count < limit && version.None?
    ensures r.Deduplicated? ==> exists i: nat :: AnsweredBy(pending, sourceEvent, i) && pending[i].patch == r.patch
    ensures r.BudgetExceeded? || r.VersionMissing? || r.Deduplicated? <==>
            !Replans(count, limit, version, pending, sourceEvent)
    ensures r.NoRemainingStops? <==>
            Replans(count, limit, version, pending, sourceEvent)
            && Active(version.value.stops, completed, needs, found, false) == []
    ensures r.NoFeasibleReplan? <==>
            Replans(count, limit, version, pending, sourceEvent)
            && !r.NoRemainingStops? && forall i :: 0 <= i < |options| ==> !options[i].feasible
    ensures r.PendingPatch? ==>
            && version.Some? && RightChoice(options, version.value.mode, switchRequested, r.chosen)
            && SomethingToDo(ReplanOf(version.value, completed, needs, found, r.chosen, now), r.operations)
    ensures r.PlanStillFeasible? ==>
            version.Some? && exists o :: RightChoice(options, version.value.mode, switchRequested, o)
                                         && NothingToDo(ReplanOf(version.value, completed, needs, found, o, now))
    ensures newCount == if r.PendingPatch? then count + 1 else count
  {
    hide Active, Run, Target, Compile, Kept, Sources, Ids, Distinct, Chosen, NoCollision, RightChoice, AnsweredBy;
    newCount := count;
    if count >= limit { return BudgetExceeded, count; }
    if version.None? { return VersionMissing, count; }
    var base := version.value;
    var answer := FindAnswer(pending, sourceEvent);
    if answer.Some? { return Deduplicated(answer.value), count; }
    if Active(base.stops, completed, needs, found, false) == [] {
      return NoRemainingStops, count;
    }
    var chosen := ChooseAlternative(options, base.mode, switchRequested);
    if chosen.None? {
      return NoFeasibleReplan, count;
    }
    ChoiceIsOption(options, base.mode, switchRequested, chosen.value);
    var plan := ReplanOf(base, completed, needs, found, chosen.value, now);
    CompiledScriptIsCorrect(plan);
    var operations := CompilePatch(plan);
    if operations == [] {
      if Distinct(Ids(base.stops)) {
        EmptyScriptChangesNothing(plan);
      }
      return PlanStillFeasible, count;
    }
    r, newCount := PendingPatch(operations, chosen.value), count + 1;
  }

  lemma ChoiceIsOption(options: seq<Alternative>, baseMode: Mode, switchRequested: bool, chosen: Alternative)
    requires RightChoice(options, baseMode, switchRequested, chosen)
    ensures chosen in options && chosen.feasible
  {}

  /** An empty script means the solver's plan is the current plan. */
  lemma EmptyScriptChangesNothing(r: Replan)
    requires Solved(r) && Distinct(Ids(r.base.stops)) && Compile(r) == []
    ensures Target(r) == r.base
  {
    hide Target, Active, Kept, Sources, Ids, RemoveOps, MoveOps, SettingOps, Distinct, Chosen;
    CompiledScriptIsCorrect(r);
    NoReplaceOps(Chosen(r), 0);
  }

  lemma {:induction false} NoReplaceOps(items: seq<Item>, k: nat)
    requires k <= |items| && ReplaceOps(items, k) == []
    ensures forall i :: k <= i < |items| ==> !items[i].replaced
    decreases |items| - k
  {
    if k < |items| {
      NoReplaceOps(items, k + 1);
    }
  }

  // A closed cafe (place 1) is re-homed to place 2, which is the old place of the closed museum
  // behind it; the museum itself moves to place 3.
  function Place(id: StopId): Poi { Poi(id, true, None, 1.0, None, None, None, None) }

  const ANY_TASK := Task(0, None, None, None, None, true, None, None, true, false)

  const COLLIDING_PLAN := Draft([Stop(Place(1), 0, ANY_TASK, 0), Stop(Place(2), 1, ANY_TASK, 0)], Walking, 0.0)

  const OFFERS: map<StopId, seq<Poi>> := map[1 := [Place(1), Place(2)], 2 := [Place(3)]]

  const COLLIDING_REPLAN := Replan(COLLIDING_PLAN, {}, {1, 2}, OFFERS, false, [0, 1], Walking, 0.0)

  /** The failing case exists: place ids offered by the provider may collide with later stops. */
  lemma CollisionHappens()
    ensures Solved(COLLIDING_REPLAN) && Distinct(Ids(COLLIDING_PLAN.stops)) && !NoCollision(Chosen(COLLIDING_REPLAN))
  {
    var a, b := COLLIDING_PLAN.stops[0], COLLIDING_PLAN.stops[1];
    var first, second := ItemFor(a, {1, 2}, OFFERS), ItemFor(b, {1, 2}, OFFERS);
    assert PickReplacement(OFFERS[1], 1) == PickReplacement(OFFERS[1][1..], 1) == Some(Place(2));
    assert PickReplacement(OFFERS[2], 2) == Some(Place(3));
    assert first.replaced && second.replaced && first.stop.poi.id == second.sourceId;
    assert Active([b], {}, {1, 2}, OFFERS, false) == [second] by { assert [b][1..] == []; }
    assert COLLIDING_PLAN.stops[1..] == [b];
    assert ActiveItems(COLLIDING_REPLAN) == [first, second];
    var ordered := Chosen(COLLIDING_REPLAN);
    assert ordered[0] == first && ordered[1] == second;
    assert Ids(COLLIDING_PLAN.stops)[0] == 1 && Ids(COLLIDING_PLAN.stops)[1] == 2;
  }
}
