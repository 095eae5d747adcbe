/** What the deterministic critic objects to in a patch, and when it objects to a generated one
    (dynamic_replanning.py, replanning.py). */
module PatchCritic {
  import opened Basics
  import opened Enumeration
  import opened PlanPatch
  import opened PatchValidation

  /** The parts of a patch's impact record that the critic reads. */
  datatype Impact = Impact(
    completed: set<StopId>,
    reportedConflicts: nat,
    beforeVersion: Option<int>,
    beforeCost: real,
    afterCost: real)

  /** Whether removing this stop drops an open obligation; an unknown stop counts as required.
      When several stops share an id the last one decides, as a dictionary build does. */
  predicate RemovalForbidden(stops: seq<Stop>, completed: set<StopId>, id: StopId) {
    id !in completed && LastRequired(stops, id)
  }

  predicate LastRequired(stops: seq<Stop>, id: StopId) {
    if stops == [] then true
    else if stops[|stops| - 1].poi.id == id then stops[|stops| - 1].task.required
    else LastRequired(stops[..|stops| - 1], id)
  }

  predicate EvidenceMissing(replacement: Option<Stop>) {
    replacement.None? || !replacement.value.poi.sourced
  }

  predicate Blocks(op: Operation, stops: seq<Stop>, completed: set<StopId>) {
    || (op.RemoveStop? && RemovalForbidden(stops, completed, op.stopId))
    || (op.ReplaceStop? && EvidenceMissing(op.replacement))
  }

  predicate SomeBlocks(operations: seq<Operation>, stops: seq<Stop>, completed: set<StopId>) {
    exists i :: 0 <= i < |operations| && Blocks(operations[i], stops, completed)
  }

  predicate BaseMismatch(impact: Impact, baseVersion: int) {
    impact.beforeVersion.Some? && impact.beforeVersion.value != baseVersion
  }

  /** The critic's grounds for blocking. */
  predicate Objects(stops: seq<Stop>, baseVersion: int, impact: Impact, operations: seq<Operation>) {
    || impact.reportedConflicts > 0
    || BaseMismatch(impact, baseVersion)
    || SomeBlocks(operations, stops, impact.completed)
  }

  // ------------------------------------------------------ generated patches

  /** The impact record stored with a generated script; only feasible answers are stored, and
      those report no conflict. */
  function GeneratedImpact(r: Replan, version: nat): Impact
    requires Solved(r)
  {
    Impact(r.completed, 0, Some(version), CostOf(r.base.stops), CostOf(Stops(Chosen(r))))
  }

  /** Some stop is re-homed to a place of unknown source. */
  ghost predicate Unsourced(items: seq<Item>) {
    exists i :: 0 <= i < |items| && items[i].replaced && !items[i].stop.poi.sourced
  }

  lemma SomeBlocksConcat(a: seq<Operation>, b: seq<Operation>, stops: seq<Stop>, completed: set<StopId>)
    ensures SomeBlocks(a + b, stops, completed) <==> SomeBlocks(a, stops, completed) || SomeBlocks(b, stops, completed)
  {
    hide Blocks;
    var all := a + b;
    assert forall i :: 0 <= i < |a| ==> all[i] == a[i];
    assert forall i :: 0 <= i < |b| ==> all[|a| + i] == b[i];
    if SomeBlocks(all, stops, completed) {
      var i :| 0 <= i < |all| && Blocks(all[i], stops, completed);
      assert i >= |a| ==> all[i] == b[i - |a|];
    }
  }

  /** A stop that is neither completed nor dropped keeps its id on the plan. */
  lemma {:induction false} OpenStopIsActive(
    stops: seq<Stop>, completed: set<StopId>, needs: set<StopId>, found: map<StopId, seq<Poi>>, drop: bool, k: nat)
    requires k < |stops| && stops[k].poi.id !in completed && (drop ==> stops[k].task.required)
    ensures stops[k].poi.id in Sources(Active(stops, completed, needs, found, drop))
  {
    var active := Active(stops, completed, needs, found, drop);
    if k == 0 {
      assert Sources(active)[0] == stops[0].poi.id;
    } else {
      var rest := Active(stops[1..], completed, needs, found, drop);
      OpenStopIsActive(stops[1..], completed, needs, found, drop, k - 1);
      var i :| 0 <= i < |rest| && Sources(rest)[i] == stops[k].poi.id;
      hide Sources, Active, ItemFor;
      assert active == rest || active[1..] == rest;
      assert Sources(active)[if active == rest then i else i + 1] == stops[k].poi.id;
    }
  }

  lemma {:induction false} NotLastRequired(stops: seq<Stop>, id: StopId)
    requires exists k :: 0 <= k < |stops| && stops[k].poi.id == id
    requires forall k :: 0 <= k < |stops| && stops[k].poi.id == id ==> !stops[k].task.required
    ensures !LastRequired(stops, id)
  {
    var last := |stops| - 1;
    if stops[last].poi.id != id {
      var k :| 0 <= k < |stops| && stops[k].poi.id == id;
      assert stops[..last][k] == stops[k];
      NotLastRequired(stops[..last], id);
    }
  }

  lemma {:induction false} RemoveOpsMeaning(stops: seq<Stop>, keep: seq<StopId>, i: nat) returns (k: nat)
    requires i < |RemoveOps(stops, keep)|
    ensures k < |stops| && stops[k].poi.id !in keep && RemoveOps(stops, keep)[i] == RemoveStop(stops[k].poi.id)
  {
    if stops[0].poi.id in keep {
      k := RemoveOpsMeaning(stops[1..], keep, i);
      k := k + 1;
    } else if i == 0 {
      k := 0;
    } else {
      k := RemoveOpsMeaning(stops[1..], keep, i - 1);
      k := k + 1;
    }
  }

  /** No generated removal drops an open obligation, place ids shared by stops included. */
  lemma RemovalsPass(r: Replan)
    ensures !SomeBlocks(RemoveOps(r.base.stops, Sources(ActiveItems(r))), r.base.stops, r.completed)
  {
    hide Active, Sources, RemoveOps, LastRequired;
    var (stops, keep) := (r.base.stops, Sources(ActiveItems(r)));
    var operations := RemoveOps(stops, keep);
    forall i | 0 <= i < |operations|
      ensures !Blocks(operations[i], stops, r.completed)
    {
      var k := RemoveOpsMeaning(stops, keep, i);
      var id := stops[k].poi.id;
      if id !in r.completed {
        forall j | 0 <= j < |stops| && stops[j].poi.id == id
          ensures !stops[j].task.required
        {
          if stops[j].task.required {
            OpenStopIsActive(stops, r.completed, r.needs, r.found, r.drop, j);
          }
        }
        NotLastRequired(stops, id);
      }
    }
  }

  lemma {:induction false} MovesPass(working: seq<StopId>, targets: seq<StopId>, k: nat, stops: seq<Stop>,
      completed: set<StopId>)
    requires Movable(working, targets, k)
    ensures !SomeBlocks(MoveOps(working, targets, k), stops, completed)
    decreases |targets| - k
  {
    hide Move;
    if k < |targets| {
      var source := IndexOf(working, targets[k]);
      if source == k {
        StaysInPlace(working, targets, k);
        MovesPass(working, targets, k + 1, stops, completed);
      } else {
        StillMovable(working, targets, k);
        var more := MoveOps(Move(working, source, k), targets, k + 1);
        MovesPass(Move(working, source, k), targets, k + 1, stops, completed);
        assert MoveOps(working, targets, k) == [MoveStop(source, k)] + more;
        hide MoveOps;
        SomeBlocksConcat([MoveStop(source, k)], more, stops, completed);
      }
    }
  }

  /** A generated replacement is blocked exactly when its place has no source. */
  lemma {:induction false} ReplacementsBlockedIff(items: seq<Item>, k: nat, stops: seq<Stop>, completed: set<StopId>)
    requires k <= |items|
    ensures SomeBlocks(ReplaceOps(items, k), stops, completed) <==> Unsourced(items[k..])
    decreases |items| - k
  {
    hide RemovalForbidden;
    if k < |items| {
      var more := ReplaceOps(items, k + 1);
      ReplacementsBlockedIff(items, k + 1, stops, completed);
      var first := if items[k].replaced then [ReplaceStop(items[k].sourceId, Some(items[k].stop))] else [];
      assert ReplaceOps(items, k) == first + more;
      hide ReplaceOps;
      SomeBlocksConcat(first, more, stops, completed);
      UnsourcedFrom(items, k);
      assert items[k].replaced ==> first[0] == ReplaceStop(items[k].sourceId, Some(items[k].stop));
    }
  }

  lemma UnsourcedFrom(items: seq<Item>, k: nat)
    requires k < |items|
    ensures Unsourced(items[k..]) <==> (items[k].replaced && !items[k].stop.poi.sourced) || Unsourced(items[k + 1..])
  {
    var all, rest := items[k..], items[k + 1..];
    assert all[0] == items[k] && forall i :: 0 <= i < |rest| ==> all[i + 1] == rest[i];
    if Unsourced(all) {
      var i :| 0 <= i < |all| && all[i].replaced && !all[i].stop.poi.sourced;
      assert i > 0 ==> all[i] == rest[i - 1];
    }
  }

  /** Reviewed against its own base, a generated script is blocked if and only if one of the chosen
      replacement places has no source: its removals, moves and settings never block it. */
  lemma GeneratedBlockedIff(r: Replan, version: nat)
    requires Solved(r)
    ensures Objects(r.base.stops, version, GeneratedImpact(r, version), Compile(r)) <==> Unsourced(Chosen(r))
  {
    hide Active, Kept, Ids, Sources, Chosen, Blocks, SomeBlocks, RemoveOps, MoveOps, ReplaceOps, SettingOps, CostOf;
    TargetsMovable(r);
    var (stops, items) := (r.base.stops, Chosen(r));
    var removes := RemoveOps(stops, Sources(ActiveItems(r)));
    var moves := MoveOps(Ids(KeptStops(r)), Sources(items), 0);
    RemovalsPass(r);
    MovesPass(Ids(KeptStops(r)), Sources(items), 0, stops, r.completed);
    ReplacementsBlockedIff(items, 0, stops, r.completed);
    assert items[0..] == items;
    SettingsPass(r, stops);
    SomeBlocksConcat(removes, moves, stops, r.completed);
    SomeBlocksConcat(removes + moves, ReplaceOps(items, 0), stops, r.completed);
    SomeBlocksConcat(removes + moves + ReplaceOps(items, 0), SettingOps(r.base, r.mode, r.now), stops, r.completed);
  }

  lemma SettingsPass(r: Replan, stops: seq<Stop>)
    ensures !SomeBlocks(SettingOps(r.base, r.mode, r.now), stops, r.completed)
  {}

  /** A repeated review of the same event sees no operations, so only the version can be objected to. */
  lemma RepeatedReviewBlockedIff(r: Replan, version: nat, baseVersion: nat, stops: seq<Stop>)
    requires Solved(r)
    ensures Objects(stops, baseVersion, GeneratedImpact(r, version), []) <==> baseVersion != version
  {
    hide CostOf, Chosen, Blocks;
  }
}
