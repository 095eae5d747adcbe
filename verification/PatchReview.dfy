/** The deterministic critic of generated patches and the auto-apply decision (dynamic_replanning.py). */
module PatchReview {
  import opened Basics
  import opened RouteEvaluation
  import opened PlanPatch
  import opened PatchValidation
  import opened PatchCritic
  import VersionChain

  datatype Note =
    | ConstraintConflict | VersionMismatch | RequiredStopRemoval | ReplacementEvidenceMissing
    | TransportModeChanged | MaterialCostIncrease | ChecksPassed

  datatype Verdict = Blocked | ApprovedWithWarnings | Approved

  datatype Risk = Low | Medium | High | Critical

  datatype Review = Review(verdict: Verdict, risk: Risk, requiresConfirmation: bool, notes: seq<Note>)

  function Rank(op: Operation): nat {
    match op
    case RemoveStop(_) => 2
    case ReplaceStop(_, _) => 2
    case ChangeMode(_) => 2
    case ChangeDeparture(_) => 1
    case MoveStop(_, _) => 0
  }

  /** The findings raised by the first `k` operations, in script order. */
  function ScriptNotes(stops: seq<Stop>, completed: set<StopId>, operations: seq<Operation>, k: nat): seq<Note>
    requires k <= |operations|
  {
    if k == 0 then []
    else
      var op := operations[k - 1];
      ScriptNotes(stops, completed, operations, k - 1)
      + (if op.ChangeMode? then [TransportModeChanged]
         else if !Blocks(op, stops, completed) then []
         else if op.RemoveStop? then [RequiredStopRemoval] else [ReplacementEvidenceMissing])
  }

  /** All findings: reported conflicts, version mismatch, the script's, and the cost. */
  function Findings(baseStops: seq<Stop>, baseVersion: int, impact: Impact, operations: seq<Operation>): seq<Note> {
    (if impact.reportedConflicts > 0 then [ConstraintConflict] else [])
    + (if BaseMismatch(impact, baseVersion) then [VersionMismatch] else [])
    + ScriptNotes(baseStops, impact.completed, operations, |operations|)
    + (if impact.afterCost > CostAllowance(impact.beforeCost) then [MaterialCostIncrease] else [])
  }

  lemma {:induction false} ScriptNotesMeaning(stops: seq<Stop>, completed: set<StopId>, operations: seq<Operation>,
      k: nat)
    requires k <= |operations|
    ensures var notes := ScriptNotes(stops, completed, operations, k);
            && (RequiredStopRemoval in notes <==>
                exists i :: 0 <= i < k && operations[i].RemoveStop? && Blocks(operations[i], stops, completed))
            && (ReplacementEvidenceMissing in notes <==>
                exists i :: 0 <= i < k && operations[i].ReplaceStop? && Blocks(operations[i], stops, completed))
            && (TransportModeChanged in notes <==> exists i :: 0 <= i < k && operations[i].ChangeMode?)
            && !(ConstraintConflict in notes || VersionMismatch in notes || MaterialCostIncrease in notes
                 || ChecksPassed in notes)
  {
    hide Blocks;
    if k > 0 {
      ScriptNotesMeaning(stops, completed, operations, k - 1);
      assert Blocks(operations[k - 1], stops, completed) ==>
          operations[k - 1].RemoveStop? || operations[k - 1].ReplaceStop? by {
        BlocksKinds(operations[k - 1], stops, completed);
      }
    }
  }

  lemma BlocksKinds(op: Operation, stops: seq<Stop>, completed: set<StopId>)
    ensures Blocks(op, stops, completed) ==> op.RemoveStop? || op.ReplaceStop?
  {}

  /** The review blocks exactly when one of the four blocking findings is raised. */
  lemma BlockedIffFound(baseStops: seq<Stop>, baseVersion: int, impact: Impact, operations: seq<Operation>)
    ensures var notes := Findings(baseStops, baseVersion, impact, operations);
            (ConstraintConflict in notes || VersionMismatch in notes || RequiredStopRemoval in notes
             || ReplacementEvidenceMissing in notes) <==>
            Objects(baseStops, baseVersion, impact, operations)
  {
    hide Blocks, BaseMismatch, ScriptNotes, CostAllowance;
    ScriptNotesMeaning(baseStops, impact.completed, operations, |operations|);
    forall i | 0 <= i < |operations| && Blocks(operations[i], baseStops, impact.completed)
      ensures operations[i].RemoveStop? || operations[i].ReplaceStop?
    {
      BlocksKinds(operations[i], baseStops, impact.completed);
    }
  }

  function CostAllowance(before: real): real { before + MaxReal(20.0, before * 0.1) }

  /** The loop over the script: what it raises, whether anything blocks, and the highest rank. */
  method ReviewScript(baseStops: seq<Stop>, completed: set<StopId>, operations: seq<Operation>)
    returns (notes: seq<Note>, blocking: bool, rank: nat)
    ensures notes == ScriptNotes(baseStops, completed, operations, |operations|)
    ensures blocking <==> SomeBlocks(operations, baseStops, completed)
    ensures rank <= 2 && forall i :: 0 <= i < |operations| ==> Rank(operations[i]) <= rank
    ensures rank > 0 ==> exists i :: 0 <= i < |operations| && Rank(operations[i]) == rank
  {
    hide RemovalForbidden, EvidenceMissing;
    notes, blocking, rank := [], false, 0;
    for i := 0 to |operations|
      invariant notes == ScriptNotes(baseStops, completed, operations, i)
      invariant blocking <==> exists j :: 0 <= j < i && Blocks(operations[j], baseStops, completed)
      invariant rank <= 2 && forall j :: 0 <= j < i ==> Rank(operations[j]) <= rank
      invariant rank > 0 ==> exists j :: 0 <= j < i && Rank(operations[j]) == rank
    {
      var op := operations[i];
      match op {
        case RemoveStop(id) =>
          rank := MaxInt(rank, 2);
          if RemovalForbidden(baseStops, completed, id) {
            notes, blocking := notes + [RequiredStopRemoval], true;
          }
        case ReplaceStop(_, replacement) =>
          rank := MaxInt(rank, 2);
          if EvidenceMissing(replacement) {
            notes, blocking := notes + [ReplacementEvidenceMissing], true;
          }
        case ChangeMode(_) =>
          rank, notes := MaxInt(rank, 2), notes + [TransportModeChanged];
        case ChangeDeparture(_) =>
          rank := MaxInt(rank, 1);
        case MoveStop(_, _) =>
      }
    }
  }

  method ReviewDynamicPatch(baseStops: seq<Stop>, baseVersion: int, impact: Impact, operations: seq<Operation>)
    returns (r: Review)
    ensures r.verdict == Blocked <==> Objects(baseStops, baseVersion, impact, operations)
    ensures r.risk == Critical <==> r.verdict == Blocked
    ensures r.verdict != Blocked ==>
            (r.risk == High <==> impact.afterCost > CostAllowance(impact.beforeCost)
                                 || exists i :: 0 <= i < |operations| && Rank(operations[i]) == 2)
    ensures r.verdict != Blocked ==>
            (r.risk == Low <==> impact.afterCost <= CostAllowance(impact.beforeCost)
                                && forall i :: 0 <= i < |operations| ==> operations[i].MoveStop?)
    ensures r.verdict == Approved <==> r.risk == Low
    ensures r.requiresConfirmation <==> r.risk == High || r.risk == Critical
    ensures var found := Findings(baseStops, baseVersion, impact, operations);
            r.notes == if found == [] then [ChecksPassed] else found
  {
    hide Blocks, BaseMismatch, CostAllowance, ScriptNotes;
    var notes, blocking := [], false;
    if impact.reportedConflicts > 0 {
      notes, blocking := notes + [ConstraintConflict], true;
    }
    if BaseMismatch(impact, baseVersion) {
      notes, blocking := notes + [VersionMismatch], true;
    }
    var raised, blocked, rank := ReviewScript(baseStops, impact.completed, operations);
    assert rank == 0 <==> forall i :: 0 <= i < |operations| ==> operations[i].MoveStop? by {
      assert forall i :: 0 <= i < |operations| ==> (Rank(operations[i]) == 0 <==> operations[i].MoveStop?);
    }
    notes, blocking := notes + raised, blocking || blocked;
    if impact.afterCost > CostAllowance(impact.beforeCost) {
      notes, rank := notes + [MaterialCostIncrease], 2;
    }
    assert notes == Findings(baseStops, baseVersion, impact, operations);
    hide Findings, Blocks;
    if notes == [] { notes := [ChecksPassed]; }
    r := Review(if blocking then Blocked else if rank > 0 then ApprovedWithWarnings else Approved,
                if blocking then Critical else if rank == 0 then Low else if rank == 1 then Medium else High,
                rank >= 2 || blocking, notes);
  }

  /** The auto-apply gate: the trip opted in and the critic called the patch low risk and approved. */
  method DecideAutoApply(baseStops: seq<Stop>, baseVersion: int, impact: Impact, operations: seq<Operation>,
      optIn: bool)
    returns (apply: bool)
    ensures apply <==> optIn && OnlyMoves(operations) && impact.afterCost <= CostAllowance(impact.beforeCost)
                       && impact.reportedConflicts == 0
                       && (impact.beforeVersion.Some? ==> impact.beforeVersion.value == baseVersion)
  {
    var review := ReviewDynamicPatch(baseStops, baseVersion, impact, operations);
    apply := optIn && review.risk == Low && review.verdict == Approved;
  }

  predicate OnlyMoves(operations: seq<Operation>) {
    forall i :: 0 <= i < |operations| ==> operations[i].MoveStop?
  }

  lemma {:induction false} CostConcat(a: seq<Stop>, b: seq<Stop>)
    ensures CostOf(a + b) == CostOf(a) + CostOf(b)
  {
    if a == [] {
      assert a + b == b;
    } else {
      assert (a + b)[1..] == a[1..] + b;
      CostConcat(a[1..], b);
    }
  }

  lemma SplitAt(s: seq<Stop>, i: nat)
    requires i < |s|
    ensures s[..i] + [s[i]] + s[i + 1..] == s && s[..i] + s[i + 1..] == Without(s, i)
  {}

  lemma CostWithout(s: seq<Stop>, i: nat)
    requires i < |s|
    ensures CostOf(s) == CostOf(Without(s, i)) + s[i].poi.cost.Or(0.0)
  {
    hide CostOf, Without;
    SplitAt(s, i);
    CostInsert(s[..i], s[i], s[i + 1..]);
  }

  lemma CostWith(s: seq<Stop>, j: nat, x: Stop)
    requires j <= |s|
    ensures CostOf(s[..j] + [x] + s[j..]) == CostOf(s) + x.poi.cost.Or(0.0)
  {
    hide CostOf;
    CostInsert(s[..j], x, s[j..]);
    assert s[..j] + s[j..] == s;
  }

  lemma MoveKeepsCost(s: seq<Stop>, i: nat, j: nat)
    requires i < |s| && j < |s|
    ensures CostOf(Move(s, i, j)) == CostOf(s)
  {
    hide CostOf, Without;
    CostWithout(s, i);
    CostWith(Without(s, i), j, s[i]);
  }

  lemma CostInsert(a: seq<Stop>, x: Stop, b: seq<Stop>)
    ensures CostOf(a + [x] + b) == CostOf(a + b) + x.poi.cost.Or(0.0)
  {
    CostConcat(a + [x], b);
    CostConcat(a, [x]);
    CostConcat(a, b);
  }

  /** An auto-applied script is order-only: whatever it does not reject keeps the stops as a
      multiset, the mode, the departure and the stored cost. */
  lemma {:induction false} OnlyMovesPermute(d: Draft, operations: seq<Operation>)
    requires OnlyMoves(operations) && Run(d, operations).Ok?
    ensures var out := Run(d, operations).value;
            && multiset(out.stops) == multiset(d.stops)
            && out.mode == d.mode && out.departure == d.departure
            && CostOf(out.stops) == CostOf(d.stops)
    decreases |operations|
  {
    if operations != [] {
      var op := operations[0];
      MovePermutes(d.stops, op.fromPosition, op.toPosition);
      MoveKeepsCost(d.stops, op.fromPosition, op.toPosition);
      OnlyMovesPermute(Apply(d, op).value, operations[1..]);
    }
  }

  /** Moves fail exactly when one of them names a position outside the plan. */
  lemma {:induction false} OnlyMovesFailIff(d: Draft, operations: seq<Operation>)
    requires OnlyMoves(operations)
    ensures Run(d, operations).Ok? <==>
            forall i :: 0 <= i < |operations| ==>
              operations[i].fromPosition < |d.stops| && operations[i].toPosition < |d.stops|
    decreases |operations|
  {
    if operations != [] && operations[0].fromPosition < |d.stops| && operations[0].toPosition < |d.stops| {
      var next := Apply(d, operations[0]).value;
      OnlyMovesFailIff(next, operations[1..]);
      assert forall i :: 0 <= i < |operations| - 1 ==> operations[1..][i] == operations[i + 1];
      assert |next.stops| == |d.stops|;
    }
  }

  /** An automatically applied generated script rearranges the stops and nothing else, except that
      the new version departs at the moment of the replan, less than a minute from the old time. */
  lemma AutoAppliedVersion(r: Replan)
    requires Solved(r) && OnlyMoves(Compile(r))
    ensures var v := VersionChain.Patched(r.base, Compile(r), Some(r.now));
            && (v.Ok? <==> r.base.stops != [])
            && (v.Ok? ==>
                  && multiset(v.value.stops) == multiset(r.base.stops) && v.value.mode == r.base.mode
                  && CostOf(v.value.stops) == CostOf(r.base.stops)
                  && v.value.departure == r.now && -60.0 < r.now - r.base.departure < 60.0)
  {
    hide Run, CostOf, RemoveOps, MoveOps, ReplaceOps, Ids, Kept, Sources, Active, Distinct;
    CompiledScriptIsCorrect(r);
    OnlyMovesPermute(r.base, Compile(r));
    var out := Run(r.base, Compile(r)).value;
    assert |multiset(out.stops)| == |out.stops| && |multiset(r.base.stops)| == |r.base.stops|;
    SettingsAreLast(r);
  }

  /** A script without settings was compiled less than a minute from the planned departure. */
  lemma SettingsAreLast(r: Replan)
    requires Solved(r) && OnlyMoves(Compile(r))
    ensures -60.0 < r.now - r.base.departure < 60.0
  {
    hide Compile;
    if MaxReal(r.now - r.base.departure, r.base.departure - r.now) >= 60.0 {
      LateScriptSetsDeparture(r);
    }
  }

  lemma LateScriptSetsDeparture(r: Replan)
    requires Solved(r) && MaxReal(r.now - r.base.departure, r.base.departure - r.now) >= 60.0
    ensures Compile(r) != [] && Compile(r)[|Compile(r)| - 1] == ChangeDeparture(Some(r.now))
  {
    hide RemoveOps, MoveOps, ReplaceOps, Ids, Kept, Sources, Active;
  }
}
