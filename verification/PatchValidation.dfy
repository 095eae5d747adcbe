/** Deterministic recalculation and validation of a patched plan (plan_patch_validator.py). */
module PatchValidation {
  import opened Basics
  import opened Enumeration
  import opened RouteEvaluation
  import opened PlanPatch

  /** What the stored intent contributes: tasks, preferences, hard constraints, uncertainty buffers. */
  datatype Intent = Intent(tasks: seq<Task>, preferences: Preferences, constraints: Constraints, buffers: seq<int>)

  datatype Finding = IdentityBroken | RequiredMissing | Route(conflict: Conflict)

  datatype TimedStop = TimedStop(stop: Stop, arrival: real, departure: real, travel: Edge, satisfied: bool)

  datatype Recalculated =
    Recalculated(stops: seq<TimedStop>, distance: real, seconds: real, cost: real, confidence: real)

  /** Whether the text of a conflict contains the description of a task. */
  type Mention = (nat, Conflict) -> bool

  datatype ValidationError = ContextMissing

  // -------------------------------------------------------- registering stops

  datatype Register = Register(order: seq<nat>, selected: Selection, broken: nat)

  /** Matrix point 0 is the origin; the stop at position `k` is point `k + 1`. */
  function NodeFor(stop: Stop, k: nat): Node
    requires stop.taskIndex >= 0
  {
    Node(stop.taskIndex, k + 1, stop.poi.rating, stop.poi.confidence, stop.poi.cost, stop.poi.openNow,
         stop.poi.accessible, stop.poi.district)
  }

  function AddStop(r: Register, stop: Stop, k: nat, taskCount: nat): Register {
    if !(0 <= stop.taskIndex < taskCount) || stop.taskIndex in r.selected then r.(broken := r.broken + 1)
    else Register(r.order + [stop.taskIndex], r.selected[stop.taskIndex := NodeFor(stop, k)], r.broken)
  }

  function Registered(stops: seq<Stop>, taskCount: nat, k: nat): Register
    requires k <= |stops|
  {
    if k == 0 then Register([], map[], 0)
    else AddStop(Registered(stops, taskCount, k - 1), stops[k - 1], k - 1, taskCount)
  }

  /** Every stop serves an existing task, no task twice. */
  ghost predicate IdentitiesSound(stops: seq<Stop>, taskCount: nat, k: nat)
    requires k <= |stops|
  {
    && (forall i :: 0 <= i < k ==> 0 <= stops[i].taskIndex < taskCount)
    && forall i, j :: 0 <= i < j < k ==> stops[i].taskIndex != stops[j].taskIndex
  }

  lemma {:induction false} RegisteredTasks(stops: seq<Stop>, taskCount: nat, k: nat)
    requires k <= |stops|
    ensures forall t: nat :: t in Registered(stops, taskCount, k).selected <==>
              t < taskCount && exists i :: 0 <= i < k && stops[i].taskIndex == t
  {
    hide NodeFor;
    if k > 0 {
      RegisteredTasks(stops, taskCount, k - 1);
    }
  }

  /** The register is clean exactly when identities are sound, and then follows the stops one by one. */
  lemma {:induction false} RegisterMeaning(stops: seq<Stop>, taskCount: nat, k: nat)
    requires k <= |stops|
    ensures var r := Registered(stops, taskCount, k);
            && (r.broken == 0 <==> IdentitiesSound(stops, taskCount, k))
            && (r.broken == 0 ==> |r.order| == k && forall i :: 0 <= i < k ==>
                  r.order[i] == stops[i].taskIndex && r.order[i] in r.selected
                  && r.selected[r.order[i]] == NodeFor(stops[i], i))
  {
    hide NodeFor;
    if k > 0 {
      RegisterMeaning(stops, taskCount, k - 1);
      RegisteredTasks(stops, taskCount, k - 1);
      IdentitiesStep(stops, taskCount, k);
      var before := Registered(stops, taskCount, k - 1);
      assert Registered(stops, taskCount, k) == AddStop(before, stops[k - 1], k - 1, taskCount);
      hide Registered, IdentitiesSound;
    }
  }

  lemma IdentitiesStep(stops: seq<Stop>, taskCount: nat, k: nat)
    requires 0 < k <= |stops|
    ensures IdentitiesSound(stops, taskCount, k) <==>
            && IdentitiesSound(stops, taskCount, k - 1)
            && 0 <= stops[k - 1].taskIndex < taskCount
            && forall i :: 0 <= i < k - 1 ==> stops[i].taskIndex != stops[k - 1].taskIndex
  {}

  ghost predicate Served(stops: seq<Stop>, t: int) {
    exists i :: 0 <= i < |stops| && stops[i].taskIndex == t
  }

  ghost predicate RequiredPresent(stops: seq<Stop>, tasks: seq<Task>) {
    forall t :: 0 <= t < |tasks| && tasks[t].required ==> Served(stops, t)
  }

  // --------------------------------------------------------------- validation

  function MaxBuffer(buffers: seq<int>): (r: int)
    ensures forall i :: 0 <= i < |buffers| ==> buffers[i] <= r
    ensures buffers == [] ==> r == 0
    ensures buffers != [] ==> r in buffers
  {
    if buffers == [] then 0
    else if |buffers| == 1 then buffers[0]
    else
      assert buffers == [buffers[0]] + buffers[1..];
      MaxInt(buffers[0], MaxBuffer(buffers[1..]))
  }

  function ProblemFor(d: Draft, intent: Intent, matrix: Matrix, departure: real): Problem {
    Problem(departure, intent.tasks, matrix, intent.preferences, intent.constraints, d.mode,
            MaxBuffer(intent.buffers), [], None)
  }

  ghost predicate MatrixFits(matrix: Matrix, stops: seq<Stop>) {
    MatrixValid(matrix) && |matrix| == |stops| + 1
  }

  lemma RegisterEvaluable(d: Draft, intent: Intent, matrix: Matrix, departure: real)
    requires MatrixFits(matrix, d.stops) && IdentitiesSound(d.stops, |intent.tasks|, |d.stops|)
    ensures var r := Registered(d.stops, |intent.tasks|, |d.stops|);
            Evaluable(ProblemFor(d, intent, matrix, departure), r.order, r.selected)
  {
    hide MatrixValid, Registered;
    RegisterMeaning(d.stops, |intent.tasks|, |d.stops|);
  }

  /** The evaluation of the patched plan, once its identities are sound. */
  ghost function EvaluationOf(d: Draft, intent: Intent, matrix: Matrix, departure: real): Evaluation
    requires MatrixFits(matrix, d.stops) && IdentitiesSound(d.stops, |intent.tasks|, |d.stops|)
  {
    RegisterEvaluable(d, intent, matrix, departure);
    var r := Registered(d.stops, |intent.tasks|, |d.stops|);
    Evaluate(ProblemFor(d, intent, matrix, departure), r.order, r.selected)
  }

  function Copies(n: nat): (r: seq<Finding>)
    ensures |r| == n && forall f :: f in r ==> f == IdentityBroken
  {
    if n == 0 then [] else [IdentityBroken] + Copies(n - 1)
  }

  function AsFindings(conflicts: seq<Conflict>): (r: seq<Finding>)
    ensures |r| == |conflicts| && forall i :: 0 <= i < |r| ==> r[i] == Route(conflicts[i])
  {
    if conflicts == [] then [] else [Route(conflicts[0])] + AsFindings(conflicts[1..])
  }

  function CostOf(stops: seq<Stop>): real {
    if stops == [] then 0.0 else stops[0].poi.cost.Or(0.0) + CostOf(stops[1..])
  }

  /** Constraints that add an advisory entry to every validation: a detour limit (no baseline route
      is available here) and any category budget. */
  ghost predicate Advisory(c: Constraints) {
    c.maxDetour.Some? || exists i :: 0 <= i < |c.categoryBudgets| && c.categoryBudgets[i].Some?
  }

  /** The least confidence of the stored edges, zero when nothing is visited. */
  function LeastConfidence(stops: seq<TimedStop>): (r: real)
    ensures stops == [] ==> r == 0.0
    ensures forall i :: 0 <= i < |stops| ==> r <= stops[i].travel.confidence
    ensures stops != [] ==> exists i :: 0 <= i < |stops| && r == stops[i].travel.confidence
  {
    if stops == [] then 0.0
    else if |stops| == 1 then stops[0].travel.confidence
    else
      var rest := LeastConfidence(stops[1..]);
      assert forall i :: 0 <= i < |stops| - 1 ==> stops[1..][i] == stops[i + 1];
      MinReal(stops[0].travel.confidence, rest)
  }

  /** What the validator stores with the stop at position `k`. */
  ghost function StoredStop(d: Draft, e: Evaluation, matrix: Matrix, mentions: Mention, k: nat): TimedStop
    requires MatrixFits(matrix, d.stops) && k < |d.stops| == |e.arrivals| == |e.departures| && d.stops[k].taskIndex >= 0
  {
    TimedStop(d.stops[k], e.arrivals[k], e.departures[k], matrix[k][k + 1],
              forall c :: c in e.conflicts ==> !mentions(d.stops[k].taskIndex, c))
  }

  /** The stored result of an evaluation: its totals, every stop with its own reading, and the least
      confidence of the stored edges. */
  ghost predicate Recalculates(d: Draft, e: Evaluation, matrix: Matrix, mentions: Mention, out: Recalculated)
    requires MatrixFits(matrix, d.stops) && forall k :: 0 <= k < |d.stops| ==> d.stops[k].taskIndex >= 0
  {
    && out.distance == e.distance && out.seconds == e.seconds && out.cost == CostOf(d.stops)
    && |out.stops| == |d.stops| && |e.arrivals| == |d.stops| && |e.departures| == |d.stops|
    && (forall k :: 0 <= k < |d.stops| ==> out.stops[k] == StoredStop(d, e, matrix, mentions, k))
    && (d.stops == [] ==> out.confidence == 0.0)
    && (forall k :: 0 <= k < |d.stops| ==> out.confidence <= matrix[k][k + 1].confidence)
    && (d.stops != [] ==> exists k :: 0 <= k < |d.stops| && out.confidence == out.stops[k].travel.confidence)
  }

  method RecalculateAndValidate(
    d: Draft, intent: Intent, matrix: Matrix, originKnown: bool, contextDeparture: Option<real>, mentions: Mention)
    returns (r: Result<(Option<Recalculated>, seq<Finding>), ValidationError>)
    requires MatrixFits(matrix, d.stops)
    ensures r.Err? <==> !originKnown
    ensures r.Ok? && !IdentitiesSound(d.stops, |intent.tasks|, |d.stops|) ==>
            r.value.0.None? && IdentityBroken in r.value.1
    ensures r.Ok? && !RequiredPresent(d.stops, intent.tasks) ==> r.value.0.None? && RequiredMissing in r.value.1
    ensures r.Ok? && IdentitiesSound(d.stops, |intent.tasks|, |d.stops|) && RequiredPresent(d.stops, intent.tasks) ==>
              var e := EvaluationOf(d, intent, matrix, contextDeparture.Or(d.departure));
              && r.value.1 == AsFindings(e.conflicts)
              && r.value.0.Some? && Recalculates(d, e, matrix, mentions, r.value.0.value)
  {
    if !originKnown { return Err(ContextMissing); }
    hide EvaluationOf, Registered, RequiredPresent, MatrixFits, Recalculates;
    var n := |intent.tasks|;
    var reg := RegisterStops(d.stops, n);
    RegisterMeaning(d.stops, n, |d.stops|);
    var missing := AnyRequiredMissing(d.stops, intent.tasks, reg.selected);
    var findings := Copies(reg.broken) + (if missing then [RequiredMissing] else []);
    if findings != [] {
      assert reg.broken > 0 ==> findings[0] in Copies(reg.broken);
      assert missing ==> findings[|findings| - 1] == RequiredMissing;
      return Ok((None, findings));
    }
    hide IdentitiesSound;
    var out, conflicts := Recalculate(d, intent, matrix, contextDeparture.Or(d.departure), reg, mentions);
    r := Ok((Some(out), AsFindings(conflicts)));
  }

  /** The second half, once the register is clean. */
  method Recalculate(d: Draft, intent: Intent, matrix: Matrix, departure: real, reg: Register, mentions: Mention)
    returns (out: Recalculated, conflicts: seq<Conflict>)
    requires MatrixFits(matrix, d.stops) && IdentitiesSound(d.stops, |intent.tasks|, |d.stops|)
    requires reg == Registered(d.stops, |intent.tasks|, |d.stops|)
    ensures conflicts == EvaluationOf(d, intent, matrix, departure).conflicts
    ensures Recalculates(d, EvaluationOf(d, intent, matrix, departure), matrix, mentions, out)
  {
    hide Evaluate, Evaluable, Registered, MatrixValid;
    RegisterMeaning(d.stops, |intent.tasks|, |d.stops|);
    RegisterEvaluable(d, intent, matrix, departure);
    var e := EvaluateJointOrder(ProblemFor(d, intent, matrix, departure), reg.order, reg.selected);
    EvaluationShape(ProblemFor(d, intent, matrix, departure), reg.order, reg.selected);
    var timed := TimeStops(d, reg, e, matrix, mentions);
    hide StoredStop, MatrixFits;
    var least := LeastConfidence(timed);
    out, conflicts := Recalculated(timed, e.distance, e.seconds, CostOf(d.stops), least), e.conflicts;
  }

  method RegisterStops(stops: seq<Stop>, taskCount: nat) returns (reg: Register)
    ensures reg == Registered(stops, taskCount, |stops|)
  {
    reg := Register([], map[], 0);
    for k := 0 to |stops|
      invariant reg == Registered(stops, taskCount, k)
    {
      reg := AddStop(reg, stops[k], k, taskCount);
    }
  }

  method AnyRequiredMissing(stops: seq<Stop>, tasks: seq<Task>, selected: Selection) returns (missing: bool)
    requires selected == Registered(stops, |tasks|, |stops|).selected
    ensures missing <==> !RequiredPresent(stops, tasks)
  {
    RegisteredTasks(stops, |tasks|, |stops|);
    missing := false;
    for t := 0 to |tasks|
      invariant missing <==> exists u :: 0 <= u < t && tasks[u].required && u !in selected
    {
      if tasks[t].required && t !in selected { missing := true; }
    }
  }

  /** Writes arrival, departure, the incoming edge and the absence of conflicts next to every stop. */
  method TimeStops(d: Draft, reg: Register, e: Evaluation, matrix: Matrix, mentions: Mention)
      returns (timed: seq<TimedStop>)
    requires MatrixFits(matrix, d.stops)
    requires e.order == reg.order && |e.order| == |e.arrivals| == |e.departures| == |d.stops|
    requires forall i :: 0 <= i < |d.stops| ==>
               && reg.order[i] == d.stops[i].taskIndex && reg.order[i] in reg.selected
               && reg.selected[reg.order[i]] == NodeFor(d.stops[i], i)
    requires forall i, j :: 0 <= i < j < |d.stops| ==> d.stops[i].taskIndex != d.stops[j].taskIndex
    ensures |timed| == |d.stops|
    ensures forall k :: 0 <= k < |d.stops| ==> timed[k] == StoredStop(d, e, matrix, mentions, k)
    ensures forall k :: 0 <= k < |d.stops| ==> timed[k].travel == matrix[k][k + 1]
  {
    var stops := d.stops;
    timed := [];
    for k := 0 to |stops|
      invariant |timed| == k
      invariant forall i :: 0 <= i < k ==> timed[i] == StoredStop(d, e, matrix, mentions, i)
    {
      var at := IndexOf(e.order, reg.order[k]);
      assert at == k;
      var before := if at == 0 then 0 else reg.selected[e.order[at - 1]].matrixIndex;
      var edge := matrix[before][reg.selected[e.order[at]].matrixIndex];
      var satisfied := forall c :: c in e.conflicts ==> !mentions(stops[k].taskIndex, c);
      timed := timed + [TimedStop(stops[k], e.arrivals[at], e.departures[at], edge, satisfied)];
    }
  }

  lemma EvaluationShape(p: Problem, order: seq<nat>, selected: Selection)
    requires Evaluable(p, order, selected)
    ensures var e := Evaluate(p, order, selected);
            e.order == order && |e.arrivals| == |e.departures| == |order|
  {
    hide Score, HardConflicts, SoftPenalties, Disagreements;
    WalkParts(p, Legs(p, order, selected), |order|);
  }

  // ----------------------------------------------------- what acceptance means

  /** The findings of `RecalculateAndValidate` are empty. */
  ghost predicate Accepted(d: Draft, intent: Intent, matrix: Matrix, departure: real)
    requires MatrixFits(matrix, d.stops)
  {
    && IdentitiesSound(d.stops, |intent.tasks|, |d.stops|)
    && RequiredPresent(d.stops, intent.tasks)
    && EvaluationOf(d, intent, matrix, departure).conflicts == []
  }

  /** Acceptance is feasibility plus the absence of advisory constraints: a plan with a detour
      limit or a category budget is never accepted here, feasible or not. */
  lemma AcceptedIff(d: Draft, intent: Intent, matrix: Matrix, departure: real)
    requires MatrixFits(matrix, d.stops)
    requires IdentitiesSound(d.stops, |intent.tasks|, |d.stops|) && RequiredPresent(d.stops, intent.tasks)
    ensures Accepted(d, intent, matrix, departure) <==>
            EvaluationOf(d, intent, matrix, departure).feasible && !Advisory(intent.constraints)
  {
    hide Score, Disagreements, HardConflicts, TotalsOf, RequiredPresent, IdentitiesSound, MatrixFits, Registered;
    var r := Registered(d.stops, |intent.tasks|, |d.stops|);
    RegisterEvaluable(d, intent, matrix, departure);
    ConflictsEmptyIff(ProblemFor(d, intent, matrix, departure), r.order, r.selected);
  }

  lemma ConflictsEmptyIff(p: Problem, order: seq<nat>, selected: Selection)
    requires Evaluable(p, order, selected)
    ensures Evaluate(p, order, selected).conflicts == [] <==>
            Evaluate(p, order, selected).feasible && SoftPenalties(p) == []
  {
    hide Score, Disagreements, HardConflicts, TotalsOf, SoftPenalties;
  }

  ghost function ChainSeconds(matrix: Matrix, k: nat): real
    requires forall i :: 0 <= i < |matrix| ==> |matrix[i]| == |matrix|
    requires k < |matrix|
  {
    if k == 0 then 0.0 else ChainSeconds(matrix, k - 1) + matrix[k - 1][k].duration
  }

  ghost function ChainMeters(matrix: Matrix, k: nat): real
    requires forall i :: 0 <= i < |matrix| ==> |matrix[i]| == |matrix|
    requires k < |matrix|
  {
    if k == 0 then 0.0 else ChainMeters(matrix, k - 1) + matrix[k - 1][k].distance
  }

  lemma {:induction false} ChainIsTravel(matrix: Matrix, legs: seq<Leg>, k: nat)
    requires forall i :: 0 <= i < |matrix| ==> |matrix[i]| == |matrix|
    requires k <= |legs| && |matrix| == |legs| + 1
    requires forall i :: 0 <= i < k ==> legs[i].edge == matrix[i][i + 1]
    ensures Travel(legs, k) == ChainSeconds(matrix, k) && Distance(legs, k) == ChainMeters(matrix, k)
  {
    if k > 0 {
      ChainIsTravel(matrix, legs, k - 1);
    }
  }

  lemma LegsFollowStops(d: Draft, intent: Intent, matrix: Matrix, departure: real, i: nat)
    requires MatrixFits(matrix, d.stops) && IdentitiesSound(d.stops, |intent.tasks|, |d.stops|) && i < |d.stops|
    ensures var (p, r) := (ProblemFor(d, intent, matrix, departure), Registered(d.stops, |intent.tasks|, |d.stops|));
            && Evaluable(p, r.order, r.selected) && |r.order| == |d.stops|
            && Legs(p, r.order, r.selected)[i].edge == matrix[i][i + 1]
            && Legs(p, r.order, r.selected)[i].node.matrixIndex == i + 1
  {
    hide Registered, LegsTo, MatrixValid;
    RegisterMeaning(d.stops, |intent.tasks|, |d.stops|);
    RegisterEvaluable(d, intent, matrix, departure);
    var p, r := ProblemFor(d, intent, matrix, departure), Registered(d.stops, |intent.tasks|, |d.stops|);
    LegAt(p, r.order, r.selected, |r.order|, i);
  }

  /** The stored totals are the sums of the stored incoming edges, plus the leg home when one is due. */
  lemma StoredEdgesSum(d: Draft, intent: Intent, matrix: Matrix, departure: real)
    requires MatrixFits(matrix, d.stops) && IdentitiesSound(d.stops, |intent.tasks|, |d.stops|)
    ensures var (e, n) := (EvaluationOf(d, intent, matrix, departure), |d.stops|);
            var home := intent.constraints.mustReturn && n > 0;
            && e.seconds == ChainSeconds(matrix, n) + (if home then matrix[n][0].duration else 0.0)
            && e.distance == ChainMeters(matrix, n) + (if home then matrix[n][0].distance else 0.0)
  {
    assert forall i :: 0 <= i < |matrix| ==> |matrix[i]| == |matrix|;
    hide Evaluate, Registered, LegsTo, MatrixValid, Evaluable;
    var p, r := ProblemFor(d, intent, matrix, departure), Registered(d.stops, |intent.tasks|, |d.stops|);
    RegisterMeaning(d.stops, |intent.tasks|, |d.stops|);
    RegisterEvaluable(d, intent, matrix, departure);
    EvaluationTotals(p, r.order, r.selected);
    hide IdentitiesSound;
    var legs := Legs(p, r.order, r.selected);
    forall i | 0 <= i < |legs|
      ensures legs[i].edge == matrix[i][i + 1] && legs[i].node.matrixIndex == i + 1
    {
      LegsFollowStops(d, intent, matrix, departure, i);
    }
    ChainIsTravel(matrix, legs, |legs|);
  }

  lemma EvaluationTotals(p: Problem, order: seq<nat>, selected: Selection)
    requires Evaluable(p, order, selected)
    ensures var (e, legs) := (Evaluate(p, order, selected), Legs(p, order, selected));
            && (legs != [] ==> legs[|legs| - 1].node.matrixIndex < |p.matrix|)
            && e.seconds == Travel(legs, |legs|) + Home(p, legs).duration
            && e.distance == Distance(legs, |legs|) + Home(p, legs).distance
  {
    hide Score, Disagreements, HardConflicts, SoftPenalties, TotalsOf, Evaluable, LegsTo, Home, Travel, Distance;
    hide Leave, Costs, CostsKnown, Crossed, RatingGaps, Doubts, StopConflicts;
    TotalsClosed(p, order, selected);
  }

  // ----------------------------------------- what becomes of a generated script

  lemma {:induction false} ReplacesKeepTasks(originals: seq<Stop>, items: seq<Item>, k: nat)
    requires k <= |items|
    ensures forall i :: 0 <= i < |originals| ==>
            AfterReplaces(originals, items, k)[i].taskIndex == originals[i].taskIndex
  {
    if k > 0 {
      ReplacesKeepTasks(originals, items, k - 1);
    }
  }

  /** The stop is still on the plan after the removals: not completed, and when optional stops are
      dropped, at a place that some required stop shares. */
  ghost predicate Survives(r: Replan, b: Stop) {
    && b.poi.id !in r.completed
    && (r.drop ==> exists c :: c in r.base.stops && c.poi.id == b.poi.id && c.task.required)
  }

  ghost predicate ServedOn(r: Replan, t: int) {
    exists b :: b in r.base.stops && b.taskIndex == t && Survives(r, b)
  }

  /** Every required entry is served by a stop that survives. */
  ghost predicate RequiredSurvive(r: Replan, tasks: seq<Task>) {
    forall t :: 0 <= t < |tasks| && tasks[t].required ==> ServedOn(r, t)
  }

  ghost predicate Wanted(stops: seq<Stop>, completed: set<StopId>, drop: bool, id: StopId) {
    id !in completed && exists c :: c in stops && c.poi.id == id && (drop ==> c.task.required)
  }

  lemma {:induction false} ActiveSources(
    stops: seq<Stop>, completed: set<StopId>, needs: set<StopId>, found: map<StopId, seq<Poi>>, drop: bool)
    ensures forall id :: id in Sources(Active(stops, completed, needs, found, drop)) <==>
            Wanted(stops, completed, drop, id)
  {
    if stops != [] {
      var all, rest := Sources(Active(stops, completed, needs, found, drop)),
                       Sources(Active(stops[1..], completed, needs, found, drop));
      var head := stops[0];
      assert all == if head.poi.id in completed || (drop && !head.task.required) then rest else [head.poi.id] + rest;
      hide Active, Sources;
      ActiveSources(stops[1..], completed, needs, found, drop);
      forall id
        ensures id in all <==> Wanted(stops, completed, drop, id)
      {
        assert stops == [head] + stops[1..];
      }
    }
  }

  lemma {:induction false} KeptMembers(stops: seq<Stop>, keep: seq<StopId>)
    ensures forall b :: b in Kept(stops, keep) <==> b in stops && b.poi.id in keep
    ensures multiset(Kept(stops, keep)) <= multiset(stops)
  {
    if stops != [] {
      assert stops == [stops[0]] + stops[1..];
      KeptMembers(stops[1..], keep);
    }
  }

  lemma SurvivorsAreKept(r: Replan)
    ensures forall b :: b in KeptStops(r) <==> b in r.base.stops && Survives(r, b)
  {
    hide Active, Sources, Kept;
    ActiveSources(r.base.stops, r.completed, r.needs, r.found, r.drop);
    KeptMembers(r.base.stops, Sources(ActiveItems(r)));
  }

  /** Some of the stops of a sound plan, in any order, are sound. */
  lemma SomeStaySound(some: seq<Stop>, stops: seq<Stop>, taskCount: nat)
    requires multiset(some) <= multiset(stops) && IdentitiesSound(stops, taskCount, |stops|)
    ensures IdentitiesSound(some, taskCount, |some|)
  {
    forall x
      ensures multiset(some)[x] <= 1
    {
      DistinctCounts(stops, x);
    }
    CountsAreDistinct(some);
    SubMultisetMembers(some, stops);
  }

  /** Every entry served after a generated script is served by the stop that served it before. */
  lemma ScriptKeepsTasks(r: Replan, patched: Draft, taskCount: nat)
    requires Solved(r) && Run(r.base, Compile(r)) == Ok(patched)
    requires IdentitiesSound(r.base.stops, taskCount, |r.base.stops|)
    ensures IdentitiesSound(patched.stops, taskCount, |patched.stops|)
    ensures forall t :: Served(patched.stops, t) <==> ServedOn(r, t)
  {
    hide Compile, Run, AfterReplaces, Active, Survives, Kept, MadeFrom, Ids, Distinct, Stops;
    var originals := ScriptRuns(r);
    ReplacesKeepTasks(originals, Chosen(r), |r.order|);
    KeptMembers(r.base.stops, Sources(ActiveItems(r)));
    SurvivorsAreKept(r);
    SomeStaySound(originals, r.base.stops, taskCount);
    assert forall b :: b in multiset(originals) <==> b in KeptStops(r);
    forall t
      ensures Served(patched.stops, t) <==> ServedOn(r, t)
    {
      TaskServed(originals, patched.stops, KeptStops(r), t);
    }
  }

  lemma TaskServed(originals: seq<Stop>, patched: seq<Stop>, kept: seq<Stop>, t: int)
    requires |originals| == |patched| && multiset(originals) == multiset(kept)
    requires forall i :: 0 <= i < |originals| ==> patched[i].taskIndex == originals[i].taskIndex
    ensures Served(patched, t) <==> exists b :: b in kept && b.taskIndex == t
  {
    if i :| 0 <= i < |patched| && patched[i].taskIndex == t {
      assert originals[i] in multiset(kept);
    }
    if b :| b in kept && b.taskIndex == t {
      assert b in multiset(originals);
      var i :| 0 <= i < |originals| && originals[i] == b;
      assert patched[i].taskIndex == t;
    }
  }

  /** The validator's answer to a generated script: identities stay sound, and the plan is accepted
      exactly when no stop of a required entry was completed or dropped, the recalculated plan is
      feasible and the intent has no advisory constraint. */
  lemma GeneratedScriptAcceptedIff(r: Replan, intent: Intent, matrix: Matrix, departure: real, patched: Draft)
    requires Solved(r) && Run(r.base, Compile(r)) == Ok(patched)
    requires IdentitiesSound(r.base.stops, |intent.tasks|, |r.base.stops|) && MatrixFits(matrix, patched.stops)
    ensures IdentitiesSound(patched.stops, |intent.tasks|, |patched.stops|)
    ensures Accepted(patched, intent, matrix, departure) <==>
            && RequiredSurvive(r, intent.tasks)
            && EvaluationOf(patched, intent, matrix, departure).feasible
            && !Advisory(intent.constraints)
  {
    hide Compile, Run, Solved, Served, ServedOn, MatrixFits, IdentitiesSound, EvaluationOf, Advisory;
    ScriptKeepsTasks(r, patched, |intent.tasks|);
    assert RequiredPresent(patched.stops, intent.tasks) <==> RequiredSurvive(r, intent.tasks);
    if RequiredPresent(patched.stops, intent.tasks) {
      AcceptedIff(patched, intent, matrix, departure);
    }
  }

  /** In particular a plan in which a required entry was completed is never accepted again. */
  lemma CompletedRequiredIsRejected(
    r: Replan, intent: Intent, matrix: Matrix, departure: real, done: nat, patched: Draft)
    requires Solved(r) && Run(r.base, Compile(r)) == Ok(patched)
    requires IdentitiesSound(r.base.stops, |intent.tasks|, |r.base.stops|) && MatrixFits(matrix, patched.stops)
    requires done < |r.base.stops| && r.base.stops[done].poi.id in r.completed
    requires intent.tasks[r.base.stops[done].taskIndex].required
    ensures !Accepted(patched, intent, matrix, departure)
  {
    hide Compile, Run, Solved, MatrixFits, Accepted, EvaluationOf;
    GeneratedScriptAcceptedIff(r, intent, matrix, departure, patched);
    assert !ServedOn(r, r.base.stops[done].taskIndex) by {
      forall b | b in r.base.stops && b.taskIndex == r.base.stops[done].taskIndex
        ensures b == r.base.stops[done]
      {
        var i :| 0 <= i < |r.base.stops| && r.base.stops[i] == b;
      }
    }
  }

  // ---------------------------------------------------- plans that are refused

  const NO_LIMITS := Constraints(None, None, None, None, false, [], None, [], [], [], false, 0, [])

  const PLAIN_PREFERENCES :=
    Preferences(Balanced, false, false, false, false, false, 1.0, 0.6, 0.15, 0.35, 0.8, 0.5, 0.4)

  /** Entries without conditions, and no limit but possibly one on the detour. */
  ghost predicate Unconditional(intent: Intent) {
    && (forall t :: 0 <= t < |intent.tasks| ==> intent.tasks[t] == ANY_TASK)
    && intent.constraints == NO_LIMITS.(maxDetour := intent.constraints.maxDetour)
  }

  /** Without conditions every plan of open places is feasible. */
  lemma UnconditionalIsFeasible(d: Draft, intent: Intent, matrix: Matrix, departure: real)
    requires MatrixFits(matrix, d.stops) && IdentitiesSound(d.stops, |intent.tasks|, |d.stops|)
    requires Unconditional(intent) && forall i :: 0 <= i < |d.stops| ==> d.stops[i].poi.openNow.None?
    ensures EvaluationOf(d, intent, matrix, departure).feasible
  {
    hide Evaluate, MatrixValid, Registered, Contains, KnownDistrict, LegsTo, Leave, Distance;
    var p, r := ProblemFor(d, intent, matrix, departure), Registered(d.stops, |intent.tasks|, |d.stops|);
    RegisterMeaning(d.stops, |intent.tasks|, |d.stops|);
    RegisterEvaluable(d, intent, matrix, departure);
    var legs := Legs(p, r.order, r.selected);
    FeasibleIff(p, r.order, r.selected);
    forall i | 0 <= i < |legs|
      ensures legs[i].task == ANY_TASK && legs[i].node.openNow.None?
    {
      LegAt(p, r.order, r.selected, |r.order|, i);
    }
  }

  const VISIT := Stop(Place(1), 0, ANY_TASK, 0)

  const NEXT_VISIT := Stop(Place(2), 1, ANY_TASK, 0)

  function FlatMatrix(): Matrix {
    [[Edge(0.0, 0.0, 1.0), Edge(0.0, 0.0, 1.0)], [Edge(0.0, 0.0, 1.0), Edge(0.0, 0.0, 1.0)]]
  }

  /** A feasible plan that is refused because its intent limits the detour. */
  lemma FeasibleCanBeRefused()
    ensures var (d, intent) := (Draft([VISIT], Walking, 0.0),
                                Intent([ANY_TASK], PLAIN_PREFERENCES, NO_LIMITS.(maxDetour := Some(1000.0)), []));
            && MatrixFits(FlatMatrix(), d.stops) && IdentitiesSound(d.stops, 1, 1)
            && EvaluationOf(d, intent, FlatMatrix(), 0.0).feasible
            && !Accepted(d, intent, FlatMatrix(), 0.0)
  {
    hide EvaluationOf;
    var d, intent := Draft([VISIT], Walking, 0.0),
                     Intent([ANY_TASK], PLAIN_PREFERENCES, NO_LIMITS.(maxDetour := Some(1000.0)), []);
    UnconditionalIsFeasible(d, intent, FlatMatrix(), 0.0);
    if RequiredPresent(d.stops, intent.tasks) {
      AcceptedIff(d, intent, FlatMatrix(), 0.0);
    }
  }

  // The first of two visits is completed; the second remains.
  const HALF_DONE := Replan(Draft([VISIT, NEXT_VISIT], Walking, 0.0), {1}, {}, map[], false, [0], Walking, 0.0)

  /** A generated script whose plan is feasible and still refused: the completed visit is missed. */
  lemma GeneratedCanBeRefused()
    ensures var (d, intent) := (Draft([NEXT_VISIT], Walking, 0.0),
                                Intent([ANY_TASK, ANY_TASK], PLAIN_PREFERENCES, NO_LIMITS, []));
            && Solved(HALF_DONE) && Run(HALF_DONE.base, Compile(HALF_DONE)) == Ok(d)
            && MatrixFits(FlatMatrix(), d.stops) && IdentitiesSound(d.stops, 2, 1)
            && EvaluationOf(d, intent, FlatMatrix(), 0.0).feasible && !Advisory(intent.constraints)
            && !Accepted(d, intent, FlatMatrix(), 0.0)
  {
    hide EvaluationOf, Accepted;
    var d, intent := Draft([NEXT_VISIT], Walking, 0.0),
                     Intent([ANY_TASK, ANY_TASK], PLAIN_PREFERENCES, NO_LIMITS, []);
    HalfDoneScript();
    hide Run, Compile, Solved;
    UnconditionalIsFeasible(d, intent, FlatMatrix(), 0.0);
    CompletedRequiredIsRejected(HALF_DONE, intent, FlatMatrix(), 0.0, 0, d);
  }

  lemma HalfDoneScript()
    ensures Solved(HALF_DONE) && Run(HALF_DONE.base, Compile(HALF_DONE)) == Ok(Draft([NEXT_VISIT], Walking, 0.0))
  {
    var tail := [VISIT, NEXT_VISIT][1..];
    assert tail == [NEXT_VISIT] && tail[1..] == [];
    assert Active(tail, {1}, {}, map[], false) == [Item(2, NEXT_VISIT, false)];
    assert ActiveItems(HALF_DONE) == [Item(2, NEXT_VISIT, false)];
    assert Chosen(HALF_DONE) == [Item(2, NEXT_VISIT, false)];
    assert Target(HALF_DONE) == Draft([NEXT_VISIT], Walking, 0.0);
    hide Active, Picked, Stops, Compile, Run;
    assert Ids([VISIT, NEXT_VISIT])[0] == 1 && Ids([VISIT, NEXT_VISIT])[1] == 2;
    CompiledScriptIsCorrect(HALF_DONE);
  }
}
