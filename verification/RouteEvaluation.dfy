/** The time-window simulation that scores one visiting order (route_optimizer.py). */
module RouteEvaluation {
  import opened Basics
  import opened StableSort

  datatype Task = Task(
    serviceMinutes: nat,
    minServiceMinutes: Option<nat>,
    earliest: Option<real>,
    deadline: Option<real>,
    appointment: Option<real>,
    required: bool,
    minRating: Option<real>,
    maxCost: Option<real>,
    requireOpen: bool,
    requireAccessible: bool)

  datatype Node = Node(
    taskIndex: nat,
    matrixIndex: nat,
    rating: Option<real>,
    confidence: real,
    cost: Option<real>,
    openNow: Option<bool>,
    accessible: Option<bool>,
    district: Option<string>)

  datatype Edge = Edge(duration: real, distance: real, confidence: real)

  type Matrix = seq<seq<Edge>>

  datatype Constraints = Constraints(
    latestReturn: Option<real>,
    maxWalkingMeters: Option<real>,
    maxTotalMinutes: Option<nat>,
    maxTotalCost: Option<real>,
    mustReturn: bool,
    requiredOrder: seq<nat>,
    maxDetour: Option<real>,
    avoidAreas: seq<string>,
    mustPassAreas: seq<string>,
    allowedDistricts: seq<string>,
    wheelchair: bool,
    wheelchairUsers: nat,
    categoryBudgets: seq<Option<real>>)

  datatype Goal = Balanced | ShortestTime | ShortestDistance

  datatype Preferences = Preferences(
    goal: Goal,
    relaxed: bool,
    minimizeDistance: bool,
    minimizeWalking: bool,
    minimizeCost: bool,
    preferHighRating: bool,
    travelTimeWeight: real,
    walkingTimeWeight: real,
    distanceWeight: real,
    lowRatingWeight: real,
    uncertaintyWeight: real,
    changeWeight: real,
    monetaryWeight: real)

  datatype Mode = Walking | Driving | Transit | Cycling

  /** Everything `evaluate_joint_order` is given besides the order and the selection. */
  datatype Problem = Problem(
    departure: real,
    tasks: seq<Task>,
    matrix: Matrix,
    preferences: Preferences,
    constraints: Constraints,
    mode: Mode,
    bufferMinutes: int,
    previousOrder: seq<nat>,
    baseline: Option<real>)

  datatype Conflict =
    | OrderViolated
    | AppointmentMissed(task: nat)
    | DeadlineMissed(task: nat)
    | RatingTooLow(task: nat)
    | PlaceClosed(task: nat)
    | AccessUnverified(task: nat)
    | DistrictNotAllowed(task: nat)
    | AreaAvoided(task: nat)
    | StopOverBudget(task: nat)
    | TooLong
    | ReturnTooLate
    | TooFarToWalk
    | CostUnknown
    | OverBudget
    | DistrictsUnknown
    | AreasMissed
    | DetourTooLong
    | DetourUncheckable
    | CategoryBudgetAdvisory

  datatype Evaluation = Evaluation(
    order: seq<nat>,
    nodes: seq<Node>,
    arrivals: seq<real>,
    departures: seq<real>,
    distance: real,
    seconds: real,
    feasible: bool,
    conflicts: seq<Conflict>,
    cost: real)

  type Selection = map<nat, Node>

  // ---------------------------------------------------------------- inputs

  ghost predicate MatrixValid(m: Matrix) {
    && 0 < |m|
    && (forall i :: 0 <= i < |m| ==> |m[i]| == |m|)
    && (forall i, j :: 0 <= i < |m| && 0 <= j < |m| ==> m[i][j].duration >= 0.0 && m[i][j].distance >= 0.0)
  }

  /** What the simulation indexes without checking. */
  ghost predicate Evaluable(p: Problem, order: seq<nat>, selected: Selection) {
    && MatrixValid(p.matrix)
    && forall i :: 0 <= i < |order| ==>
         order[i] < |p.tasks| && order[i] in selected && selected[order[i]].matrixIndex < |p.matrix|
  }

  /** One visited stop together with the edge that leads to it. */
  datatype Leg = Leg(taskIndex: nat, task: Task, node: Node, edge: Edge)

  /** The leg from matrix point `previous` to the place chosen for task `t`. */
  function LegFrom(p: Problem, previous: nat, t: nat, node: Node): Leg
    requires MatrixValid(p.matrix) && previous < |p.matrix| && node.matrixIndex < |p.matrix| && t < |p.tasks|
  {
    Leg(t, p.tasks[t], node, p.matrix[previous][node.matrixIndex])
  }

  /** The first `k` legs of the itinerary; leg 0 starts at matrix point 0, the origin. */
  ghost function LegsTo(p: Problem, order: seq<nat>, selected: Selection, k: nat): (legs: seq<Leg>)
    requires Evaluable(p, order, selected) && k <= |order|
    ensures |legs| == k
  {
    if k == 0 then []
    else
      LegsTo(p, order, selected, k - 1)
      + [LegFrom(p, PointBefore(order, selected, k - 1), order[k - 1], selected[order[k - 1]])]
  }

  function PointBefore(order: seq<nat>, selected: Selection, k: nat): nat
    requires k < |order| && (k > 0 ==> order[k - 1] in selected)
  {
    if k == 0 then 0 else selected[order[k - 1]].matrixIndex
  }

  lemma {:induction false} LegAt(p: Problem, order: seq<nat>, selected: Selection, k: nat, i: nat)
    requires Evaluable(p, order, selected) && i < k <= |order|
    ensures LegsTo(p, order, selected, k)[i]
            == LegFrom(p, PointBefore(order, selected, i), order[i], selected[order[i]])
  {
    if i < k - 1 {
      LegAt(p, order, selected, k - 1, i);
    }
  }

  ghost function Legs(p: Problem, order: seq<nat>, selected: Selection): (legs: seq<Leg>)
    requires Evaluable(p, order, selected)
    ensures |legs| == |order|
  {
    LegsTo(p, order, selected, |order|)
  }

  // -------------------------------------------------------------- timeline

  function ServiceSeconds(t: Task): (s: real)
    ensures s >= 0.0
  {
    60.0 * (MaxInt(t.serviceMinutes, t.minServiceMinutes.Or(0)) as real)
  }

  /** The instant service can start when the traveller reaches the stop at `t`. */
  function OpenAt(task: Task, t: real): real {
    var s := if task.appointment.Some? && t < task.appointment.value then task.appointment.value else t;
    if task.earliest.Some? && s < task.earliest.value then task.earliest.value else s
  }

  /** Clock when leaving for leg `k` (after `k` stops). */
  ghost function Leave(legs: seq<Leg>, departure: real, k: nat): real
    requires k <= |legs|
  {
    if k == 0 then departure
    else OpenAt(legs[k - 1].task, Leave(legs, departure, k - 1) + legs[k - 1].edge.duration)
         + ServiceSeconds(legs[k - 1].task)
  }

  /** Clock on reaching stop `k`, before any waiting. */
  ghost function Reach(legs: seq<Leg>, departure: real, k: nat): real
    requires k < |legs|
  {
    Leave(legs, departure, k) + legs[k].edge.duration
  }

  /** The recorded arrival at stop `k`: waiting included. */
  ghost function Arrive(legs: seq<Leg>, departure: real, k: nat): real
    requires k < |legs|
  {
    OpenAt(legs[k].task, Reach(legs, departure, k))
  }

  ghost function Travel(legs: seq<Leg>, k: nat): (r: real)
    requires k <= |legs|
  {
    if k == 0 then 0.0 else Travel(legs, k - 1) + legs[k - 1].edge.duration
  }

  ghost function Distance(legs: seq<Leg>, k: nat): real
    requires k <= |legs|
  {
    if k == 0 then 0.0 else Distance(legs, k - 1) + legs[k - 1].edge.distance
  }

  ghost function Service(legs: seq<Leg>, k: nat): real
    requires k <= |legs|
  {
    if k == 0 then 0.0 else Service(legs, k - 1) + ServiceSeconds(legs[k - 1].task)
  }

  ghost function Waiting(legs: seq<Leg>, departure: real, k: nat): real
    requires k <= |legs|
  {
    if k == 0 then 0.0
    else Waiting(legs, departure, k - 1) + (Arrive(legs, departure, k - 1) - Reach(legs, departure, k - 1))
  }

  /** Service and travel between the opening of stop `j` and reaching stop `k`. */
  ghost function Haul(legs: seq<Leg>, j: nat, k: nat): real
    requires j <= k < |legs|
  {
    if j == k then 0.0
    else Haul(legs, j, k - 1) + ServiceSeconds(legs[k - 1].task) + legs[k].edge.duration
  }

  /** `t` is the opening of a window of stop `j`. */
  ghost predicate OpensAt(task: Task, t: real) {
    task.appointment == Some(t) || task.earliest == Some(t)
  }

  /** Max-plus law: an arrival is the maximum, over the departure and every window
      opening at or before the stop, of that instant plus the travel and service after it. */
  lemma {:induction false} ArrivalIsMaxPlus(legs: seq<Leg>, departure: real, k: nat)
    requires k < |legs|
    ensures Arrive(legs, departure, k) >= departure + legs[0].edge.duration + Haul(legs, 0, k)
    ensures forall j, t :: 0 <= j <= k && OpensAt(legs[j].task, t) ==>
            Arrive(legs, departure, k) >= t + Haul(legs, j, k)
    ensures || Arrive(legs, departure, k) == departure + legs[0].edge.duration + Haul(legs, 0, k)
            || exists j, t ::
                 0 <= j <= k && OpensAt(legs[j].task, t) && Arrive(legs, departure, k) == t + Haul(legs, j, k)
  {
    var a := Arrive(legs, departure, k);
    if a != Reach(legs, departure, k) {
      assert OpensAt(legs[k].task, a) && a == a + Haul(legs, k, k);
    }
    if k > 0 {
      ArrivalIsMaxPlus(legs, departure, k - 1);
      var b := Arrive(legs, departure, k - 1);
      assert a >= Reach(legs, departure, k) == b + ServiceSeconds(legs[k - 1].task) + legs[k].edge.duration;
      forall j, t | 0 <= j <= k && OpensAt(legs[j].task, t)
        ensures a >= t + Haul(legs, j, k)
      {
        if j < k {
          assert b >= t + Haul(legs, j, k - 1);
        }
      }
      if a == Reach(legs, departure, k) && b != departure + legs[0].edge.duration + Haul(legs, 0, k - 1) {
        var j, t :| 0 <= j <= k - 1 && OpensAt(legs[j].task, t) && b == t + Haul(legs, j, k - 1);
        assert a == t + Haul(legs, j, k);
      }
    }
  }

  /** Leaving later delays every clock reading by no less than zero and no more than the delay. */
  lemma {:induction false} DelayIsBounded(legs: seq<Leg>, early: real, late: real, k: nat)
    requires early <= late && k <= |legs|
    ensures 0.0 <= Leave(legs, late, k) - Leave(legs, early, k) <= late - early
    ensures k < |legs| ==> 0.0 <= Reach(legs, late, k) - Reach(legs, early, k) <= late - early
    ensures k < |legs| ==> 0.0 <= Arrive(legs, late, k) - Arrive(legs, early, k) <= late - early
  {
    if k > 0 {
      DelayIsBounded(legs, early, late, k - 1);
    }
  }

  /** Elapsed time splits exactly into travel, service and waiting, and waiting is never negative. */
  lemma {:induction false} ElapsedSplits(legs: seq<Leg>, departure: real, k: nat)
    requires k <= |legs|
    ensures Leave(legs, departure, k) - departure == Travel(legs, k) + Service(legs, k) + Waiting(legs, departure, k)
    ensures Waiting(legs, departure, k) >= 0.0
  {
    if k > 0 {
      ElapsedSplits(legs, departure, k - 1);
    }
  }

  // ------------------------------------------------------- required order

  function Present(order: seq<nat>, required: seq<nat>): (r: seq<nat>)
    ensures forall x :: x in r <==> x in required && x in order
  {
    if required == [] then []
    else
      var front := Present(order, required[..|required| - 1]);
      var last := required[|required| - 1];
      assert required == required[..|required| - 1] + [last];
      if last in order then front + [last] else front
  }

  predicate RelativeOrderSatisfied(order: seq<nat>, required: seq<nat>) {
    var present := Present(order, required);
    present == Sort(present, x => IndexOf(order, x) as real)
  }

  /** Required tasks that occur are met in their listed order. */
  ghost predicate InListedOrder(order: seq<nat>, present: seq<nat>) {
    forall i, j :: 0 <= i < j < |present| ==> IndexOf(order, present[i]) <= IndexOf(order, present[j])
  }

  lemma RelativeOrderMeaning(order: seq<nat>, required: seq<nat>)
    ensures RelativeOrderSatisfied(order, required) <==> InListedOrder(order, Present(order, required))
  {
    hide IndexOf, Present;
    var present, key := Present(order, required), (x: nat) => IndexOf(order, x) as real;
    SortFixesSorted(present, key);
    assert forall x :: key(x) == IndexOf(order, x) as real;
    assert SortedBy(present, key) <==> InListedOrder(order, present);
  }

  // ------------------------------------------------------------- conflicts

  function When(holds: bool, c: Conflict): seq<Conflict> { if holds then [c] else [] }

  predicate Contains(text: string, part: string) {
    exists i :: 0 <= i <= |text| && part <= text[i..]
  }

  predicate ContainsAny(text: string, parts: seq<string>) {
    exists i :: 0 <= i < |parts| && Contains(text, parts[i])
  }

  function Buffer(p: Problem): real { 60.0 * (MaxInt(0, p.bufferMinutes) as real) }

  predicate NeedsAccess(p: Problem, t: Task) {
    t.requireAccessible || p.constraints.wheelchair || p.constraints.wheelchairUsers > 0
  }

  predicate KnownDistrict(n: Node) { n.district.Some? && n.district.value != "" }

  function Late(limit: Option<real>, t: real): bool { limit.Some? && t > limit.value }

  function Earlier(limit: Option<real>, margin: real): Option<real> {
    if limit.Some? then Some(limit.value - margin) else None
  }

  /** Conflicts that depend on the clock at one stop. */
  function ClockConflicts(p: Problem, leg: Leg, reach: real): seq<Conflict> {
    When(Late(leg.task.appointment, reach), AppointmentMissed(leg.taskIndex))
    + When(Late(Earlier(leg.task.deadline, Buffer(p)), OpenAt(leg.task, reach)), DeadlineMissed(leg.taskIndex))
  }

  /** Conflicts of the chosen place itself. */
  function PlaceConflicts(p: Problem, leg: Leg): seq<Conflict> {
    var t, n, c := leg.task, leg.node, p.constraints;
    When(t.minRating.Some? && (n.rating.None? || n.rating.value < t.minRating.value), RatingTooLow(leg.taskIndex))
    + When(t.requireOpen && n.openNow == Some(false), PlaceClosed(leg.taskIndex))
    + When(NeedsAccess(p, t) && n.accessible != Some(true), AccessUnverified(leg.taskIndex))
    + When(c.allowedDistricts != [] && (n.district.None? || n.district.value !in c.allowedDistricts),
           DistrictNotAllowed(leg.taskIndex))
    + When(KnownDistrict(n) && ContainsAny(n.district.value, c.avoidAreas), AreaAvoided(leg.taskIndex))
    + When(n.cost.Some? && t.maxCost.Some? && n.cost.value > t.maxCost.value, StopOverBudget(leg.taskIndex))
  }

  ghost function StopConflicts(p: Problem, legs: seq<Leg>, k: nat): seq<Conflict>
    requires k <= |legs|
  {
    if k == 0 then []
    else StopConflicts(p, legs, k - 1)
         + ClockConflicts(p, legs[k - 1], Reach(legs, p.departure, k - 1))
         + PlaceConflicts(p, legs[k - 1])
  }

  function RatingOrThree(r: Option<real>): real {
    if r.None? || r.value == 0.0 then 3.0 else r.value
  }

  // ------------------------------------------------------------- the walk

  /** Running totals of the simulation; `clock` is the current time. */
  datatype Tally = Tally(
    clock: real, seconds: real, distance: real, cost: real, costKnown: bool, districts: seq<string>,
    ratings: real, doubt: real, conflicts: seq<Conflict>, nodes: seq<Node>, arrivals: seq<real>, departures: seq<real>)

  function Start(p: Problem): Tally {
    Tally(p.departure, 0.0, 0.0, 0.0, true, [], 0.0, 0.0, [], [], [], [])
  }

  /** Travel along `leg`, check the stop, wait for it to open and be served. */
  function Visit(p: Problem, w: Tally, leg: Leg): Tally {
    var reach := w.clock + leg.edge.duration;
    var open := OpenAt(leg.task, reach);
    var leave := open + ServiceSeconds(leg.task);
    Tally(leave, w.seconds + leg.edge.duration, w.distance + leg.edge.distance,
          w.cost + leg.node.cost.Or(0.0), w.costKnown && leg.node.cost.Some?,
          w.districts + (if KnownDistrict(leg.node) then [leg.node.district.value] else []),
          w.ratings + MaxReal(0.0, 5.0 - RatingOrThree(leg.node.rating)),
          w.doubt + (1.0 - MinReal(leg.edge.confidence, leg.node.confidence)),
          w.conflicts + ClockConflicts(p, leg, reach) + PlaceConflicts(p, leg),
          w.nodes + [leg.node], w.arrivals + [open], w.departures + [leave])
  }

  /** The leg back to the origin, when one is demanded and anything was visited. */
  function Close(p: Problem, w: Tally): Tally
    requires MatrixValid(p.matrix) && (w.nodes != [] ==> w.nodes[|w.nodes| - 1].matrixIndex < |p.matrix|)
  {
    if p.constraints.mustReturn && w.nodes != [] then
      var back := p.matrix[w.nodes[|w.nodes| - 1].matrixIndex][0];
      w.(clock := w.clock + back.duration, seconds := w.seconds + back.duration,
         distance := w.distance + back.distance, doubt := w.doubt + (1.0 - back.confidence))
    else w
  }

  ghost function Walk(p: Problem, legs: seq<Leg>, k: nat): Tally
    requires k <= |legs|
  {
    if k == 0 then Start(p) else Visit(p, Walk(p, legs, k - 1), legs[k - 1])
  }

  /** The running totals are the independently defined clock, sums and conflict list. */
  lemma {:induction false} WalkParts(p: Problem, legs: seq<Leg>, k: nat)
    requires k <= |legs|
    ensures var w := Walk(p, legs, k);
            && w.clock == Leave(legs, p.departure, k)
            && w.seconds == Travel(legs, k) && w.distance == Distance(legs, k)
            && w.conflicts == StopConflicts(p, legs, k)
            && |w.nodes| == |w.arrivals| == |w.departures| == k
            && (forall i :: 0 <= i < k ==> w.nodes[i] == legs[i].node)
            && (forall i :: 0 <= i < k ==> w.arrivals[i] == Arrive(legs, p.departure, i))
            && (forall i :: 0 <= i < k ==> w.departures[i] == Leave(legs, p.departure, i + 1))
  {
    hide ClockConflicts, PlaceConflicts, OpenAt, ServiceSeconds, RatingOrThree, MaxReal, MinReal, KnownDistrict;
    if k > 0 {
      WalkParts(p, legs, k - 1);
    }
  }

  ghost function Costs(legs: seq<Leg>, k: nat): real
    requires k <= |legs|
  {
    if k == 0 then 0.0 else Costs(legs, k - 1) + legs[k - 1].node.cost.Or(0.0)
  }

  ghost predicate CostsKnown(legs: seq<Leg>, k: nat)
    requires k <= |legs|
  {
    forall i :: 0 <= i < k ==> legs[i].node.cost.Some?
  }

  /** Some stop visited before the `k`-th lies in this district. */
  ghost predicate Crossed(legs: seq<Leg>, k: nat, district: string)
    requires k <= |legs|
  {
    exists i :: 0 <= i < k && KnownDistrict(legs[i].node) && legs[i].node.district.value == district
  }

  /** What the ratings fall short of five, an unrated place counting as a three. */
  ghost function RatingGaps(legs: seq<Leg>, k: nat): real
    requires k <= |legs|
  {
    if k == 0 then 0.0 else RatingGaps(legs, k - 1) + MaxReal(0.0, 5.0 - RatingOrThree(legs[k - 1].node.rating))
  }

  /** What the less certain of each edge and its place falls short of one. */
  ghost function Doubts(legs: seq<Leg>, k: nat): real
    requires k <= |legs|
  {
    if k == 0 then 0.0
    else Doubts(legs, k - 1) + (1.0 - MinReal(legs[k - 1].edge.confidence, legs[k - 1].node.confidence))
  }

  lemma {:induction false} WalkSums(p: Problem, legs: seq<Leg>, k: nat)
    requires k <= |legs|
    ensures var w := Walk(p, legs, k);
            && w.cost == Costs(legs, k) && (w.costKnown <==> CostsKnown(legs, k))
            && (forall d :: d in w.districts <==> Crossed(legs, k, d))
            && w.ratings == RatingGaps(legs, k) && w.doubt == Doubts(legs, k)
  {
    hide ClockConflicts, PlaceConflicts, OpenAt, ServiceSeconds, RatingOrThree, MaxReal, MinReal, KnownDistrict;
    if k > 0 {
      WalkSums(p, legs, k - 1);
      CrossedStep(legs, k);
    }
  }

  lemma CrossedStep(legs: seq<Leg>, k: nat)
    requires 0 < k <= |legs|
    ensures forall d :: Crossed(legs, k, d) <==>
              Crossed(legs, k - 1, d) || (KnownDistrict(legs[k - 1].node) && legs[k - 1].node.district.value == d)
  {
    hide KnownDistrict;
  }

  function DurationConflicts(p: Problem, t: Tally): seq<Conflict> {
    var c := p.constraints;
    When(c.maxTotalMinutes.Some? && (t.clock - p.departure) / 60.0 > c.maxTotalMinutes.value as real, TooLong)
  }

  function ReturnConflicts(p: Problem, t: Tally): seq<Conflict> {
    When(Late(Earlier(p.constraints.latestReturn, Buffer(p)), t.clock), ReturnTooLate)
  }

  predicate Covers(districts: seq<string>, area: string) {
    exists j :: 0 <= j < |districts| && Contains(districts[j], area)
  }

  predicate AreasMissing(districts: seq<string>, areas: seq<string>) {
    exists i :: 0 <= i < |areas| && !Covers(districts, areas[i])
  }

  function BudgetConflicts(p: Problem, t: Tally): seq<Conflict> {
    var c := p.constraints;
    When(c.maxWalkingMeters.Some? && p.mode == Walking && t.distance > c.maxWalkingMeters.value, TooFarToWalk)
    + When(c.maxTotalCost.Some? && !t.costKnown, CostUnknown)
    + When(c.maxTotalCost.Some? && t.costKnown && t.cost > c.maxTotalCost.value, OverBudget)
    + When(c.mustPassAreas != [] && t.districts == [], DistrictsUnknown)
    + When(c.mustPassAreas != [] && t.districts != [] && AreasMissing(t.districts, c.mustPassAreas), AreasMissed)
    + When(c.maxDetour.Some? && p.baseline.Some?
           && MaxReal(0.0, t.distance - p.baseline.value) > c.maxDetour.value, DetourTooLong)
  }

  /** Advisory entries: listed with the conflicts, ignored by feasibility. */
  function SoftPenalties(p: Problem): seq<Conflict> {
    var c := p.constraints;
    When(c.maxDetour.Some? && p.baseline.None?, DetourUncheckable)
    + When(exists i :: 0 <= i < |c.categoryBudgets| && c.categoryBudgets[i].Some?, CategoryBudgetAdvisory)
  }

  function HardConflicts(p: Problem, order: seq<nat>, t: Tally): seq<Conflict> {
    When(p.constraints.requiredOrder != [] && !RelativeOrderSatisfied(order, p.constraints.requiredOrder),
        OrderViolated)
    + t.conflicts + DurationConflicts(p, t) + ReturnConflicts(p, t) + BudgetConflicts(p, t)
  }

  // ----------------------------------------------------------------- score

  /** Position of the last `x` in `s`, as building a dictionary from an enumeration keeps it. */
  function LastIndexOf(s: seq<nat>, x: nat): (r: int)
    ensures x in s ==> 0 <= r < |s| && s[r] == x
  {
    if s == [] then -1
    else if s[|s| - 1] == x then |s| - 1
    else assert s == s[..|s| - 1] + [s[|s| - 1]]; LastIndexOf(s[..|s| - 1], x)
  }

  /** Entries `i` and `j` of `order` also occur in `previous`, ranked the other way round. */
  predicate Inverted(order: seq<nat>, previous: seq<nat>, i: nat, j: nat)
    requires i < |order| && j < |order|
  {
    && order[i] in previous && order[j] in previous
    && var (a, b) := (LastIndexOf(order, order[i]), LastIndexOf(order, order[j]));
       var (x, y) := (LastIndexOf(previous, order[i]), LastIndexOf(previous, order[j]));
       (a < b && x > y) || (a > b && x < y)
  }

  /** How many of the entries after `i` and before `j` are inverted against entry `i`. */
  ghost function InvertedWith(order: seq<nat>, previous: seq<nat>, i: nat, j: nat): nat
    requires i < j <= |order|
  {
    if j == i + 1 then 0
    else InvertedWith(order, previous, i, j - 1) + (if Inverted(order, previous, i, j - 1) then 1 else 0)
  }

  ghost function Disagreements(order: seq<nat>, previous: seq<nat>, i: nat): nat
    requires i <= |order|
  {
    if i == 0 then 0 else Disagreements(order, previous, i - 1) + InvertedWith(order, previous, i - 1, |order|)
  }

  lemma {:induction false} NoInversionWith(order: seq<nat>, previous: seq<nat>, i: nat, j: nat)
    requires i < j <= |order|
    ensures InvertedWith(order, previous, i, j) == 0 <==> forall b :: i < b < j ==> !Inverted(order, previous, i, b)
  {
    if j > i + 1 {
      NoInversionWith(order, previous, i, j - 1);
    }
  }

  /** The change penalty vanishes exactly when no pair of shared tasks swapped sides, so an order
      has none against itself. */
  lemma {:induction false} NoChangePenalty(order: seq<nat>, previous: seq<nat>, i: nat)
    requires i <= |order|
    ensures Disagreements(order, previous, i) == 0 <==>
            forall a, b :: 0 <= a < i && a < b < |order| ==> !Inverted(order, previous, a, b)
    ensures Disagreements(order, order, i) == 0
  {
    if i > 0 {
      NoChangePenalty(order, previous, i - 1);
      NoInversionWith(order, previous, i - 1, |order|);
      NoInversionWith(order, order, i - 1, |order|);
    }
  }

  function Score(p: Problem, t: Tally, disagreements: nat): real {
    var w := p.preferences;
    var relaxed := if w.relaxed then 1.5 else 1.0;
    t.seconds * w.travelTimeWeight
    + (if p.mode == Walking then t.seconds else 0.0)
      * (w.walkingTimeWeight * (if w.minimizeWalking then 2.0 else 1.0) * relaxed)
    + (t.distance / 10.0) * (w.distanceWeight * (if w.minimizeDistance then 2.0 else 1.0) * relaxed)
    + (t.ratings * 600.0) * (w.lowRatingWeight * (if w.preferHighRating then 2.0 else 1.0))
    + (t.doubt * 600.0) * w.uncertaintyWeight
    + t.cost * 60.0 * w.monetaryWeight * (if w.minimizeCost then 2.0 else 1.0)
    + ((disagreements * 120) as real) * w.changeWeight
    + 180.0 * (|SoftPenalties(p)| as real)
  }

  function Conclude(p: Problem, order: seq<nat>, t: Tally, disagreements: nat): Evaluation {
    var hard := HardConflicts(p, order, t);
    Evaluation(order, t.nodes, t.arrivals, t.departures, t.distance, t.seconds, hard == [],
               hard + SoftPenalties(p), Score(p, t, disagreements))
  }

  /** The totals of a whole itinerary, return leg included. */
  ghost function TotalsOf(p: Problem, order: seq<nat>, selected: Selection): Tally
    requires Evaluable(p, order, selected)
  {
    var legs := Legs(p, order, selected);
    WalkEndsOnMatrix(p, order, selected);
    Close(p, Walk(p, legs, |legs|))
  }

  lemma WalkEndsOnMatrix(p: Problem, order: seq<nat>, selected: Selection)
    requires Evaluable(p, order, selected)
    ensures var nodes := Walk(p, Legs(p, order, selected), |order|).nodes;
            |nodes| == |order| && (nodes != [] ==> nodes[|nodes| - 1].matrixIndex < |p.matrix|)
  {
    hide Walk, LegsTo, MatrixValid;
    WalkParts(p, Legs(p, order, selected), |order|);
    if order != [] {
      LegAt(p, order, selected, |order|, |order| - 1);
    }
  }

  ghost function Evaluate(p: Problem, order: seq<nat>, selected: Selection): Evaluation
    requires Evaluable(p, order, selected)
  {
    Conclude(p, order, TotalsOf(p, order, selected), Disagreements(order, p.previousOrder, |order|))
  }

  lemma SignOfProduct(x: int, y: int)
    ensures x * y < 0 <==> (x < 0 && y > 0) || (x > 0 && y < 0)
  {}

  method CountDisagreements(order: seq<nat>, previous: seq<nat>) returns (count: nat)
    ensures count == Disagreements(order, previous, |order|)
  {
    count := 0;
    for i := 0 to |order|
      invariant count == Disagreements(order, previous, i)
    {
      for j := i + 1 to |order|
        invariant count == Disagreements(order, previous, i) + InvertedWith(order, previous, i, j)
      {
        if order[i] in previous && order[j] in previous {
          var here := LastIndexOf(order, order[i]) - LastIndexOf(order, order[j]);
          var there := LastIndexOf(previous, order[i]) - LastIndexOf(previous, order[j]);
          SignOfProduct(here, there);
          if here * there < 0 {
            count := count + 1;
          }
        }
      }
    }
  }

  /** The simulation itself: one pass over the order, then the leg home. */
  method EvaluateJointOrder(p: Problem, order: seq<nat>, selected: Selection) returns (e: Evaluation)
    requires Evaluable(p, order, selected)
    ensures e == Evaluate(p, order, selected)
  {
    hide Visit, Close, Conclude, MatrixValid, KnownDistrict;
    ghost var legs := Legs(p, order, selected);
    var w, previous := Start(p), 0;
    for k := 0 to |order|
      invariant previous == (if k == 0 then 0 else selected[order[k - 1]].matrixIndex)
      invariant w == Walk(p, legs, k)
    {
      LegAt(p, order, selected, |order|, k);
      w := Visit(p, w, LegFrom(p, previous, order[k], selected[order[k]]));
      previous := selected[order[k]].matrixIndex;
    }
    WalkParts(p, legs, |legs|);
    if order != [] {
      LegAt(p, order, selected, |order|, |order| - 1);
    }
    w := Close(p, w);
    var changed := CountDisagreements(order, p.previousOrder);
    e := Conclude(p, order, w, changed);
  }

  // ------------------------------------------------ what feasibility means

  /** Stop `i` is reached before its appointment and started before its deadline less the buffer. */
  ghost predicate InTime(p: Problem, legs: seq<Leg>, i: nat)
    requires i < |legs|
  {
    var task := legs[i].task;
    && (task.appointment.Some? ==> Reach(legs, p.departure, i) <= task.appointment.value)
    && (task.deadline.Some? ==> Arrive(legs, p.departure, i) <= task.deadline.value - Buffer(p))
  }

  /** The place meets what its task and the plan ask of it. */
  ghost predicate PlaceFits(p: Problem, task: Task, place: Node) {
    var c := p.constraints;
    && (task.minRating.Some? ==> place.rating.Some? && place.rating.value >= task.minRating.value)
    && (task.requireOpen ==> place.openNow != Some(false))
    && (NeedsAccess(p, task) ==> place.accessible == Some(true))
    && (c.allowedDistricts != [] ==> place.district.Some? && place.district.value in c.allowedDistricts)
    && (KnownDistrict(place) ==> forall area :: area in c.avoidAreas ==> !Contains(place.district.value, area))
    && (task.maxCost.Some? && place.cost.Some? ==> place.cost.value <= task.maxCost.value)
  }

  lemma NoPlaceConflicts(p: Problem, leg: Leg)
    ensures PlaceConflicts(p, leg) == [] <==> PlaceFits(p, leg.task, leg.node)
  {
    hide Contains, NeedsAccess, KnownDistrict;
  }

  /** The conflicts of the stops are empty exactly when each is in time at a fitting place. */
  lemma {:induction false} NoStopConflicts(p: Problem, legs: seq<Leg>, k: nat)
    requires k <= |legs|
    ensures StopConflicts(p, legs, k) == [] <==>
            forall i :: 0 <= i < k ==> InTime(p, legs, i) && PlaceFits(p, legs[i].task, legs[i].node)
  {
    hide PlaceConflicts, PlaceFits, InTime, ClockConflicts, Reach;
    if k > 0 {
      NoStopConflicts(p, legs, k - 1);
      NoPlaceConflicts(p, legs[k - 1]);
      NoClockConflicts(p, legs, k - 1);
    }
  }

  lemma NoClockConflicts(p: Problem, legs: seq<Leg>, i: nat)
    requires i < |legs|
    ensures ClockConflicts(p, legs[i], Reach(legs, p.departure, i)) == [] <==> InTime(p, legs, i)
  {
    hide Buffer, OpenAt;
  }

  /** The way home; none is due unless the plan must return and visits something. */
  ghost function Home(p: Problem, legs: seq<Leg>): Edge
    requires MatrixValid(p.matrix) && (legs != [] ==> legs[|legs| - 1].node.matrixIndex < |p.matrix|)
  {
    if p.constraints.mustReturn && legs != [] then p.matrix[legs[|legs| - 1].node.matrixIndex][0]
        else Edge(0.0, 0.0, 1.0)
  }

  /** The limits on the whole trip: visiting order, total duration, return time, walking, cost,
      districts to pass through, and detour over the baseline. */
  ghost predicate TripHolds(p: Problem, order: seq<nat>, legs: seq<Leg>, end: real, meters: real) {
    var c := p.constraints;
    && InListedOrder(order, Present(order, c.requiredOrder))
    && (c.maxTotalMinutes.Some? ==> end - p.departure <= 60.0 * (c.maxTotalMinutes.value as real))
    && (c.latestReturn.Some? ==> end <= c.latestReturn.value - Buffer(p))
    && (c.maxWalkingMeters.Some? && p.mode == Walking ==> meters <= c.maxWalkingMeters.value)
    && (c.maxTotalCost.Some? ==> CostsKnown(legs, |legs|) && Costs(legs, |legs|) <= c.maxTotalCost.value)
    && (forall area :: area in c.mustPassAreas ==> Passes(legs, area))
    && (c.maxDetour.Some? && p.baseline.Some? ==> MaxReal(0.0, meters - p.baseline.value) <= c.maxDetour.value)
  }

  /** Some visited stop lies in a known district whose name contains `area`. */
  ghost predicate Passes(legs: seq<Leg>, area: string) {
    exists i :: 0 <= i < |legs| && KnownDistrict(legs[i].node) && Contains(legs[i].node.district.value, area)
  }

  lemma AreasPassed(legs: seq<Leg>, districts: seq<string>, areas: seq<string>)
    requires forall d :: d in districts <==> Crossed(legs, |legs|, d)
    ensures (areas == [] || (districts != [] && !AreasMissing(districts, areas))) <==>
            forall area :: area in areas ==> Passes(legs, area)
  {
    hide Contains;
    forall area
      ensures Passes(legs, area) <==> Covers(districts, area)
    {
      if Passes(legs, area) {
        var i :| 0 <= i < |legs| && KnownDistrict(legs[i].node) && Contains(legs[i].node.district.value, area);
        assert legs[i].node.district.value in districts;
      }
      if Covers(districts, area) {
        var j :| 0 <= j < |districts| && Contains(districts[j], area);
        assert Crossed(legs, |legs|, districts[j]);
      }
    }
    hide Passes;
    assert districts == [] ==> forall area :: !Covers(districts, area);
    hide Covers;
    assert areas != [] ==> areas[0] in areas;
  }

  /** The totals of an itinerary in closed form, the way home included. */
  lemma TotalsClosed(p: Problem, order: seq<nat>, selected: Selection)
    requires Evaluable(p, order, selected)
    ensures var (t, legs) := (TotalsOf(p, order, selected), Legs(p, order, selected));
            && (legs != [] ==> legs[|legs| - 1].node.matrixIndex < |p.matrix|)
            && var n := |legs|;
            && t.clock == Leave(legs, p.departure, n) + Home(p, legs).duration
            && t.seconds == Travel(legs, n) + Home(p, legs).duration
            && t.distance == Distance(legs, n) + Home(p, legs).distance
            && t.cost == Costs(legs, n) && (t.costKnown <==> CostsKnown(legs, n))
            && (forall d :: d in t.districts <==> Crossed(legs, n, d))
            && t.ratings == RatingGaps(legs, n) && t.doubt == Doubts(legs, n) + (1.0 - Home(p, legs).confidence)
            && t.conflicts == StopConflicts(p, legs, n)
  {
    hide Walk, StopConflicts, LegsTo, MatrixValid, Crossed, CostsKnown;
    var legs := Legs(p, order, selected);
    WalkParts(p, legs, |legs|);
    WalkSums(p, legs, |legs|);
    if order != [] {
      LegAt(p, order, selected, |order|, |order| - 1);
    }
  }

  lemma OrderConflict(p: Problem, order: seq<nat>)
    ensures (p.constraints.requiredOrder == [] || RelativeOrderSatisfied(order, p.constraints.requiredOrder))
            <==> InListedOrder(order, Present(order, p.constraints.requiredOrder))
  {
    hide RelativeOrderSatisfied;
    RelativeOrderMeaning(order, p.constraints.requiredOrder);
  }

  lemma TripConflicts(p: Problem, order: seq<nat>, legs: seq<Leg>, t: Tally)
    requires t.cost == Costs(legs, |legs|) && (t.costKnown <==> CostsKnown(legs, |legs|))
    requires forall d :: d in t.districts <==> Crossed(legs, |legs|, d)
    ensures && (p.constraints.requiredOrder == [] || RelativeOrderSatisfied(order, p.constraints.requiredOrder))
            && DurationConflicts(p, t) == [] && ReturnConflicts(p, t) == [] && BudgetConflicts(p, t) == []
            <==> TripHolds(p, order, legs, t.clock, t.distance)
  {
    hide RelativeOrderSatisfied, InListedOrder, Present, AreasMissing, Passes, CostsKnown, Costs, MaxReal, Buffer,
        Crossed;
    OrderConflict(p, order);
    AreasPassed(legs, t.districts, p.constraints.mustPassAreas);
  }

  lemma NoHardConflicts(p: Problem, order: seq<nat>, t: Tally)
    ensures HardConflicts(p, order, t) == [] <==>
            && (p.constraints.requiredOrder == [] || RelativeOrderSatisfied(order, p.constraints.requiredOrder))
            && t.conflicts == [] && DurationConflicts(p, t) == []
            && ReturnConflicts(p, t) == [] && BudgetConflicts(p, t) == []
  {
    hide DurationConflicts, ReturnConflicts, BudgetConflicts, RelativeOrderSatisfied;
  }

  /** Feasibility over the inputs: every stop in time at a fitting place, and the limits of the whole
      trip kept on the clock and the distance at its end. */
  lemma FeasibleIff(p: Problem, order: seq<nat>, selected: Selection)
    requires Evaluable(p, order, selected)
    ensures var (legs, n) := (Legs(p, order, selected), |order|);
            && (legs != [] ==> legs[n - 1].node.matrixIndex < |p.matrix|)
            && (Evaluate(p, order, selected).feasible <==>
                && (forall i :: 0 <= i < n ==> InTime(p, legs, i) && PlaceFits(p, legs[i].task, legs[i].node))
                && TripHolds(p, order, legs, Leave(legs, p.departure, n) + Home(p, legs).duration,
                             Distance(legs, n) + Home(p, legs).distance))
  {
    hide HardConflicts, DurationConflicts, ReturnConflicts, BudgetConflicts, Score, SoftPenalties, Disagreements;
    hide TripHolds, PlaceFits, InTime, RelativeOrderSatisfied, TotalsOf, Crossed, CostsKnown, Costs, StopConflicts;
    hide RatingGaps, Doubts, Home, LegsTo, Evaluable, Leave, Distance, Travel;
    var legs, t := Legs(p, order, selected), TotalsOf(p, order, selected);
    TotalsClosed(p, order, selected);
    NoStopConflicts(p, legs, |order|);
    NoHardConflicts(p, order, t);
    TripConflicts(p, order, legs, t);
  }

  /** The total duration limit, as a condition on the final clock. */
  ghost predicate WithinDuration(p: Problem, t: Tally) {
    p.constraints.maxTotalMinutes.Some? ==>
        t.clock - p.departure <= 60.0 * (p.constraints.maxTotalMinutes.value as real)
  }

  lemma StopStaysClear(p: Problem, q: Problem, legs: seq<Leg>, i: nat)
    requires q == p.(departure := q.departure, bufferMinutes := q.bufferMinutes)
    requires q.departure <= p.departure && Buffer(q) <= Buffer(p) && i < |legs|
    requires InTime(p, legs, i) && PlaceFits(p, legs[i].task, legs[i].node)
    ensures InTime(q, legs, i) && PlaceFits(q, legs[i].task, legs[i].node)
  {
    hide Buffer, Reach, Arrive, Contains, KnownDistrict;
    DelayIsBounded(legs, q.departure, p.departure, i);
  }

  lemma StopsStayClear(p: Problem, q: Problem, legs: seq<Leg>)
    requires q == p.(departure := q.departure, bufferMinutes := q.bufferMinutes)
    requires q.departure <= p.departure && Buffer(q) <= Buffer(p)
    requires StopConflicts(p, legs, |legs|) == []
    ensures StopConflicts(q, legs, |legs|) == []
  {
    hide InTime, PlaceFits, StopConflicts, Buffer;
    NoStopConflicts(p, legs, |legs|);
    NoStopConflicts(q, legs, |legs|);
    forall i | 0 <= i < |legs|
      ensures InTime(q, legs, i) && PlaceFits(q, legs[i].task, legs[i].node)
    {
      StopStaysClear(p, q, legs, i);
    }
  }

  /** Only clock, arrivals, departures and conflicts of a walk depend on the departure. */
  lemma {:induction false} WalkApartFromClock(p: Problem, q: Problem, legs: seq<Leg>, k: nat)
    requires q == p.(departure := q.departure, bufferMinutes := q.bufferMinutes) && k <= |legs|
    ensures var (w, v) := (Walk(p, legs, k), Walk(q, legs, k));
            v == w.(clock := v.clock, conflicts := v.conflicts, arrivals := v.arrivals, departures := v.departures)
  {
    hide ClockConflicts, PlaceConflicts, OpenAt, ServiceSeconds, RatingOrThree, MaxReal, MinReal, KnownDistrict;
    if k > 0 {
      WalkApartFromClock(p, q, legs, k - 1);
    }
  }

  lemma RouteStaysClear(p: Problem, q: Problem, t: Tally, u: Tally)
    requires q == p.(departure := q.departure, bufferMinutes := q.bufferMinutes) && Buffer(q) <= Buffer(p)
    requires u == t.(clock := u.clock, conflicts := u.conflicts, arrivals := u.arrivals, departures := u.departures)
    requires u.clock <= t.clock
    requires ReturnConflicts(p, t) == [] && BudgetConflicts(p, t) == []
    ensures ReturnConflicts(q, u) == [] && BudgetConflicts(q, u) == []
  {
    hide AreasMissing;
  }

  lemma {:induction false} LegsIgnoreClock(p: Problem, q: Problem, order: seq<nat>, selected: Selection, k: nat)
    requires q == p.(departure := q.departure, bufferMinutes := q.bufferMinutes)
    requires Evaluable(p, order, selected) && Evaluable(q, order, selected) && k <= |order|
    ensures LegsTo(p, order, selected, k) == LegsTo(q, order, selected, k)
  {
    if k > 0 {
      LegsIgnoreClock(p, q, order, selected, k - 1);
    }
  }

  /** The totals of the two walks differ in clock readings and conflicts only, and the earlier stays earlier. */
  lemma TotalsApartFromClock(p: Problem, q: Problem, order: seq<nat>, selected: Selection)
    requires q == p.(departure := q.departure, bufferMinutes := q.bufferMinutes)
    requires Evaluable(p, order, selected) && Evaluable(q, order, selected)
    requires q.departure <= p.departure && Buffer(q) <= Buffer(p)
    ensures var (t, u) := (TotalsOf(p, order, selected), TotalsOf(q, order, selected));
            && u == t.(clock := u.clock, conflicts := u.conflicts, arrivals := u.arrivals, departures := u.departures)
            && u.clock <= t.clock
            && (t.conflicts == [] ==> u.conflicts == [])
  {
    hide StopConflicts, Leave, Walk, Evaluable, Buffer, LegsTo;
    var legs := Legs(p, order, selected);
    LegsIgnoreClock(p, q, order, selected, |order|);
    WalkParts(p, legs, |legs|);
    WalkParts(q, legs, |legs|);
    WalkApartFromClock(p, q, legs, |legs|);
    DelayIsBounded(legs, q.departure, p.departure, |legs|);
    if StopConflicts(p, legs, |legs|) == [] {
      StopsStayClear(p, q, legs);
    }
  }

  /** Leaving earlier, with a smaller safety buffer, keeps a feasible plan feasible exactly
      when the duration limit (if any) still holds: only extra waiting can break it. */
  lemma EarlierDepartureStaysFeasible(p: Problem, q: Problem, order: seq<nat>, selected: Selection)
    requires q == p.(departure := q.departure, bufferMinutes := q.bufferMinutes)
    requires Evaluable(p, order, selected) && Evaluable(q, order, selected)
    requires q.departure <= p.departure && Buffer(q) <= Buffer(p)
    requires Evaluate(p, order, selected).feasible
    ensures Evaluate(q, order, selected).feasible <==> WithinDuration(q, TotalsOf(q, order, selected))
  {
    hide HardConflicts, ReturnConflicts, BudgetConflicts, Score, SoftPenalties, Disagreements, TotalsOf;
    hide Evaluable, Buffer, RelativeOrderSatisfied;
    var t, u := TotalsOf(p, order, selected), TotalsOf(q, order, selected);
    TotalsApartFromClock(p, q, order, selected);
    NoHardConflicts(p, order, t);
    NoHardConflicts(q, order, u);
    RouteStaysClear(p, q, t, u);
  }

  /** One museum that opens an hour after midnight, five minutes from the origin; twenty minutes are
      allowed in total. */
  function WaitingExample(departure: real): Problem {
    Problem(departure,
            [Task(0, None, Some(3600.0), None, None, true, None, None, true, false)],
            [[Edge(0.0, 0.0, 1.0), Edge(300.0, 400.0, 1.0)], [Edge(300.0, 400.0, 1.0), Edge(0.0, 0.0, 1.0)]],
            Preferences(Balanced, false, false, false, false, false, 1.0, 0.6, 0.15, 0.35, 0.8, 0.5, 0.4),
            Constraints(None, None, Some(20), None, false, [], None, [], [], [], false, 0, []),
            Walking, 0, [], None)
  }

  const THE_VISIT: Selection := map[0 := Node(0, 1, None, 1.0, None, None, None, None)]

  lemma WaitingExampleEvaluable(departure: real)
    ensures Evaluable(WaitingExample(departure), [0], THE_VISIT)
  {}

  lemma WaitingExampleTotals(departure: real)
    requires departure == 0.0 || departure == 3600.0
    requires Evaluable(WaitingExample(departure), [0], THE_VISIT)
    ensures TotalsOf(WaitingExample(departure), [0], THE_VISIT).clock
            == if departure == 0.0 then 3600.0 else 3900.0
    ensures TotalsOf(WaitingExample(departure), [0], THE_VISIT).conflicts == []
  {
    hide Contains, KnownDistrict, Evaluable, Walk;
    var p := WaitingExample(departure);
    LegAt(p, [0], THE_VISIT, 1, 0);
    var legs := Legs(p, [0], THE_VISIT);
    WalkParts(p, legs, 1);
    NoStopConflicts(p, legs, 1);
    assert Leave(legs, departure, 0) == departure;
    assert Leave(legs, departure, 1) == if departure == 0.0 then 3600.0 else 3900.0;
    assert InTime(p, legs, 0) && PlaceFits(p, legs[0].task, legs[0].node);
  }

  /** Without the duration condition the claim is false: leaving at midnight instead of at
      one o'clock makes the same single visit infeasible. */
  lemma EarlierDepartureCanBreakDuration()
    ensures Evaluable(WaitingExample(3600.0), [0], THE_VISIT) && Evaluable(WaitingExample(0.0), [0], THE_VISIT)
    ensures Evaluate(WaitingExample(3600.0), [0], THE_VISIT).feasible
    ensures !Evaluate(WaitingExample(0.0), [0], THE_VISIT).feasible
  {
    hide Evaluable, TotalsOf, HardConflicts, Score, Disagreements;
    WaitingExampleEvaluable(0.0);
    WaitingExampleEvaluable(3600.0);
    WaitingExampleTotals(0.0);
    WaitingExampleTotals(3600.0);
    NoHardConflicts(WaitingExample(0.0), [0], TotalsOf(WaitingExample(0.0), [0], THE_VISIT));
    NoHardConflicts(WaitingExample(3600.0), [0], TotalsOf(WaitingExample(3600.0), [0], THE_VISIT));
  }
}
