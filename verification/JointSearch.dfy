/** Choosing one candidate per task and a visiting order: exhaustive search and pruned beam. */
module JointSearch {
  import opened Basics
  import opened StableSort
  import opened Enumeration
  import opened RouteEvaluation

  type Groups = seq<seq<Node>>

  const BEAM_WIDTH: nat := 250
  const EXACT_TASK_LIMIT: nat := 6
  const EXACT_WORK_LIMIT: nat := 60000

  /** What the search takes for granted: group i holds candidates of task i, inside the matrix. */
  ghost predicate GroupsValid(p: Problem, groups: Groups) {
    && MatrixValid(p.matrix)
    && |groups| == |p.tasks|
    && forall t, node :: 0 <= t < |groups| && node in groups[t] ==> node.taskIndex == t && node.matrixIndex < |p.matrix|
  }

  ghost predicate IsSelection(groups: Groups, selected: Selection) {
    && (forall t: nat :: t in selected <==> t < |groups|)
    && forall t: nat :: t < |groups| ==> selected[t] in groups[t]
  }

  /** A complete plan: every task once, one candidate of its own group each. */
  ghost predicate IsPlan(groups: Groups, order: seq<nat>, selected: Selection) {
    IsPermutation(order, |groups|) && IsSelection(groups, selected)
  }

  lemma PlanIsEvaluable(p: Problem, groups: Groups, order: seq<nat>, selected: Selection)
    requires GroupsValid(p, groups) && IsPlan(groups, order, selected)
    ensures Evaluable(p, order, selected)
  {}

  // ------------------------------------------------------------------ keys

  datatype Key = Key(infeasible: bool, conflicts: nat, first: real, second: real, third: real)

  function EvaluationKey(e: Evaluation, goal: Goal): Key {
    match goal
    case ShortestTime => Key(!e.feasible, |e.conflicts|, e.seconds, e.distance, e.cost)
    case ShortestDistance => Key(!e.feasible, |e.conflicts|, e.distance, e.seconds, e.cost)
    case Balanced => Key(!e.feasible, |e.conflicts|, e.cost, e.distance, e.seconds)
  }

  /** Lexicographic tuple comparison, false before true. */
  predicate Less(a: Key, b: Key) {
    if a.infeasible != b.infeasible then b.infeasible
    else if a.conflicts != b.conflicts then a.conflicts < b.conflicts
    else if a.first != b.first then a.first < b.first
    else if a.second != b.second then a.second < b.second
    else a.third < b.third
  }

  predicate NoWorse(a: Evaluation, b: Evaluation, goal: Goal) {
    !Less(EvaluationKey(b, goal), EvaluationKey(a, goal))
  }

  method PickBest(evaluations: seq<Evaluation>, goal: Goal) returns (best: Evaluation)
    requires evaluations != []
    ensures best in evaluations
    ensures forall e :: e in evaluations ==> NoWorse(best, e, goal)
  {
    best := evaluations[0];
    for i := 1 to |evaluations|
      invariant best in evaluations
      invariant forall j :: 0 <= j < i ==> NoWorse(best, evaluations[j], goal)
    {
      if Less(EvaluationKey(evaluations[i], goal), EvaluationKey(best, goal)) {
        best := evaluations[i];
      }
    }
  }

  // ---------------------------------------------------------- exact search

  /** The dictionary built from one choice per group. */
  function SelectionOf(choice: seq<Node>): (selected: Selection)
  {
    if choice == [] then map[]
    else SelectionOf(choice[..|choice| - 1])[choice[|choice| - 1].taskIndex := choice[|choice| - 1]]
  }

  lemma {:induction false} SelectionOfChoice(choice: seq<Node>)
    requires forall i :: 0 <= i < |choice| ==> choice[i].taskIndex == i
    ensures forall t: nat :: t in SelectionOf(choice) <==> t < |choice|
    ensures forall t: nat :: t < |choice| ==> SelectionOf(choice)[t] == choice[t]
  {
    if choice != [] {
      SelectionOfChoice(choice[..|choice| - 1]);
    }
  }

  lemma ChoiceIsSelection(p: Problem, groups: Groups, choice: seq<Node>)
    requires GroupsValid(p, groups) && choice in Product(groups)
    ensures IsSelection(groups, SelectionOf(choice))
  {
    ProductIsExact(groups, choice);
    SelectionOfChoice(choice);
  }

  lemma SelectionIsChoice(p: Problem, groups: Groups, selected: Selection) returns (choice: seq<Node>)
    requires GroupsValid(p, groups) && IsSelection(groups, selected)
    ensures choice in Product(groups) && SelectionOf(choice) == selected
  {
    choice := seq(|groups|, t requires 0 <= t < |groups| => selected[t]);
    forall t | 0 <= t < |groups|
      ensures choice[t] in groups[t] && choice[t].taskIndex == t && t in selected && choice[t] == selected[t]
    {
    }
    assert forall t: nat :: t in selected ==> t < |groups|;
    hide GroupsValid, IsSelection, Product, SelectionOf;
    ProductIsExact(groups, choice);
    SelectionOfChoice(choice);
    assert SelectionOf(choice).Keys == selected.Keys;
  }

  ghost predicate FromPlan(p: Problem, groups: Groups, e: Evaluation) {
    exists order, selected :: IsPlan(groups, order, selected) && Evaluable(p, order, selected)
                              && e == Evaluate(p, order, selected)
  }

  /** Scores one choice of candidates with every order. */
  method EvaluateOrders(p: Problem, groups: Groups, selected: Selection, orders: seq<seq<nat>>)
      returns (evaluations: seq<Evaluation>)
    requires GroupsValid(p, groups) && IsSelection(groups, selected)
    requires forall b :: 0 <= b < |orders| ==> IsPermutation(orders[b], |groups|)
    ensures |evaluations| == |orders|
    ensures forall b :: 0 <= b < |orders| ==>
              Evaluable(p, orders[b], selected) && evaluations[b] == Evaluate(p, orders[b], selected)
  {
    hide Evaluate, Evaluable, IsPermutation, IsSelection, GroupsValid;
    evaluations := [];
    for j := 0 to |orders|
      invariant |evaluations| == j
      invariant forall b :: 0 <= b < j ==>
                  Evaluable(p, orders[b], selected) && evaluations[b] == Evaluate(p, orders[b], selected)
    {
      PlanIsEvaluable(p, groups, orders[j], selected);
      var e := EvaluateJointOrder(p, orders[j], selected);
      evaluations := evaluations + [e];
    }
  }

  /** Every listed order of this selection has been scored. */
  ghost predicate Scored(p: Problem, selected: Selection, orders: seq<seq<nat>>, evaluations: seq<Evaluation>) {
    forall b :: 0 <= b < |orders| && Evaluable(p, orders[b], selected) ==>
        Evaluate(p, orders[b], selected) in evaluations
  }

  lemma ScoredGrows(p: Problem, selected: Selection, orders: seq<seq<nat>>, before: seq<Evaluation>,
      more: seq<Evaluation>)
    requires Scored(p, selected, orders, before) || Scored(p, selected, orders, more)
    ensures Scored(p, selected, orders, before + more)
  {
    hide Evaluate, Evaluable;
  }

  lemma EveryOrderScored(p: Problem, selected: Selection, orders: seq<seq<nat>>, evaluations: seq<Evaluation>)
    requires |evaluations| == |orders|
    requires forall b :: 0 <= b < |orders| ==>
               Evaluable(p, orders[b], selected) && evaluations[b] == Evaluate(p, orders[b], selected)
    ensures Scored(p, selected, orders, evaluations)
  {
    hide Evaluate, Evaluable;
    assert forall b :: 0 <= b < |orders| ==> evaluations[b] in evaluations;
  }

  method ScoreChoices(p: Problem, groups: Groups, choices: seq<seq<Node>>, orders: seq<seq<nat>>)
      returns (evaluations: seq<Evaluation>)
    requires GroupsValid(p, groups) && choices == Product(groups)
    requires forall b :: 0 <= b < |orders| ==> IsPermutation(orders[b], |groups|)
    ensures forall e :: e in evaluations ==> FromPlan(p, groups, e)
    ensures forall a :: 0 <= a < |choices| ==> Scored(p, SelectionOf(choices[a]), orders, evaluations)
  {
    hide Evaluate, Evaluable, IsPermutation, IsSelection, Product, SelectionOf, Scored, FromPlan, GroupsValid;
    evaluations := [];
    for i := 0 to |choices|
      invariant forall e :: e in evaluations ==> FromPlan(p, groups, e)
      invariant forall a :: 0 <= a < i ==> Scored(p, SelectionOf(choices[a]), orders, evaluations)
    {
      var selected := SelectionOf(choices[i]);
      ChoiceIsSelection(p, groups, choices[i]);
      var more := EvaluateOrders(p, groups, selected, orders);
      FromPlans(p, groups, selected, orders, more);
      EveryOrderScored(p, selected, orders, more);
      forall a | 0 <= a <= i
        ensures Scored(p, SelectionOf(choices[a]), orders, evaluations + more)
      {
        ScoredGrows(p, SelectionOf(choices[a]), orders, evaluations, more);
      }
      evaluations := evaluations + more;
    }
  }

  /** Scores every combination of one candidate per group with every order. */
  method EnumerateExact(p: Problem, groups: Groups) returns (evaluations: seq<Evaluation>)
    requires GroupsValid(p, groups)
    ensures forall e :: e in evaluations ==> FromPlan(p, groups, e)
    ensures forall order, selected :: IsPlan(groups, order, selected) && Evaluable(p, order, selected) ==>
              Evaluate(p, order, selected) in evaluations
  {
    var choices, orders := Product(groups), Permutations(Range(|groups|));
    forall b | 0 <= b < |orders|
      ensures IsPermutation(orders[b], |groups|)
    {
      PermutationMeaning(orders[b], |groups|);
    }
    hide Evaluate, Evaluable, IsPermutation, IsSelection, Product, Permutations, SelectionOf, Scored, FromPlan;
    evaluations := ScoreChoices(p, groups, choices, orders);
    forall order, selected | IsPlan(groups, order, selected) && Evaluable(p, order, selected)
      ensures Evaluate(p, order, selected) in evaluations
    {
      PlanScored(p, groups, choices, orders, evaluations, order, selected);
    }
  }

  lemma PlanScored(
    p: Problem, groups: Groups, choices: seq<seq<Node>>, orders: seq<seq<nat>>, evaluations: seq<Evaluation>,
    order: seq<nat>, selected: Selection)
    requires GroupsValid(p, groups) && choices == Product(groups) && orders == Permutations(Range(|groups|))
    requires forall a :: 0 <= a < |choices| ==> Scored(p, SelectionOf(choices[a]), orders, evaluations)
    requires IsPlan(groups, order, selected) && Evaluable(p, order, selected)
    ensures Evaluate(p, order, selected) in evaluations
  {
    hide Evaluate, Evaluable, Product, Permutations, SelectionOf, Scored;
    PermutationMeaning(order, |groups|);
    var choice := SelectionIsChoice(p, groups, selected);
    var a :| 0 <= a < |choices| && choices[a] == choice;
    var b :| 0 <= b < |orders| && orders[b] == order;
    ScoredMeaning(p, selected, orders, evaluations, b);
  }

  lemma ScoredMeaning(p: Problem, selected: Selection, orders: seq<seq<nat>>, evaluations: seq<Evaluation>, b: nat)
    requires Scored(p, selected, orders, evaluations) && b < |orders| && Evaluable(p, orders[b], selected)
    ensures Evaluate(p, orders[b], selected) in evaluations
  {
    hide Evaluate, Evaluable;
  }

  lemma FromPlans(p: Problem, groups: Groups, selected: Selection, orders: seq<seq<nat>>, evaluations: seq<Evaluation>)
    requires IsSelection(groups, selected) && |evaluations| == |orders|
    requires forall b :: 0 <= b < |orders| ==>
               IsPermutation(orders[b], |groups|) && Evaluable(p, orders[b], selected)
               && evaluations[b] == Evaluate(p, orders[b], selected)
    ensures forall e :: e in evaluations ==> FromPlan(p, groups, e)
  {
    hide Evaluate, Evaluable, IsPermutation, IsSelection;
    forall b | 0 <= b < |orders|
      ensures FromPlan(p, groups, evaluations[b])
    {
      assert IsPlan(groups, orders[b], selected);
    }
  }

  // ------------------------------------------------------------ beam search

  datatype State = State(order: seq<nat>, selected: Selection, previous: nat, score: real)

  const ROOT := State([], map[], 0, 0.0)

  /** Whether a listed task comes up exactly when its turn in the list does. */
  predicate TaskOrderAllowed(prefix: seq<nat>, t: nat, required: seq<nat>) {
    t !in required || IndexOf(required, t) == |Present(required, prefix)|
  }

  function EdgeScore(p: Problem, previous: nat, node: Node): real
    requires MatrixValid(p.matrix) && previous < |p.matrix| && node.matrixIndex < |p.matrix|
  {
    var edge := p.matrix[previous][node.matrixIndex];
    match p.preferences.goal
    case ShortestDistance => edge.distance
    case ShortestTime => edge.duration
    case Balanced =>
      edge.duration + (1.0 - MinReal(edge.confidence, node.confidence)) * 600.0
      + MaxReal(0.0, 4.8 - RatingOrThree(node.rating)) * 180.0 + node.cost.Or(0.0) * 60.0
  }

  function Extend(p: Problem, s: State, t: nat, node: Node): State
    requires MatrixValid(p.matrix) && s.previous < |p.matrix| && node.matrixIndex < |p.matrix|
  {
    State(s.order + [t], s.selected[t := node], node.matrixIndex, s.score + EdgeScore(p, s.previous, node))
  }

  predicate CanVisit(p: Problem, s: State, t: nat) {
    t !in s.selected && TaskOrderAllowed(s.order, t, p.constraints.requiredOrder)
  }

  ghost function ExpandGroup(p: Problem, groups: Groups, s: State, t: nat, j: nat): (r: seq<State>)
    requires GroupsValid(p, groups) && s.previous < |p.matrix| && t < |groups| && j <= |groups[t]|
  {
    if j == 0 then [] else ExpandGroup(p, groups, s, t, j - 1) + [Extend(p, s, t, groups[t][j - 1])]
  }

  ghost function ExpandState(p: Problem, groups: Groups, s: State, t: nat): seq<State>
    requires GroupsValid(p, groups) && s.previous < |p.matrix| && t <= |groups|
  {
    if t == 0 then []
    else ExpandState(p, groups, s, t - 1)
         + (if CanVisit(p, s, t - 1) then ExpandGroup(p, groups, s, t - 1, |groups[t - 1]|) else [])
  }

  ghost predicate OnMatrix(p: Problem, states: seq<State>) {
    forall i :: 0 <= i < |states| ==> states[i].previous < |p.matrix|
  }

  ghost function ExpandAll(p: Problem, groups: Groups, states: seq<State>, i: nat): seq<State>
    requires GroupsValid(p, groups) && OnMatrix(p, states) && i <= |states|
  {
    if i == 0 then []
    else ExpandAll(p, groups, states, i - 1) + ExpandState(p, groups, states[i - 1], |groups|)
  }

  /** `x` is `s` continued by one allowed task and one of its candidates. */
  ghost predicate Continues(p: Problem, groups: Groups, s: State, x: State)
    requires GroupsValid(p, groups) && s.previous < |p.matrix|
  {
    exists t: nat, node :: t < |groups| && CanVisit(p, s, t) && node in groups[t] && x == Extend(p, s, t, node)
  }

  lemma {:induction false} ExpandGroupMembers(p: Problem, groups: Groups, s: State, t: nat, j: nat, x: State)
    requires GroupsValid(p, groups) && s.previous < |p.matrix| && t < |groups| && j <= |groups[t]|
    ensures x in ExpandGroup(p, groups, s, t, j) <==> exists i :: 0 <= i < j && x == Extend(p, s, t, groups[t][i])
  {
    if j > 0 {
      ExpandGroupMembers(p, groups, s, t, j - 1, x);
    }
  }

  lemma {:induction false} ExpandStateMembers(p: Problem, groups: Groups, s: State, t: nat, x: State)
    requires GroupsValid(p, groups) && s.previous < |p.matrix| && t <= |groups|
    ensures x in ExpandState(p, groups, s, t) <==>
            exists u: nat, node :: u < t && CanVisit(p, s, u) && node in groups[u] && x == Extend(p, s, u, node)
  {
    hide CanVisit, Extend;
    if t > 0 {
      ExpandStateMembers(p, groups, s, t - 1, x);
      ExpandGroupMembers(p, groups, s, t - 1, |groups[t - 1]|, x);
    }
  }

  lemma {:induction false} ExpandAllMembers(p: Problem, groups: Groups, states: seq<State>, i: nat, x: State)
    requires GroupsValid(p, groups) && OnMatrix(p, states) && i <= |states|
    ensures x in ExpandAll(p, groups, states, i) <==> exists a :: 0 <= a < i && Continues(p, groups, states[a], x)
  {
    hide CanVisit, Extend;
    if i > 0 {
      ExpandAllMembers(p, groups, states, i - 1, x);
      ExpandStateMembers(p, groups, states[i - 1], |groups|, x);
    }
  }

  function Truncate(states: seq<State>, width: nat): seq<State> {
    if |states| <= width then states else states[..width]
  }

  function ScoreOf(s: State): real { s.score }

  /** One round: expand everything, sort by score, keep the best `width`. */
  ghost function NextLayer(p: Problem, groups: Groups, width: nat, before: seq<State>): (r: seq<State>)
    requires GroupsValid(p, groups) && OnMatrix(p, before)
  {
    Truncate(Sort(ExpandAll(p, groups, before, |before|), ScoreOf), width)
  }

  lemma NextLayerContinues(p: Problem, groups: Groups, width: nat, before: seq<State>, x: State)
    requires GroupsValid(p, groups) && OnMatrix(p, before) && x in NextLayer(p, groups, width, before)
    ensures exists a :: 0 <= a < |before| && Continues(p, groups, before[a], x)
  {
    hide Continues, Sort;
    var all := ExpandAll(p, groups, before, |before|);
    SortKeepsElements(all, ScoreOf);
    ExpandAllMembers(p, groups, before, |before|, x);
  }

  lemma NextLayerOnMatrix(p: Problem, groups: Groups, width: nat, before: seq<State>)
    requires GroupsValid(p, groups) && OnMatrix(p, before)
    ensures OnMatrix(p, NextLayer(p, groups, width, before))
  {
    hide NextLayer;
    forall i | 0 <= i < |NextLayer(p, groups, width, before)|
      ensures NextLayer(p, groups, width, before)[i].previous < |p.matrix|
    {
      NextLayerContinues(p, groups, width, before, NextLayer(p, groups, width, before)[i]);
    }
  }

  ghost function Layer(p: Problem, groups: Groups, width: nat, k: nat): (r: seq<State>)
    requires GroupsValid(p, groups)
    ensures OnMatrix(p, r)
  {
    if k == 0 then [ROOT]
    else
      var before := Layer(p, groups, width, k - 1);
      NextLayerOnMatrix(p, groups, width, before);
      NextLayer(p, groups, width, before)
  }

  method ExpandOne(p: Problem, groups: Groups, s: State) returns (expanded: seq<State>)
    requires GroupsValid(p, groups) && s.previous < |p.matrix|
    ensures expanded == ExpandState(p, groups, s, |groups|)
  {
    hide CanVisit, Extend;
    expanded := [];
    for t := 0 to |groups|
      invariant expanded == ExpandState(p, groups, s, t)
    {
      if CanVisit(p, s, t) {
        ghost var start := expanded;
        for j := 0 to |groups[t]|
          invariant expanded == start + ExpandGroup(p, groups, s, t, j)
        {
          expanded := expanded + [Extend(p, s, t, groups[t][j])];
        }
      }
    }
  }

  method BeamJoint(p: Problem, groups: Groups, width: nat) returns (plans: seq<(seq<nat>, Selection)>)
    requires GroupsValid(p, groups)
    ensures var last := Layer(p, groups, width, |groups|);
            |plans| == |last| && forall i :: 0 <= i < |plans| ==> plans[i] == (last[i].order, last[i].selected)
  {
    hide ExpandState, Sort, Truncate;
    var states := [ROOT];
    for k := 0 to |groups|
      invariant states == Layer(p, groups, width, k)
    {
      var expanded := [];
      for i := 0 to |states|
        invariant expanded == ExpandAll(p, groups, states, i)
      {
        var more := ExpandOne(p, groups, states[i]);
        expanded := expanded + more;
      }
      states := Truncate(Sort(expanded, ScoreOf), width);
    }
    plans := [];
    for i := 0 to |states|
      invariant |plans| == i && forall j :: 0 <= j < i ==> plans[j] == (states[j].order, states[j].selected)
    {
      plans := plans + [(states[i].order, states[i].selected)];
    }
  }

  // ----------------------------------------------------- required task order

  /** Required order lists existing tasks, each once. */
  ghost predicate RequiredValid(required: seq<nat>, n: nat) {
    Distinct(required) && forall i :: 0 <= i < |required| ==> required[i] < n
  }

  /** Every entry of the order was allowed when it was appended. */
  ghost predicate StepwiseAllowed(order: seq<nat>, required: seq<nat>) {
    order == []
    || (StepwiseAllowed(order[..|order| - 1], required)
        && TaskOrderAllowed(order[..|order| - 1], order[|order| - 1], required))
  }

  ghost predicate AllowedAtEach(order: seq<nat>, required: seq<nat>) {
    forall i :: 0 <= i < |order| ==> TaskOrderAllowed(order[..i], order[i], required)
  }

  lemma {:induction false} StepwiseMeaning(order: seq<nat>, required: seq<nat>)
    ensures StepwiseAllowed(order, required) <==> AllowedAtEach(order, required)
  {
    hide TaskOrderAllowed;
    if order != [] {
      var front := order[..|order| - 1];
      StepwiseMeaning(front, required);
      assert forall i :: 0 <= i < |front| ==> front[..i] == order[..i];
      assert AllowedAtEach(order, required) <==>
             AllowedAtEach(front, required) && TaskOrderAllowed(order[..|front|], order[|front|], required);
    }
  }

  lemma PresentStep(required: seq<nat>, order: seq<nat>, i: nat)
    requires i < |order|
    ensures Present(required, order[..i + 1]) ==
            Present(required, order[..i]) + (if order[i] in required then [order[i]] else [])
  {
    assert order[..i + 1][..i] == order[..i];
  }

  /** The required tasks met so far are a prefix of the list. */
  ghost predicate TakesListPrefix(order: seq<nat>, required: seq<nat>, i: nat)
    requires i <= |order|
  {
    Present(required, order[..i]) <= required
  }

  lemma {:induction false} AllowedTakesPrefix(order: seq<nat>, required: seq<nat>, i: nat)
    requires AllowedAtEach(order, required) && i <= |order|
    ensures TakesListPrefix(order, required, i)
  {
    if i > 0 {
      AllowedTakesPrefix(order, required, i - 1);
      PresentStep(required, order, i - 1);
      assert TaskOrderAllowed(order[..i - 1], order[i - 1], required);
    }
  }

  /** The strict pairwise reading of the required order. */
  ghost predicate MetInOrder(order: seq<nat>, required: seq<nat>) {
    forall a, b :: 0 <= a < b < |required| ==> IndexOf(order, required[a]) < IndexOf(order, required[b])
  }

  /** Before a listed task comes up, exactly the entries listed before it have come up. */
  lemma ListedBefore(order: seq<nat>, required: seq<nat>, b: nat)
    requires AllowedAtEach(order, required) && Distinct(required) && b < |required| && required[b] in order
    ensures Present(required, order[..IndexOf(order, required[b])]) == required[..b]
  {
    hide AllowedAtEach, IndexOf;
    var i := IndexOf(order, required[b]);
    AllowedTakesPrefix(order, required, i);
    AllowedAt(order, required, i);
    assert required[IndexOf(required, required[b])] == required[b];
    hide Present;
  }

  lemma AllowedAt(order: seq<nat>, required: seq<nat>, i: nat)
    requires AllowedAtEach(order, required) && i < |order|
    ensures TaskOrderAllowed(order[..i], order[i], required)
  {
    hide TaskOrderAllowed;
  }

  lemma FirstWithin(order: seq<nat>, i: nat, x: nat)
    requires i <= |order| && x in order[..i]
    ensures IndexOf(order, x) < i
  {
    var j :| 0 <= j < i && order[..i][j] == x;
    assert order[j] == x;
  }

  lemma AllowedMeetsInOrder(order: seq<nat>, required: seq<nat>)
    requires AllowedAtEach(order, required) && Distinct(required)
    requires forall i :: 0 <= i < |required| ==> required[i] in order
    ensures MetInOrder(order, required)
  {
    hide AllowedAtEach, Distinct, Present;
    forall a, b | 0 <= a < b < |required|
      ensures IndexOf(order, required[a]) < IndexOf(order, required[b])
    {
      ListedBefore(order, required, b);
      assert required[..b][a] == required[a];
      PresentIn(required, order[..IndexOf(order, required[b])], required[a]);
      hide IndexOf;
      FirstWithin(order, IndexOf(order, required[b]), required[a]);
    }
  }

  lemma PresentIn(required: seq<nat>, order: seq<nat>, x: nat)
    requires x in Present(required, order)
    ensures x in order
  {}

  /** If the list is met in order, the next required task met is the next one listed. */
  lemma NextIsDue(order: seq<nat>, required: seq<nat>, i: nat)
    requires Distinct(order) && MetInOrder(order, required) && i < |order| && TakesListPrefix(order, required, i)
    requires forall j :: 0 <= j < |required| ==> required[j] in order
    ensures TaskOrderAllowed(order[..i], order[i], required)
  {
    if order[i] in required {
      var met, j := Present(required, order[..i]), IndexOf(required, order[i]);
      assert order[i] !in order[..i];
      assert |met| <= j;
      var due := required[|met|];
      assert forall k :: 0 <= k < |met| ==> met[k] == required[k] && IndexOf(order, required[k]) < IndexOf(order, due);
      assert due in required && due !in met;
      assert due !in order[..i];
      assert order[..i][..] == order[..i] && IndexOf(order, due) >= i;
    }
  }

  lemma {:induction false} MetInOrderTakesPrefix(order: seq<nat>, required: seq<nat>, i: nat)
    requires Distinct(order) && MetInOrder(order, required) && i <= |order|
    requires forall j :: 0 <= j < |required| ==> required[j] in order
    ensures TakesListPrefix(order, required, i)
  {
    if i > 0 {
      MetInOrderTakesPrefix(order, required, i - 1);
      NextIsDue(order, required, i - 1);
      PresentStep(required, order, i - 1);
    }
  }

  lemma {:induction false} AllPresent(order: seq<nat>, required: seq<nat>)
    requires forall i :: 0 <= i < |required| ==> required[i] in order
    ensures Present(order, required) == required
  {
    if required != [] {
      AllPresent(order, required[..|required| - 1]);
    }
  }

  /** Listed entries that all occur are met at different positions. */
  lemma InListedOrderIsStrict(order: seq<nat>, required: seq<nat>)
    requires InListedOrder(order, required) && Distinct(required)
    requires forall i :: 0 <= i < |required| ==> required[i] in order
    ensures MetInOrder(order, required)
  {
    forall a, b | 0 <= a < b < |required|
      ensures IndexOf(order, required[a]) < IndexOf(order, required[b])
    {
      assert order[IndexOf(order, required[a])] != order[IndexOf(order, required[b])];
    }
  }

  lemma MetInOrderIsAllowed(order: seq<nat>, required: seq<nat>)
    requires Distinct(order) && MetInOrder(order, required)
    requires forall i :: 0 <= i < |required| ==> required[i] in order
    ensures AllowedAtEach(order, required)
  {
    hide MetInOrder, TaskOrderAllowed, Distinct, IndexOf;
    forall i | 0 <= i < |order|
      ensures TaskOrderAllowed(order[..i], order[i], required)
    {
      MetInOrderTakesPrefix(order, required, i);
      NextIsDue(order, required, i);
    }
  }

  /** On complete orders the beam's stepwise guard and the evaluator's order check agree. */
  lemma GuardAgreesWithCheck(order: seq<nat>, required: seq<nat>, n: nat)
    requires IsPermutation(order, n) && RequiredValid(required, n)
    ensures StepwiseAllowed(order, required) <==> RelativeOrderSatisfied(order, required)
  {
    PermutationCovers(order, n);
    AllPresent(order, required);
    RelativeOrderMeaning(order, required);
    StepwiseMeaning(order, required);
    hide StepwiseAllowed, AllowedAtEach, RelativeOrderSatisfied, Distinct, IndexOf, Present;
    if AllowedAtEach(order, required) {
      AllowedMeetsInOrder(order, required);
    }
    if InListedOrder(order, required) {
      InListedOrderIsStrict(order, required);
      hide MetInOrder, InListedOrder;
      MetInOrderIsAllowed(order, required);
    }
  }

  // ----------------------------------------------- what the beam returns

  /** Matrix point where a partial plan ends. */
  function EndPoint(order: seq<nat>, selected: Selection): nat
    requires forall i :: 0 <= i < |order| ==> order[i] in selected
  {
    if order == [] then 0 else selected[order[|order| - 1]].matrixIndex
  }

  /** The partial plan is allowed step by step and picks candidates of the right groups. */
  ghost predicate PartialPlan(p: Problem, groups: Groups, order: seq<nat>, selected: Selection) {
    && Distinct(order)
    && (forall i :: 0 <= i < |order| ==> order[i] < |groups|)
    && (forall t: nat :: t in selected <==> t in order)
    && (forall t: nat :: t in order && t < |groups| ==> selected[t] in groups[t])
    && StepwiseAllowed(order, p.constraints.requiredOrder)
  }

  /** Sum of the edge scores along the path. */
  ghost function PathScore(p: Problem, order: seq<nat>, selected: Selection): real
    requires MatrixValid(p.matrix)
    requires forall i :: 0 <= i < |order| ==> order[i] in selected && selected[order[i]].matrixIndex < |p.matrix|
  {
    if order == [] then 0.0
    else
      var front := order[..|order| - 1];
      PathScore(p, front, selected) + EdgeScore(p, EndPoint(front, selected), selected[order[|order| - 1]])
  }

  lemma {:induction false} PathScoreFrame(p: Problem, order: seq<nat>, selected: Selection, other: Selection)
    requires MatrixValid(p.matrix)
    requires forall i :: 0 <= i < |order| ==> order[i] in selected && selected[order[i]].matrixIndex < |p.matrix|
    requires forall i :: 0 <= i < |order| ==> order[i] in other && other[order[i]] == selected[order[i]]
    ensures PathScore(p, order, selected) == PathScore(p, order, other)
  {
    if order != [] {
      PathScoreFrame(p, order[..|order| - 1], selected, other);
    }
  }

  lemma PartialOnMatrix(p: Problem, groups: Groups, order: seq<nat>, selected: Selection)
    requires GroupsValid(p, groups) && PartialPlan(p, groups, order, selected)
    ensures forall i :: 0 <= i < |order| ==> order[i] in selected && selected[order[i]].matrixIndex < |p.matrix|
  {}

  /** The state a partial plan is represented by. */
  ghost function StateOf(p: Problem, groups: Groups, order: seq<nat>, selected: Selection): State
    requires GroupsValid(p, groups) && PartialPlan(p, groups, order, selected)
  {
    PartialOnMatrix(p, groups, order, selected);
    State(order, selected, EndPoint(order, selected), PathScore(p, order, selected))
  }

  /** Every beam state is a partial plan, with its own end point and path sum. */
  ghost predicate SoundState(p: Problem, groups: Groups, s: State)
    requires GroupsValid(p, groups)
  {
    PartialPlan(p, groups, s.order, s.selected) && s == StateOf(p, groups, s.order, s.selected)
  }

  lemma PartialPlanGrows(p: Problem, groups: Groups, order: seq<nat>, selected: Selection, t: nat, node: Node)
    requires PartialPlan(p, groups, order, selected) && t < |groups| && t !in selected && node in groups[t]
    requires TaskOrderAllowed(order, t, p.constraints.requiredOrder)
    ensures PartialPlan(p, groups, order + [t], selected[t := node])
  {
    hide TaskOrderAllowed;
    assert (order + [t])[..|order|] == order;
  }

  lemma StateGrows(p: Problem, groups: Groups, order: seq<nat>, selected: Selection, t: nat, node: Node)
    requires GroupsValid(p, groups) && PartialPlan(p, groups, order, selected)
    requires PartialPlan(p, groups, order + [t], selected[t := node]) && t !in selected
    ensures var s := StateOf(p, groups, order, selected);
            && s.previous < |p.matrix| && node.matrixIndex < |p.matrix|
            && StateOf(p, groups, order + [t], selected[t := node]) == Extend(p, s, t, node)
  {
    hide EdgeScore, StepwiseAllowed;
    PartialOnMatrix(p, groups, order, selected);
    PartialOnMatrix(p, groups, order + [t], selected[t := node]);
    assert (order + [t])[|order|] == t;
    assert (order + [t])[..|order|] == order;
    PathScoreFrame(p, order, selected, selected[t := node]);
  }

  lemma ContinuationIsSound(p: Problem, groups: Groups, s: State, x: State)
    requires GroupsValid(p, groups) && SoundState(p, groups, s) && s.previous < |p.matrix| && Continues(p, groups, s, x)
    ensures SoundState(p, groups, x) && |x.order| == |s.order| + 1
  {
    hide PartialPlan, TaskOrderAllowed, StateOf;
    var t: nat, node :| t < |groups| && CanVisit(p, s, t) && node in groups[t] && x == Extend(p, s, t, node);
    PartialPlanGrows(p, groups, s.order, s.selected, t, node);
    StateGrows(p, groups, s.order, s.selected, t, node);
  }

  lemma {:induction false} LayerIsSound(p: Problem, groups: Groups, width: nat, k: nat, x: State)
    requires GroupsValid(p, groups) && x in Layer(p, groups, width, k)
    ensures SoundState(p, groups, x) && |x.order| == k
  {
    hide SoundState, Continues, NextLayer;
    if k == 0 {
      RootIsSound(p, groups);
    } else {
      var before := Layer(p, groups, width, k - 1);
      NextLayerContinues(p, groups, width, before, x);
      var a :| 0 <= a < |before| && Continues(p, groups, before[a], x);
      LayerIsSound(p, groups, width, k - 1, before[a]);
      ContinuationIsSound(p, groups, before[a], x);
    }
  }

  lemma RootIsSound(p: Problem, groups: Groups)
    requires GroupsValid(p, groups)
    ensures SoundState(p, groups, ROOT)
  {}

  /** The beam of width `width` never had to drop a state. */
  ghost predicate Untruncated(p: Problem, groups: Groups, width: nat)
    requires GroupsValid(p, groups)
  {
    forall k: nat :: k < |groups| ==>
      |ExpandAll(p, groups, Layer(p, groups, width, k), |Layer(p, groups, width, k)|)| <= width
  }

  // When is the width enough? Bound what one state of each layer expands to, and multiply.

  ghost function Growth(bounds: seq<nat>, k: nat): nat
    requires k <= |bounds|
  {
    if k == 0 then 1 else Growth(bounds, k - 1) * bounds[k - 1]
  }

  ghost predicate GrowsWithin(bounds: seq<nat>, width: nat) {
    forall k :: 0 < k <= |bounds| ==> Growth(bounds, k) <= width
  }

  /** No state of layer `k` has more than `bounds[k]` continuations. */
  ghost predicate BranchesWithin(p: Problem, groups: Groups, width: nat, bounds: seq<nat>)
    requires GroupsValid(p, groups)
  {
    && |bounds| == |groups|
    && forall k: nat, i :: k < |groups| && 0 <= i < |Layer(p, groups, width, k)| ==>
         |ExpandState(p, groups, Layer(p, groups, width, k)[i], |groups|)| <= bounds[k]
  }

  lemma {:induction false} ExpansionSize(p: Problem, groups: Groups, states: seq<State>, i: nat, bound: nat)
    requires GroupsValid(p, groups) && OnMatrix(p, states) && i <= |states|
    requires forall a :: 0 <= a < i ==> |ExpandState(p, groups, states[a], |groups|)| <= bound
    ensures |ExpandAll(p, groups, states, i)| <= i * bound
  {
    hide ExpandState, GroupsValid;
    if i > 0 {
      ExpansionSize(p, groups, states, i - 1, bound);
      assert i * bound == (i - 1) * bound + bound;
    }
  }

  lemma {:induction false} LayerSize(p: Problem, groups: Groups, width: nat, bounds: seq<nat>, k: nat)
    requires GroupsValid(p, groups) && BranchesWithin(p, groups, width, bounds) && k <= |groups|
    ensures |Layer(p, groups, width, k)| <= Growth(bounds, k)
    ensures k < |groups| ==>
              |ExpandAll(p, groups, Layer(p, groups, width, k), |Layer(p, groups, width, k)|)| <= Growth(bounds, k + 1)
  {
    hide ExpandState, ExpandAll, GroupsValid, Sort;
    if k > 0 {
      LayerSize(p, groups, width, bounds, k - 1);
    }
    if k < |groups| {
      var layer := Layer(p, groups, width, k);
      ExpansionSize(p, groups, layer, |layer|, bounds[k]);
      ProductGrows(|layer|, Growth(bounds, k), bounds[k]);
    }
  }

  lemma ProductGrows(a: nat, b: nat, c: nat)
    requires a <= b
    ensures a * c <= b * c
  {}

  lemma WidthSuffices(p: Problem, groups: Groups, width: nat, bounds: seq<nat>)
    requires GroupsValid(p, groups) && BranchesWithin(p, groups, width, bounds) && GrowsWithin(bounds, width)
    ensures Untruncated(p, groups, width)
  {
    assert |bounds| == |groups|;
    hide Layer, ExpandAll, BranchesWithin, Growth, GroupsValid;
    forall k: nat | k < |groups|
      ensures |ExpandAll(p, groups, Layer(p, groups, width, k), |Layer(p, groups, width, k)|)| <= width
    {
      var next := k + 1;
      LayerSize(p, groups, width, bounds, k);
      assert Growth(bounds, next) <= width;
    }
  }

  lemma {:induction false} ExpandGroupSize(p: Problem, groups: Groups, s: State, t: nat, j: nat)
    requires GroupsValid(p, groups) && s.previous < |p.matrix| && t < |groups| && j <= |groups[t]|
    ensures |ExpandGroup(p, groups, s, t, j)| == j
  {
    if j > 0 {
      ExpandGroupSize(p, groups, s, t, j - 1);
    }
  }

  /** A state with one task to visit has that task's candidates as continuations. */
  lemma {:induction false} OneTaskSize(p: Problem, groups: Groups, s: State, t: nat, due: nat)
    requires GroupsValid(p, groups) && s.previous < |p.matrix| && t <= |groups| && due < |groups|
    requires forall u: nat :: u < t && CanVisit(p, s, u) ==> u == due
    ensures |ExpandState(p, groups, s, t)| <= if due < t then |groups[due]| else 0
  {
    hide CanVisit, GroupsValid;
    if t > 0 {
      OneTaskSize(p, groups, s, t - 1, due);
      ExpandGroupSize(p, groups, s, t - 1, |groups[t - 1]|);
    }
  }

  /** The number of candidates of the first `t` groups. */
  function Candidates(groups: Groups, t: nat): nat
    requires t <= |groups|
  {
    if t == 0 then 0 else Candidates(groups, t - 1) + |groups[t - 1]|
  }

  lemma {:induction false} AnyTaskSize(p: Problem, groups: Groups, s: State, t: nat)
    requires GroupsValid(p, groups) && s.previous < |p.matrix| && t <= |groups|
    ensures |ExpandState(p, groups, s, t)| <= Candidates(groups, t)
  {
    hide CanVisit, GroupsValid;
    if t > 0 {
      AnyTaskSize(p, groups, s, t - 1);
      ExpandGroupSize(p, groups, s, t - 1, |groups[t - 1]|);
    }
  }

  /** When all tasks are listed, only the next one on the list may be visited. */
  lemma {:induction false} ListedPresent(required: seq<nat>, order: seq<nat>)
    requires forall i :: 0 <= i < |order| ==> order[i] in required
    ensures Present(required, order) == order
  {
    if order != [] {
      ListedPresent(required, order[..|order| - 1]);
    }
  }

  lemma OnlyNextIsDue(p: Problem, groups: Groups, s: State)
    requires GroupsValid(p, groups) && PartialPlan(p, groups, s.order, s.selected)
    requires IsPermutation(p.constraints.requiredOrder, |groups|) && |s.order| < |groups|
    ensures forall t: nat :: t < |groups| && CanVisit(p, s, t) ==> t == p.constraints.requiredOrder[|s.order|]
  {
    hide StepwiseAllowed, GroupsValid;
    PermutationCovers(p.constraints.requiredOrder, |groups|);
    ListedPresent(p.constraints.requiredOrder, s.order);
  }

  /** How many candidates each task of the list has, in list order. */
  ghost function SizesAlong(groups: Groups, required: seq<nat>): (r: seq<nat>)
    requires forall i :: 0 <= i < |required| ==> required[i] < |groups|
    ensures |r| == |required| && forall i :: 0 <= i < |r| ==> r[i] == |groups[required[i]]|
  {
    if required == [] then [] else [|groups[required[0]]|] + SizesAlong(groups, required[1..])
  }

  /** With a completely fixed visiting order nothing is dropped as long as the product of the group
      sizes along it stays within the width. */
  lemma FixedOrderIsUntruncated(p: Problem, groups: Groups, width: nat)
    requires GroupsValid(p, groups) && IsPermutation(p.constraints.requiredOrder, |groups|)
    requires GrowsWithin(SizesAlong(groups, p.constraints.requiredOrder), width)
    ensures Untruncated(p, groups, width)
  {
    var required := p.constraints.requiredOrder;
    var bounds := SizesAlong(groups, required);
    hide Untruncated, GrowsWithin, ExpandState, SizesAlong, IsPermutation, GroupsValid;
    forall k: nat, i | k < |groups| && 0 <= i < |Layer(p, groups, width, k)|
      ensures |ExpandState(p, groups, Layer(p, groups, width, k)[i], |groups|)| <= bounds[k]
    {
      FixedOrderBranches(p, groups, width, k, Layer(p, groups, width, k)[i]);
    }
    WidthSuffices(p, groups, width, bounds);
  }

  lemma FixedOrderBranches(p: Problem, groups: Groups, width: nat, k: nat, s: State)
    requires GroupsValid(p, groups) && IsPermutation(p.constraints.requiredOrder, |groups|)
    requires k < |groups| && s in Layer(p, groups, width, k) && s.previous < |p.matrix|
    ensures |ExpandState(p, groups, s, |groups|)| <= |groups[p.constraints.requiredOrder[k]]|
  {
    LayerIsSound(p, groups, width, k, s);
    OnlyNextIsDue(p, groups, s);
    hide CanVisit, Layer, ExpandState, PartialPlan, StateOf, GroupsValid;
    OneTaskSize(p, groups, s, |groups|, p.constraints.requiredOrder[k]);
  }

  /** The tasks that the required order does not mention. */
  ghost function Unlisted(required: seq<nat>, n: nat): set<nat> { Below(n) - Elements(required) }

  ghost function LargestGroup(groups: Groups): (r: nat)
    ensures forall t :: 0 <= t < |groups| ==> |groups[t]| <= r
    ensures r > 0 ==> exists t :: 0 <= t < |groups| && |groups[t]| == r
  {
    if groups == [] then 0 else MaxInt(|groups[0]|, LargestGroup(groups[1..]))
  }

  /** What one state of layer `k` can expand to: the listed task that is due and the unlisted ones,
      none of them visited before, with the candidates of each. */
  ghost function BranchBound(groups: Groups, required: seq<nat>, k: nat): nat
    requires k <= |groups|
  {
    var tasks := if 1 + |Unlisted(required, |groups|)| < |groups| - k then 1 + |Unlisted(required, |groups|)|
                 else |groups| - k;
    var all := Candidates(groups, |groups|);
    if all < tasks * LargestGroup(groups) then all else tasks * LargestGroup(groups)
  }

  ghost function BranchBounds(groups: Groups, required: seq<nat>): (r: seq<nat>)
    ensures |r| == |groups| && forall k :: 0 <= k < |r| ==> r[k] == BranchBound(groups, required, k)
  {
    seq(|groups|, k requires 0 <= k < |groups| => BranchBound(groups, required, k))
  }

  /** The tasks before `t` that the state may visit next. */
  ghost function Visitable(p: Problem, s: State, t: nat): set<nat> { set u | u in Below(t) && CanVisit(p, s, u) }

  function Times(a: nat, b: nat): nat { a * b }

  lemma {:induction false} VisitableSize(p: Problem, groups: Groups, s: State, t: nat)
    requires GroupsValid(p, groups) && s.previous < |p.matrix| && t <= |groups|
    ensures |ExpandState(p, groups, s, t)| <= Times(|Visitable(p, s, t)|, LargestGroup(groups))
  {
    hide Times, LargestGroup, CanVisit, GroupsValid, Visitable, ExpandState;
    if t == 0 {
      NothingToExpand(p, groups, s);
    } else {
      VisitableSize(p, groups, s, t - 1);
      NextGroupSize(p, groups, s, t);
      NextVisitable(p, s, t);
      TimesAdds(|Visitable(p, s, t - 1)|, LargestGroup(groups));
    }
  }

  lemma NothingToExpand(p: Problem, groups: Groups, s: State)
    requires GroupsValid(p, groups) && s.previous < |p.matrix|
    ensures ExpandState(p, groups, s, 0) == []
  {}

  lemma TimesAdds(count: nat, size: nat)
    ensures Times(count + 1, size) == Times(count, size) + size
  {}

  lemma NextGroupSize(p: Problem, groups: Groups, s: State, t: nat)
    requires GroupsValid(p, groups) && s.previous < |p.matrix| && 0 < t <= |groups|
    ensures |ExpandState(p, groups, s, t)|
            == |ExpandState(p, groups, s, t - 1)| + if CanVisit(p, s, t - 1) then |groups[t - 1]| else 0
  {
    hide CanVisit, GroupsValid;
    ExpandGroupSize(p, groups, s, t - 1, |groups[t - 1]|);
  }

  lemma NextVisitable(p: Problem, s: State, t: nat)
    requires t > 0
    ensures |Visitable(p, s, t)| == |Visitable(p, s, t - 1)| + if CanVisit(p, s, t - 1) then 1 else 0
  {
    hide CanVisit;
    var before := Visitable(p, s, t - 1);
    assert Visitable(p, s, t) == if CanVisit(p, s, t - 1) then before + {t - 1} else before;
  }

  /** Two listed tasks are never due at the same time. */
  lemma OneListedIsDue(p: Problem, s: State, n: nat)
    ensures |Visitable(p, s, n)| <= 1 + |Unlisted(p.constraints.requiredOrder, n)|
  {
    var (required, unlisted) := (p.constraints.requiredOrder, Unlisted(p.constraints.requiredOrder, n));
    var listed := Visitable(p, s, n) - unlisted;
    hide Present, IndexOf;
    if u :| u in listed {
      forall v | v in listed
        ensures v == u
      {
        assert required[IndexOf(required, u)] == u && required[IndexOf(required, v)] == v;
      }
      assert listed == {u};
    }
    hide Visitable, Unlisted;
    SubsetCardinality(Visitable(p, s, n), listed + unlisted);
  }

  /** A visited task is not visited again. */
  lemma OnlyUnvisited(p: Problem, groups: Groups, s: State, n: nat)
    requires PartialPlan(p, groups, s.order, s.selected) && n == |groups|
    ensures |Visitable(p, s, n)| + |s.order| <= n
  {
    DistinctCardinality(s.order);
    var (next, met) := (Visitable(p, s, n), Elements(s.order));
    assert next !! met;
    assert next + met <= Below(n);
    SubsetCardinality(next + met, Below(n));
  }

  lemma LayerBranches(p: Problem, groups: Groups, width: nat, k: nat, s: State)
    requires GroupsValid(p, groups) && k < |groups| && s in Layer(p, groups, width, k) && s.previous < |p.matrix|
    ensures |ExpandState(p, groups, s, |groups|)| <= BranchBound(groups, p.constraints.requiredOrder, k)
  {
    hide ExpandState, Layer, Visitable, Unlisted, GroupsValid, PartialPlan, StateOf, Candidates, LargestGroup;
    LayerIsSound(p, groups, width, k, s);
    AnyTaskSize(p, groups, s, |groups|);
    VisitableSize(p, groups, s, |groups|);
    OneListedIsDue(p, s, |groups|);
    OnlyUnvisited(p, groups, s, |groups|);
    var (tasks, unlisted) := (|Visitable(p, s, |groups|)|, |Unlisted(p.constraints.requiredOrder, |groups|)|);
    ProductGrows(tasks, if 1 + unlisted < |groups| - k then 1 + unlisted else |groups| - k, LargestGroup(groups));
  }

  /** Whatever the required order, nothing is dropped as long as these bounds multiply to no more than
      the width. */
  lemma FewBranchesAreUntruncated(p: Problem, groups: Groups, width: nat)
    requires GroupsValid(p, groups) && GrowsWithin(BranchBounds(groups, p.constraints.requiredOrder), width)
    ensures Untruncated(p, groups, width)
  {
    var bounds := BranchBounds(groups, p.constraints.requiredOrder);
    hide GrowsWithin, Untruncated, ExpandState, BranchBounds, BranchBound, GroupsValid;
    forall k: nat, i | k < |groups| && 0 <= i < |Layer(p, groups, width, k)|
      ensures |ExpandState(p, groups, Layer(p, groups, width, k)[i], |groups|)| <= bounds[k]
    {
      LayerBranches(p, groups, width, k, Layer(p, groups, width, k)[i]);
    }
    WidthSuffices(p, groups, width, bounds);
  }

  ghost function PowerOfTwo(k: nat): nat { if k == 0 then 1 else 2 * PowerOfTwo(k - 1) }

  lemma {:induction false} GrowthAtMostDoubles(bounds: seq<nat>, k: nat)
    requires k <= |bounds| && forall i :: 0 <= i < |bounds| ==> bounds[i] <= 2
    ensures Growth(bounds, k) <= PowerOfTwo(k)
  {
    if k > 0 {
      GrowthAtMostDoubles(bounds, k - 1);
      ProductGrows(bounds[k - 1], 2, Growth(bounds, k - 1));
    }
  }

  lemma {:induction false} PowerGrows(k: nat, m: nat)
    requires k <= m
    ensures PowerOfTwo(k) <= PowerOfTwo(m)
  {
    if k < m {
      PowerGrows(k, m - 1);
    }
  }

  lemma SmallBranches(groups: Groups, required: seq<nat>, k: nat)
    requires k < |groups| && |Unlisted(required, |groups|)| <= 1 && forall t :: 0 <= t < |groups| ==> |groups[t]| <= 1
    ensures BranchBound(groups, required, k) <= 2 && (k == |groups| - 1 ==> BranchBound(groups, required, k) <= 1)
  {
    hide Unlisted, Candidates;
    assert LargestGroup(groups) <= 1;
  }

  /** Seven or eight single candidates, all but one in a required order: too many for the exhaustive
      branch, and the program's own beam drops nothing. */
  lemma OneUnlistedIsUntruncated(p: Problem, groups: Groups)
    requires GroupsValid(p, groups) && EXACT_TASK_LIMIT < |groups| <= 8
    requires |Unlisted(p.constraints.requiredOrder, |groups|)| <= 1
    requires forall t :: 0 <= t < |groups| ==> |groups[t]| <= 1
    ensures Untruncated(p, groups, BEAM_WIDTH) && !SmallEnough(groups)
  {
    hide Untruncated, GroupsValid, BranchBound, Unlisted;
    var (required, n) := (p.constraints.requiredOrder, |groups|);
    var bounds := BranchBounds(groups, required);
    forall k | 0 <= k < n
      ensures bounds[k] <= 2 && (k == n - 1 ==> bounds[k] <= 1)
    {
      SmallBranches(groups, required, k);
    }
    forall k | 0 < k <= n
      ensures Growth(bounds, k) <= BEAM_WIDTH
    {
      var doublings := if k < 8 then k else 7;
      GrowthAtMostDoubles(bounds, doublings);
      PowerGrows(doublings, 7);
      assert PowerOfTwo(7) == 128;
      if k == 8 { ProductGrows(bounds[7], 1, Growth(bounds, 7)); }
    }
    FewBranchesAreUntruncated(p, groups, BEAM_WIDTH);
  }

  lemma UntruncatedKeeps(p: Problem, groups: Groups, width: nat, before: seq<State>, x: State)
    requires GroupsValid(p, groups) && OnMatrix(p, before)
    requires |ExpandAll(p, groups, before, |before|)| <= width
    ensures x in NextLayer(p, groups, width, before) <==> x in ExpandAll(p, groups, before, |before|)
  {
    SortKeepsElements(ExpandAll(p, groups, before, |before|), ScoreOf);
  }

  lemma PartialPlanShrinks(p: Problem, groups: Groups, order: seq<nat>, selected: Selection)
    requires PartialPlan(p, groups, order, selected) && order != []
    ensures var (front, t) := (order[..|order| - 1], order[|order| - 1]);
            && PartialPlan(p, groups, front, selected - {t})
            && TaskOrderAllowed(front, t, p.constraints.requiredOrder)
            && t < |groups| && t in selected && selected[t] in groups[t]
            && front + [t] == order && (selected - {t})[t := selected[t]] == selected
  {
    hide TaskOrderAllowed;
  }

  /** A beam that never drops a state holds every allowed partial plan of its length. */
  lemma {:induction false} LayerIsComplete(p: Problem, groups: Groups, width: nat, order: seq<nat>, selected: Selection)
    requires GroupsValid(p, groups) && Untruncated(p, groups, width)
    requires PartialPlan(p, groups, order, selected) && |order| <= |groups|
    ensures StateOf(p, groups, order, selected) in Layer(p, groups, width, |order|)
    decreases |order|
  {
    hide NextLayer, Continues, TaskOrderAllowed, PartialPlan, StateOf, OnMatrix, ExpandAll;
    if order == [] {
      EmptyPlanIsRoot(p, groups, order, selected);
    } else {
      var t, front := order[|order| - 1], order[..|order| - 1];
      var rest := selected - {t};
      PartialPlanShrinks(p, groups, order, selected);
      StateGrows(p, groups, front, rest, t, selected[t]);
      var s, x := StateOf(p, groups, front, rest), StateOf(p, groups, order, selected);
      GrowsContinues(p, groups, front, rest, t, selected[t]);
      LayerIsComplete(p, groups, width, front, rest);
      var before := Layer(p, groups, width, |front|);
      ExpandAllMembers(p, groups, before, |before|, x);
      UntruncatedKeeps(p, groups, width, before, x);
    }
  }

  lemma EmptyPlanIsRoot(p: Problem, groups: Groups, order: seq<nat>, selected: Selection)
    requires GroupsValid(p, groups) && PartialPlan(p, groups, order, selected) && order == []
    ensures StateOf(p, groups, order, selected) == ROOT
  {
    assert selected == map[];
  }

  lemma GrowsContinues(p: Problem, groups: Groups, order: seq<nat>, selected: Selection, t: nat, node: Node)
    requires GroupsValid(p, groups) && PartialPlan(p, groups, order, selected)
    requires t < |groups| && t !in selected && node in groups[t]
    requires TaskOrderAllowed(order, t, p.constraints.requiredOrder)
    ensures var s := StateOf(p, groups, order, selected);
            s.previous < |p.matrix| && Continues(p, groups, s, Extend(p, s, t, node))
  {
    hide TaskOrderAllowed, Extend;
    PartialOnMatrix(p, groups, order, selected);
    assert CanVisit(p, StateOf(p, groups, order, selected), t);
  }

  // --------------------------------------------- when the beam finds a plan

  /** No existing task is listed behind an unknown or repeated entry. */
  ghost predicate OrderUsable(required: seq<nat>, n: nat) {
    forall t: nat :: t < n && t in required ==>
      Distinct(required[..IndexOf(required, t)]) && forall j :: 0 <= j < IndexOf(required, t) ==> required[j] < n
  }

  lemma {:induction false} PresentOfDistinct(required: seq<nat>, order: seq<nat>)
    requires Distinct(order)
    ensures Distinct(Present(required, order))
  {
    if order != [] {
      PresentOfDistinct(required, order[..|order| - 1]);
    }
  }

  lemma CompletePlanMakesOrderUsable(order: seq<nat>, required: seq<nat>, n: nat)
    requires IsPermutation(order, n) && AllowedAtEach(order, required)
    ensures OrderUsable(required, n)
  {
    PermutationCovers(order, n);
    forall t: nat | t < n && t in required
      ensures Distinct(required[..IndexOf(required, t)]) && forall j :: 0 <= j < IndexOf(required, t) ==>
              required[j] < n
    {
      assert t in order;
      var i :| 0 <= i < n && order[i] == t;
      MetBefore(order, required, i);
      hide IndexOf;
      var met := Present(required, order[..i]);
      forall j | 0 <= j < |met|
        ensures met[j] < n
      {
        assert met[j] in order[..i];
      }
    }
  }

  /** When a listed task is met, what was met before are the entries listed before it. */
  lemma MetBefore(order: seq<nat>, required: seq<nat>, i: nat)
    requires AllowedAtEach(order, required) && Distinct(order) && i < |order| && order[i] in required
    ensures Present(required, order[..i]) == required[..IndexOf(required, order[i])]
    ensures Distinct(required[..IndexOf(required, order[i])])
  {
    hide Present, IndexOf;
    AllowedTakesPrefix(order, required, i);
    assert TaskOrderAllowed(order[..i], order[i], required);
    PresentOfDistinct(required, order[..i]);
  }

  lemma SomeTaskUnvisited(order: seq<nat>, n: nat) returns (t: nat)
    requires Distinct(order) && |order| < n
    ensures t < n && t !in order
  {
    DistinctCardinality(order);
    if forall x: nat :: x in Below(n) ==> x in Elements(order) {
      SubsetCardinality(Below(n), Elements(order));
    }
    t :| t in Below(n) && t !in Elements(order);
  }

  lemma {:induction false} SubsetCardinality<T>(a: set<T>, b: set<T>)
    requires a <= b
    ensures |a| <= |b|
  {
    assert b == a + (b - a);
  }

  /** While a listed task is open, the first entry not yet met is an existing, allowed task. */
  lemma DueTask(order: seq<nat>, required: seq<nat>, n: nat, u: nat) returns (t: nat)
    requires Present(required, order) <= required && OrderUsable(required, n)
    requires u < n && u in required && u !in order
    ensures t < n && t !in order && TaskOrderAllowed(order, t, required)
  {
    hide IndexOf, Present;
    var met, i := Present(required, order), IndexOf(required, u);
    assert forall k :: 0 <= k < |met| ==> required[k] == met[k] && met[k] in met;
    assert |met| <= i;
    t := required[|met|];
    assert t in required;
    forall k | 0 <= k < |met|
      ensures required[k] != t
    {
      if |met| < i {
        assert required[..i][k] == required[k] && required[..i][|met|] == t;
      }
    }
    assert IndexOf(required, t) == |met| && t !in met;
  }

  /** A partial plan over a usable order can always be continued. */
  lemma SomeTaskAllowed(order: seq<nat>, required: seq<nat>, n: nat) returns (t: nat)
    requires Distinct(order) && |order| < n && AllowedAtEach(order, required) && OrderUsable(required, n)
    ensures t < n && t !in order && TaskOrderAllowed(order, t, required)
  {
    AllowedTakesPrefix(order, required, |order|);
    assert order[..|order|] == order;
    if u: nat :| u < n && u in required && u !in order {
      t := DueTask(order, required, n, u);
    } else {
      t := SomeTaskUnvisited(order, n);
    }
  }

  ghost predicate AllNonempty(groups: Groups) {
    forall t :: 0 <= t < |groups| ==> groups[t] != []
  }

  lemma SoundStateContinues(p: Problem, groups: Groups, s: State) returns (x: State)
    requires GroupsValid(p, groups) && AllNonempty(groups) && SoundState(p, groups, s) && |s.order| < |groups|
    requires OrderUsable(p.constraints.requiredOrder, |groups|) && s.previous < |p.matrix|
    ensures Continues(p, groups, s, x)
  {
    hide PathScore, CanVisit, Extend, TaskOrderAllowed, OrderUsable, StepwiseAllowed;
    StepwiseMeaning(s.order, p.constraints.requiredOrder);
    var t := SomeTaskAllowed(s.order, p.constraints.requiredOrder, |groups|);
    GrowsContinues(p, groups, s.order, s.selected, t, groups[t][0]);
    x := Extend(p, s, t, groups[t][0]);
  }

  lemma NextLayerNonempty(p: Problem, groups: Groups, width: nat, before: seq<State>, x: State)
    requires GroupsValid(p, groups) && OnMatrix(p, before) && width > 0
    requires before != [] && Continues(p, groups, before[0], x)
    ensures NextLayer(p, groups, width, before) != []
  {
    hide Continues, GroupsValid;
    ExpandAllMembers(p, groups, before, |before|, x);
    assert ExpandAll(p, groups, before, |before|) != [];
  }

  lemma {:induction false} LayerIsNonempty(p: Problem, groups: Groups, width: nat, k: nat)
    requires GroupsValid(p, groups) && AllNonempty(groups) && width > 0 && k <= |groups|
    requires OrderUsable(p.constraints.requiredOrder, |groups|)
    ensures Layer(p, groups, width, k) != []
  {
    hide SoundState, Continues, OrderUsable, GroupsValid, NextLayer;
    if k > 0 {
      LayerIsNonempty(p, groups, width, k - 1);
      var before := Layer(p, groups, width, k - 1);
      LayerIsSound(p, groups, width, k - 1, before[0]);
      var x := SoundStateContinues(p, groups, before[0]);
      NextLayerNonempty(p, groups, width, before, x);
    }
  }

  /** Every state of the last layer is a complete plan that met the required order step by step. */
  lemma LastLayerIsPlans(p: Problem, groups: Groups, width: nat, x: State)
    requires GroupsValid(p, groups) && x in Layer(p, groups, width, |groups|)
    ensures IsPlan(groups, x.order, x.selected)
    ensures StepwiseAllowed(x.order, p.constraints.requiredOrder)
    ensures SoundState(p, groups, x)
  {
    hide StateOf, StepwiseAllowed, GroupsValid;
    LayerIsSound(p, groups, width, |groups|, x);
    PermutationCovers(x.order, |groups|);
  }

  /** Whatever its width, the beam finds a plan exactly when every task has a candidate and
      the required order is usable. */
  lemma BeamFindsPlanIff(p: Problem, groups: Groups, width: nat)
    requires GroupsValid(p, groups) && width > 0
    ensures Layer(p, groups, width, |groups|) != [] <==>
            AllNonempty(groups) && OrderUsable(p.constraints.requiredOrder, |groups|)
  {
    hide Layer, OrderUsable, StateOf, StepwiseAllowed;
    var last := Layer(p, groups, width, |groups|);
    if last != [] {
      LastLayerIsPlans(p, groups, width, last[0]);
      StepwiseMeaning(last[0].order, p.constraints.requiredOrder);
      CompletePlanMakesOrderUsable(last[0].order, p.constraints.requiredOrder, |groups|);
      assert forall t: nat :: t < |groups| ==> last[0].selected[t] in groups[t];
    }
    if AllNonempty(groups) && OrderUsable(p.constraints.requiredOrder, |groups|) {
      LayerIsNonempty(p, groups, width, |groups|);
    }
  }

  /** The (order, selection) pairs the beam returns. */
  ghost predicate BeamReturns(p: Problem, groups: Groups, width: nat, order: seq<nat>, selected: Selection)
    requires GroupsValid(p, groups)
  {
    exists x :: x in Layer(p, groups, width, |groups|) && x.order == order && x.selected == selected
  }

  /** Without truncation the beam returns exactly the plans that pass the evaluator's order check. */
  lemma BeamRefinesExact(p: Problem, groups: Groups, width: nat, order: seq<nat>, selected: Selection)
    requires GroupsValid(p, groups) && Untruncated(p, groups, width)
    requires RequiredValid(p.constraints.requiredOrder, |groups|)
    ensures BeamReturns(p, groups, width, order, selected) <==>
            IsPlan(groups, order, selected) && RelativeOrderSatisfied(order, p.constraints.requiredOrder)
  {
    hide Layer, StateOf, StepwiseAllowed, RelativeOrderSatisfied, GroupsValid, Untruncated, RequiredValid;
    if BeamReturns(p, groups, width, order, selected) {
      var x :| x in Layer(p, groups, width, |groups|) && x.order == order && x.selected == selected;
      LastLayerIsPlans(p, groups, width, x);
      GuardAgreesWithCheck(order, p.constraints.requiredOrder, |groups|);
    }
    if IsPlan(groups, order, selected) && RelativeOrderSatisfied(order, p.constraints.requiredOrder) {
      GuardAgreesWithCheck(order, p.constraints.requiredOrder, |groups|);
      PermutationCovers(order, |groups|);
      LayerIsComplete(p, groups, width, order, selected);
      StateShows(p, groups, order, selected);
    }
  }

  lemma StateShows(p: Problem, groups: Groups, order: seq<nat>, selected: Selection)
    requires GroupsValid(p, groups) && PartialPlan(p, groups, order, selected)
    ensures StateOf(p, groups, order, selected).order == order
            && StateOf(p, groups, order, selected).selected == selected
  {}

  /** `e` is the best of all plans. */
  ghost predicate BestOfAll(p: Problem, groups: Groups, e: Evaluation)
  {
    && FromPlan(p, groups, e)
    && forall order, selected :: IsPlan(groups, order, selected) && Evaluable(p, order, selected) ==>
         NoWorse(e, Evaluate(p, order, selected), p.preferences.goal)
  }

  /** The best plan is infeasible only if every plan is. */
  lemma InfeasibleOnlyIfNoneFeasible(p: Problem, groups: Groups, best: Evaluation, order: seq<nat>, selected: Selection)
    requires BestOfAll(p, groups, best) && !best.feasible
    requires IsPlan(groups, order, selected) && Evaluable(p, order, selected)
    ensures !Evaluate(p, order, selected).feasible
  {
    hide Evaluate, Evaluable, IsPlan;
    assert NoWorse(best, Evaluate(p, order, selected), p.preferences.goal);
  }

  /** `e` is the best of the plans the beam returns. */
  ghost predicate BestOfBeam(p: Problem, groups: Groups, width: nat, e: Evaluation)
    requires GroupsValid(p, groups)
  {
    && (exists order, selected :: BeamReturns(p, groups, width, order, selected) && Evaluable(p, order, selected)
                                  && e == Evaluate(p, order, selected))
    && forall order, selected :: BeamReturns(p, groups, width, order, selected) && Evaluable(p, order, selected) ==>
         NoWorse(e, Evaluate(p, order, selected), p.preferences.goal)
  }

  lemma FeasibleMeetsOrder(p: Problem, order: seq<nat>, selected: Selection)
    requires Evaluable(p, order, selected) && Evaluate(p, order, selected).feasible
    ensures p.constraints.requiredOrder == [] || RelativeOrderSatisfied(order, p.constraints.requiredOrder)
  {
    hide TotalsOf, Disagreements, Score, RelativeOrderSatisfied, HardConflicts;
    NoHardConflicts(p, order, TotalsOf(p, order, selected));
  }

  /** If any plan is feasible, an untruncated beam ends with the same best key as the exhaustive search. */
  lemma BeamMatchesExactOptimum(p: Problem, groups: Groups, width: nat, exact: Evaluation, beam: Evaluation)
    requires GroupsValid(p, groups) && Untruncated(p, groups, width)
    requires RequiredValid(p.constraints.requiredOrder, |groups|)
    requires BestOfAll(p, groups, exact) && BestOfBeam(p, groups, width, beam) && exact.feasible
    ensures EvaluationKey(beam, p.preferences.goal) == EvaluationKey(exact, p.preferences.goal)
  {
    hide Evaluate, BeamReturns, RelativeOrderSatisfied, Untruncated, RequiredValid, Evaluable, EvaluationKey;
    var order, selected :| IsPlan(groups, order, selected) && Evaluable(p, order, selected)
                           && exact == Evaluate(p, order, selected);
    FeasibleMeetsOrder(p, order, selected);
    EmptyOrderSatisfied(order);
    BeamRefinesExact(p, groups, width, order, selected);
    var o, s :| BeamReturns(p, groups, width, o, s) && Evaluable(p, o, s) && beam == Evaluate(p, o, s);
    BeamRefinesExact(p, groups, width, o, s);
  }

  lemma EmptyOrderSatisfied(order: seq<nat>)
    ensures RelativeOrderSatisfied(order, [])
  {}

  // ------------------------------------------------------------ entry point

  datatype Algorithm = JointExactEnumeration | RoutingSolver | OrderedLayeredBeam | JointBeamFallback

  datatype SearchError = NoCandidates

  function Factorial(n: nat): nat {
    if n == 0 then 1 else n * Factorial(n - 1)
  }

  function SearchSize(groups: Groups, k: nat): nat
    requires k <= |groups|
  {
    if k == 0 then 1 else SearchSize(groups, k - 1) * |groups[k - 1]|
  }

  /** Small enough for the exhaustive branch. */
  predicate SmallEnough(groups: Groups) {
    |groups| <= EXACT_TASK_LIMIT && SearchSize(groups, |groups|) * MaxInt(1, Factorial(|groups|)) <= EXACT_WORK_LIMIT
  }

  /** The user fixed the complete order: the routing solver is not consulted. */
  predicate OrderFixed(required: seq<nat>, n: nat) {
    |required| == n && (set x | x in required) == (set x | x in Range(n))
  }

  /** Distance of the first candidates in task order, skipping tasks without any; with the point reached. */
  ghost function Baseline(p: Problem, groups: Groups, k: nat): (real, nat)
    requires GroupsValid(p, groups) && k <= |groups|
    ensures Baseline(p, groups, k).1 < |p.matrix|
  {
    if k == 0 then (0.0, 0)
    else
      var (distance, point) := Baseline(p, groups, k - 1);
      if groups[k - 1] == [] then (distance, point)
      else
        var node := groups[k - 1][0];
        assert node in groups[k - 1];
        (distance + p.matrix[point][node.matrixIndex].distance, node.matrixIndex)
  }

  ghost function WithBaseline(p: Problem, groups: Groups): (q: Problem)
    requires GroupsValid(p, groups)
    ensures GroupsValid(q, groups)
  {
    p.(baseline := Some(Baseline(p, groups, |groups|).0))
  }

  method EvaluateBeam(p: Problem, groups: Groups, width: nat) returns (evaluations: seq<Evaluation>)
    requires GroupsValid(p, groups)
    ensures evaluations == [] <==> Layer(p, groups, width, |groups|) == []
    ensures forall e :: e in evaluations ==>
              exists order, selected :: BeamReturns(p, groups, width, order, selected) && Evaluable(p, order, selected)
                                        && e == Evaluate(p, order, selected)
    ensures forall order, selected ::
              BeamReturns(p, groups, width, order, selected) && Evaluable(p, order, selected) ==>
              Evaluate(p, order, selected) in evaluations
  {
    hide Evaluate, Layer, SoundState, StepwiseAllowed, IsPlan, Evaluable;
    var plans := BeamJoint(p, groups, width);
    ghost var last := Layer(p, groups, width, |groups|);
    evaluations := [];
    for i := 0 to |plans|
      invariant |evaluations| == i
      invariant forall j :: 0 <= j < i ==>
                  Evaluable(p, last[j].order, last[j].selected)
                      && evaluations[j] == Evaluate(p, last[j].order, last[j].selected)
    {
      LastLayerIsPlans(p, groups, width, last[i]);
      PlanIsEvaluable(p, groups, last[i].order, last[i].selected);
      var e := EvaluateJointOrder(p, plans[i].0, plans[i].1);
      evaluations := evaluations + [e];
    }
    forall order, selected | BeamReturns(p, groups, width, order, selected) && Evaluable(p, order, selected)
      ensures Evaluate(p, order, selected) in evaluations
    {
      var x :| x in last && x.order == order && x.selected == selected;
      var i :| 0 <= i < |last| && last[i] == x;
      assert evaluations[i] == Evaluate(p, order, selected);
    }
    forall e | e in evaluations
      ensures exists order, selected :: BeamReturns(p, groups, width, order, selected) && Evaluable(p, order, selected)
                                        && e == Evaluate(p, order, selected)
    {
      var i :| 0 <= i < |evaluations| && evaluations[i] == e;
      assert BeamReturns(p, groups, width, last[i].order, last[i].selected);
    }
  }

  /** `oracle` is the foreign routing solver's answer; whatever it proposes is scored again here. */
  method OptimizeJointRoute(p: Problem, groups: Groups, oracle: Option<(seq<nat>, Selection)>)
    returns (r: Result<Evaluation, SearchError>, algorithm: Algorithm)
    requires GroupsValid(p, groups)
    requires oracle.Some? ==> Evaluable(WithBaseline(p, groups), oracle.value.0, oracle.value.1)
    ensures SmallEnough(groups) ==> (r.Ok? <==> AllNonempty(groups))
    ensures SmallEnough(groups) && r.Ok? ==> BestOfAll(WithBaseline(p, groups), groups, r.value)
    ensures !SmallEnough(groups) && (oracle.None? || OrderFixed(p.constraints.requiredOrder, |groups|)) ==>
              && (r.Ok? <==> AllNonempty(groups) && OrderUsable(p.constraints.requiredOrder, |groups|))
              && (r.Ok? ==> BestOfBeam(WithBaseline(p, groups), groups, BEAM_WIDTH, r.value))
    ensures !SmallEnough(groups) && oracle.Some? && !OrderFixed(p.constraints.requiredOrder, |groups|) ==>
              r == Ok(Evaluate(WithBaseline(p, groups), oracle.value.0, oracle.value.1))
    ensures algorithm == if SmallEnough(groups) then JointExactEnumeration
                         else if OrderFixed(p.constraints.requiredOrder, |groups|) then OrderedLayeredBeam
                         else if oracle.Some? then RoutingSolver else JointBeamFallback
  {
    hide Evaluate, Evaluable, Layer, OrderUsable, SmallEnough, OrderFixed, BeamReturns, IsPlan, EvaluationKey, Less;
    var distance, point := 0.0, 0;
    for k := 0 to |groups|
      invariant (distance, point) == Baseline(p, groups, k) && point < |p.matrix|
    {
      if groups[k] != [] {
        var node := groups[k][0];
        assert node in groups[k];
        distance, point := distance + p.matrix[point][node.matrixIndex].distance, node.matrixIndex;
      }
    }
    var q := p.(baseline := Some(distance));
    assert q == WithBaseline(p, groups);
    var fixed := OrderFixed(p.constraints.requiredOrder, |groups|);
    var evaluations: seq<Evaluation>;
    if SmallEnough(groups) {
      algorithm := JointExactEnumeration;
      evaluations := EnumerateExact(q, groups);
      ExactFindsPlanIff(q, groups, evaluations);
    } else if oracle.Some? && !fixed {
      algorithm := RoutingSolver;
      var e := EvaluateJointOrder(q, oracle.value.0, oracle.value.1);
      evaluations := [e];
    } else {
      algorithm := if fixed then OrderedLayeredBeam else JointBeamFallback;
      evaluations := EvaluateBeam(q, groups, BEAM_WIDTH);
      BeamFindsPlanIff(q, groups, BEAM_WIDTH);
    }
    if evaluations == [] {
      return Err(NoCandidates), algorithm;
    }
    var best := PickBest(evaluations, p.preferences.goal);
    r := Ok(best);
  }

  lemma ExactFindsPlanIff(p: Problem, groups: Groups, evaluations: seq<Evaluation>)
    requires GroupsValid(p, groups)
    requires forall e :: e in evaluations ==> FromPlan(p, groups, e)
    requires forall order, selected :: IsPlan(groups, order, selected) && Evaluable(p, order, selected) ==>
               Evaluate(p, order, selected) in evaluations
    ensures evaluations != [] <==> AllNonempty(groups)
  {
    hide Evaluate, Evaluable;
    if AllNonempty(groups) {
      var selected := map t: nat | t < |groups| :: groups[t][0];
      IdentityIsPermutation(|groups|);
      PlanIsEvaluable(p, groups, Range(|groups|), selected);
    }
    if evaluations != [] {
      assert FromPlan(p, groups, evaluations[0]);
      var order, selected :| IsPlan(groups, order, selected) && Evaluable(p, order, selected)
                             && evaluations[0] == Evaluate(p, order, selected);
      assert forall t: nat :: t < |groups| ==> selected[t] in groups[t];
    }
  }

  lemma IdentityIsPermutation(n: nat)
    ensures IsPermutation(Range(n), n)
  {}
}
