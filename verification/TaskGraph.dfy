/** The planning task graph: its validation (agent_artifacts.py), the round-based scheduler
    (agent_orchestrator.py), and failing and resuming a checkpointed run (agent_workflow_state.py). */
module TaskGraph {
  import opened Basics
  import opened Enumeration

  /** Step names; the special ones are numbered first. */
  type StepId = nat

  const INTENT := 0
  const CRITIC := 1
  const FINAL_ANSWER := 2
  const SEARCH := 3
  const PLANNER := 4

  datatype Status = Pending | Running | Retrying | Succeeded | Failed | Blocked | Skipped

  datatype Node = Node(id: StepId, deps: seq<StepId>)

  datatype GraphError = DuplicateStep(id: StepId) | UnknownDependency(id: StepId)

  // ------------------------------------------------------------------ validation

  /** Names are unique and every dependency is an earlier step. */
  ghost predicate Ordered(nodes: seq<Node>) {
    && (forall i, j :: 0 <= i < j < |nodes| ==> nodes[i].id != nodes[j].id)
    && forall i, d :: 0 <= i < |nodes| && d in nodes[i].deps ==> exists j :: 0 <= j < i && nodes[j].id == d
  }

  lemma OrderedExtends(nodes: seq<Node>, k: nat)
    requires k < |nodes| && Ordered(nodes[..k])
    requires forall j :: 0 <= j < k ==> nodes[j].id != nodes[k].id
    requires forall d :: d in nodes[k].deps ==> exists j :: 0 <= j < k && nodes[j].id == d
    ensures Ordered(nodes[..k + 1])
  {
    var front, all := nodes[..k], nodes[..k + 1];
    assert forall j :: 0 <= j < k ==> all[j] == front[j];
    forall i, d | 0 <= i < |all| && d in all[i].deps
      ensures exists j :: 0 <= j < i && all[j].id == d
    {
      if i < k {
        var j :| 0 <= j < i && front[j].id == d;
        assert all[j].id == d;
      } else {
        var j :| 0 <= j < k && nodes[j].id == d;
        assert all[j].id == d;
      }
    }
  }

  method ValidateTaskGraph(nodes: seq<Node>) returns (r: Result<bool, GraphError>)
    ensures r.Ok? <==> Ordered(nodes)
    ensures r.Err? && r.error.DuplicateStep? ==>
              exists i, j :: 0 <= i < j < |nodes| && nodes[i].id == nodes[j].id == r.error.id
    ensures r.Err? && r.error.UnknownDependency? ==>
              exists j, d ::
                && 0 <= j < |nodes| && nodes[j].id == r.error.id && d in nodes[j].deps
                && forall i :: 0 <= i < j ==> nodes[i].id != d
  {
    var seen := {};
    for k := 0 to |nodes|
      invariant forall d :: d in seen <==> exists j :: 0 <= j < k && nodes[j].id == d
      invariant Ordered(nodes[..k])
    {
      var node := nodes[k];
      assert nodes[..k + 1][..k] == nodes[..k];
      if node.id in seen { return Err(DuplicateStep(node.id)); }
      var missing := (set d | d in node.deps) - seen;
      if missing != {} {
        var d :| d in missing;
        return Err(UnknownDependency(node.id));
      }
      forall d | d in node.deps
        ensures d in seen
      {
        assert d in seen || d in missing;
      }
      OrderedExtends(nodes, k);
      seen := seen + {node.id};
    }
    assert nodes[..|nodes|] == nodes;
    return Ok(true);
  }

  // ------------------------------------------------------------------- scheduling

  predicate Planned(id: StepId) { id != INTENT && id != CRITIC && id != FINAL_ANSWER }

  /** The steps this executor runs, in graph order. */
  function Subgraph(nodes: seq<Node>): seq<StepId> {
    if nodes == [] then []
    else Subgraph(nodes[..|nodes| - 1]) + (if Planned(nodes[|nodes| - 1].id) then [nodes[|nodes| - 1].id] else [])
  }

  function IsReady(node: Node, pending: set<StepId>, completed: set<StepId>): bool {
    node.id in pending && forall d :: d in node.deps ==> d in completed
  }

  function Ready(nodes: seq<Node>, pending: set<StepId>, completed: set<StepId>): seq<StepId> {
    if nodes == [] then []
    else
      Ready(nodes[..|nodes| - 1], pending, completed)
      + (if IsReady(nodes[|nodes| - 1], pending, completed) then [nodes[|nodes| - 1].id] else [])
  }

  lemma {:induction false} SubgraphMembers(nodes: seq<Node>)
    requires Ordered(nodes)
    ensures forall id :: id in Subgraph(nodes) <==> Planned(id) && exists j :: 0 <= j < |nodes| && nodes[j].id == id
    ensures Distinct(Subgraph(nodes))
  {
    if nodes != [] {
      OrderedPrefix(nodes);
      SubgraphMembers(nodes[..|nodes| - 1]);
    }
  }

  lemma OrderedPrefix(nodes: seq<Node>)
    requires Ordered(nodes) && nodes != []
    ensures Ordered(nodes[..|nodes| - 1])
  {
    var front := nodes[..|nodes| - 1];
    forall i, d | 0 <= i < |front| && d in front[i].deps
      ensures exists j :: 0 <= j < i && front[j].id == d
    {
      var j :| 0 <= j < i && nodes[j].id == d;
      assert front[j].id == d;
    }
  }

  lemma {:induction false} ReadyMembers(nodes: seq<Node>, pending: set<StepId>, completed: set<StepId>)
    requires Ordered(nodes)
    ensures forall id :: id in Ready(nodes, pending, completed) <==>
              exists j :: 0 <= j < |nodes| && nodes[j].id == id && IsReady(nodes[j], pending, completed)
    ensures Distinct(Ready(nodes, pending, completed))
  {
    if nodes != [] {
      OrderedPrefix(nodes);
      var front, last := nodes[..|nodes| - 1], nodes[|nodes| - 1];
      ReadyMembers(front, pending, completed);
      var r := Ready(front, pending, completed);
      forall i | 0 <= i < |r|
        ensures r[i] != last.id
      {
        assert r[i] in r;
        var j :| 0 <= j < |front| && front[j].id == r[i];
        assert nodes[j].id == r[i];
      }
    }
  }

  /** Some planned step waits for a step this executor never runs. */
  ghost predicate WaitsOutside(nodes: seq<Node>) {
    exists i, d :: 0 <= i < |nodes| && Planned(nodes[i].id) && d in nodes[i].deps && (d == CRITIC || d == FINAL_ANSWER)
  }

  /** Nothing starts before everything it depends on has succeeded, and nothing starts twice. */
  ghost predicate StartsInOrder(nodes: seq<Node>, starts: seq<StepId>) {
    && Distinct(starts)
    && forall i, k :: 0 <= i < |starts| && 0 <= k < |nodes| && nodes[k].id == starts[i] ==>
         forall d :: d in nodes[k].deps ==> d == INTENT || d in starts[..i]
  }

  /** In an ordered graph some pending step is ready, unless a planned step waits outside. */
  lemma {:induction false} SomeReady(nodes: seq<Node>, pending: set<StepId>, completed: set<StepId>, i: nat)
    requires Ordered(nodes) && i < |nodes| && nodes[i].id in pending && !WaitsOutside(nodes)
    requires forall id :: id in pending ==> Planned(id)
    requires INTENT in completed
    requires forall j :: 0 <= j < |nodes| && Planned(nodes[j].id) ==> nodes[j].id in pending || nodes[j].id in completed
    ensures Ready(nodes, pending, completed) != []
    decreases i
  {
    if d :| d in nodes[i].deps && d !in completed {
      var j :| 0 <= j < i && nodes[j].id == d;
      assert Planned(d);
      SomeReady(nodes, pending, completed, j);
    } else {
      ReadyMembers(nodes, pending, completed);
      assert IsReady(nodes[i], pending, completed);
      assert nodes[i].id in Ready(nodes, pending, completed);
    }
  }

  /** Each listed step started once more. */
  ghost predicate Counted(before: map<StepId, nat>, after: map<StepId, nat>, starts: seq<StepId>) {
    && after.Keys == before.Keys
    && forall id :: id in after ==> after[id] == before[id] + if id in starts then 1 else 0
  }

  /** The listed steps have their results; the others are as before. */
  ghost predicate Marked(before: map<StepId, Status>, after: map<StepId, Status>, ready: seq<StepId>,
      outcome: StepId -> bool) {
    && after.Keys == before.Keys
    && forall id :: id in after ==> after[id] == if id in ready then
         (if outcome(id) then Succeeded else Failed) else before[id]
  }

  /** Everything started so far is settled, and steps outside the subgraph are untouched. */
  ghost predicate Settled(
    before: map<StepId, Status>, after: map<StepId, Status>, subgraph: seq<StepId>, starts: seq<StepId>,
        outcome: StepId -> bool)
  {
    && after.Keys == before.Keys
    && (forall id :: id in starts ==> id in after && after[id] == if outcome(id) then Succeeded else Failed)
    && forall id :: id in after && id !in subgraph ==> after[id] == before[id]
  }

  lemma RoundCounts(a: map<StepId, nat>, b: map<StepId, nat>, c: map<StepId, nat>, starts: seq<StepId>,
      ready: seq<StepId>)
    requires Counted(a, b, starts) && Counted(b, c, ready) && Elements(starts) !! Elements(ready)
    ensures Counted(a, c, starts + ready)
  {
    forall id | id in c
      ensures c[id] == a[id] + if id in starts + ready then 1 else 0
    {
      assert id in starts ==> id in Elements(starts);
      assert id in ready ==> id in Elements(ready);
    }
  }

  lemma RoundSettles(
    a: map<StepId, Status>, b: map<StepId, Status>, c: map<StepId, Status>,
    subgraph: seq<StepId>, starts: seq<StepId>, ready: seq<StepId>, outcome: StepId -> bool)
    requires Settled(a, b, subgraph, starts, outcome) && Marked(b, c, ready, outcome)
    requires Elements(ready) <= Elements(subgraph) && forall id :: id in ready ==> id in b
    ensures Settled(a, c, subgraph, starts + ready, outcome)
  {
    forall id | id in c && id !in subgraph
      ensures c[id] == a[id]
    {
      assert id in ready ==> id in Elements(ready);
    }
  }

  /** Pending steps of the subgraph are blocked; settled ones stay settled. */
  lemma BlockingSettles(
    a: map<StepId, Status>, b: map<StepId, Status>, c: map<StepId, Status>,
    subgraph: seq<StepId>, starts: seq<StepId>, pending: set<StepId>, outcome: StepId -> bool)
    requires Settled(a, b, subgraph, starts, outcome) && c.Keys == b.Keys
    requires forall id :: id in c ==> c[id] == if id in pending then Blocked else b[id]
    requires pending == Elements(subgraph) - Elements(starts)
    ensures Settled(a, c, subgraph, starts, outcome)
    ensures forall id :: id in subgraph && id !in starts && id in c ==> c[id] == Blocked
  {
    forall id | id in starts
      ensures id !in pending
    {
      assert id in Elements(starts);
    }
    forall id | id in c && id !in subgraph
      ensures id !in pending
    {}
  }

  lemma RoundCover(subgraph: seq<StepId>, starts: seq<StepId>, ready: seq<StepId>, pending: set<StepId>)
    requires pending == Elements(subgraph) - Elements(starts) && Elements(starts) <= Elements(subgraph)
    requires ready != [] && Elements(ready) <= pending
    ensures Elements(starts + ready) == Elements(starts) + Elements(ready) <= Elements(subgraph)
    ensures pending - Elements(ready) == Elements(subgraph) - Elements(starts + ready)
    ensures pending - Elements(ready) < pending
  {
    assert ready[0] in Elements(ready);
    ElementsOfSum(starts, ready);
  }

  datatype ExecutionError = MissingStages | NoProgress | StepFailed(id: StepId)

  /** What the loop delivers. Steps start once, after their dependencies succeeded, in at most as many
      rounds as there are steps. Success means everything ran and succeeded; otherwise whatever had not
      started is blocked, because a started step failed or because a step waits outside the subgraph. */
  ghost predicate Outcome(
    nodes: seq<Node>, statuses: map<StepId, Status>, outcome: StepId -> bool,
    r: Result<bool, ExecutionError>, starts: seq<StepId>, rounds: nat)
  {
    && StartsInOrder(nodes, starts) && Elements(starts) <= Elements(Subgraph(nodes))
    && rounds <= |starts| <= |Subgraph(nodes)|
    && match r
       case Ok(_) => Elements(starts) == Elements(Subgraph(nodes)) && !WaitsOutside(nodes)
           && forall id :: id in starts ==> outcome(id)
       case Err(e) =>
         && (forall id :: id in Subgraph(nodes) && id !in starts ==> id in statuses && statuses[id] == Blocked)
         && match e
            case StepFailed(id) => id in starts && !outcome(id)
            case NoProgress => WaitsOutside(nodes) && forall id :: id in starts ==> outcome(id)
            case MissingStages => false
  }

  /** Every planned step has either started and is completed, or is pending. */
  ghost predicate Midway(subgraph: seq<StepId>, starts: seq<StepId>, pending: set<StepId>, completed: set<StepId>) {
    && pending == Elements(subgraph) - Elements(starts) && Elements(starts) <= Elements(subgraph)
    && completed == {INTENT} + Elements(starts)
  }

  lemma RoundProgresses(nodes: seq<Node>, starts: seq<StepId>, pending: set<StepId>, completed: set<StepId>)
    requires Ordered(nodes) && StartsInOrder(nodes, starts) && Midway(Subgraph(nodes), starts, pending, completed)
    requires Ready(nodes, pending, completed) != []
    ensures var ready := Ready(nodes, pending, completed);
            && StartsInOrder(nodes, starts + ready)
            && Midway(Subgraph(nodes), starts + ready, pending - Elements(ready), completed + Elements(ready))
            && pending - Elements(ready) < pending
  {
    hide Ready, Ordered, StartsInOrder, Subgraph;
    var ready := Ready(nodes, pending, completed);
    ReadyArePending(nodes, pending, completed);
    RoundInOrder(nodes, starts, ready, pending, completed);
    RoundCover(Subgraph(nodes), starts, ready, pending);
  }

  lemma NobodyReady(nodes: seq<Node>, starts: seq<StepId>, pending: set<StepId>, completed: set<StepId>)
    requires Ordered(nodes) && Midway(Subgraph(nodes), starts, pending, completed)
    requires pending != {} && Ready(nodes, pending, completed) == []
    ensures WaitsOutside(nodes)
  {
    hide Ready, Ordered, Subgraph, WaitsOutside;
    assert forall id :: id in Subgraph(nodes) ==> id in Elements(Subgraph(nodes));
    Stuck(nodes, pending, completed);
  }

  lemma Stopped(
    nodes: seq<Node>, statuses: map<StepId, Status>, outcome: StepId -> bool, e: ExecutionError,
    starts: seq<StepId>, pending: set<StepId>, completed: set<StepId>, rounds: nat)
    requires Ordered(nodes) && StartsInOrder(nodes, starts) && Midway(Subgraph(nodes), starts, pending, completed)
    requires rounds <= |starts|
    requires forall id :: id in Subgraph(nodes) && id !in starts ==> id in statuses && statuses[id] == Blocked
    requires match e
             case StepFailed(id) => id in starts && !outcome(id)
             case NoProgress => WaitsOutside(nodes) && forall id :: id in starts ==> outcome(id)
             case MissingStages => false
    ensures Outcome(nodes, statuses, outcome, Err(e), starts, rounds)
  {
    StartsBound(nodes, starts);
  }

  lemma Finished(
    nodes: seq<Node>, statuses: map<StepId, Status>, outcome: StepId -> bool,
    starts: seq<StepId>, completed: set<StepId>, rounds: nat)
    requires Ordered(nodes) && StartsInOrder(nodes, starts) && Midway(Subgraph(nodes), starts, {}, completed)
    requires rounds <= |starts| && forall id :: id in starts ==> outcome(id)
    ensures Outcome(nodes, statuses, outcome, Ok(true), starts, rounds)
  {
    StartsBound(nodes, starts);
    assert forall id :: id in Elements(Subgraph(nodes)) ==>
        id in Elements(Subgraph(nodes)) - Elements(starts) || id in Elements(starts);
    AllStarted(nodes, starts);
  }

  /** With every step succeeding, a validated graph runs to the end exactly when no planned step waits
      for the critic or the final answer. */
  lemma CompletesIff(
    nodes: seq<Node>, statuses: map<StepId, Status>, outcome: StepId -> bool,
    r: Result<bool, ExecutionError>, starts: seq<StepId>, rounds: nat)
    requires Outcome(nodes, statuses, outcome, r, starts, rounds) && forall id :: id in Subgraph(nodes) ==> outcome(id)
    ensures r.Ok? <==> !WaitsOutside(nodes)
  {
    assert forall id :: id in starts ==> id in Elements(starts);
  }

  class Scheduler {
    const nodes: seq<Node>
    var statuses: map<StepId, Status>
    var attempts: map<StepId, nat>

    ghost predicate Valid()
      reads this
    {
      && Ordered(nodes)
      && forall k :: 0 <= k < |nodes| ==> nodes[k].id in statuses && nodes[k].id in attempts
    }

    constructor (nodes: seq<Node>)
      requires Ordered(nodes)
      ensures Valid() && this.nodes == nodes
    {
      this.nodes := nodes;
      statuses := map k | 0 <= k < |nodes| :: nodes[k].id := Pending;
      attempts := map k | 0 <= k < |nodes| :: nodes[k].id := 0;
    }

    /** Gives every listed step one status and leaves the others alone. */
    method SetAll(ids: seq<StepId>, status: Status, begin: bool)
      requires Valid() && Distinct(ids)
      requires forall id :: id in ids ==> id in statuses && id in attempts
      modifies this`statuses, this`attempts
      ensures Valid() && statuses.Keys == old(statuses).Keys && attempts.Keys == old(attempts).Keys
      ensures forall id :: id in statuses ==> statuses[id] == if id in ids then status else old(statuses)[id]
      ensures forall id :: id in attempts ==> attempts[id] == old(attempts)[id] + if begin && id in ids then 1 else 0
    {
      for k := 0 to |ids|
        invariant Valid() && statuses.Keys == old(statuses).Keys && attempts.Keys == old(attempts).Keys
        invariant forall id :: id in statuses ==> statuses[id] == if id in ids[..k] then status else old(statuses)[id]
        invariant forall id :: id in attempts ==>
                    attempts[id] == old(attempts)[id] + if begin && id in ids[..k] then 1 else 0
      {
        assert ids[..k + 1] == ids[..k] + [ids[k]];
        assert ids[k] !in ids[..k];
        statuses := statuses[ids[k] := status];
        if begin { attempts := attempts[ids[k] := attempts[ids[k]] + 1]; }
      }
      assert ids[..|ids|] == ids;
    }

    /** Marks the planned steps as waiting again; those with an attempt behind them as retrying. */
    method ResetSubgraph(ids: seq<StepId>)
      requires Valid() && forall id :: id in ids ==> id in statuses && id in attempts
      modifies this`statuses
      ensures Valid() && statuses.Keys == old(statuses).Keys
      ensures forall id :: id in statuses ==>
                statuses[id] == if id in ids then (if attempts[id] > 0 then Retrying else Pending)
                    else old(statuses)[id]
    {
      for k := 0 to |ids|
        invariant Valid() && statuses.Keys == old(statuses).Keys
        invariant forall id :: id in statuses ==>
                    statuses[id] == if id in ids[..k] then (if attempts[id] > 0 then Retrying else Pending)
                        else old(statuses)[id]
      {
        assert ids[..k + 1] == ids[..k] + [ids[k]];
        statuses := statuses[ids[k] := if attempts[ids[k]] > 0 then Retrying else Pending];
      }
      assert ids[..|ids|] == ids;
    }

    /** Records the results of one round; the first failure is the one reported. */
    method RecordResults(ready: seq<StepId>, outcome: StepId -> bool) returns (failure: Option<StepId>)
      requires Valid() && Distinct(ready) && forall id :: id in ready ==> id in statuses
      modifies this`statuses
      ensures Valid() && statuses.Keys == old(statuses).Keys
      ensures forall id :: id in statuses ==>
                statuses[id] == if id in ready then (if outcome(id) then Succeeded else Failed) else old(statuses)[id]
      ensures failure.None? <==> forall id :: id in ready ==> outcome(id)
      ensures failure.Some? ==> failure.value in ready && !outcome(failure.value)
    {
      failure := None;
      for k := 0 to |ready|
        invariant Valid() && statuses.Keys == old(statuses).Keys
        invariant forall id :: id in statuses ==>
                    statuses[id] == if id in ready[..k] then (if outcome(id) then Succeeded else Failed)
                        else old(statuses)[id]
        invariant failure.None? <==> forall id :: id in ready[..k] ==> outcome(id)
        invariant failure.Some? ==> failure.value in ready && !outcome(failure.value)
      {
        var id := ready[k];
        assert ready[..k + 1] == ready[..k] + [id];
        if outcome(id) {
          statuses := statuses[id := Succeeded];
        } else {
          statuses := statuses[id := Failed];
          if failure.None? { failure := Some(id); }
        }
      }
      assert ready[..|ready|] == ready;
    }

    /** Starts the ready steps together and records their results. */
    method RunRound(ready: seq<StepId>, outcome: StepId -> bool) returns (failure: Option<StepId>)
      requires Valid() && Distinct(ready) && forall id :: id in ready ==> id in statuses && id in attempts
      modifies this`statuses, this`attempts
      ensures Valid() && Marked(old(statuses), statuses, ready, outcome) && Counted(old(attempts), attempts, ready)
      ensures failure.None? <==> forall id :: id in ready ==> outcome(id)
      ensures failure.Some? ==> failure.value in ready && !outcome(failure.value)
    {
      SetAll(ready, Running, true);
      failure := RecordResults(ready, outcome);
    }

    /** Runs the planned subgraph in rounds. `starts` lists the started steps in order, `rounds` counts
        the rounds; `outcome` says which steps succeed. */
    method ExecutePlanningStages(outcome: StepId -> bool)
      returns (r: Result<bool, ExecutionError>, starts: seq<StepId>, rounds: nat)
      requires Valid()
      modifies this`statuses, this`attempts
      ensures Valid()
      ensures r == Err(MissingStages) <==> !(SEARCH in Subgraph(nodes) && PLANNER in Subgraph(nodes))
      ensures r == Err(MissingStages) ==> starts == [] && statuses == old(statuses) && attempts == old(attempts)
      ensures r != Err(MissingStages) ==>
                && Settled(old(statuses), statuses, Subgraph(nodes), starts, outcome)
                     && Counted(old(attempts), attempts, starts)
                && Outcome(nodes, statuses, outcome, r, starts, rounds)
    {
      var subgraph := Subgraph(nodes);
      SubgraphMembers(nodes);
      if SEARCH !in subgraph || PLANNER !in subgraph { return Err(MissingStages), [], 0; }
      ResetSubgraph(subgraph);
      assert forall id :: id in subgraph ==> id in statuses && id in attempts;
      assert Settled(old(statuses), statuses, subgraph, [], outcome);
      hide Subgraph, Ordered, Outcome;
      r, starts, rounds := RunRounds(subgraph, outcome);
    }

    /** The round loop. */
    method RunRounds(subgraph: seq<StepId>, outcome: StepId -> bool)
      returns (r: Result<bool, ExecutionError>, starts: seq<StepId>, rounds: nat)
      requires Valid() && subgraph == Subgraph(nodes) && forall id :: id in subgraph ==>
              id in statuses && id in attempts
      modifies this`statuses, this`attempts
      ensures Valid() && r != Err(MissingStages)
      ensures Settled(old(statuses), statuses, subgraph, starts, outcome) && Counted(old(attempts), attempts, starts)
      ensures Outcome(nodes, statuses, outcome, r, starts, rounds)
    {
      starts, rounds := [], 0;
      NothingStarted(nodes);
      assert Settled(old(statuses), statuses, subgraph, starts, outcome) && Counted(old(attempts), attempts, starts);
      var completed: set<StepId>, pending: set<StepId> := {INTENT}, Elements(subgraph);
      assert Midway(subgraph, starts, pending, completed);
      hide Subgraph, Ready, Ordered, StartsInOrder, WaitsOutside, Distinct, Settled, Counted, Outcome, Midway, Elements;
      while pending != {}
        invariant Valid() && statuses.Keys == old(statuses).Keys && attempts.Keys == old(attempts).Keys
        invariant Midway(subgraph, starts, pending, completed)
        invariant StartsInOrder(nodes, starts) && rounds <= |starts|
        invariant Settled(old(statuses), statuses, subgraph, starts, outcome)
                && Counted(old(attempts), attempts, starts)
        invariant forall id :: id in starts ==> outcome(id)
        decreases pending
      {
        var ready := Ready(nodes, pending, completed);
        if ready == [] {
          NobodyReady(nodes, starts, pending, completed);
          Block(subgraph, starts, pending, completed, outcome, old(statuses));
          Stopped(nodes, statuses, outcome, NoProgress, starts, pending, completed, rounds);
          return Err(NoProgress), starts, rounds;
        }
        RoundProgresses(nodes, starts, pending, completed);
        var failure := TakeRound(subgraph, starts, pending, completed, outcome, old(statuses), old(attempts));
        starts, rounds, pending, completed := starts + ready, rounds + 1, pending - Elements(ready),
            completed + Elements(ready);
        if failure.Some? {
          Block(subgraph, starts, pending, completed, outcome, old(statuses));
          Stopped(nodes, statuses, outcome, StepFailed(failure.value), starts, pending, completed, rounds);
          return Err(StepFailed(failure.value)), starts, rounds;
        }
      }
      Finished(nodes, statuses, outcome, starts, completed, rounds);
      return Ok(true), starts, rounds;
    }

    /** One round within a run that began with the given statuses and attempts. */
    method TakeRound(
      subgraph: seq<StepId>, starts: seq<StepId>, pending: set<StepId>, completed: set<StepId>, outcome: StepId -> bool,
      ghost before: map<StepId, Status>, ghost counts: map<StepId, nat>) returns (failure: Option<StepId>)
      requires Valid() && Midway(subgraph, starts, pending, completed)
      requires forall id :: id in subgraph ==> id in statuses && id in attempts
      requires Settled(before, statuses, subgraph, starts, outcome) && Counted(counts, attempts, starts)
      modifies this`statuses, this`attempts
      ensures Valid() && statuses.Keys == old(statuses).Keys && attempts.Keys == old(attempts).Keys
      ensures var ready := Ready(nodes, pending, completed);
              && Settled(before, statuses, subgraph, starts + ready, outcome)
                   && Counted(counts, attempts, starts + ready)
              && (failure.None? <==> forall id :: id in ready ==> outcome(id))
              && (failure.Some? ==> failure.value in ready && !outcome(failure.value))
    {
      hide Ready, Ordered;
      var ready := Ready(nodes, pending, completed);
      ReadyArePending(nodes, pending, completed);
      assert forall id :: id in ready ==> id in Elements(ready);
      failure := RunRound(ready, outcome);
      hide Settled, Marked, Counted, Midway;
      RoundCounts(counts, old(attempts), attempts, starts, ready);
      RoundSettles(before, old(statuses), statuses, subgraph, starts, ready, outcome);
    }

    method Block(
      subgraph: seq<StepId>, starts: seq<StepId>, pending: set<StepId>, completed: set<StepId>, outcome: StepId -> bool,
      ghost before: map<StepId, Status>)
      requires Valid() && Midway(subgraph, starts, pending, completed) && forall id :: id in subgraph ==> id in statuses
      requires Settled(before, statuses, subgraph, starts, outcome)
      modifies this`statuses
      ensures Valid() && statuses.Keys == old(statuses).Keys
      ensures Settled(before, statuses, subgraph, starts, outcome)
      ensures forall id :: id in subgraph && id !in starts ==> id in statuses && statuses[id] == Blocked
    {
      BlockAll(pending);
      BlockingSettles(before, old(statuses), statuses, subgraph, starts, pending, outcome);
    }

    method BlockAll(pending: set<StepId>)
      requires Valid() && forall id :: id in pending ==> id in statuses
      modifies this`statuses
      ensures Valid() && statuses.Keys == old(statuses).Keys
      ensures forall id :: id in statuses ==> statuses[id] == if id in pending then Blocked else old(statuses)[id]
    {
      var rest := pending;
      while rest != {}
        invariant rest <= pending && Valid() && statuses.Keys == old(statuses).Keys
        invariant forall id :: id in statuses ==>
                    statuses[id] == if id in pending && id !in rest then Blocked else old(statuses)[id]
        decreases rest
      {
        var id :| id in rest;
        rest := rest - {id};
        statuses := statuses[id := Blocked];
      }
    }
  }

  lemma NothingStarted(nodes: seq<Node>)
    ensures StartsInOrder(nodes, [])
  {}

  lemma ReadyArePending(nodes: seq<Node>, pending: set<StepId>, completed: set<StepId>)
    requires Ordered(nodes)
    ensures Elements(Ready(nodes, pending, completed)) <= pending && Distinct(Ready(nodes, pending, completed))
  {
    ReadyMembers(nodes, pending, completed);
  }

  lemma ElementsOfSum(a: seq<StepId>, b: seq<StepId>)
    ensures Elements(a + b) == Elements(a) + Elements(b)
  {}

  lemma StartsBound(nodes: seq<Node>, starts: seq<StepId>)
    requires Ordered(nodes) && StartsInOrder(nodes, starts) && Elements(starts) <= Elements(Subgraph(nodes))
    ensures |starts| <= |Subgraph(nodes)|
  {
    SubgraphMembers(nodes);
    DistinctCardinality(starts);
    DistinctCardinality(Subgraph(nodes));
    assert Elements(Subgraph(nodes)) == Elements(starts) + (Elements(Subgraph(nodes)) - Elements(starts));
  }

  lemma AllStarted(nodes: seq<Node>, starts: seq<StepId>)
    requires Ordered(nodes) && StartsInOrder(nodes, starts) && Elements(starts) == Elements(Subgraph(nodes))
    ensures !WaitsOutside(nodes)
  {
    SubgraphMembers(nodes);
    forall i, d | 0 <= i < |nodes| && Planned(nodes[i].id) && d in nodes[i].deps
      ensures d != CRITIC && d != FINAL_ANSWER
    {
      assert nodes[i].id in Elements(starts);
      var at :| 0 <= at < |starts| && starts[at] == nodes[i].id;
      if d != INTENT {
        assert d in starts[..at];
        assert d in Elements(starts);
      }
    }
  }

  lemma Stuck(nodes: seq<Node>, pending: set<StepId>, completed: set<StepId>)
    requires Ordered(nodes) && pending != {} && Ready(nodes, pending, completed) == [] && INTENT in completed
    requires forall id :: id in pending ==> id in Subgraph(nodes)
    requires forall id :: id in Subgraph(nodes) ==> id in pending || id in completed
    ensures WaitsOutside(nodes)
  {
    SubgraphMembers(nodes);
    var id :| id in pending;
    var i :| 0 <= i < |nodes| && nodes[i].id == id;
    if !WaitsOutside(nodes) {
      SomeReady(nodes, pending, completed, i);
    }
  }

  /** A round keeps the start order: its steps' dependencies succeeded in earlier rounds. */
  lemma RoundInOrder(nodes: seq<Node>, starts: seq<StepId>, ready: seq<StepId>, pending: set<StepId>,
      completed: set<StepId>)
    requires Ordered(nodes) && StartsInOrder(nodes, starts) && ready == Ready(nodes, pending, completed)
    requires completed == {INTENT} + Elements(starts) && pending !! Elements(starts)
    ensures StartsInOrder(nodes, starts + ready)
  {
    ReadyMembers(nodes, pending, completed);
    var all := starts + ready;
    forall i, k | 0 <= i < |all| && 0 <= k < |nodes| && nodes[k].id == all[i]
      ensures forall d :: d in nodes[k].deps ==> d == INTENT || d in all[..i]
    {
      if i < |starts| {
        assert all[..i] == starts[..i];
      } else {
        assert all[i] in ready;
        assert IsReady(nodes[k], pending, completed);
        forall d | d in nodes[k].deps && d != INTENT
          ensures d in all[..i]
        {
          var at :| 0 <= at < |starts| && starts[at] == d;
          assert all[..i][at] == d;
        }
      }
    }
    forall i, j | 0 <= i < j < |all|
      ensures all[i] != all[j]
    {
      if i < |starts| <= j { assert all[j] in ready; }
    }
  }

  // -------------------------------------------------------------- fail and resume

  predicate Closed(status: Status) { status == Succeeded || status == Skipped }

  function AfterFail(status: Status): Status {
    match status
    case Running | Retrying => Failed
    case Pending => Blocked
    case _ => status
  }

  /** First step that is not closed; the number of steps when all are. */
  function FirstOpen(statuses: seq<Status>): (r: nat)
    ensures r <= |statuses|
    ensures r < |statuses| ==> !Closed(statuses[r])
    ensures forall i :: 0 <= i < r ==> Closed(statuses[i])
  {
    if statuses == [] then 0 else if !Closed(statuses[0]) then 0 else 1 + FirstOpen(statuses[1..])
  }

  function Resumed(statuses: seq<Status>, i: nat): Status
    requires i < |statuses|
  {
    var first := FirstOpen(statuses);
    if i == first then Retrying
    else if i > first && (statuses[i] == Blocked || statuses[i] == Failed || statuses[i] == Retrying) then Pending
    else statuses[i]
  }

  datatype WorkflowStatus = WorkflowRunning | WorkflowFailed | WorkflowDone

  /** Step `r` retries; earlier steps were closed, later ones are closed or wait to be run. */
  ghost predicate RetriesOnly(before: seq<Status>, after: seq<Status>, r: nat)
    requires |before| == |after| && r < |after|
  {
    && after[r] == Retrying && !Closed(before[r])
    && (forall i :: 0 <= i < r ==> Closed(before[i]) && after[i] == before[i])
    && (forall i :: r < i < |after| ==> after[i] == if Closed(before[i]) then before[i] else Pending)
  }

  lemma RetriesFirst(before: seq<Status>, failed: seq<Status>, after: seq<Status>)
    requires |before| == |failed| == |after|
    requires forall i :: 0 <= i < |before| ==> failed[i] == AfterFail(before[i])
    requires forall i :: 0 <= i < |after| ==> after[i] == Resumed(failed, i)
    ensures FirstOpen(failed) < |after| ==> RetriesOnly(before, after, FirstOpen(failed))
    ensures FirstOpen(failed) == |after| <==> forall i :: 0 <= i < |before| ==> Closed(before[i])
    ensures FirstOpen(failed) == |after| ==> after == before
  {
    hide FirstOpen;
    var first := FirstOpen(failed);
    assert forall i :: 0 <= i < |before| ==> (Closed(failed[i]) <==> Closed(before[i]));
    assert first == |after| ==> forall i :: 0 <= i < |after| ==> after[i] == before[i];
  }

  /** A workflow's steps and their checkpointed rows. */
  class Workflow {
    const ids: seq<StepId>
    var statuses: seq<Status>
    var rows: map<StepId, Status>
    var status: WorkflowStatus

    ghost predicate Valid()
      reads this
    {
      Distinct(ids) && |statuses| == |ids|
    }

    constructor (ids: seq<StepId>)
      requires Distinct(ids)
      ensures Valid() && this.ids == ids
    {
      this.ids := ids;
      statuses, rows, status := seq(|ids|, _ => Pending), map[], WorkflowRunning;
    }

    method Checkpoint()
      requires Valid()
      modifies this`rows
      ensures forall i :: 0 <= i < |ids| ==> ids[i] in rows && rows[ids[i]] == statuses[i]
    {
      for k := 0 to |ids|
        invariant forall i :: 0 <= i < k ==> ids[i] in rows && rows[ids[i]] == statuses[i]
      {
        rows := rows[ids[k] := statuses[k]];
      }
    }

    method Fail()
      requires Valid()
      modifies this
      ensures Valid() && status == WorkflowFailed
      ensures forall i :: 0 <= i < |ids| ==>
              statuses[i] == AfterFail(old(statuses)[i]) && ids[i] in rows && rows[ids[i]] == statuses[i]
    {
      status := WorkflowFailed;
      for k := 0 to |ids|
        invariant Valid() && status == WorkflowFailed
        invariant forall i :: 0 <= i < |ids| ==> statuses[i] == if i < k then
                AfterFail(old(statuses)[i]) else old(statuses)[i]
      {
        if statuses[k] == Running || statuses[k] == Retrying {
          statuses := statuses[k := Failed];
        } else if statuses[k] == Pending {
          statuses := statuses[k := Blocked];
        }
      }
      Checkpoint();
    }

    /** Restores the checkpointed statuses (a step without a row keeps its own), picks the first open
        step to retry and puts the later failed, blocked or retrying ones back to pending. */
    method Resume() returns (from: Option<StepId>)
      requires Valid()
      modifies this
      ensures Valid() && status == WorkflowRunning
      ensures var before := Stored(old(rows), old(statuses)); var first := FirstOpen(before);
              && from == (if first < |ids| then Some(ids[first]) else None)
              && forall i :: 0 <= i < |ids| ==>
                   statuses[i] == Resumed(before, i) && ids[i] in rows && rows[ids[i]] == statuses[i]
    {
      ghost var before := Stored(rows, statuses);
      ghost var first := FirstOpen(before);
      from := None;
      for k := 0 to |ids|
        invariant Valid() && rows == old(rows)
        invariant from == if first < k then Some(ids[first]) else None
        invariant forall i :: 0 <= i < k ==> statuses[i] == Resumed(before, i)
        invariant forall i :: k <= i < |ids| ==> statuses[i] == old(statuses)[i]
      {
        if ids[k] in rows { statuses := statuses[k := rows[ids[k]]]; }
        if from.None? && !Closed(statuses[k]) {
          from := Some(ids[k]);
          statuses := statuses[k := Retrying];
        } else if from.Some? && (statuses[k] == Blocked || statuses[k] == Failed || statuses[k] == Retrying) {
          statuses := statuses[k := Pending];
        }
      }
      status := WorkflowRunning;
      Checkpoint();
    }

    ghost function Stored(rows: map<StepId, Status>, own: seq<Status>): (r: seq<Status>)
      requires |own| <= |ids|
      ensures |r| == |own|
      ensures forall i :: 0 <= i < |own| ==> r[i] == if ids[i] in rows then rows[ids[i]] else own[i]
    {
      if own == [] then []
      else
        var i := |own| - 1;
        Stored(rows, own[..i]) + [if ids[i] in rows then rows[ids[i]] else own[i]]
    }

    /** A failed run resumed: at most one step retries, the first one that had not been closed, and
        every other step is closed or waits to be run. */
    method FailThenResume() returns (from: Option<StepId>)
      requires Valid()
      modifies this
      ensures Valid()
      ensures from.None? <==> forall i :: 0 <= i < |ids| ==> Closed(old(statuses)[i])
      ensures from.None? ==> statuses == old(statuses)
      ensures from.Some? ==>
              exists r :: 0 <= r < |ids| && ids[r] == from.value && RetriesOnly(old(statuses), statuses, r)
    {
      ghost var before := statuses;
      Fail();
      ghost var failed := statuses;
      assert Stored(rows, statuses) == failed;
      from := Resume();
      hide FirstOpen;
      RetriesFirst(before, failed, statuses);
    }
  }
}
