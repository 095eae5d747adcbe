# Verified model of MapGo's planning and agent core

A Dafny model of the decision-making core of the MapGo backend and of its route algorithms in the
browser, with proofs about all inputs, all runs and all interleavings. It covers

- the joint route optimizer: the time-window simulation, exhaustive search, the pruned beam;
- replanning: the compiler from a new visiting order to an edit script, the script interpreter, the
  validator, the critic, and the chain of immutable plan versions that concurrent deciders extend;
- the recoverable message transport of the agents: conservation, single-use receipts, a delivery bound;
- the runtime store: bounded values, counters, compare-and-set, fenced locks;
- workers racing for trip events under fencing tokens, and their durable work queue;
- the optimistic shared state with its role and phase tables;
- task graphs: validation and the round-based scheduler with fail and resume, open-path TSP, and the audit payload minimizer.

Pure code is modelled by functions and lemmas. Code that changes state step by step is modelled by
methods with loops and by classes (`InMemoryTransport`, `AgentTaskWorker`, `InMemoryRuntimeStore`,
`Database`, `RedisQueue`, `AgentSharedStateManager`, `Scheduler`, `Workflow`) whose contracts equate the
new state with a specification step; the properties are proved about those steps and about every run of
them. `dafny verify dfyconfig.toml` checks everything.

## Files

| file | content |
|---|---|
| Basics, StableSort, Enumeration | options and results, stable sorting, permutations and products |
| RouteEvaluation, JointSearch | simulation of one visiting order; exhaustive, beam and combined search |
| PlanPatch, SharedPlaces, PatchValidation | edit scripts and their compiler; plans that visit a place twice; validator |
| PatchCritic, PatchReview | what the critic objects to; its whole review and auto-apply |
| VersionChain, PlanDatabase | proposals, reviews and deciders as a state machine; the decision procedure over a mutable database |
| AgentTransport, AgentBus | transport steps and their invariants; transport object and worker |
| ValueTable, RuntimeStore, FencedLock | value table, store object and counters, locks and token text |
| WorkerFence, TripEventWorker | lease expiry, claims and commit guard; one pass of the event handler |
| WorkQueue | the queue and the racing workers together: reserve, handle, retry, acknowledge, promote, recover, crash |
| SharedState, TaskGraph, OpenPath, AuditPayload | phase machine; scheduler and resume; TSP; minimizer |

## Claims that do not hold as usually stated

- *An earlier departure keeps a feasible plan feasible.* False with a cap on the total duration, because
  leaving early can add waiting. `EarlierDepartureStaysFeasible` gives the exact condition,
  `EarlierDepartureCanBreakDuration` a failing plan.
- *A generated edit script always reaches the solver's plan.* It always runs, but on distinct place ids it
  reaches the plan if and only if no replacement place is the old place of a stop replaced later
  (`CompiledScriptIsCorrect`; `CollisionHappens` shows the case). A plan that is right already keeps its visiting
  order if and only if visits to one place are adjacent, and its stops if and only if no place is visited twice
  (`SettledPlanKeptIff`, `SharedPlaceMisorders`).
- *The validator accepts exactly the feasible plans.* It also refuses every plan of an intent with a detour
  limit or a category budget (`AcceptedIff`, `FeasibleCanBeRefused`).
- *The validator accepts a feasible generated plan.* Only if every required entry survives on a stop that was
  neither completed nor dropped (`GeneratedScriptAcceptedIff`, `GeneratedCanBeRefused`).
- *Patch decisions are final.* The critic reviews a patch after it can be decided and does not look at its status
  (`backend/app/services/dynamic_replanning.py:702-713`). A decision is overwritten if and only if a review objects
  to a patch that is not blocked yet (`DecisionsAreFinalIff`, over runs `DecisionStaysIff`); for a generated patch
  that takes a replacement place of unknown source, or another version than its own (`GeneratedBlockedIff`,
  `SourcedProposalStays`). `AcceptedCanBeBlocked` is such a run.
- *The store's byte accounting is exact.* Exactly as long as no `publish` meets a missing or differently sized
  record (`RunIsExactIff`, `PublishBreaksRecord`).
- *The revision check protects the phase table.* Within one lifetime of a key (`SameLifetimeIsLawful`); a writer
  that read before expiry can win after re-initialization, and then its write is lawful exactly under the
  condition of `WinIsLawfulIff` (`ForeignWriteBreaksTable` shows a failing run).
- *A queued event is acknowledged only after success.* A worker whose claim is superseded returns normally and is
  acknowledged too. That loses the event exactly when it removes the one stored copy of an unprocessed event
  (`StepLosesIff`, `LossHappens`).

## Model

| member | source | states |
|---|---|---|
| RouteEvaluation.EvaluateJointOrder | backend/app/services/route_optimizer.py:47-271 | the loop over cursor, totals and conflicts computes the specified evaluation: time-window walk, return leg, duration, return, walking, budget and order conflicts, then the advisory penalties |
| RouteEvaluation.CountDisagreements | backend/app/services/route_optimizer.py:218-228 | the nested loop counts exactly the pairs that the new order visits the other way round than the previous order |
| RouteEvaluation.ArrivalIsMaxPlus | backend/app/services/route_optimizer.py:82-99 | an arrival is the maximum, over the departure and every window opening up to that stop, of the instant plus the travel and service after it |
| RouteEvaluation.DelayIsBounded | backend/app/services/route_optimizer.py:82-135 | leaving later delays every reading of the clock by at least zero and at most the delay |
| RouteEvaluation.ElapsedSplits | backend/app/services/route_optimizer.py:82-148 | elapsed time is travel plus service plus waiting, and waiting is never negative |
| RouteEvaluation.TotalsClosed | backend/app/services/route_optimizer.py:61-146 | clock, time, distance, cost, unknown cost, visited districts, rating and confidence shortfalls and stop conflicts after the loop and the way home equal their definitions over the legs |
| RouteEvaluation.RelativeOrderMeaning | backend/app/services/route_optimizer.py:42-44 | comparing the present required entries with their sorted copy means that they are visited in listed order |
| RouteEvaluation.NoStopConflicts | backend/app/services/route_optimizer.py:82-134 | the per-stop conflict list is empty exactly when every stop is reached by its appointment, starts by its deadline less the buffer, and is a place that meets the rating, opening, access, district, area and cost rules |
| RouteEvaluation.FeasibleIff | backend/app/services/route_optimizer.py:77-197 | a plan is feasible if and only if every stop is in time at a fitting place, the required order is followed, and duration, return time, walking, total cost, districts to pass and detour keep their limits at the final clock and distance |
| RouteEvaluation.EarlierDepartureStaysFeasible | backend/app/services/route_optimizer.py:82-162 | with an earlier departure and a smaller buffer a feasible plan stays feasible if and only if the duration cap still holds |
| RouteEvaluation.EarlierDepartureCanBreakDuration | backend/app/services/route_optimizer.py:148-155 | a concrete plan that is feasible at one o'clock and infeasible at midnight |
| RouteEvaluation.NoChangePenalty | backend/app/services/route_optimizer.py:218-228 | the change penalty is zero exactly when no shared pair swapped sides, so an order disagrees with itself nowhere |
| JointSearch.PickBest | backend/app/services/route_optimizer.py:274-280 | the minimum under the lexicographic key: an element of the list that is no worse than any other |
| JointSearch.EnumerateExact | backend/app/services/route_optimizer.py:496-501 | the double loop scores precisely the plans: every choice of candidates with every permutation |
| JointSearch.ExpandOne | backend/app/services/route_optimizer.py:298-322 | expanding one beam state yields its allowed continuations in order |
| JointSearch.BeamJoint | backend/app/services/route_optimizer.py:290-329 | the layered loop with sorting and truncation returns the orders and selections of the last layer |
| JointSearch.GuardAgreesWithCheck | backend/app/services/route_optimizer.py:283-287 | for a full permutation the stepwise guard of the beam and the final order check agree |
| JointSearch.LayerIsSound | backend/app/services/route_optimizer.py:298-328 | at any width every state of a layer is a partial plan whose score is the sum along its path and whose order met the guard at each step |
| JointSearch.LayerIsComplete | backend/app/services/route_optimizer.py:298-328 | without truncation every partial plan that meets the guard is in its layer |
| JointSearch.LastLayerIsPlans | backend/app/services/route_optimizer.py:298-329 | even under truncation every result is a permutation with one candidate of each group that respects the required order |
| JointSearch.BeamFindsPlanIff | backend/app/services/route_optimizer.py:283-329 | at any positive width the beam finds a plan if and only if every group has a candidate and the required order can be followed to the end |
| JointSearch.BeamRefinesExact | backend/app/services/route_optimizer.py:290-329 | without truncation the beam returns exactly the plans that pass the relative-order check |
| JointSearch.BeamMatchesExactOptimum | backend/app/services/route_optimizer.py:471-538 | if any plan is feasible, an untruncated beam ends with the best key of the exhaustive search |
| JointSearch.FixedOrderIsUntruncated | backend/app/services/route_optimizer.py:290-329 | with a completely fixed order nothing is dropped if the products of group sizes along it stay within the width |
| JointSearch.FewBranchesAreUntruncated | backend/app/services/route_optimizer.py:290-329 | whatever the required order, nothing is dropped if the branching bounds multiply to no more than the width: per layer one plus the number of unlisted tasks, but no more than the tasks left, times the largest group, or all candidates if those are fewer |
| JointSearch.OneUnlistedIsUntruncated | backend/app/services/route_optimizer.py:290-329 | at the program's width of 250 nothing is dropped for seven or eight single candidates of which one is unlisted, which is too many for the exhaustive branch |
| JointSearch.InfeasibleOnlyIfNoneFeasible | backend/app/services/route_optimizer.py:274-280 | the best plan is infeasible only if every plan is |
| JointSearch.ExactFindsPlanIff | backend/app/services/route_optimizer.py:496-537 | exhaustive search has something to choose from exactly when no group is empty |
| JointSearch.EvaluateBeam | backend/app/services/route_optimizer.py:523-525 | evaluates exactly the plans that the beam returns |
| JointSearch.OptimizeJointRoute | backend/app/services/route_optimizer.py:455-538 | small inputs give the best of all plans, otherwise the re-scored solver answer or the best of the beam; an error exactly when no plan was found; the algorithm label follows the branch |
| PlanPatch.ApplyPatchStructure | backend/app/services/plan_patch_validator.py:20-77 | the in-place interpreter equals the step-by-step meaning of the script, with its first error |
| PlanPatch.RemovesKeep | backend/app/services/replanning.py:274-278 | the generated removals run and leave exactly the kept stops in their old order, shared place ids included |
| PlanPatch.MovesSort | backend/app/services/replanning.py:279-295 | the move phase always runs and only rearranges stops; with k of the distinct target ids in place the remaining moves reach the target order |
| PlanPatch.ReplacesRun | backend/app/services/replanning.py:296-308 | every generated replacement finds a stop with its source id, however often an id occurs |
| PlanPatch.ReplacesCorrectIff | backend/app/services/replanning.py:296-308 | the replacement phase yields the chosen stops if and only if no replacement id is the source id of a later replaced stop |
| PlanPatch.CompiledScriptIsCorrect | backend/app/services/replanning.py:272-322 | the whole script never fails; on a plan with distinct place ids it yields the chosen stops in solver order with mode and departure if and only if no ids collide |
| PlanPatch.CollisionHappens | backend/app/services/replanning.py:107-114 | a plan and provider offers for which the ids collide, since only the stop's own id is excluded |
| PlanPatch.ChooseAlternative | backend/app/services/replanning.py:258-270 | stays with the current mode and all stops when that is feasible and no switch is asked for, otherwise takes the fastest feasible alternative; nothing exactly when nothing is feasible |
| PlanPatch.CompileRemovals | backend/app/services/replanning.py:274-283 | the loop emits the specified removals and keeps the other ids |
| PlanPatch.CompileMoves | backend/app/services/replanning.py:284-295 | the pop and insert loop emits the specified moves |
| PlanPatch.CompileReplacements | backend/app/services/replanning.py:296-308 | the loop emits the specified replacements |
| PlanPatch.CompilePatch | backend/app/services/replanning.py:272-322 | the phases together emit the compiled script |
| PlanPatch.CreatePendingReplan | backend/app/services/replanning.py:118-408 | the outcomes in the order of the checks: budget used up, version missing, the first pending patch that answers the event, nothing left, nothing feasible; otherwise the right alternative with nothing to do, or with its compiled script, which runs and with distinct place ids reaches the plan exactly when no ids collide; only a stored patch counts against the budget |
| PlanPatch.EmptyScriptChangesNothing | backend/app/services/replanning.py:272-322 | with distinct place ids an empty script means that the chosen plan is the current plan |
| SharedPlaces.ShuffleKeepsOrderIff | backend/app/services/replanning.py:284-295 | what the moves make of ids already in the target order is that order exactly when equal ids are adjacent |
| SharedPlaces.ShuffleKeepsStopsIff | backend/app/services/replanning.py:284-295 | different stops stay where they are exactly when no place id is shared |
| SharedPlaces.MovesShuffle | backend/app/services/replanning.py:284-295 | running the generated moves on a plan in the target order is that rearrangement |
| SharedPlaces.SettledPlanKeptIff | backend/app/services/replanning.py:272-322 | the script for a plan that is already what the solver asks for keeps the visiting order of places exactly when visits to one place are adjacent, and the plan exactly when no place is visited twice |
| SharedPlaces.SharedPlaceMisorders | backend/app/services/replanning.py:284-295 | two visits to one place: the order is already the requested one and the script still swaps them |
| PatchValidation.RegisterMeaning | backend/app/services/plan_patch_validator.py:106-125 | the registering loop finds no broken identity exactly when indices are in range and distinct, and then follows the stops one by one |
| PatchValidation.RegisteredTasks | backend/app/services/plan_patch_validator.py:106-129 | an index is registered exactly when some stop serves it |
| PatchValidation.RecalculateAndValidate | backend/app/services/plan_patch_validator.py:80-184 | missing context is an error; broken identities and missing required entries are reported before any evaluation; otherwise the findings are the conflicts of the evaluation, every stop carries its times, edge and absence of conflicts that mention it, and the confidence is the least of the edges |
| PatchValidation.AnyRequiredMissing | backend/app/services/plan_patch_validator.py:127-133 | required entries are missing exactly when no stop serves one of them |
| PatchValidation.TimeStops | backend/app/services/plan_patch_validator.py:157-170 | every stop gets its own arrival, departure, the edge from the stop before it, and whether a conflict mentions it |
| PatchValidation.AcceptedIff | backend/app/services/plan_patch_validator.py:156-156 | with sound identities acceptance is feasibility together with the absence of advisory constraints |
| PatchValidation.FeasibleCanBeRefused | backend/app/services/plan_patch_validator.py:156-156 | a feasible plan that is refused because its intent limits the detour |
| PatchValidation.StoredEdgesSum | backend/app/services/plan_patch_validator.py:157-174 | the stored totals are the sums of the stored edges between neighbours, plus the leg home when one is due |
| PatchValidation.GeneratedScriptAcceptedIff | backend/app/services/plan_patch_validator.py:106-156 | a generated script keeps identities sound, and its plan is accepted if and only if every required entry is served by a stop that was neither completed nor dropped, the evaluation is feasible and there is no advisory constraint |
| PatchValidation.CompletedRequiredIsRejected | backend/app/services/plan_patch_validator.py:126-135 | a generated script for a plan with a completed required stop is refused |
| PatchValidation.GeneratedCanBeRefused | backend/app/services/plan_patch_validator.py:126-135 | a generated script whose plan is feasible and still refused, one of two required visits being completed |
| PatchCritic.RemovalsPass | backend/app/services/replanning.py:274-278 | no removal of a generated script drops an open required stop, shared place ids included |
| PatchCritic.ReplacementsBlockedIff | backend/app/services/dynamic_replanning.py:82-87 | the replacements of a generated script are objected to exactly when one of the chosen places has no source |
| PatchCritic.GeneratedBlockedIff | backend/app/services/dynamic_replanning.py:53-90 | reviewed against its own base, a generated script is blocked if and only if it re-homes a stop to a place without source |
| PatchReview.ReviewDynamicPatch | backend/app/services/dynamic_replanning.py:47-109 | the verdict, risk and confirmation flag, and the findings in order: reported conflicts, version mismatch, one per offending operation, cost increase; low risk exactly for move-only scripts within the cost allowance |
| PatchReview.BlockedIffFound | backend/app/services/dynamic_replanning.py:66-90 | a blocking finding is raised exactly when the critic has a ground to object: reported conflicts, a version mismatch, removal of an open required stop or a replacement without evidence |
| PatchReview.DecideAutoApply | backend/app/services/dynamic_replanning.py:693-776 | applied automatically exactly when opted in, move-only, within the allowance and consistent with its base |
| PatchReview.OnlyMovesPermute | backend/app/services/plan_patch_validator.py:33-38 | a move-only script keeps the stops as a multiset, the mode, the departure and the stored cost |
| PatchReview.OnlyMovesFailIff | backend/app/services/plan_patch_validator.py:33-38 | a move-only script fails exactly when a position is outside the plan |
| PatchReview.AutoAppliedVersion | backend/app/services/dynamic_replanning.py:693-776 | the version made by an automatically applied generated script has the stops of its base as a multiset, its mode and its cost, and departs at the moment of the replan, less than a minute from the old time |
| VersionChain.StepKeepsInv | backend/app/services/plan_versioning.py:38-161 | every atomic step of every decider, proposal and review, and a crash at any point, keeps the chain invariant |
| VersionChain.ReachableInv | backend/app/api/ai_planner.py:1198-1383 | the chain invariant holds in every state of every run |
| VersionChain.ChainIsContiguous | backend/app/services/plan_versioning.py:38-161 | the versions of a run are exactly 1 to N, each later one made from its predecessor by its own patch and accepted by the validator, and no trip points past N |
| VersionChain.AcceptedPatchHasVersion | backend/app/services/plan_versioning.py:88-100 | an accepted patch produced exactly the version after its base |
| VersionChain.VersionsAreImmutable | backend/app/services/plan_versioning.py:88-98 | a version present at one moment of a run is there unchanged at every later moment |
| VersionChain.DecisionsAreFinalIff | backend/app/services/dynamic_replanning.py:702-713 | a decided status changes if and only if a review of that patch finds a ground to block it and it is not blocked already; then it becomes blocked |
| VersionChain.DecisionStaysIff | backend/app/services/dynamic_replanning.py:640-713 | over any run a decided patch keeps its status if and only if it is blocked already or no review of it objects |
| VersionChain.ProposalKept | backend/app/services/replanning.py:371-382 | a generated patch keeps the script, evidence and base of its replan, and the base its content, over the rest of the run |
| VersionChain.SourcedProposalStays | backend/app/services/dynamic_replanning.py:640-713 | over any run a generated patch whose replacement places all have a source keeps its decision, if its reviews read the version it was made for |
| VersionChain.AcceptedCanBeBlocked | backend/app/services/dynamic_replanning.py:702-713 | a run from an empty database in which a generated replacement by a place without source is accepted, makes the current version, and is then blocked by the critic |
| VersionChain.RequiredTasksKept | backend/app/services/plan_patch_validator.py:106-135 | every version after the first has sound identities and serves every required entry |
| PlanDatabase.Database.OpenPatch | backend/app/services/plan_versioning.py:38-42 | takes the lock exactly on pending patches and is the protocol's opening step |
| PlanDatabase.Database.LatestVersion | backend/app/services/plan_versioning.py:43-50 | the maximum version of a run, or none when it has no rows |
| PlanDatabase.Database.ReadBase | backend/app/services/plan_versioning.py:43-57 | compares the base with the newest version and is the protocol's reading step |
| PlanDatabase.Database.AdvanceTrips | backend/app/services/plan_versioning.py:101-112 | the loop moves exactly the trips on the superseded version, and replanning ones back to active |
| PlanDatabase.Database.RejectPatch | backend/app/api/ai_planner.py:1211-1249 | marks the pending patch rejected and is the protocol's rejecting step |
| PlanDatabase.Database.DecidePatch | backend/app/services/plan_versioning.py:58-161 | interprets, validates and commits as the protocol's deciding step; only success adds a version, and a lost race or a script error changes neither patches nor trips |
| PlanDatabase.Database.Validate | backend/app/services/plan_patch_validator.py:80-184 | the validated snapshot takes its departure from the replan context; conflicts exactly when it is not accepted |
| AgentTransport.StepKeepsSound | backend/app/services/agent_transport.py:131-266 | queues, claims and dead letters hold messages of their own channel, receipts are unique and identify one message |
| AgentTransport.StepConserves | backend/app/services/agent_transport.py:131-266 | no step loses or duplicates a copy of a letter, stale consumers included |
| AgentTransport.StepKeepsLedger | backend/app/services/agent_transport.py:131-145 | every publication of a key is either in the table or was dropped from it, and the table holds a key at most once |
| AgentTransport.Conservation | backend/app/services/agent_transport.py:131-266 | after any run the publications of a letter equal its copies over queue, claims, dead letters, acknowledged, trimmed and lost |
| AgentTransport.ExactlyOnePlace | backend/app/services/agent_transport.py:131-266 | while its key was never dropped from the table, a published letter is in exactly one place and no other letter has that key |
| AgentTransport.PublishedOnce | backend/app/services/agent_transport.py:131-145 | as long as publications fit the table and fall into one lifetime of its entries, every published letter is in exactly one place |
| AgentTransport.OnlyExpiringLettersAreLost | backend/app/services/agent_transport.py:173-174 | a letter without an expiry time is never lost between pop and validation |
| AgentTransport.ReceiptConsumedOnce | backend/app/services/agent_transport.py:187-209 | in any run each receipt is consumed by at most one acknowledgement or retry |
| AgentTransport.ConsumedIsGone | backend/app/services/agent_transport.py:187-209 | after an acknowledgement or retry found its claim no claim with that receipt remains |
| AgentTransport.StepKeepsBudget | backend/app/services/agent_transport.py:198-259 | handler runs so far plus those the queued and claimed copies can still cause never exceed the allowance |
| AgentTransport.DeliveryBound | backend/app/services/agent_transport.py:198-259 | with limit M at most M(M+1)/2 deliveries within the limit per publication, whatever crashes and reclaims |
| AgentTransport.QueuedAttemptsBounded | backend/app/services/agent_transport.py:210-222 | a queued attempt never exceeds the larger of the limit and the attempt published with |
| AgentBus.InMemoryTransport.Publish | backend/app/services/agent_transport.py:131-152 | purge, duplicate check, capacity check, eviction and append as one publish step; the answer follows the order of the checks, and only a published message changes the log |
| AgentBus.InMemoryTransport.DropExpired | backend/app/services/agent_transport.py:135-137 | the purge loop keeps exactly the unexpired entries |
| AgentBus.InMemoryTransport.DropOldest | backend/app/services/agent_transport.py:143-144 | the eviction loop drops oldest entries until one more fits |
| AgentBus.InMemoryTransport.Receive | backend/app/services/agent_transport.py:154-185 | pops the oldest message as one receive step; an error exactly when the popped message is lost |
| AgentBus.InMemoryTransport.Acknowledge | backend/app/services/agent_transport.py:187-196 | removes the claim as one step and reports whether it was still there |
| AgentBus.InMemoryTransport.Retry | backend/app/services/agent_transport.py:198-229 | requeues with the next attempt or dead-letters at the limit; refused when the claim is gone |
| AgentBus.InMemoryTransport.Reclaim | backend/app/services/agent_transport.py:231-259 | takes over the first idle claims in order, at most the given number, each as one reclaim step |
| AgentBus.AgentTaskWorker.Claim | backend/app/services/agent_transport.py:606-661 | takes over the first claim idle for long enough, or else receives the oldest message, as that transport step; a received message is refused if either check refuses it |
| AgentBus.AgentTaskWorker.RunOnce | backend/app/services/agent_transport.py:647-732 | transport, result and handled delivery are those of the composed steps: claim, what a rival does meanwhile (nothing, or take over the claim and keep, acknowledge or retry it), the answers in order, then acknowledge or retry; the delivery budget is kept |
| AgentBus.PassMeaning | backend/app/services/agent_transport.py:647-732 | idle exactly when nothing can be claimed; the handler runs exactly for a claim within the limit; unless a rival settles the claim it is gone and the letter acknowledged, requeued with the next attempt, or dead-lettered, as the result says; if one does, the worker acknowledges nothing |
| AgentBus.PassKeepsBudget | backend/app/services/agent_transport.py:647-732 | a pass consists of transport steps, so the bound on handler runs survives it |
| ValueTable.StepKeepsInv | backend/app/infrastructure/runtime_store.py:104-173 | every operation keeps keys unique, sizes on live keys only, and their sum within the byte limit |
| ValueTable.SetRestoresCount | backend/app/infrastructure/runtime_store.py:112-164 | after each successful set the number of values is within its limit, whatever publishing did |
| ValueTable.MakeRoomParts | backend/app/infrastructure/runtime_store.py:120-124 | eviction leaves a suffix into which the new entry fits |
| ValueTable.MakeRoomSizes | backend/app/infrastructure/runtime_store.py:120-124 | what eviction leaves keeps the size it has on record |
| ValueTable.EvictsNoMore | backend/app/infrastructure/runtime_store.py:120-124 | eviction stops at the longest suffix that fits |
| ValueTable.PurgedParts | backend/app/infrastructure/runtime_store.py:170-173 | purging over a snapshot leaves exactly the live items in order |
| ValueTable.PublishWithinCountIff | backend/app/infrastructure/runtime_store.py:274-276 | publishing respects the number of values only if the channel has one already or there is room |
| ValueTable.PublishExactIff | backend/app/infrastructure/runtime_store.py:274-276 | publishing keeps the recorded sizes true only when it overwrites a recorded value of the same size |
| ValueTable.RunIsExactIff | backend/app/infrastructure/runtime_store.py:104-279 | in any run the recorded sizes are the true ones at every moment if and only if every publish hit a recorded value of the same size, and then the byte limit holds of the stored values themselves |
| ValueTable.PublishBreaksRecord | backend/app/infrastructure/runtime_store.py:274-276 | one publish into an empty store leaves nothing on record and exceeds the byte limit |
| ValueTable.ReadsLastWrite | backend/app/infrastructure/runtime_store.py:104-164 | in any run a stored item is the last value successfully written to its key, so a hit returns it |
| ValueTable.CompareSetOnce | backend/app/infrastructure/runtime_store.py:135-164 | over any run in which the document lives and is only advanced, a second writer with the expectation of an earlier winner is refused |
| RuntimeStore.CountersBounded | backend/app/infrastructure/runtime_store.py:87-102 | the counter table stays within its limit and never drops another key's active counter |
| RuntimeStore.RefusedIff | backend/app/infrastructure/runtime_store.py:93-96 | an increment is refused exactly when its key is absent and every slot holds an active counter |
| RuntimeStore.CountersRefineReference | backend/app/infrastructure/runtime_store.py:87-102 | over any run the purged and capped table agrees with a counter that forgets nothing; what is missing has run out |
| RuntimeStore.InMemoryRuntimeStore.GetJson | backend/app/infrastructure/runtime_store.py:104-110 | the read step; returns the item exactly on a hit |
| RuntimeStore.InMemoryRuntimeStore.SetJson | backend/app/infrastructure/runtime_store.py:112-127 | purge, removal, eviction and append as one set step; an oversized value only removes the old one |
| RuntimeStore.InMemoryRuntimeStore.CompareSetJson | backend/app/infrastructure/runtime_store.py:135-164 | succeeds exactly when the revision matches and the value fits |
| RuntimeStore.InMemoryRuntimeStore.DeleteJson | backend/app/infrastructure/runtime_store.py:129-133 | removes the key and reports whether it was there |
| RuntimeStore.InMemoryRuntimeStore.Publish | backend/app/infrastructure/runtime_store.py:274-279 | stores the latest message without touching the accounting |
| RuntimeStore.InMemoryRuntimeStore.RemoveValue | backend/app/infrastructure/runtime_store.py:166-168 | removes one key and keeps the byte total equal to the sum of sizes |
| RuntimeStore.InMemoryRuntimeStore.Increment | backend/app/infrastructure/runtime_store.py:87-102 | the specified counter table and the new count, or the refusal value |
| RuntimeStore.InMemoryRuntimeStore.AcquireLock | backend/app/infrastructure/runtime_store.py:239-250 | refused while a lease runs, otherwise a token with a larger fence than any before |
| RuntimeStore.InMemoryRuntimeStore.RenewLock | backend/app/infrastructure/runtime_store.py:260-267 | extends the lease exactly for the owner of a running lease |
| RuntimeStore.InMemoryRuntimeStore.ReleaseLock | backend/app/infrastructure/runtime_store.py:252-258 | removes the lease exactly for its token, expired or not |
| FencedLock.FencingTokenRoundTrip | backend/app/infrastructure/runtime_store.py:53-59 | reading an issued token gives back its fence, whatever the owner mark contains |
| FencedLock.FencingTokenMeaning | backend/app/infrastructure/runtime_store.py:53-59 | a token is readable exactly when decimal digits, of any script, of a positive number stand before its first colon and something after it |
| WorkerFence.StepKeepsInv | backend/app/worker.py:82-126 | fences in rows and workers were issued, and workers of one trip hold different fences |
| WorkerFence.FencesIncrease | backend/app/infrastructure/runtime_store.py:239-250 | fences issued for a trip strictly increase across expiry, release and crash |
| WorkerFence.RunMonotone | backend/app/worker.py:82-101 | row fences never decrease and a processed row is frozen |
| WorkerFence.NoStaleCommit | backend/app/worker.py:55-79 | after fence g claimed an event no worker with a smaller fence commits anything for it |
| WorkerFence.OneProcessor | backend/app/worker.py:412-415 | after an event was committed as processed every further commit for it has the same fence |
| WorkerFence.ProcessedIsFinal | backend/app/worker.py:88-100 | a processed event is never claimed again |
| WorkerFence.LostLeaseNeverCommits | backend/app/worker.py:62-65 | a worker whose renewal failed commits nothing more, finishing or not |
| WorkerFence.OneOwner | backend/app/worker.py:216-219 | while a lease runs only its holder passes the ownership check |
| TripEventWorker.EventTable.ClaimWorkerFence | backend/app/worker.py:82-101 | claims exactly unprocessed rows with a smaller fence |
| TripEventWorker.EventTable.CommitGuarded | backend/app/worker.py:55-79 | commits exactly when the lease was kept and the row still carries the fence |
| TripEventWorker.ProcessTripEvent | backend/app/worker.py:181-436 | one pass, with a lease that may be lost before the claim or before the commit and a rival that may take over the lock before the claim or while the handler runs: contention changes nothing; each outcome has its exact cause; the row moves only to the newest fence and is marked processed exactly on success; the lock is released unless the rival has it |
| WorkQueue.StepLosesIff | backend/app/worker.py:508-539 | a step loses an event, unprocessed and stored nowhere at its latest attempt, if and only if it acknowledges the one stored copy of an unprocessed event; no crash and no other step ever does |
| WorkQueue.LoserWasDismissed | backend/app/worker.py:217-227 | the worker that does so was turned away: its claim was superseded, or its trip is gone |
| WorkQueue.LostByAcknowledgement | backend/app/infrastructure/runtime_store.py:380-390 | in any run, whatever crashes and recoveries happen, a lost event was lost by such an acknowledgement |
| WorkQueue.LossHappens | backend/app/worker.py:217-227 | a run of fifteen steps that loses an event: a fenced worker acknowledges by value and removes the entry of the worker that superseded it, which then crashes |
| WorkQueue.Durability | backend/app/infrastructure/runtime_store.py:373-424 | after any run without a losing acknowledgement an unprocessed event is stored at its latest attempt: dead-lettered after at least five attempts, or in queue, processing or retry set with fewer than eight |
| WorkQueue.AttemptsIncrease | backend/app/worker.py:417-427 | the recorded attempt never goes down, grows by one, and only by a retry of the latest attempt |
| WorkQueue.PassMeaning | backend/app/worker.py:508-539 | one pass leaves processing as it was unless the handler raised or crashed, and the payload kept, gone after a return of any kind, or retried or dead-lettered; a return as processed means the event is processed |
| WorkQueue.PassReleasesLock | backend/app/worker.py:417-436 | every way to end a pass, a handler that raises included, releases the lock it took; only a crash leaves it to expire |
| WorkQueue.RedisQueue.RunOnce | backend/app/worker.py:508-539 | the loop body performs the pass, acknowledging after every return of the handler, fenced ones included, and neither when it raises nor when it crashes |
| WorkQueue.RedisQueue.RecoverProcessing | backend/app/infrastructure/runtime_store.py:383-390 | moves the oldest unacknowledged payloads, at most the limit, behind the queued ones |
| WorkQueue.RedisQueue.EnqueueRetry | backend/app/infrastructure/runtime_store.py:392-411 | stores the next attempt in the retry set, or as a dead letter at the limit |
| SharedState.LifetimeIsLawful | backend/app/services/agent_shared_state.py:207-418 | in a lifetime that no write crosses into from an earlier one the revision counts the writes, the history is the newest part of the log numbered up to the revision, and every write obeyed the tables and changed only its fields |
| SharedState.WinnerReadCurrent | backend/app/services/agent_shared_state.py:369-418 | a writer of the current lifetime that wins held the stored document itself |
| SharedState.OneWinner | backend/app/infrastructure/runtime_store.py:135-164 | of the writers expecting one revision in a lifetime at most one wins |
| SharedState.TerminalPhasesClosed | backend/app/services/agent_shared_state.py:171-172 | completed and failed documents accept no role update; a plan refresh keeps their phase |
| SharedState.WinIsLawfulIff | backend/app/services/agent_shared_state.py:350-418 | a winning write obeys the tables against the document it replaces if and only if that agrees with the document it was built on outside the changed fields, and allows the phase, or for a refresh has the same phase and no newer plan |
| SharedState.SameLifetimeIsLawful | backend/app/services/agent_shared_state.py:369-418 | in any run a winner that read in the current lifetime obeys the tables |
| SharedState.ForeignWriteBreaksTable | backend/app/services/agent_shared_state.py:350-418 | a run in which the revision check lets such a write break the phase table |
| SharedState.StepKeepsInv | backend/app/services/agent_shared_state.py:207-418 | every step keeps the documents of a lifetime numbered and ties its readers to them, and without crossing writes keeps the chain of lawful writes |
| SharedState.AgentSharedStateManager.Update | backend/app/services/agent_shared_state.py:350-418 | errors in the code's order; success stores exactly the lawful next document |
| SharedState.AgentSharedStateManager.SyncFormalRoutePlan | backend/app/services/agent_shared_state.py:268-325 | refreshes the plan of a successful, not older version and leaves an equal one alone |
| SharedState.AgentSharedStateManager.Initialize | backend/app/services/agent_shared_state.py:207-266 | creates the document once, and otherwise returns it or refreshes its plan; a creator that loses the race returns the rival document, or a conflict when that has lapsed |
| TaskGraph.ValidateTaskGraph | backend/app/schemas/agent_artifacts.py:240-251 | accepts exactly graphs with unique names whose dependencies are earlier steps |
| TaskGraph.Scheduler.ExecutePlanningStages | backend/app/services/agent_orchestrator.py:532-598 | steps start once, after their dependencies succeeded, in at most as many rounds as steps; success means all succeeded; otherwise everything not started is blocked |
| TaskGraph.Scheduler.RunRounds | backend/app/services/agent_orchestrator.py:555-593 | the round loop delivers that outcome and counts one attempt per started step |
| TaskGraph.SomeReady | backend/app/services/agent_orchestrator.py:556-560 | in a validated graph some pending step is ready unless a planned step waits for the critic or the final answer |
| TaskGraph.CompletesIff | backend/app/services/agent_orchestrator.py:555-593 | when every step succeeds the run completes if and only if no planned step waits outside the subgraph |
| TaskGraph.Workflow.Fail | backend/app/services/agent_workflow_state.py:239-246 | running and retrying steps fail, pending ones are blocked, and the checkpoint says so |
| TaskGraph.Workflow.Resume | backend/app/services/agent_workflow_state.py:120-144 | restores the checkpoint, a step without a row keeping its status, retries the first open step and puts later failed, blocked or retrying ones back to pending |
| TaskGraph.Workflow.FailThenResume | backend/app/services/agent_workflow_state.py:120-246 | exactly one step retries, the first that was not closed; earlier ones were closed, later ones are closed or pending |
| OpenPath.Permute | public/js/services/algo.js:11-23 | the recursion keeps an order at least as short as every completion it visited |
| OpenPath.SolveOrderExact | public/js/services/algo.js:8-26 | a visiting order no longer than any other, for any finite matrix |
| OpenPath.NearestNeighbour | public/js/services/algo.js:38-48 | visits every stop once, each the nearest not yet visited, first index on ties |
| OpenPath.Pass | public/js/services/algo.js:56-65 | a pass keeps the visits, shortens by more than the tolerance if it changed anything, and otherwise proves local optimality |
| OpenPath.SolveOrder | public/js/services/algo.js:29-68 | every stop once, never longer than the nearest-neighbour route, and no reversal gains more than the tolerance unless 200 passes were used |
| AuditPayload.MinimizedIsClean | backend/app/schemas/agent_artifacts.py:44-63 | at every depth the result has no coordinate pair, nothing readable under a secret or raw-text key and no long text |
| AuditPayload.FixedIffClean | backend/app/schemas/agent_artifacts.py:44-63 | minimization leaves exactly the clean payloads as they are |
| AuditPayload.MinimizeIdempotent | backend/app/schemas/agent_artifacts.py:44-63 | minimizing twice is minimizing once, cut texts included |

## Left out

- OR-Tools: the routing solver is a parameter that proposes nothing or some plan, which is scored again.
- `optimize_route` in `backend/app/services/route_optimizer.py`: a wrapper that builds one candidate per entry; its answers are the alternatives given to `CreatePendingReplan`.
- Floating point and clock resolution: times, distances, weights and costs are reals, so rounding is not modelled.
- Score breakdown and conflict texts: an evaluation keeps the total score, and conflicts are constructors instead of sentences.
- Negative `required_task_order` entries: entries are naturals.
- Distances from coordinates: matrices are given; haversine, map, weather and language-model clients are not part of this model.
- Outdoor, closure and weather rules of `replanning.py`: the set of stops that need replacing is a parameter, and so are the provider's offers.
- PlanPatch.CompiledScriptIsCorrect: when stops share a place id only that the script runs is stated, and what it does to a plan that needs no change (`SettledPlanKeptIff`); such stops are re-homed alike, the needs and offers being given by place id.
- PlanPatch.CreatePendingReplan: the trip's state after an outcome is set in a step of `VersionChain`.
- PatchValidation.RecalculateAndValidate: whether the text of a conflict contains a task's description is a parameter, as conflict texts are not modelled.
- Negative positions in `move_stop`: excluded by the operation's schema at `backend/app/schemas/ai_intent.py:370-371`.
- Audit rows, trip event rows, artifact invalidation and user checks around a decision: they do not influence versions, patches or trips.
- Database isolation: a segment between two suspension points is one atomic step under its row locks; SQLite's missing row locks are not modelled.
- Provider matrices that change between two validations of one patch: each decision uses one matrix.
- The Redis stream transport: only the in-memory transport is modelled; blocking waits are modelled by the moment they end.
- Content hashes, signatures and size limits of messages: one verdict, `authentic`, stands for them.
- Other consumers during a worker's pass: a rival may take over and settle the worker's own claim; every other interleaving is that of the steps of `AgentTransport`.
- FencedLock.FencingTokenMeaning: the runtime's cap on the number of digits of an integer text is not modelled.
- Redis key loss and eviction of fence counters; lock and queue scripts are atomic steps.
- Two enqueued events with identical payload text: identities in the work queue are distinct. The notification queue works the same way and is not repeated.
- The in-memory work queue: it has no promotion of retries, so only the Redis operations are modelled.
- Body of the trip event handler: its commits are the guarded commits of `WorkerFence`; in `WorkQueue` it returns for one of three reasons, reports contention, fails, raises or crashes.
- TripEventWorker.ProcessTripEvent: payloads without a stored event, which end before any claim, are not modelled; other interleavings are those of `WorkerFence`.
- Trips of an event: every event belongs to one trip, as the producers of payloads arrange.
- SharedState content hashes: documents and plans are compared by content, so collisions of SHA-256 are not modelled; read views and audits are left out.
- Checkpointing of dynamic replanning (`_transition`): bodies of succeeded steps that run again on resume are not modelled.
- Scheduler step bodies: a parameter says which steps succeed; the type check of the planner's result is left out.
- AuditPayload.MinimizedIsClean: keys are lower-cased for ASCII letters only.
- Read-only queries, metrics, tracing, HTTP, authentication and the user interface.
