# BoxPush executive and CooperativeGrid: verification model

A Dafny model of the symbolic-twin executive and of what runs below it. The layers are the source's
own, and the theorems span them.

- **Executive loop** (`LoopModel`, `Loop`): a step machine with a selection loop inside a cycle loop,
  two budgets, three fault cases, standing advice and a liveness guard. `Loop` holds the manager as an
  object whose methods update its fields; each method is proved to compute a function of `LoopModel`.
  `LoopRecord` says column by column what every answer leaves behind. `LoopTheorems`, `LoopRuns`,
  `LoopFailures`, `LoopAdvisory` and `LoopOutcomes` prove properties of all runs: termination bounds,
  which faults end a run, charge conservation against an independent ledger, attempts below the budgets
  only, a trace that holds exactly the results of the log, legality of the trace, the repeated-failure
  bound, when a track is consulted and that it is evidence only, and what each outcome means.
- **Search** (`Search`, `Planner`, `StateSpace`): the breadth-first loop that both planners share, with
  soundness, shortest and lexicographically least plans, completeness, and a node budget that is
  adequate for every domain.
- **Symbols and geometry** (`SkillIR`, `BoxPush`, `Belief`, `Predictor`, `Monitor`): the frozen skill
  models, the projection, the maintained belief, the two predictions that commute, the monitor and the
  recovery advice. `BoxPushPlanning` and `BoxPushAnswers` give the closed form of BoxPush planning.
- **End to end** (`BoxPushExecutive`, `BoxPushStuck`, `BoxPushWitness`): the BoxPush composition of the
  loop; in a cooperative environment a run delivers every goal box in exactly the length of the shortest
  plan, and it reaches the goal if and only if the goal is reachable; where every attempt fails it halts
  after exactly the threshold of attempts. Witnesses show that the hypotheses of these results can be met
  together.
- **CooperativeGrid** (`Grid`, `GridBackend`, `GridModel`, `GridPlanning`, `GridAdapter`,
  `GridSession`): the grid physics and its router as an object, the optimistic model, its planning, and
  the adapter as an object that is proved to refine the model over whole sessions.
- **CooperativeGrid under the loop** (`GridExecutive`): all of the above composed. From the jammed start
  one policy halts on repeated failure and the other clears the jam and reaches the goal, call by call;
  without a jam both reach it in five calls.
- **Call text** (`CallText`, `CallGrammar`): the printer and parser of grounded calls, and the grammar of
  what the parser accepts.

Conventions. The environment is an oracle: an arbitrary function of all calls and answers so far. The
advisory track is indexed by the number of earlier consultations only and is not given what it is
asked; along one run every stateful track answers as some such sequence, so a theorem over all
sequences covers it. Digests and serialization keys are the canonical value itself, or an abstract
function; where two states must not share one, the theorem says `Faithful(key)`. The generic loop sees
a discrepancy as a `Report`: its call, and whether it is an execution failure. A callback that raises
is the result `Raised`, a constructor that raises is `None`, a raise inside an attempt is a fault.

What the environment must promise is stated where it is used: `LoopTheorems.Contract` (a fault that
carries a result is never of a pre-execution kind), `LoopFailures.ReturnsItsCall` (a result reports the
requested call), `BoxPushStuck.AlwaysFails` and `BoxPushExecutive.Cooperative`. The last two speak only of
logs that the environment itself produced. `BoxPushWitness.CooperativeRunExists`,
`BoxPushStuck.StuckRunExists` and `GridExecutive.GridRunExists` meet every hypothesis of the end-to-end
results at once.

Two places where the code and its documentation part. The parser's module text says it accepts exactly
the printed form; the code accepts more (`CallText.SpareBlankIsAccepted`) and normalises, and
`CallText.AcceptedIsPrintedIff` says which accepted texts are printed ones. The kit's environment base
keeps a cached value across a fault in the middle of an attempt, which a mutable simulator leaves
stale: `GridSession.SyncIsKeptIff` says exactly when. Successes of the calls the executive can make
refine the model all the same (`GridSession.ApplicableSuccessRefines`); for other calls
`GridSession.SuccessRefinesIff` gives the exact condition and `GridExecutive.StaleSuccessFromReset` a
session from reset that fails it.

`dafny verify dfyconfig.toml` checks the whole project.

## Model

| member | source | states |
|---|---|---|
| Loop.RunEpisode | runtime/loop.py:278-344 | a fresh manager run to its end ends in exactly the state, outcome and cycle count of the specification run, so every theorem below is about the object |
| Loop.ExecutiveLoopManager.Run | runtime/loop.py:278-344 | the outer loop with its two gates and its liveness guard terminates and computes `RunFrom` from its own state |
| Loop.ExecutiveLoopManager.TakeTurn | runtime/loop.py:284-316 | sync, first observation, goal gate before budget gate, then one cycle; an observe fault replaces gates and cycle |
| Loop.ExecutiveLoopManager.SelectCall | runtime/loop.py:356-430 | the inner selection loop acquires a proposal at most once and ends in the specified selection |
| Loop.ExecutiveLoopManager.PassGates | runtime/loop.py:432-456 | grounding gate before symbolic gate; each rejection records its entry and drops the advice, otherwise the attempt is made |
| Loop.ExecutiveLoopManager.Attempt | runtime/loop.py:484-528 | the four answers of the environment are routed to their own bookkeeping |
| Loop.ExecutiveLoopManager.HandleFaultedResult | runtime/loop.py:487-517 | case (a): belief maintained and track informed as usual, monitor skipped, standing advice kept |
| Loop.ExecutiveLoopManager.HandleResult | runtime/loop.py:530-576 | the normal path: belief maintained, track informed, then monitored on the belief the attempt was chosen under |
| Loop.ExecutiveLoopManager.ChargeCaseC | runtime/loop.py:236-240 | the provenance key charges one executive step and its primitives, its absence nothing |
| Loop.ExecutiveLoopManager.AdviceFor | runtime/loop.py:616-624 | the provider is asked about the latest discrepancy of this call, and about no other |
| Loop.ExecutiveLoopManager.Charged | runtime/loop.py:196-203 | the two charge counters are the recorded sums plus the extra charges |
| LoopTheorems.RunIsBounded | runtime/loop.py:318-344 | every run of either policy, halting or continuing on faults, takes at most (B + 1)(R + 1) cycles |
| LoopTheorems.SelectionIsBounded | runtime/loop.py:359-430 | within a cycle at most R + 1 replans, and at most one request, none while advice stands |
| LoopTheorems.RunConserves | runtime/loop.py:196-240 | over every run executive and primitive charges equal an independent ledger over the environment's answers and stay within the executive budget; the failure index equals a count over the trace |
| LoopTheorems.RunBalances | runtime/loop.py:478-528 | the same balance holds at every point of a run, from any balanced state |
| LoopModel.CycleCharges | runtime/loop.py:346-577 | a cycle charges nothing, or charges exactly what the one answer it got costs |
| LoopModel.SelectNotes | runtime/loop.py:359-430 | selection only adds entries without execution: belief, log, discrepancies, charges and failure index stay |
| LoopRecord.AttemptIsRecorded | runtime/loop.py:459-577 | whatever the environment answers, an attempt leaves exactly one entry, and every column of it, the belief, the discrepancies, the standing advice, the charges and the end of the cycle are what that answer calls for: belief maintained for every result, judged only if nothing raised, advice consumed only when judged |
| LoopRecord.GatesDecide | runtime/loop.py:432-456 | identities first, then the belief's verdict: a call is attempted if and only if it passes both, and a rejection leaves one entry and drops the advice |
| LoopRecord.DueCallIsChosen | runtime/loop.py:359-390 | standing advice, or a fresh applicable head, is chosen; the advisory policy first asks its track once and takes the proposal and the comparison with that call along, symbolic-primary asks nobody |
| LoopRecord.DueCallTurn | runtime/loop.py:457-577 | carried to a whole turn: the due call is attempted, and its entry carries the evidence that the policy acquired |
| LoopRecord.TurnGates | runtime/loop.py:284-316 | a raise at the opening replaces the turn, goal and budgets unseen, and the track is asked again in the next; otherwise the goal wins over an exhausted budget |
| LoopRecord.InapplicableHeadFaults | runtime/loop.py:415-429 | a head the belief rules out is never attempted: exactly R + 1 rejections, then the protocol fault, with nobody consulted |
| LoopRecord.NothingPlannedHalts | runtime/policies.py:91-103 | without advice and without a plan the cycle halts, under either policy and any track |
| LoopRecord.ExhaustedHeadHaltsCycle | runtime/policies.py:125-132 | under symbolic-primary an exhausted head halts the cycle, naming the call |
| LoopRecord.PlannerFailureIsAFault | runtime/loop.py:349-353 | a planner failure is one faulted entry, and ends the run if and only if faults halt |
| LoopRuns.RunKeepsFaultRule | runtime/loop.py:680-687 | over every run: if faults halt, no entry before the last carries one and a run with a faulted last entry ended on it; if not, only the liveness guard ends an episode as faulted, after more than R cycles, and its entry alone has the next step |
| LoopRuns.RunIsItsTurns | runtime/loop.py:318-344 | a run is its turns up to the first that stops; only after exactly R + 1 idle turns in a row the guard ends it, and no earlier |
| LoopRuns.IdleTurnsChargeNothing | runtime/loop.py:327-344 | over the idle turns the guard counts nothing was charged |
| LoopRuns.RunIsTrueToLog | runtime/loop.py:205-210 | over every run: the log is the environment's own, the trace holds exactly its results in order and the discrepancies are those of the trace; no attempt began at or above either budget; a run that ends exhausted reached one of them with the goal open |
| LoopRuns.TurnAsks | runtime/loop.py:284-316 | a turn syncs the belief, then asks nothing or makes one attempt; the belief after it is the synced one, with the result maintained if there is one |
| LoopRuns.ConsultationsAreCounted | runtime/policies.py:120-147 | a track that never raises is consulted once at the start, once for every result, and under the advisory policy only once beside every call put to the gates |
| LoopTheorems.EnactAddsOneEntry | runtime/loop.py:432-577 | enacting a call leaves exactly one entry; it is legal, and counts as a failure only for a returned result |
| LoopTheorems.RunIsLegal | shared/trace_schema.py:85-101 | no run records an executed entry with a pre-executor rejection or an earlier fault, so assembling an entry never raises |
| LoopFailures.FailuresNeverExceedThreshold | runtime/policies.py:105-133 | under the symbolic-primary policy no (world, call) key accumulates more than the threshold of faultless failures in any run |
| LoopFailures.RunStaysBelow | runtime/executive_history.py:33-43 | the same bound on the index, preserved from any state below it |
| LoopFailures.StuckRunHalts | runtime/loop.py:579-601 | a plan head that, in the belief this turn syncs, fails on each of the remaining attempts without changing the world is attempted exactly up to the threshold and nothing else is; then the run halts on repeated failure with that belief, if neither budget is reached first |
| LoopFailures.StuckRunHaltsWithTrack | runtime/policies.py:73-80 | an attached track that never raises does not change that, cycle count included |
| LoopFailures.StuckFromTheStart | runtime/loop.py:278-344 | a fresh run whose very first head is stuck makes exactly the threshold of attempts, all of that call, and halts in the cycle after them |
| LoopAdvisory.AdvisoryIsEvidenceOnly | runtime/policies.py:73-80 | attaching a track that never raises changes no attempt, answer, discrepancy or outcome of a whole run; the traces differ in the advisory columns only |
| LoopAdvisory.AdvisoryChangesNothing | runtime/loop.py:359-390 | the same from any two states that differ in advice only, cycle count included |
| LoopOutcomes.RunIsEvidenced | runtime/loop.py:299-344 | every outcome is evidenced: the goal holds on the last export; an exhausted episode does not satisfy it and a budget is used up; a faulted one ends on its fault; a halt without a plan had none or an empty one; a halt on repeated failure named its plan head, whose failures in that world had reached the threshold |
| LoopOutcomes.RepeatedFailureIsInTheTrace | runtime/policies.py:125-132 | counted over the trace: a run that halts on repeated failure recorded at least the threshold of faultless failures of that call in that world |
| LoopOutcomes.EscapeIffAdvice | runtime/loop.py:397-413 | under the advisory policy an exhausted head halts the run if and only if the provider has no advice on the latest discrepancy of that call; otherwise its first call is enacted in the same cycle and only a fault can end the run there |
| LoopOutcomes.LatestDiscrepancyDecides | runtime/loop.py:616-624 | the advice is the provider's on the latest discrepancy of that call; without one there is none |
| LoopOutcomes.EscapeTurn | runtime/loop.py:397-430 | the whole turn of an escape: the request is recorded, the advice enacted, charged once and consumed, and no failure count moves |
| LoopOutcomes.FailingTurn | runtime/loop.py:530-576 | a turn whose head fails charges it, reports it and raises exactly the count of its key |
| LoopOutcomes.StandingAdviceIsFollowed | runtime/loop.py:554-559 | while advice stands a cycle enacts its first call whatever was planned; a judged attempt consumes it, a symbolic rejection drops all of it, a fault of the attempt keeps it |
| LoopOutcomes.UndisturbedTurn | runtime/loop.py:457-577 | under either policy a turn whose plan head passes every gate attempts that head, charges it once and records it |
| Executive.ExecutiveHistory.Append | runtime/executive_history.py:33-43 | append keeps the trace and the failure index in step; only faultless failures are counted |
| Executive.ExecutiveHistory.StepsUsed | runtime/executive_history.py:58-64 | the two sums over the recorded accounting |
| Executive.PoliciesDifferOnlyInTheEscape | runtime/policies.py:82-156 | the shipped policies decide alike except on an applicable plan head at the failure threshold, and there they always differ |
| BoxPushExecutive.DeliversInShortestPlanLength | runtime/loop.py:278-344 | in an environment whose applicable attempts succeed as predicted, a fresh run reaches the goal in exactly 2 steps per light plus 3 per heavy undelivered goal box, under both policies and every sufficient budget; each replan is one call shorter |
| BoxPushExecutive.RunDelivers | runtime/loop.py:533-534 | the same from any point of a run: as many steps as the shortest plan from the current belief has calls |
| BoxPushExecutive.ReachesGoalIff | app/box_push_v1.py:83-143 | with the budgets to match, the run reaches the goal if and only if there is an agent for a light and two for a heavy undelivered goal box |
| BoxPushExecutive.HaltsWhenUnsolvable | runtime/policies.py:91-94 | otherwise it halts without a plan in its first cycle, having attempted nothing |
| BoxPushExecutive.DeliversWithTrack | runtime/loop.py:383-390 | a track that never raises changes none of it: outcome, cycles, attempts, charges and the replans, each one call shorter, are as without it |
| BoxPushWitness.CooperativeRunExists | app/box_push_v1.py:83-143 | for every task over a snapshot with a delivery zone, every configuration and policy there is a run that meets all hypotheses of these results: environment, grounding, key, node budget and planner |
| BoxPushWitness.PlansExist | symbolic/planner.py:93-141 | a planner function with the whole promise of the planner exists: the exact answer |
| BoxPushWitness.ServePlan | app/box_push_v1.py:88-96 | and it is the only one: what the planner method returns is what any such function answers |
| BoxPushWitness.GroundingExists | symbolic/planner.py:58-86 | every universe has a sorted grounding under every faithful key |
| BoxPushWitness.CooperativeEnvironmentExists | shared/execution.py:155-212 | from every snapshot with a delivery zone there is an environment whose applicable attempts succeed as predicted |
| BoxPushExecutive.ExhaustedPushEscapes | nl/recovery.py:21-30 | over runs with the BoxPush provider: an exhausted head halts the run if and only if it is no push whose latest discrepancy is a failure; such a push leads to the walk back to the first pose in the same cycle |
| BoxPushExecutive.FailedPushHasEscape | nl/recovery.py:21-30 | a push that has just failed has its escape, whatever was reported before |
| BoxPushExecutive.RuntimeReportsMean | symbolic/monitor.py:55-124 | what the runtime sees of an attempt: one report of a failed one, marked as execution failure exactly for a symbolic call, and none so marked of a success |
| BoxPushExecutive.TurnAdvances | symbolic/belief.py:52-96 | one turn lowers the remaining plan length by exactly one and keeps belief, advice and index on course |
| BoxPushExecutive.NextHeld | symbolic/belief.py:52-96 | after a realised success the belief synced from the next export is the planner's successor state |
| BoxPushExecutive.GroundedIsPredicted | app/box_push_v1.py:98-119 | a grounded symbolic call on a world with a delivery zone is predicted: neither predict nor monitor raises on it |
| BoxPushStuck.StuckPushHalts | symbolic/belief.py:98-103 | from any point of a BoxPush run: if the call planned now always fails without changing the world, then belief and planned head stay what they are now, the call is attempted as often as the threshold still allows, nothing else is, and the run halts on repeated failure; only the head planned now is given |
| BoxPushStuck.StuckPushHaltsFreshRun | runtime/policies.py:105-133 | the same from a fresh run and its empty belief: exactly the threshold of attempts and one more cycle |
| BoxPushStuck.SameWorldSamePlan | symbolic/planner.py:93-141 | in an unchanged world an unchanged belief gets the same plan |
| BoxPushStuck.HeadIsDue | symbolic/planner.py:123-135 | a planned head is symbolic, grounded and applicable, and the goal is still open |
| BoxPushStuck.QuietFailureKeepsBelief | shared/symbolic_state.py:190-230 | syncing and recording a failure that moved nothing leave the belief as it was |
| BoxPushStuck.StuckRunExists | app/box_push_v1.py:83-143 | such runs exist from every world with an open goal and the agents it needs, for every task and configuration |
| Search.BreadthFirst | kit/planning.py:52-90 | the search terminates; a found plan is always a plan; with a key that tells states apart every answer is exact and respects the budget: found plans are least and cost no more pops than the budget, `NoPlan` means none exists and all fits, a timeout that neither fits, a raise that it precedes every plan |
| Search.ExpandNode | symbolic/planner.py:123-135 | expanding one node keeps the search invariant, tests the goal at generation and never enqueues a goal state |
| Search.FoundIsLeast | symbolic/planner.py:131-133 | the first goal state generated completes the shortest plan that is least in the order of the grounded calls |
| Search.ExhaustedHasNoPlan | symbolic/planner.py:136-139 | an empty frontier proves that no call sequence reaches the goal |
| Search.BudgetSpent | symbolic/planner.py:115-121 | a timeout proves that every set covering the reachable keys is larger than the budget |
| Search.TimesOutIff | symbolic/planner.py:115-121 | where nothing raises, the search times out if and only if what must be popped before the answer is known exceeds the budget: all states up to the one before the last call of the least plan, or all reachable ones |
| Search.PlanFitsBudget | kit/planning.py:64-88 | a plan found within a budget is no longer than the budget |
| Search.PoppedCoverUpTo | kit/planning.py:64-70 | the nodes popped so far hold the keys of every state reached no later than the last of them |
| Search.RaiseIsAhead | kit/planning.py:70-76 | no answer passes over a raise: a call that raises comes later than the call under trial |
| Search.AdequateBudgetIsExact | kit/planning.py:64-88 | with a budget of at least a covering space the answer is never a failure, and a plan is found if and only if one exists |
| Search.LeastPlanUnique | symbolic/planner.py:85-86 | the answer is determined by the problem: two least plans are equal |
| Search.LeastPlanExists | symbolic/planner.py:104-139 | wherever a plan exists there is a least one |
| Search.AnswerIsUnique | symbolic/planner.py:104-139 | every correct answer that is no failure is the one exact answer of the problem |
| Search.TailIsShortest | symbolic/planner.py:131-135 | after the head of a least plan the shortest remaining plan is exactly one call shorter |
| Planner.Plan | symbolic/planner.py:93-141 | for the one sorted grounding that exists the planner gives the exact answer of the search within the node budget, `PlanFound` with no calls on a satisfied start, and a failure exactly where grounding raises |
| Planner.GroundCalls | symbolic/planner.py:58-86 | the grounded calls are exactly the calls over the universe, each once, in sorted order; it raises exactly on a skill without a zone slot and on a repeated agent |
| Planner.SortedIsUnique | symbolic/planner.py:85-86 | the sorted order leaves no choice: one universe has one grounding |
| Planner.CallLessIff | symbolic/planner.py:85-86 | calls come in the alphabetical order of their skills, and within a skill in the order of their keys |
| Planner.FromSnapshot | symbolic/planner.py:49-55 | the universe holds exactly the identities the snapshot knows, each once |
| SkillIR.ApplyEffects | symbolic/applicability.py:63-79 | the loop over a local set computes the fold of the grounded effects in declaration order |
| SkillIR.LastMentionDecides | symbolic/applicability.py:70-78 | a literal holds after the effects if and only if it is added for good, or held before and is never deleted |
| SkillIR.ApplyIsAddThenDelete | symbolic/applicability.py:63-79 | when no literal is both added and deleted, the order does not matter: add all, then delete all |
| BoxPush.GroundingShape | shared/skill_ir.py:201-219 | grounding each frozen model through the positional binding gives exactly the literals its declaration names |
| BoxPush.EvaluateShape | symbolic/applicability.py:35-60 | a call is validated if and only if all its preconditions hold; the registry-only skills are outside the model |
| BoxPush.SuccessorShape | domain/box_push_v1.py:163-283 | the successor of every frozen model is add-then-delete, because no model adds and deletes one literal |
| BoxPush.ProjectMeaning | domain/box_push_v1.py:344-375 | what each projected literal says of its box, in both directions |
| BoxPush.ProjectDifferent | domain/box_push_v1.py:369-374 | two names are projected different if and only if both are agents of the snapshot and distinct |
| BoxPush.ProjectLoop | domain/box_push_v1.py:357-375 | the loops over boxes and agent pairs build exactly the projection |
| BoxPush.GoalTestsAgree | shared/task.py:33-35 | the task is satisfied by a snapshot if and only if the planner's goal holds of its projection |
| Belief.ExactSymbolicBelief.Sync | symbolic/belief.py:52-58 | the projected half is re-derived, the tracked half survives untouched |
| Belief.ExactSymbolicBelief.RecordOutcome | symbolic/belief.py:73-103 | the two loops over the effects compute the recorded outcome and leave the projected half alone |
| Belief.SuccessMatchesSuccessor | symbolic/belief.py:91-96 | sync then record after a success gives the planner's successor if and only if predicted and observed monitored views agree, provided no literal is both added and deleted |
| Belief.AddThenDeleteDiffers | symbolic/belief.py:91-96 | without that proviso adds-then-deletes parts from declaration order on exactly the literals that are deleted somewhere and added for good |
| Belief.DeleteThenAddIsLost | symbolic/applicability.py:70-78 | a concrete effect list on which the two part |
| Belief.BoxPushSuccessMatchesSuccessor | domain/box_push_v1.py:163-291 | the frozen models meet the proviso, so on BoxPush the equivalence is unconditional |
| Belief.RecordedOnBoxPush | shared/symbolic_state.py:171-230 | what each outcome of each skill does to the tracked poses |
| Belief.PoseBelievedIff | symbolic/belief.py:52-103 | over any history a pose is believed if and only if some successful walk to it has since met no successful push by that agent and no failed walk to it that moved something |
| BoxPushPlanning.ClosedForm | domain/box_push_v1.py:163-291 | from any consistent state a plan exists if and only if each undelivered goal box has the agents it needs, and the shortest plan has exactly `Cost` calls |
| BoxPushPlanning.ReachableIsConsistent | domain/box_push_v1.py:188-283 | in every reachable state pending and delivered, light and heavy stay complementary, and the cost fell by at most one per call |
| BoxPushPlanning.SomeStepHelps | domain/box_push_v1.py:163-283 | while a solvable goal is open some applicable call lowers the cost by exactly one |
| BoxPushPlanning.StepLowersByAtMostOne | domain/box_push_v1.py:163-283 | no applicable call lowers the cost by more than one |
| BoxPushAnswers.InitialClosedForm | domain/box_push_v1.py:163-291 | with nobody in pose: 2 calls per light plus 3 per heavy undelivered goal box, solvable if and only if one agent, or two for a heavy box, exist |
| BoxPushAnswers.PlannerDecides | symbolic/planner.py:93-139 | on BoxPush, with a budget of two to the (boxes times agents plus two), the planner never fails, finds a plan if and only if the goal is solvable, of exactly `Cost` calls, and is the exact answer |
| StateSpace.AdequateBudget | symbolic/planner.py:93-139 | for every domain, state, goal and universe: with a node budget of two to the number of literals its ground effects mention, the planner never times out and its answer is the exact one |
| StateSpace.SpaceCovers | symbolic/planner.py:104-139 | for every domain the reachable states differ from the start in those literals only, so they lie in a space of at most that size and the search is finite without any budget |
| BoxPushAnswers.FrozenInstanceNeverTimesOut | symbolic/planner.py:34-37 | the default budget is adequate for every instance of at most sixteen fluents |
| BoxPushAnswers.SyntheticInstanceHasNoPlan | symbolic/synthetic.py:23-34 | the one-agent heavy-box instance is answered `NoPlan` |
| BoxPushAnswers.ProjectionIsConsistent | domain/box_push_v1.py:344-375 | every projection together with any tracked literals is a consistent state of the snapshot's own universe |
| Predictor.CandidatesCommute | symbolic/predictor.py:94-178 | for every snapshot, every tracked set and every symbolic call each world candidate projects to exactly the monitored view of the symbolic successor |
| Predictor.PredictionCount | symbolic/predictor.py:94-178 | how many worlds are predicted for every snapshot and call - one for a walk, one for a push and two for a cooperative push if the ray meets the zone, else none - and exactly when which exception is raised |
| Predictor.PushDirApproaches | symbolic/predictor.py:45-55 | one step along the push direction brings a box outside the zone exactly one closer to it |
| Predictor.PushDirFollowsLongerAxis | symbolic/predictor.py:45-55 | the direction is towards the nearest cell along the longer axis, horizontal on a tie |
| Predictor.NearestIsFirst | symbolic/predictor.py:49-49 | among equally near cells the first listed one is aimed at |
| Predictor.FirstZoneCellIsFirst | symbolic/predictor.py:58-80 | the zone cell at the least positive multiple of the direction, or none if and only if no multiple hits the zone |
| Predictor.FirstOnRayUnique | symbolic/predictor.py:58-80 | that cell is unique |
| Predictor.FirstZoneCellAlongLoop | symbolic/predictor.py:67-80 | the loop that fills and minimises a candidate list finds it |
| Predictor.GotoGeometry | symbolic/predictor.py:112-117 | the walker ends right behind the box facing the push direction; everything else stays |
| Predictor.PushGeometry | symbolic/predictor.py:119-131 | along the agent's own facing the box lands on the first zone cell with the agent right behind; everything else stays |
| Predictor.CooperativePushGeometry | symbolic/predictor.py:133-147 | the two candidates place the pair one and two cells behind the landing, either way round; everything else stays |
| Monitor.WorldAgreementImpliesSymbolic | symbolic/monitor.py:84-122 | a success that lands on a predicted world is reported on neither basis |
| Monitor.SilentIffBeliefIsSuccessor | symbolic/monitor.py:84-101 | the symbolic basis is silent on a success if and only if sync then record makes the belief the planned successor |
| Monitor.SilentIff | symbolic/monitor.py:55-124 | the whole monitor is silent if and only if the attempt succeeded, agrees symbolically, and lands on a candidate where there is any |
| Monitor.ReportsMeanWhatHappened | symbolic/monitor.py:58-80 | each kind is reported of its own situation only, and every failure exactly once |
| Monitor.ReportsAreWellFormed | symbolic/monitor.py:84-124 | every mismatch carries a differing pair and names the executed call |
| Monitor.MismatchesNameBothSides | symbolic/monitor.py:84-124 | each mismatch is made exactly when its basis disagrees, symbolic before world, and names the predicted side first and the observed second |
| Monitor.ProposeRecovery | nl/recovery.py:21-30 | advice exists only for an execution failure of a consuming skill |
| Monitor.RecoveryCallsApply | nl/recovery.py:27-30 | while the box is pending every proposed call is applicable, whatever is tracked, so also while the others succeed |
| Monitor.RecoveryRestores | nl/recovery.py:21-30 | after all proposed calls succeeded the failed call is applicable again |
| Snapshots.WithAgent | symbolic/predictor.py:154-165 | only the named agent moves; identities and order stay |
| Snapshots.WithBox | symbolic/predictor.py:168-178 | only the named box moves; identities and order stay |
| Skills.PairOrderIsIrrelevant | shared/ids.py:78-87 | both orders of an agent pair give one call |
| Skills.StringLessIff | shared/ids.py:78-87 | the order of names is that of their first difference, and a proper prefix comes first |
| Skills.MakeCall | shared/skills.py:236-270 | the constructor accepts exactly the arities of the registry and leaves a well-formed call as it is |
| Grid.FrozenLayoutIsValid | functional_layer/custom_env/cooperative_grid/grid_env.py:43-50 | the frozen map is read cell by cell as its rows show it |
| Grid.DoorOpensIff | functional_layer/custom_env/cooperative_grid/grid_env.py:197-208 | the door opens if and only if both pull, each on a handle, at a closed door without a jam |
| Grid.JamClearsIff | functional_layer/custom_env/cooperative_grid/grid_env.py:185-196 | the jam goes if and only if somebody on a handle shakes the closed door |
| Grid.MovesAreInAgentOrder | functional_layer/custom_env/cooperative_grid/grid_env.py:172-184 | B may follow into the cell A leaves, A may not follow B |
| Grid.StepMoves | functional_layer/custom_env/cooperative_grid/grid_env.py:172-184 | each agent ends on the cell its action names if and only if that is walkable, no closed door, and not held by the other - A against where B stands, B against where A ended - and otherwise stays |
| Grid.StepIsJudged | functional_layer/custom_env/cooperative_grid/grid_env.py:209-218 | a step takes one tick and terminates if and only if both agents are on goal cells; otherwise it truncates if and only if the limit is reached |
| Grid.PlayIsJudged | functional_layer/custom_env/cooperative_grid/grid_env.py:209-218 | the same of every sequence of joint actions from a running state |
| Grid.PlayStopsAtTheEnd | functional_layer/custom_env/cooperative_grid/grid_env.py:167-170 | the clock counts the joint actions up to the first that ends the episode, and the later ones change nothing |
| Grid.PlayIsSafe | functional_layer/custom_env/cooperative_grid/grid_env.py:167-221 | over every sequence of joint actions agents are on distinct walkable cells, never on a closed door, and an open door is never jammed |
| Grid.PlayIsMonotone | functional_layer/custom_env/cooperative_grid/grid_env.py:167-221 | the door never closes again, the jam never returns, an ended episode never changes |
| Grid.SealedRoomNeedsOpenDoor | functional_layer/custom_env/cooperative_grid/grid_env.py:295-301 | a cell that the door separates from the starts is occupied only once the door is open |
| Grid.TerminationNeedsOpenDoor | functional_layer/custom_env/cooperative_grid/grid_env.py:209-210 | on the frozen map no episode terminates before the door was opened |
| GridBackend.CooperativeGridEnv.Reset | functional_layer/custom_env/cooperative_grid/grid_env.py:151-165 | reset installs the start whatever came before |
| GridBackend.CooperativeGridEnv.Step | functional_layer/custom_env/cooperative_grid/grid_env.py:167-221 | the in-place step computes the specified successor and keeps the invariant; after the end it raises and changes nothing |
| GridBackend.CooperativeGridEnv.Route | functional_layer/custom_env/cooperative_grid/grid_env.py:250-277 | the route is a shortest one, least in the order of the moves; `None` if and only if no target is reachable through free cells |
| GridBackend.Unwind | functional_layer/custom_env/cooperative_grid/grid_env.py:269-275 | following the predecessors backwards and reversing gives the path that reached the cell |
| GridBackend.RouteIsUnique | functional_layer/custom_env/cooperative_grid/grid_env.py:250-277 | the position, the door and the targets determine the route |
| GridBackend.WalkFollowsPath | functional_layer/custom_env/cooperative_grid/grid_env.py:172-184 | replaying a route with the other agent idle visits exactly its cells: no move is blocked, nothing else changes |
| GridBackend.RouteEndsOnTarget | functional_layer/custom_env/cooperative_grid/grid_env.py:250-277 | the replay ends on a target unless the episode ends on the way |
| GridBackend.WalkFallsShortIff | functional_layer/custom_env/cooperative_grid/grid_env.py:167-169 | a walk falls short if and only if a step before its last ends the episode |
| GridAdapter.GridEnvironment.ExecuteSkill | kit/environment.py:136-167 | gates in order, one attempt, and the cached state advanced by a returned result only |
| GridAdapter.GridEnvironment.Reset | domains/cooperative_grid/environment.py:67-69 | reset leaves the cached state in sync with the simulator |
| GridAdapter.GridEnvironment.GotoPlace | domains/cooperative_grid/environment.py:86-104 | the walk loop over the routed path, its rejections and its raise |
| GridAdapter.GridEnvironment.ActAtDoor | domains/cooperative_grid/environment.py:106-123 | one joint step judged on the door it leaves |
| GridAdapter.AttemptRefinesModel | domains/cooperative_grid/environment.py:74-138 | from a cached state in sync every returned result is well formed, a success realises exactly what the model predicts, no failure is partial, and the cache stays in sync |
| GridAdapter.MonitorIsSilentIffSuccess | kit/services.py:117-153 | the derived monitor is silent if and only if the attempt succeeded |
| GridAdapter.GotoSucceedsIff | domains/cooperative_grid/environment.py:86-104 | a walk succeeds if and only if a route exists and the episode does not end on the way; without a route it is rejected before any transition, and the branch for a walk that missed its place is never taken |
| GridAdapter.ApplicableOpenSucceedsIff | domains/cooperative_grid/model.py:111-119 | a pull the model holds applicable opens the door if and only if it is not jammed, and otherwise changes nothing |
| GridAdapter.ApplicableClearJamSucceeds | domains/cooperative_grid/environment.py:116-123 | an applicable shake always succeeds and the jam never comes back |
| GridAdapter.AttemptFaultsOnlyAtTheEnd | kit/environment.py:152-163 | an attempt by a known agent faults only on a walk cut short by the end of the episode, and the fault carries the steps that ran |
| GridSession.ApplicableSuccessRefines | kit/environment.py:136-167 | over every session from reset, faults included, and with no hypothesis on the cache: each success of a call the model holds applicable realises exactly what the model predicts |
| GridSession.SuccessRefinesIff | domains/cooperative_grid/environment.py:74-138 | for every call, applicable or not, in every state a session reaches: a success realises the prediction if and only if every agent it does not move is cached at the place where it is |
| GridSession.SyncIsKeptIff | kit/environment.py:150-166 | from a cache in sync the next call loses it if and only if it ran primitives and then faulted; results, refusals and rejections keep it |
| GridSession.SyncReturnsIff | kit/environment.py:164-166 | a cache that is behind is brought back in sync by the next call if and only if that call succeeds |
| GridSession.SessionTracks | kit/environment.py:150-166 | through every session the cache is in sync, or the episode is over and the cache differs in the cell of one walker only |
| GridSession.SessionResultsAreHonest | shared/execution.py:155-212 | over every session from reset, faults included, each result names its call, starts at the cached state, and carries a failure class that agrees with its two states; no failure is partial |
| GridSession.SessionChargesTheClock | kit/environment.py:152-163 | conservation: over every session from reset, faults included, the primitives charged by the answers are exactly the simulator's clock |
| GridAdapter.FailedMeans | kit/environment.py:196-224 | a failure is returned if and only if its class fits the two states, and its record is then well formed; otherwise the attempt raises |
| GridSession.CutShort | domains/cooperative_grid/environment.py:86-104 | a concrete in-sync state from which one walk is cut short by the step limit and leaves the cache stale |
| GridSession.StaleSuccessMisses | domains/cooperative_grid/environment.py:86-104 | after that walk a call the model rejects is answered by a success that differs from the prediction |
| GridExecutive.StaleSuccessFromReset | kit/environment.py:136-167 | a whole session of four calls from reset after which such a success misses the prediction |
| GridModel.GoalIsTheTask | domains/cooperative_grid/types.py:172-173 | the planner's goal test on the projection is the task's test on the world |
| GridModel.JamIsHidden | domains/cooperative_grid/model.py:75-81 | projection and applicability do not depend on the jam |
| GridPlanning.ModelPlannerAnswers | domains/cooperative_grid/model.py:127-139 | from every orderly two-agent state the search over the enumerated calls finds a plan with a node budget of 32, of exactly the closed-form length |
| GridPlanning.EnumerationIsCandidates | domains/cooperative_grid/model.py:127-135 | the enumeration over sorted agents, places and identities gives exactly the nine candidates of a two-agent state, in that order |
| GridPlanning.HeadIsFirstHelp | domains/cooperative_grid/model.py:127-139 | the planned head is the first candidate that shortens the way |
| GridPlanning.ReachedInModel | domains/cooperative_grid/model.py:90-125 | in every state the model reaches no handle is shared and the goal room is occupied only behind an open door |
| GridPlanning.SomeCallHelps | domains/cooperative_grid/model.py:90-125 | away from the goal some applicable candidate shortens the way by one |
| GridExecutive.JamHaltsSymbolicPrimary | runtime/policies.py:105-133 | the whole domain under SYMBOLIC_PRIMARY from the jammed start: two walks, exactly the threshold of failing pulls, then the run halts on repeated failure, after threshold plus three cycles |
| GridExecutive.AdviceOvercomesJam | domains/cooperative_grid/__init__.py:37-47 | under ADVISORY_TWO_TRACK the same start ends at the goal: after the threshold of failing pulls the advised shake, then the pull, then both walks; every attempted call is named, threshold plus six in all |
| GridExecutive.UnjammedRunArrives | domains/cooperative_grid/model.py:127-139 | without a jam either policy reaches the goal in exactly five calls, each named |
| GridExecutive.GridRunExists | domains/cooperative_grid/__init__.py:50-62 | the three stories are told of an existing composition, for every configuration with those budgets |
| GridExecutive.PullsToTheThreshold | runtime/policies.py:105-133 | the jammed pull is attempted until its count reaches the threshold and no further |
| GridExecutive.RouteIsNotCut | functional_layer/custom_env/cooperative_grid/grid_env.py:167-221 | a routed walk that fits the step limit is never ended on the way, since a shortest route meets no target before its end |
| CallText.RoundTripIff | shared/skills.py:300-306 | printing then parsing gives a call back if and only if its identities avoid the delimiters and outer blanks and its zone does not start like a box |
| CallText.RoundTrip | nl/parser.py:21-61 | printing and parsing undo each other on all those calls |
| CallGrammar.MatchIff | nl/parser.py:20-21 | the texts with the outer form are exactly a name and an argument text between parentheses, with blanks before, between and after; the two groups are those |
| CallGrammar.StripIff | nl/parser.py:45-49 | stripping takes off all blanks at both ends and nothing else |
| CallGrammar.SplitIff | nl/parser.py:45-49 | splitting gives the one sequence of separator-free pieces that join to the text |
| CallGrammar.ParseIntIff | shared/ids.py:45-56 | the integers are exactly the texts of blanks, at most one sign and a numeral, and the sign decides the value |
| CallGrammar.NumeralIff | shared/ids.py:45-56 | a numeral is groups of digits with one underscore between each two |
| CallGrammar.NumeralOfDigits | shared/ids.py:45-56 | underscores and leading zeros of a numeral do not count |
| CallGrammar.LastSlotsCount | nl/parser.py:50-57 | of repeated slots the last of either kind counts, and without any there is none |
| CallText.ParseIsNormal | nl/parser.py:45-58 | whatever text was parsed, the call it gave is a fixed point of printing and parsing, pair order included |
| CallText.AcceptedIsPrintedIff | nl/parser.py:26-61 | an accepted text is the printed form of its call if and only if it has the printed surface form: no spare blank, plain box numeral, box slot before zone slot, no empty piece, a pair in order |
| CallText.SpareBlankIsAccepted | nl/parser.py:20-21 | every printable call is also accepted with a leading blank, which is not its printed form |
| CallText.ParseIsClean | nl/parser.py:45-58 | every call the parser returns has identities the text form can carry |
| CallText.SkillIsKept | nl/parser.py:36-43 | the skill of the result is the name that stands before the first parenthesis |
| CallText.ParseSkillCall | nl/parser.py:26-61 | the parser with its slot loop computes the specification function |
| CallText.ReadSlots | nl/parser.py:50-57 | the slot loop keeps the last box slot and the last other slot, and raises if and only if some slot is empty or a malformed box |
| CallText.ParseIntOfNat | shared/ids.py:45-56 | a printed box number is read back |

## Left out

- Digests and JSON encoding: replaced by canonical values or abstract key functions; a collision is outside the model.
- Messages, provenance, model versions and the rendered reasons of results and faults.
- The predicted-key columns of a trace entry and the call of `predict` that fills them: they are recorded and never read back. A raise out of it would leave the run; `BoxPushExecutive.GroundedIsPredicted` covers the BoxPush case.
- Exceptions outside the typed channels: a raise from the policy, from the comparator or from `reset` ends the source's run and has no counterpart.
- An arbitrary policy object: termination is proved for the two shipped policies, which is what it rests on.
- A KeyError out of BoxPush's predictor ends the source's run; `BoxPushExecutive` reports it as a raise of the monitor. `BoxPushExecutive.GroundedIsPredicted` shows that no grounded symbolic call on a world with a zone comes to it.
- GridPlanning.ModelPlannerAnswers: speaks of states of two agents and the three places of the domain, all of them known identities, as every projected state is.
- The BoxPush backend and its adapter: the environment oracle stands for them.
- Literal arguments are typed identities and predicate names an enumeration; the source prints both as strings. `unbind`, which reads them back, is not part of this model.
- The sums of the recorded accounting take one executive step per result, as every result builder in the model records it.
- CallText.ParseIntOfNat: Python's `int` also takes digits of other scripts, limits the length of a numeral, and treats the control characters 0x1C to 0x1F after `box_` in its own way; the model reads ASCII digits and one notion of white space.
- The sorted name tuples of the symbolic state are modelled by the sets and the map they list, so a state with a repeated name is not represented.
- The grid's facing, captions, events, observations and rendering; the map is given as read, with `Grid.FrozenLayoutIsValid` for the frozen rows, and not by the scanning loop of the constructor.
- The type check that returns a malformed call for a foreign object: the model is typed.
- Language-model seams, selection, repair and task interpretation; the comparator's content; the registry, scaffolding, reports and configuration records beyond the fields the loop reads.
- `multi_agent_env.py`, `shared_skills.py` and the legacy planners: their routing repeats the breadth-first argument.
