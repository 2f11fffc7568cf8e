/**
  A BoxPush run whose planned head always fails without changing the world: the belief and the head stay
  what they are, and the run halts on repeated failure after exactly the threshold of attempts
  (runtime/policies.py, symbolic/belief.py, app/box_push_v1.py).
*/
module BoxPushStuck {
  import opened Common
  import opened Skills
  import opened SkillIR
  import opened Snapshots
  import opened Search
  import opened Planner
  import opened BoxPush
  import opened BoxPushPlanning
  import opened BoxPushAnswers
  import opened Execution
  import opened Belief
  import opened Predictor
  import opened Monitor
  import opened Executive
  import opened LoopModel
  import opened LoopAdvisory
  import opened LoopFailures
  import opened LoopOutcomes
  import opened BoxPushExecutive
  import opened BoxPushWitness

  /** The composition, whatever the environment, the track and the configuration; the digest is of the world. */
  ghost predicate IsPlannedRun(m: Mission, su: BoxPushSetup)
  {
    && ValidMission(m) && PlansFor(m, su.plan) && su.policy.SymbolicPrimary?
    && su == Compose(m.task, su.plan, su.env, su.config, su.policy, su.worldKey, su.advisory)
    && forall s, t :: WorldKey(s) == WorldKey(t) ==> su.worldKey(s) == su.worldKey(t)
  }

  /** In this one snapshot, synced into this belief, the planner puts the call first. */
  ghost predicate IsHead(m: Mission, su: BoxPushSetup, b: BeliefState, s: StateSnapshot, c: GroundedSkillCall)
  {
    && FromSnapshot(s, m.task.zone) == m.u && s.world.deliveryZone != [] && b == SyncBelief(b, s)
    && su.plan(b, s).PlanFound? && su.plan(b, s).plan != [] && su.plan(b, s).plan[0] == c
  }

  /** From the log `base` on, until it is `limit` long, every attempt fails and the world stays what it is. */
  ghost predicate AlwaysFails(env: Environment<StateSnapshot, GroundedSkillCall>, base: BoxPushLog, limit: nat,
    s: StateSnapshot, c: GroundedSkillCall, primitives: nat)
  {
    && (forall n, h :: RepeatsUpTo(env, base, h, c, limit) ==> WorldKey(env.exportState(n, h)) == WorldKey(s))
    && (forall h :: RepeatsUpTo(env, base, h, c, limit) ==> IsQuietFailure(s, c, primitives, env.executeSkill(h, c)))
  }

  ghost predicate IsQuietFailure(s: StateSnapshot, c: GroundedSkillCall, primitives: nat,
    answer: Response<StateSnapshot, GroundedSkillCall>)
  {
    && answer.Returned? && answer.result.call == c && !answer.result.outcome.Success?
    && WorldKey(answer.result.pre) == WorldKey(answer.result.post) == WorldKey(s)
    && answer.result.primitiveSteps <= primitives
  }

  // ---------------------------------------------------------------------------------------------
  // Belief and head stay
  // ---------------------------------------------------------------------------------------------

  /** Syncing, and recording a failure that moved nothing, leave a synced belief as it is. */
  lemma QuietFailureKeepsBelief(s: StateSnapshot, tracked: SymbolicState, r: BoxPushResult)
    requires !r.outcome.Success? && WorldKey(r.pre) == WorldKey(r.post) == WorldKey(s)
    ensures var b := SyncBelief(Halves({}, tracked), s); RecordBelief(SyncBelief(b, r.post), r) == b
  {
    SameWorldSameProjection(s, r.post);
    RecordedOnBoxPush(tracked, r.call, false, false);
  }

  /** The planner is deterministic: in an unchanged world an unchanged belief gets the same plan. */
  lemma SameWorldSamePlan(m: Mission, plan: BoxPushPlanner, b: BeliefState, s: StateSnapshot, t: StateSnapshot)
    requires ValidMission(m) && PlansFor(m, plan)
    requires FromSnapshot(s, m.task.zone) == m.u && WorldKey(t) == WorldKey(s)
    ensures FromSnapshot(t, m.task.zone) == m.u && plan(b, t) == plan(b, s) == ExactPlan(m, b)
  {
    hide PlannerCorrect;
    SkillsAreValid();
    assert FromSnapshot(t, m.task.zone) == m.u;
    AnswersAgree(m, b, plan(b, s));
    AnswersAgree(m, b, plan(b, t));
  }

  /** A planned head passes both gates, and the goal is still open. */
  lemma HeadIsDue(m: Mission, su: BoxPushSetup, b: BeliefState, s: StateSnapshot, c: GroundedSkillCall)
    requires IsPlannedRun(m, su) && IsHead(m, su, b, s, c)
    ensures IsSymbolic(c) && IsGrounded(m.task.zone, s, c) && EvaluateCall(b, c) == ValidatedCall
    ensures !IsSatisfiedBy(m.task, s)
  {
    hide Project, PlannerCorrect, Compose, IsSatisfiedBy;
    SkillsAreValid();
    SameWorldSamePlan(m, su.plan, b, s, s);
    var p := Instance(b.State(), m.task.goalDelivered, m.calls);
    var plan := su.plan(b, s).plan;
    HeadOfPlan(p, plan);
    GroundableIsSymbolic(m.u, c);
    TransitionMeans(b.State(), c);
    HeadIsGrounded(m.u, s, c);
    ApplicableIsValidated(b.State(), c);
    if IsSatisfiedBy(m.task, s) { MetGoalNeedsNoCall(m, b, s, plan); }
  }

  lemma MetGoalNeedsNoCall(m: Mission, b: BeliefState, s: StateSnapshot, plan: seq<GroundedSkillCall>)
    requires IsSatisfiedBy(m.task, s) && b == SyncBelief(b, s)
    requires LeastPlan(Instance(b.State(), m.task.goalDelivered, m.calls), plan)
    ensures plan == []
  {
    hide Project, Leq;
    var p := Instance(b.State(), m.task.goalDelivered, m.calls);
    GoalTestsAgree(m.task, s);
    ProjectIsMonitored(s);
    assert IsPlan(p, []);
    LeqIsNoLonger(p.calls, plan, []);
  }

  // ---------------------------------------------------------------------------------------------
  // The run
  // ---------------------------------------------------------------------------------------------

  /** The head at `s` is the head in every later turn, which finds the world and the belief of this one. */
  lemma FailingIsStuck(m: Mission, su: BoxPushSetup, base: BoxPushLog, limit: nat, b: BeliefState, s: StateSnapshot,
    c: GroundedSkillCall, primitives: nat)
    requires IsPlannedRun(m, su) && IsHead(m, su, b, s, c) && AlwaysFails(su.env, base, limit, s, c, primitives)
    ensures Stuck(Bare(su), base, limit, b, c, su.worldKey(s), primitives)
  {
    hide IsPlannedRun, IsHead, IsQuietFailure, StuckState, FailsQuietly;
    forall n, h | RepeatsUpTo(su.env, base, h, c, limit)
      ensures StuckState(Bare(su), b, c, su.worldKey(s), su.env.exportState(n, h))
    {
      StuckExport(m, su, b, s, c, su.env.exportState(n, h));
    }
    forall h | RepeatsUpTo(su.env, base, h, c, limit)
      ensures FailsQuietly(Bare(su), b, c, su.env.executeSkill(h, c)) && AtMost(su.env.executeSkill(h, c), primitives)
    {
      StuckAnswer(m, su, b, s, c, primitives, su.env.executeSkill(h, c));
    }
    PolicyOf(m, su);
  }

  lemma PolicyOf(m: Mission, su: BoxPushSetup)
    requires IsPlannedRun(m, su)
    ensures su.policy.SymbolicPrimary?
  {
  }

  lemma StuckExport(m: Mission, su: BoxPushSetup, b: BeliefState, s: StateSnapshot, c: GroundedSkillCall,
    t: StateSnapshot)
    requires IsPlannedRun(m, su) && IsHead(m, su, b, s, c) && WorldKey(t) == WorldKey(s)
    ensures StuckState(Bare(su), b, c, su.worldKey(s), t)
  {
    hide Project, PlansFor, ValidMission, EvaluateCall;
    HeadIsDue(m, su, b, s, c);
    SameWorldSamePlan(m, su.plan, b, s, t);
    SameWorldSameProjection(s, t);
  }

  lemma StuckAnswer(m: Mission, su: BoxPushSetup, b: BeliefState, s: StateSnapshot, c: GroundedSkillCall,
    primitives: nat, answer: Response<StateSnapshot, GroundedSkillCall>)
    requires IsPlannedRun(m, su) && IsHead(m, su, b, s, c) && IsQuietFailure(s, c, primitives, answer)
    ensures FailsQuietly(Bare(su), b, c, answer) && AtMost(answer, primitives)
  {
    hide Project, PlansFor, ValidMission, EvaluateCall, PredictWorldCandidates;
    HeadIsDue(m, su, b, s, c);
    QuietFailureKeepsBelief(s, b.tracked, answer.result);
    MonitorReports(m.task.zone, b, s, c, answer.result);
  }

  /**
    From any point of a run: if the head planned now always fails without changing the world, then belief
    and head stay what they are now, the head is attempted as often as the threshold still allows and
    nothing else is, and the run halts on repeated failure. A track that never raises changes none of it.
  */
  lemma StuckPushHalts(m: Mission, su: BoxPushSetup, l: BoxPushLoop, step: nat, first: bool, zeroCharge: nat,
    c: GroundedSkillCall, primitives: nat, left: nat)
    requires IsPlannedRun(m, su) && NeverRaises(su) && l.pending == []
    requires var s := su.env.exportState(step, l.log);
             && IsHead(m, su, SyncBelief(l.belief, s), s, c)
             && AlwaysFails(su.env, l.log, |l.log| + left, s, c, primitives)
             && left == su.config.failureThreshold - Lookup(l.failures, (su.worldKey(s), c))
    requires ExecutiveCharged(l) + left < su.config.executiveBudget && zeroCharge <= su.config.maxRejections
    requires PrimitiveCharged(l) + left * primitives < su.config.primitiveBudget
    ensures var e := RunFrom(su, l, step, first, zeroCharge);
            && e.outcome == HaltedRepeatedFailure && e.cycles == step + left + 1
            && |e.state.log| == |l.log| + left && Repeats(su.env, l.log, e.state.log, c)
            && e.state.belief == SyncBelief(l.belief, su.env.exportState(step, l.log))
  {
    hide AlwaysFails, Stuck, IsHead, RunFrom, NeverRaises, PlansFor, ValidMission, Project;
    var s := su.env.exportState(step, l.log);
    FailingIsStuck(m, su, l.log, |l.log| + left, SyncBelief(l.belief, s), s, c, primitives);
    StuckRunHaltsWithTrack(su, l, step, first, zeroCharge, l.log, |l.log| + left, c, su.worldKey(s), primitives, left);
  }

  /** A fresh run whose first head is stuck: exactly the threshold of attempts of it, and one more cycle. */
  lemma StuckPushHaltsFreshRun(m: Mission, su: BoxPushSetup, c: GroundedSkillCall, primitives: nat)
    requires IsPlannedRun(m, su) && NeverRaises(su)
    requires var s := su.env.exportState(0, []);
             && IsHead(m, su, SyncBelief(NO_BELIEF, s), s, c)
             && AlwaysFails(su.env, [], su.config.failureThreshold, s, c, primitives)
    requires su.config.failureThreshold < su.config.executiveBudget
    requires su.config.failureThreshold * primitives < su.config.primitiveBudget
    ensures var e := Run(su, NO_BELIEF);
            && e.outcome == HaltedRepeatedFailure && e.cycles == su.config.failureThreshold + 1
            && |e.state.log| == su.config.failureThreshold && Repeats(su.env, [], e.state.log, c)
            && e.state.belief == SyncBelief(NO_BELIEF, su.env.exportState(0, []))
  {
    hide AlwaysFails, IsHead, RunFrom, NeverRaises, IsPlannedRun;
    StuckPushHalts(m, su, Fresh(NO_BELIEF), 0, true, 0, c, primitives, su.config.failureThreshold);
  }

  // ---------------------------------------------------------------------------------------------
  // There are such runs
  // ---------------------------------------------------------------------------------------------

  /** Nothing moves in this environment: every attempt costs one step and fails. */
  function ImmovableEnvironment(s: StateSnapshot): Environment<StateSnapshot, GroundedSkillCall>
  {
    Environment((n: nat, h: BoxPushLog) => s,
      (h: BoxPushLog, c: GroundedSkillCall) => Returned(Result(c, Failure, s, s, 1, Some(Unchanged))))
  }

  /**
    From every world with an open goal and the agents it needs, for every task and configuration, there is
    a run that meets all hypotheses of `StuckPushHaltsFreshRun` but the budgets of the configuration.
  */
  lemma StuckRunExists(task: Task, s: StateSnapshot, config: OrchestrationConfig)
    returns (m: Mission, su: BoxPushSetup, c: GroundedSkillCall)
    requires s.world.deliveryZone != [] && forall b :: b in task.goalDelivered ==> FindBox(s.boxes, b).Some?
    requires !IsSatisfiedBy(task, s)
    requires LightLeft(Project(s), task.goalDelivered) > 0 ==> |s.agents| >= 1
    requires HeavyLeft(Project(s), task.goalDelivered) > 0 ==> |s.agents| >= 2
    ensures m.task == task && su.config == config && IsPlannedRun(m, su) && NeverRaises(su)
    ensures var now := su.env.exportState(0, []);
            && WorldKey(now) == WorldKey(s) && IsHead(m, su, SyncBelief(NO_BELIEF, now), now, c)
            && AlwaysFails(su.env, [], config.failureThreshold, now, c, 1)
  {
    hide IsCooperativeRun, IsPlannedRun, IsHead, AlwaysFails, OpenAt, Project;
    var willing: BoxPushSetup;
    m, willing := CooperativeRunExists(task, s, config, SymbolicPrimary, (t: StateSnapshot) => "");
    var now := willing.env.exportState(0, []);
    OpenInThisWorld(m, willing, s);
    c := FirstHead(m, willing);
    su := Unmoved(m, willing, c);
    NothingMoves(now, config.failureThreshold, c);
  }

  /** The goal is open in a world that has the agents for it. */
  ghost predicate OpenAt(m: Mission, s: StateSnapshot)
  {
    !IsSatisfiedBy(m.task, s) && EnoughAgents(m, s)
  }

  lemma OpenInThisWorld(m: Mission, su: BoxPushSetup, s: StateSnapshot)
    requires IsCooperativeRun(m, su, 1) && WorldKey(su.env.exportState(0, [])) == WorldKey(s)
    requires !IsSatisfiedBy(m.task, s)
    requires LightLeft(Project(s), m.task.goalDelivered) > 0 ==> |s.agents| >= 1
    requires HeavyLeft(Project(s), m.task.goalDelivered) > 0 ==> |s.agents| >= 2
    ensures OpenAt(m, su.env.exportState(0, []))
  {
    hide IsCooperativeRun, Project, LightLeft, HeavyLeft;
    var now := su.env.exportState(0, []);
    SameWorldSameProjection(s, now);
    ShownAt(m, su, 1, 0, []);
    assert m.u.agents == AgentIds(now);
  }

  /** A cooperative run from an open goal starts with a planned head. */
  lemma FirstHead(m: Mission, su: BoxPushSetup) returns (c: GroundedSkillCall)
    requires IsCooperativeRun(m, su, 1) && OpenAt(m, su.env.exportState(0, []))
    ensures IsHead(m, su, SyncBelief(NO_BELIEF, su.env.exportState(0, [])), su.env.exportState(0, []), c)
  {
    hide IsCooperativeRun, Project, Solvable, Cost, EnoughAgents, Realises;
    var s := su.env.exportState(0, []);
    StartOfRun(m, su, 1);
    ShownAt(m, su, 1, 0, []);
    GoalIsCostZero(m, [], s);
    var plan, r := HeadIsRealised(m, su, 1, Fresh(NO_BELIEF), 0);
    c := plan[0];
    ZoneOf(m, su, 1);
    SyncIs(m, su, s);
  }

  lemma SyncIs(m: Mission, su: BoxPushSetup, s: StateSnapshot)
    requires IsCooperativeRun(m, su, 1)
    ensures su.sync(NO_BELIEF, s) == SyncBelief(NO_BELIEF, s)
  {
  }

  /** The same run in an environment where nothing moves. */
  lemma Unmoved(m: Mission, willing: BoxPushSetup, c: GroundedSkillCall) returns (su: BoxPushSetup)
    requires IsCooperativeRun(m, willing, 1) && willing.policy.SymbolicPrimary?
    requires forall s, t :: WorldKey(s) == WorldKey(t) ==> willing.worldKey(s) == willing.worldKey(t)
    requires var s := willing.env.exportState(0, []); IsHead(m, willing, SyncBelief(NO_BELIEF, s), s, c)
    ensures var s := willing.env.exportState(0, []);
            && su.env == ImmovableEnvironment(s) && su.config == willing.config
            && IsPlannedRun(m, su) && NeverRaises(su) && IsHead(m, su, SyncBelief(NO_BELIEF, s), s, c)
  {
    hide Project, PlansFor, ValidMission, Cooperative;
    su := willing.(env := ImmovableEnvironment(willing.env.exportState(0, [])));
  }

  lemma NothingMoves(s: StateSnapshot, limit: nat, c: GroundedSkillCall)
    ensures AlwaysFails(ImmovableEnvironment(s), [], limit, s, c, 1)
  {
    hide RepeatsUpTo;
  }
}
