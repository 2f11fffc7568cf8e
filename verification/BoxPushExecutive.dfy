/**
  The BoxPush composition of the executive loop (app/box_push_v1.py) and what its runs achieve: with a
  cooperative environment the loop delivers every goal box in exactly the length of the shortest plan.
*/
module BoxPushExecutive {
  import opened Common
  import opened Skills
  import opened SkillIR
  import opened Snapshots
  import opened Search
  import opened Planner
  import opened BoxPush
  import opened BoxPushPlanning
  import opened BoxPushAnswers
  import opened StateSpace
  import opened Execution
  import opened Belief
  import opened Predictor
  import opened Monitor
  import opened Executive
  import opened LoopModel
  import opened LoopFailures
  import opened LoopAdvisory
  import opened LoopOutcomes

  // ---------------------------------------------------------------------------------------------
  // The composition
  // ---------------------------------------------------------------------------------------------

  /** The two halves that `ExactSymbolicBelief` keeps. */
  datatype BeliefState = Halves(projected: SymbolicState, tracked: SymbolicState)
  {
    function State(): SymbolicState {
      projected + tracked
    }
  }

  type BoxPushSetup = Setup<StateSnapshot, BeliefState, GroundedSkillCall>
  type BoxPushLoop = LoopState<StateSnapshot, BeliefState, GroundedSkillCall>
  type BoxPushLog = seq<Exchange<StateSnapshot, GroundedSkillCall>>
  type BoxPushPlanner = (BeliefState, StateSnapshot) -> PlannerResult<GroundedSkillCall>

  function SyncBelief(b: BeliefState, s: StateSnapshot): BeliefState
  {
    b.(projected := MonitoredView(PROJECTION, Project(s)))
  }

  function RecordBelief(b: BeliefState, r: BoxPushResult): BeliefState
  {
    SkillsAreValid();
    b.(tracked := Recorded(DOMAIN_IR, PROJECTION, b.tracked, r.call, r.outcome.Success?, WorldChanged(r)))
  }

  /** Identities against the snapshot: unknown agent, unknown box or a zone that is not the task's. */
  function IsGrounded(zone: ZoneId, s: StateSnapshot, c: GroundedSkillCall): bool
  {
    && (forall i :: 0 <= i < |c.agents| ==> FindAgent(s.agents, c.agents[i]).Some?)
    && (c.box.Some? ==> FindBox(s.boxes, c.box.value).Some?)
    && (c.zone.Some? ==> c.zone.value == zone)
  }

  function EvaluateCall(b: BeliefState, c: GroundedSkillCall): CallValidation
  {
    SkillsAreValid();
    Evaluate(DOMAIN_IR, b.State(), c)
  }

  /**
    The runtime sees of a discrepancy its call and whether it is an execution failure. The loop turns
    an escaped ValueError into a fault; an escaped KeyError would leave the run altogether, and
    `GroundedIsPredicted` shows that neither arises on a grounded call.
  */
  function RuntimeReports(zone: ZoneId, b: BeliefState, r: BoxPushResult): MonitorResult<GroundedSkillCall>
  {
    match MonitorExecution(b.State(), r, zone)
    case Reports(ds) => Reported(seq(|ds|, i requires 0 <= i < |ds| =>
      Report(ds[i].call, ds[i].kind == ExecutionFailureOfApplicableSkill)))
    case EscapedValueError => MonitorRaised
    case EscapedKeyError => MonitorRaised
  }

  /**
    What the runtime sees of one attempt: one report of a failed one, marked as execution failure exactly
    for a symbolic call, and none so marked of a success.
  */
  lemma RuntimeReportsMean(zone: ZoneId, b: BeliefState, r: BoxPushResult)
    ensures RuntimeReports(zone, b, r).Reported? ==>
              var reports := RuntimeReports(zone, b, r).reports;
              && (!r.outcome.Success? ==> reports == [Report(r.call, IsSymbolic(r.call))])
              && (r.outcome.Success? ==> forall report :: report in reports ==> report == Report(r.call, false))
  {
    hide SymbolicBasis, WorldBasis, PredictWorldCandidates;
    if RuntimeReports(zone, b, r).Reported? {
      ReportsMeanWhatHappened(b.State(), r, zone);
      ReportsAreWellFormed(b.State(), r, zone);
      var ds := MonitorExecution(b.State(), r, zone).discrepancies;
      assert forall i :: 0 <= i < |ds| ==> ds[i] in ds;
    }
  }

  function Recovery(report: Report<GroundedSkillCall>): seq<GroundedSkillCall>
  {
    if report.failure
    then ProposeRecovery(Monitor.Discrepancy(ExecutionFailureOfApplicableSkill, report.call, NoPair)) else []
  }

  function Compose(task: Task, plan: BoxPushPlanner, env: Environment<StateSnapshot, GroundedSkillCall>,
    config: OrchestrationConfig, policy: Policy, worldKey: StateSnapshot -> string,
    advisory: Option<Advisory<GroundedSkillCall>>): BoxPushSetup
  {
    Setup(env, config, policy, plan,
      (s: StateSnapshot, c: GroundedSkillCall) => IsGrounded(task.zone, s, c),
      (b: BeliefState, c: GroundedSkillCall) => EvaluateCall(b, c),
      (b: BeliefState, r: BoxPushResult) => RuntimeReports(task.zone, b, r),
      (b: BeliefState, s: StateSnapshot) => SyncBelief(b, s),
      (b: BeliefState, r: BoxPushResult) => RecordBelief(b, r),
      (s: StateSnapshot) => IsSatisfiedBy(task, s),
      worldKey, advisory, Some((report: Report<GroundedSkillCall>) => Recovery(report)))
  }

  const NO_BELIEF := Halves({}, {})

  // ---------------------------------------------------------------------------------------------
  // The cooperative environment
  // ---------------------------------------------------------------------------------------------

  /** What the belief tracks after these exchanges. */
  ghost function TrackedIn(log: BoxPushLog): SymbolicState
    decreases |log|
  {
    SkillsAreValid();
    if log == [] then {}
    else
      var e := Last(log);
      if e.response.Returned? then
        var r := e.response.result;
        Recorded(DOMAIN_IR, PROJECTION, TrackedIn(Init(log)), r.call, r.outcome.Success?, WorldChanged(r))
      else TrackedIn(Init(log))
  }

  lemma {:induction false} TrackedInIsTracked(log: BoxPushLog)
    ensures OnlyTracked(PROJECTION, TrackedIn(log))
    decreases |log|
  {
    hide Recorded, ValidDomain;
    if log != [] {
      SkillsAreValid();
      TrackedInIsTracked(Init(log));
      if Last(log).response.Returned? {
        var r := Last(log).response.result;
        RecordedKeepsTracked(DOMAIN_IR, PROJECTION, TrackedIn(Init(log)), r.call, r.outcome.Success?, WorldChanged(r));
      }
    }
  }

  /** The attempt succeeds at the cost of at most `primitives` and shows the monitored effects predicted for it. */
  ghost predicate Realises(s: StateSnapshot, c: GroundedSkillCall, primitives: nat,
    answer: Response<StateSnapshot, GroundedSkillCall>)
    requires IsSymbolic(c)
  {
    && answer.Returned? && answer.result.call == c && answer.result.outcome.Success?
    && WorldKey(answer.result.pre) == WorldKey(s) && answer.result.primitiveSteps <= primitives
    && Agrees(PROJECTION, Project(s) + Adds(c) - Deletes(c), Project(answer.result.post))
  }

  /** The exported snapshot shows the instance's identities, and the world the last result left. */
  ghost predicate Shows(u: Universe, log: BoxPushLog, s: StateSnapshot)
  {
    && u.zone != "" && FromSnapshot(s, u.zone) == u && s.world.deliveryZone != []
    && (log != [] && Last(log).response.Returned? ==> WorldKey(s) == WorldKey(Last(log).response.result.post))
  }

  /** The call is symbolic, known to the snapshot and applicable in what is believed of it. */
  ghost predicate Due(zone: ZoneId, s: StateSnapshot, log: BoxPushLog, c: GroundedSkillCall)
  {
    IsSymbolic(c) && IsGrounded(zone, s, c) && Validates(s, TrackedIn(log), c)
  }

  /** After anything it itself answered, every applicable attempt on known identities does what the model predicts. */
  ghost predicate Cooperative(env: Environment<StateSnapshot, GroundedSkillCall>, u: Universe, primitives: nat)
  {
    && (forall n, h :: Genuine(env, h) ==> Shows(u, h, env.exportState(n, h)))
    && (forall n, h, c :: Genuine(env, h) && Due(u.zone, env.exportState(n, h), h, c) ==>
          Realises(env.exportState(n, h), c, primitives, env.executeSkill(h, c)))
  }

  /** A task over a universe, the calls grounded for it, and a node budget that fits its state space. */
  datatype Mission = Mission(task: Task, u: Universe, key: GroundedSkillCall -> string,
    calls: seq<GroundedSkillCall>, nodeBudget: int)

  ghost predicate ValidMission(m: Mission)
  {
    && m.u.zone == m.task.zone && ValidInstance(m.u, m.task.goalDelivered)
    && Faithful(m.key) && IsGrounding(DOMAIN_IR, m.u, m.key, m.calls)
    && Power(|m.u.boxes| * (2 + |m.u.agents|)) <= m.nodeBudget
  }

  /** The planner column: what `Planner.Plan` guarantees, for every belief over this universe. */
  ghost predicate PlansFor(m: Mission, plan: BoxPushPlanner)
  {
    SkillsAreValid();
    forall b: BeliefState, s: StateSnapshot :: FromSnapshot(s, m.task.zone) == m.u ==>
      PlannerCorrect(DOMAIN_IR, b.State(), GoalSet(m.task.goalDelivered), m.u, m.key, m.nodeBudget, plan(b, s))
  }

  // ---------------------------------------------------------------------------------------------
  // One turn towards the goal
  // ---------------------------------------------------------------------------------------------

  /** The belief the loop holds once it has synced. */
  ghost function Held(s: StateSnapshot, log: BoxPushLog): SymbolicState
  {
    Believed(s, TrackedIn(log))
  }

  lemma HeldIsConsistent(u: Universe, log: BoxPushLog, s: StateSnapshot)
    requires Shows(u, log, s)
    ensures Consistent(Held(s, log), u) && Held(s, log) == Project(s) + TrackedIn(log)
  {
    TrackedInIsTracked(log);
    ProjectIsMonitored(s);
    ProjectionIsConsistent(s, TrackedIn(log), u.zone);
  }

  /** The loop's goal test, the planner's goal test and the cost agree. */
  lemma GoalIsCostZero(m: Mission, log: BoxPushLog, s: StateSnapshot)
    requires Shows(m.u, log, s)
    ensures IsSatisfiedBy(m.task, s) <==> Cost(Held(s, log), m.u, m.task.goalDelivered) == 0
    ensures Cost(Held(s, log), m.u, m.task.goalDelivered) == 0 <==> GoalSet(m.task.goalDelivered) <= Held(s, log)
  {
    var goal := m.task.goalDelivered;
    HeldIsConsistent(m.u, log, s);
    TrackedInIsTracked(log);
    CostZero(Held(s, log), m.u, goal);
    GoalTestsAgree(m.task, s);
    assert GoalSet(goal) == GoalLiterals(m.task);
    assert forall l :: l in GoalSet(goal) ==> l !in TrackedIn(log);
  }

  /** While the goal is solvable and open, the planner's head is applicable and lowers the cost by one. */
  lemma PlanHeadHelps(m: Mission, plan: BoxPushPlanner, b: BeliefState, s: StateSnapshot)
    requires ValidMission(m) && PlansFor(m, plan) && FromSnapshot(s, m.task.zone) == m.u
    requires Consistent(b.State(), m.u) && Solvable(b.State(), m.u, m.task.goalDelivered)
    requires Cost(b.State(), m.u, m.task.goalDelivered) > 0
    ensures plan(b, s).PlanFound? && |plan(b, s).plan| == Cost(b.State(), m.u, m.task.goalDelivered)
    ensures var c := plan(b, s).plan[0];
            && IsSymbolic(c) && GroundableAs(c.skill, m.u, c) && Applicable(b.State(), c)
            && Consistent(After(b.State(), c), m.u) && Solvable(After(b.State(), c), m.u, m.task.goalDelivered)
            && Cost(After(b.State(), c), m.u, m.task.goalDelivered) == Cost(b.State(), m.u, m.task.goalDelivered) - 1
  {
    hide Correct;
    var goal := m.task.goalDelivered;
    SkillsAreValid();
    PlannerDecides(b.State(), m.u, goal, m.key, m.calls, m.nodeBudget, plan(b, s));
    LeastIsCorrect(m, plan, b, s);
    var steps := plan(b, s).plan;
    var p := Instance(b.State(), goal, m.calls);
    HeadOfPlan(p, steps);
    var c := steps[0];
    GroundableIsSymbolic(m.u, c);
    TransitionMeans(b.State(), c);
    StepKeepsConsistent(b.State(), m.u, c);
    StepLowersByAtMostOne(b.State(), m.u, c, goal);
    PlanCostsAtLeast(After(b.State(), c), m.u, goal, m.key, m.calls, steps[1..]);
  }

  lemma LeastIsCorrect(m: Mission, plan: BoxPushPlanner, b: BeliefState, s: StateSnapshot)
    requires ValidMission(m) && PlansFor(m, plan) && FromSnapshot(s, m.task.zone) == m.u
    requires plan(b, s).PlanFound? && Cost(b.State(), m.u, m.task.goalDelivered) > 0
    ensures IsPlan(Instance(b.State(), m.task.goalDelivered, m.calls), plan(b, s).plan)
  {
    SkillsAreValid();
    GroundingIsTotal(m.u);
    CostZero(b.State(), m.u, m.task.goalDelivered);
    assert Correct(Instance(b.State(), m.task.goalDelivered, m.calls), StateKey, m.nodeBudget, plan(b, s));
  }

  /** A grounded call on a world with a delivery zone is predicted: the monitor cannot raise on it. */
  lemma GroundedIsPredicted(zone: ZoneId, s: StateSnapshot, c: GroundedSkillCall)
    requires IsSymbolic(c) && IsGrounded(zone, s, c) && s.world.deliveryZone != []
    ensures PredictWorldCandidates(s, c, zone).Candidates?
  {
  }

  lemma MonitorReports(zone: ZoneId, b: BeliefState, s: StateSnapshot, c: GroundedSkillCall, r: BoxPushResult)
    requires IsSymbolic(c) && IsGrounded(zone, s, c) && s.world.deliveryZone != []
    requires r.call == c && WorldKey(r.pre) == WorldKey(s)
    ensures RuntimeReports(zone, b, r).Reported?
  {
    GroundedIsPredicted(zone, r.pre, c);
  }

  /** After a realised success the next belief is the planner's successor state. */
  lemma NextHeld(s: StateSnapshot, log: BoxPushLog, c: GroundedSkillCall, r: BoxPushResult, t: StateSnapshot,
    primitives: nat)
    requires IsSymbolic(c) && Realises(s, c, primitives, Returned(r)) && WorldKey(t) == WorldKey(r.post)
    ensures Held(t, log + [Exchange(c, Returned(r))]) == After(Held(s, log), c)
  {
    hide Project;
    var longer := log + [Exchange(c, Returned(r))];
    assert Init(longer) == log;
    TrackedInIsTracked(log);
    ProjectIsMonitored(s);
    ProjectIsMonitored(r.post);
    SameWorldSameProjection(t, r.post);
    RecordedShape(TrackedIn(log), c, true, true);
    RecordedShape(TrackedIn(log), c, true, WorldChanged(r));
    EffectsView(Project(s), TrackedIn(log), c);
    BoxPushSuccessMatchesSuccessor(Project(s), TrackedIn(log), c, Project(r.post));
  }

  /** What is tracked does not show in the monitored view of the successor. */
  lemma EffectsView(projected: SymbolicState, tracked: SymbolicState, c: GroundedSkillCall)
    requires IsSymbolic(c) && OnlyTracked(PROJECTION, tracked)
    ensures MonitoredView(PROJECTION, projected + tracked + Adds(c) - Deletes(c)) ==
              MonitoredView(PROJECTION, projected + Adds(c) - Deletes(c))
  {
  }

  // ---------------------------------------------------------------------------------------------
  // Whole runs
  // ---------------------------------------------------------------------------------------------

  /** A composed loop without a track, in a cooperative environment, with a correct planner. */
  ghost predicate IsCooperativeRun(m: Mission, su: BoxPushSetup, primitives: nat)
  {
    && ValidMission(m) && primitives > 0 && su.advisory.None?
    && su == Compose(m.task, su.plan, su.env, su.config, su.policy, su.worldKey, None)
    && PlansFor(m, su.plan) && Cooperative(su.env, m.u, primitives)
  }

  /** Between turns: nothing stands, nothing failed, and the belief tracks what the attempts established. */
  ghost predicate OnCourse(su: BoxPushSetup, l: BoxPushLoop)
  {
    Genuine(su.env, l.log) && l.pending == [] && l.failures == map[] && l.belief.tracked == TrackedIn(l.log)
  }

  ghost function HeldAt(su: BoxPushSetup, l: BoxPushLoop, step: nat): SymbolicState
  {
    Held(su.env.exportState(step, l.log), l.log)
  }

  ghost function Distance(m: Mission, su: BoxPushSetup, l: BoxPushLoop, step: nat): nat
  {
    Cost(HeldAt(su, l, step), m.u, m.task.goalDelivered)
  }

  ghost predicate SolvableAt(m: Mission, su: BoxPushSetup, l: BoxPushLoop, step: nat)
  {
    Solvable(HeldAt(su, l, step), m.u, m.task.goalDelivered)
  }

  lemma SyncedBelief(m: Mission, su: BoxPushSetup, primitives: nat, l: BoxPushLoop, step: nat) returns (b: BeliefState)
    requires IsCooperativeRun(m, su, primitives) && OnCourse(su, l)
    ensures b == su.sync(l.belief, su.env.exportState(step, l.log)) ==
              Halves(Project(su.env.exportState(step, l.log)), TrackedIn(l.log))
    ensures b.State() == HeldAt(su, l, step)
    ensures Shows(m.u, l.log, su.env.exportState(step, l.log)) && Consistent(HeldAt(su, l, step), m.u)
  {
    var s := su.env.exportState(step, l.log);
    assert Shows(m.u, l.log, s);
    ProjectIsMonitored(s);
    HeldIsConsistent(m.u, l.log, s);
    b := su.sync(l.belief, s);
  }

  /** The planned head is attempted, and its attempt is a realised success that the monitor can judge. */
  lemma HeadIsRealised(m: Mission, su: BoxPushSetup, primitives: nat, l: BoxPushLoop, step: nat)
    returns (plan: seq<GroundedSkillCall>, r: BoxPushResult)
    requires IsCooperativeRun(m, su, primitives) && OnCourse(su, l)
    requires SolvableAt(m, su, l, step) && Distance(m, su, l, step) > 0
    ensures |plan| == Distance(m, su, l, step)
    ensures HeadSucceeds(su, l, su.env.exportState(step, l.log),
              su.sync(l.belief, su.env.exportState(step, l.log)), plan, r)
    ensures IsSymbolic(plan[0]) && Realises(su.env.exportState(step, l.log), plan[0], primitives, Returned(r))
    ensures Cost(After(HeldAt(su, l, step), plan[0]), m.u, m.task.goalDelivered) == Distance(m, su, l, step) - 1
    ensures Solvable(After(HeldAt(su, l, step), plan[0]), m.u, m.task.goalDelivered)
  {
    hide Project, Cost, Solvable, Realises, IsCooperativeRun, PlansFor, ValidMission, Consistent, Applicable,
      GroundableAs;
    var s := su.env.exportState(step, l.log);
    var b := SyncedBelief(m, su, primitives, l, step);
    ComposedFrom(m, su, primitives);
    PlanHeadHelps(m, su.plan, b, s);
    plan := su.plan(b, s).plan;
    GoalIsCostZero(m, l.log, s);
    r := ApplicableIsRealised(m, su, primitives, l, step, plan[0]);
  }

  lemma ComposedFrom(m: Mission, su: BoxPushSetup, primitives: nat)
    requires IsCooperativeRun(m, su, primitives)
    ensures ValidMission(m) && PlansFor(m, su.plan) && primitives > 0 && su.advisory.None?
    ensures forall s :: su.satisfied(s) == IsSatisfiedBy(m.task, s)
  {
  }

  /** A groundable applicable call passes both gates, succeeds, and is judged by the monitor. */
  lemma ApplicableIsRealised(m: Mission, su: BoxPushSetup, primitives: nat, l: BoxPushLoop, step: nat,
    c: GroundedSkillCall) returns (r: BoxPushResult)
    requires IsCooperativeRun(m, su, primitives) && OnCourse(su, l)
    requires IsSymbolic(c) && GroundableAs(c.skill, m.u, c) && Applicable(HeldAt(su, l, step), c)
    ensures var s := su.env.exportState(step, l.log);
            && su.evaluate(su.sync(l.belief, s), c) == ValidatedCall && su.grounded(s, c)
            && su.env.executeSkill(l.log, c) == Returned(r) && r.outcome.Success?
            && su.monitor(su.sync(l.belief, s), r).Reported?
            && Realises(s, c, primitives, Returned(r))
  {
    hide Project, Applicable, MonitorExecution, GroundableAs, PlansFor, ValidMission, Evaluate, IsGrounded;
    var s := su.env.exportState(step, l.log);
    assert Shows(m.u, l.log, s);
    var b := SyncedBelief(m, su, primitives, l, step);
    ZoneOf(m, su, primitives);
    HeadIsGrounded(m.u, s, c);
    ApplicableIsValidated(b.State(), c);
    assert Due(m.u.zone, s, l.log, c);
    var answer := su.env.executeSkill(l.log, c);
    assert Realises(s, c, primitives, answer);
    r := answer.result;
    MonitorReports(m.task.zone, b, s, c, r);
  }

  lemma ZoneOf(m: Mission, su: BoxPushSetup, primitives: nat)
    requires IsCooperativeRun(m, su, primitives)
    ensures m.u.zone == m.task.zone
  {
  }

  lemma HeadIsGrounded(u: Universe, s: StateSnapshot, c: GroundedSkillCall)
    requires u.zone != "" && FromSnapshot(s, u.zone) == u && GroundableAs(c.skill, u, c)
    ensures IsGrounded(u.zone, s, c)
  {
  }

  lemma ApplicableIsValidated(state: SymbolicState, c: GroundedSkillCall)
    requires IsSymbolic(c) && Applicable(state, c)
    ensures ValidDomain(DOMAIN_IR) && Evaluate(DOMAIN_IR, state, c) == ValidatedCall
  {
    EvaluateShape(state, c);
    ApplicableMeans(state, c);
  }

  /** The trace since `before`: each turn replans, finds a plan one call shorter, and its head succeeds. */
  ghost predicate Descends(before: seq<Entry<StateSnapshot, GroundedSkillCall>>,
    after: seq<Entry<StateSnapshot, GroundedSkillCall>>)
  {
    && |before| <= |after| && after[..|before|] == before
    && forall i :: |before| <= i < |after| ==> ReplansWith(after[i], |after| - i)
  }

  ghost predicate ReplansWith(e: Entry<StateSnapshot, GroundedSkillCall>, length: nat)
  {
    && e.plan.Some? && e.plan.value.PlanFound? && |e.plan.value.plan| == length > 0
    && e.execution.Some? && e.execution.value.outcome.Success? && e.execution.value.call == e.plan.value.plan[0]
  }

  lemma DescendsCons(before: seq<Entry<StateSnapshot, GroundedSkillCall>>,
    mid: seq<Entry<StateSnapshot, GroundedSkillCall>>, after: seq<Entry<StateSnapshot, GroundedSkillCall>>)
    requires |mid| == |before| + 1 && Init(mid) == before && Descends(mid, after)
             && ReplansWith(Last(mid), |after| - |before|)
    ensures Descends(before, after)
  {
    assert after[..|before|] == after[..|mid|][..|before|];
    assert after[|before|] == after[..|mid|][|before|];
  }

  /** One turn: the distance drops by one, the loop stays on course, one step and one entry are added. */
  lemma TurnAdvances(m: Mission, su: BoxPushSetup, primitives: nat, l: BoxPushLoop, step: nat, first: bool)
    requires IsCooperativeRun(m, su, primitives) && OnCourse(su, l) && !OutOfBudget(su.config, l)
    requires SolvableAt(m, su, l, step) && Distance(m, su, l, step) > 0
    ensures var t := OneTurn(su, l, step, first);
            && t.Continues? && OnCourse(su, t.state) && |t.state.log| == |l.log| + 1
            && SolvableAt(m, su, t.state, step + 1)
            && Distance(m, su, t.state, step + 1) == Distance(m, su, l, step) - 1
            && |t.state.entries| == |l.entries| + 1 && Init(t.state.entries) == l.entries
            && ReplansWith(Last(t.state.entries), Distance(m, su, l, step))
            && ExecutiveCharged(t.state) == ExecutiveCharged(l) + 1
            && PrimitiveCharged(t.state) <= PrimitiveCharged(l) + primitives
  {
    hide OneTurn, Project, Cost, OutOfBudget;
    var s := su.env.exportState(step, l.log);
    var plan, r := HeadIsRealised(m, su, primitives, l, step);
    UndisturbedTurn(su, l, step, first, plan, r);
    var t := OneTurn(su, l, step, first).state;
    var next := su.env.exportState(step + 1, t.log);
    assert Last(t.log) == Exchange(plan[0], Returned(r)) && Init(t.log) == l.log;
    assert Shows(m.u, t.log, next);
    NextHeld(s, l.log, plan[0], r, next, primitives);
  }

  /** With nothing left to deliver the turn stops at the goal, before any budget is looked at. */
  lemma TurnArrives(m: Mission, su: BoxPushSetup, primitives: nat, l: BoxPushLoop, step: nat, first: bool)
    requires IsCooperativeRun(m, su, primitives) && OnCourse(su, l) && Distance(m, su, l, step) == 0
    ensures var t := OneTurn(su, l, step, first);
            && t.Stopped? && t.outcome == GoalReached && !t.began
            && t.state.log == l.log && t.state.entries == l.entries && ExecutiveCharged(t.state) == ExecutiveCharged(l)
  {
    hide Project, Cost;
    var s := su.env.exportState(step, l.log);
    assert Shows(m.u, l.log, s);
    GoalIsCostZero(m, l.log, s);
  }

  /**
    End to end: from any course the run reaches the goal after exactly as many executive steps as the
    shortest plan has calls, one replan per cycle, each plan one call shorter than the one before.
  */
  lemma {:induction false} RunDelivers(m: Mission, su: BoxPushSetup, primitives: nat, l: BoxPushLoop, step: nat,
    first: bool, zeroCharge: nat)
    requires IsCooperativeRun(m, su, primitives) && OnCourse(su, l) && SolvableAt(m, su, l, step)
    requires ExecutiveCharged(l) + Distance(m, su, l, step) <= su.config.executiveBudget
             && zeroCharge <= su.config.maxRejections
    requires PrimitiveCharged(l) + Distance(m, su, l, step) * primitives <= su.config.primitiveBudget
    ensures var d := Distance(m, su, l, step);
            var e := RunFrom(su, l, step, first, zeroCharge);
            && e.outcome == GoalReached && e.cycles == step + d
            && |e.state.log| == |l.log| + d && ExecutiveCharged(e.state) == ExecutiveCharged(l) + d
            && PrimitiveCharged(e.state) <= PrimitiveCharged(l) + d * primitives
            && |e.state.entries| == |l.entries| + d && Descends(l.entries, e.state.entries)
    decreases Distance(m, su, l, step)
  {
    hide OneTurn, IsCooperativeRun, Distance, SolvableAt, OnCourse, Descends, OutOfBudget, ReplansWith;
    var d := Distance(m, su, l, step);
    TurnCharges(su, l, step, first);
    if d == 0 {
      TurnArrives(m, su, primitives, l, step, first);
      DescendsNowhere(l.entries);
    } else {
      PrimitivesArePositive(m, su, primitives);
      BudgetsAdmit(su.config, l, d, primitives);
      TurnAdvances(m, su, primitives, l, step, first);
      var t := OneTurn(su, l, step, first);
      RunDelivers(m, su, primitives, t.state, step + 1, t.first, 0);
      DescendsCons(l.entries, t.state.entries, RunFrom(su, t.state, step + 1, t.first, 0).state.entries);
    }
  }

  lemma DescendsNowhere(entries: seq<Entry<StateSnapshot, GroundedSkillCall>>)
    ensures Descends(entries, entries)
  {
  }

  /** With budgets for `d` more attempts, `d` positive, neither budget is reached and one attempt fits. */
  lemma BudgetsAdmit(config: OrchestrationConfig, l: BoxPushLoop, d: nat, primitives: nat)
    requires d > 0 && primitives > 0
    requires ExecutiveCharged(l) + d <= config.executiveBudget
             && PrimitiveCharged(l) + d * primitives <= config.primitiveBudget
    ensures !OutOfBudget(config, l)
    ensures PrimitiveCharged(l) + primitives + (d - 1) * primitives <= config.primitiveBudget
    ensures d * primitives == primitives + (d - 1) * primitives
  {
    assert d * primitives == (d - 1) * primitives + primitives && (d - 1) * primitives >= 0;
  }

  lemma PrimitivesArePositive(m: Mission, su: BoxPushSetup, primitives: nat)
    requires IsCooperativeRun(m, su, primitives)
    ensures primitives > 0
  {
  }

  /** What is left to deliver at the start, as calls: two per light and three per heavy goal box. */
  ghost function InitialDistance(m: Mission, s: StateSnapshot): nat
  {
    2 * LightLeft(Project(s), m.task.goalDelivered) + 3 * HeavyLeft(Project(s), m.task.goalDelivered)
  }

  /** An agent for a light box, two for a heavy one. */
  ghost predicate EnoughAgents(m: Mission, s: StateSnapshot)
  {
    && (LightLeft(Project(s), m.task.goalDelivered) > 0 ==> |m.u.agents| >= 1)
    && (HeavyLeft(Project(s), m.task.goalDelivered) > 0 ==> |m.u.agents| >= 2)
  }

  lemma StartOfRun(m: Mission, su: BoxPushSetup, primitives: nat)
    requires IsCooperativeRun(m, su, primitives)
    ensures var l: BoxPushLoop := Fresh(NO_BELIEF);
            && OnCourse(su, l) && Distance(m, su, l, 0) == InitialDistance(m, su.env.exportState(0, []))
            && (SolvableAt(m, su, l, 0) <==> EnoughAgents(m, su.env.exportState(0, [])))
  {
    hide IsCooperativeRun, Project, Cost, Consistent;
    var s := su.env.exportState(0, []);
    var goal := m.task.goalDelivered;
    ShownAt(m, su, primitives, 0, []);
    HeldIsConsistent(m.u, [], s);
    assert Held(s, []) == Project(s);
    NobodyIsProjectedPosed(s, m.u);
    CostWithoutPoses(Project(s), m.u, goal);
    LeftCounts(Project(s), goal);
  }

  lemma ShownAt(m: Mission, su: BoxPushSetup, primitives: nat, step: nat, log: BoxPushLog)
    requires IsCooperativeRun(m, su, primitives) && Genuine(su.env, log)
    ensures Shows(m.u, log, su.env.exportState(step, log))
  {
  }

  lemma NobodyIsProjectedPosed(s: StateSnapshot, u: Universe)
    ensures NobodyPosed(Project(s), u)
  {
  }

  /**
    The whole episode from a fresh loop: solved in exactly 2 executive steps per light and 3 per heavy
    undelivered goal box, for every policy, every budget of at least that many steps and every node
    budget that fits the state space.
  */
  lemma DeliversInShortestPlanLength(m: Mission, su: BoxPushSetup, primitives: nat)
    requires IsCooperativeRun(m, su, primitives) && EnoughAgents(m, su.env.exportState(0, []))
    requires InitialDistance(m, su.env.exportState(0, [])) <= su.config.executiveBudget
    requires InitialDistance(m, su.env.exportState(0, [])) * primitives <= su.config.primitiveBudget
    ensures var d := InitialDistance(m, su.env.exportState(0, []));
            var e := Run(su, NO_BELIEF);
            && e.outcome == GoalReached && e.cycles == d && |e.state.log| == d && ExecutiveCharged(e.state) == d
            && PrimitiveCharged(e.state) <= d * primitives
            && |e.state.entries| == d && Descends([], e.state.entries)
  {
    hide IsCooperativeRun, InitialDistance, EnoughAgents, Distance, SolvableAt, Descends;
    StartOfRun(m, su, primitives);
    RunDelivers(m, su, primitives, Fresh(NO_BELIEF), 0, true, 0);
  }

  /** An advisory track that never raises changes none of it. */
  lemma DeliversWithTrack(m: Mission, su: BoxPushSetup, primitives: nat)
    requires NeverRaises(su) && IsCooperativeRun(m, Bare(su), primitives) && EnoughAgents(m, su.env.exportState(0, []))
    requires InitialDistance(m, su.env.exportState(0, [])) <= su.config.executiveBudget
    requires InitialDistance(m, su.env.exportState(0, [])) * primitives <= su.config.primitiveBudget
    ensures var d := InitialDistance(m, su.env.exportState(0, []));
            var e := Run(su, NO_BELIEF);
            && e.outcome == GoalReached && e.cycles == d && |e.state.log| == d && ExecutiveCharged(e.state) == d
            && PrimitiveCharged(e.state) <= d * primitives
            && |e.state.entries| == d && Descends([], e.state.entries)
  {
    hide IsCooperativeRun, InitialDistance, EnoughAgents, NeverRaises, SameButAdvice, Run, Descends;
    DeliversInShortestPlanLength(m, Bare(su), primitives);
    AdvisoryIsEvidenceOnly(su, NO_BELIEF);
    SameCharges(Run(su, NO_BELIEF).state, Run(Bare(su), NO_BELIEF).state);
    DescendsAlike(Run(su, NO_BELIEF).state, Run(Bare(su), NO_BELIEF).state);
  }

  /** The advisory columns are not among those that replanning is read from. */
  lemma DescendsAlike(l: BoxPushLoop, k: BoxPushLoop)
    requires SameButAdvice(l, k) && Descends([], k.entries)
    ensures |l.entries| == |k.entries| && Descends([], l.entries)
  {
    forall i | 0 <= i < |l.entries|
      ensures ReplansWith(l.entries[i], |l.entries| - i)
    {
      assert Stripped(l.entries[i]) == Stripped(k.entries[i]) && ReplansWith(k.entries[i], |k.entries| - i);
    }
  }

  /** An instance without the agents it needs halts in its first cycle, having attempted nothing. */
  lemma HaltsWhenUnsolvable(m: Mission, su: BoxPushSetup, primitives: nat)
    requires IsCooperativeRun(m, su, primitives) && !EnoughAgents(m, su.env.exportState(0, []))
    ensures Run(su, NO_BELIEF).outcome == HaltedNoPlan && Run(su, NO_BELIEF).state.log == []
            && Run(su, NO_BELIEF).cycles == 1
  {
    hide IsCooperativeRun, EnoughAgents, OneTurn, SyncBelief;
    NoPlanAtStart(m, su, primitives);
    TurnWithoutPlan(su, Fresh(NO_BELIEF), 0, true);
  }

  lemma NoPlanAtStart(m: Mission, su: BoxPushSetup, primitives: nat)
    requires IsCooperativeRun(m, su, primitives) && !EnoughAgents(m, su.env.exportState(0, []))
    ensures var s := su.env.exportState(0, []);
            !su.satisfied(s) && su.plan(su.sync(NO_BELIEF, s), s) == NoPlan && su.advisory.None?
  {
    hide IsCooperativeRun, Project, Cost, EnoughAgents, Consistent, Solvable, PlansFor, ValidMission, IsSatisfiedBy;
    var s := su.env.exportState(0, []);
    StartOfRun(m, su, primitives);
    var b := SyncedBelief(m, su, primitives, Fresh(NO_BELIEF), 0);
    ComposedFrom(m, su, primitives);
    ZoneOf(m, su, primitives);
    UnsolvableIsNoPlan(m, su.plan, b, s);
    GoalIsCostZero(m, [], s);
  }

  lemma UnsolvableIsNoPlan(m: Mission, plan: BoxPushPlanner, b: BeliefState, s: StateSnapshot)
    requires ValidMission(m) && PlansFor(m, plan) && FromSnapshot(s, m.task.zone) == m.u
    requires Consistent(b.State(), m.u) && !Solvable(b.State(), m.u, m.task.goalDelivered)
    ensures plan(b, s) == NoPlan && Cost(b.State(), m.u, m.task.goalDelivered) > 0
  {
    SkillsAreValid();
    PlannerDecides(b.State(), m.u, m.task.goalDelivered, m.key, m.calls, m.nodeBudget, plan(b, s));
    CostZero(b.State(), m.u, m.task.goalDelivered);
    assert forall x :: x in m.task.goalDelivered ==> DeliveredOf(x) in GoalSet(m.task.goalDelivered);
  }

  /** In a cooperative environment with the budgets to match, the goal is reached exactly when it is reachable. */
  lemma ReachesGoalIff(m: Mission, su: BoxPushSetup, primitives: nat)
    requires IsCooperativeRun(m, su, primitives)
    requires InitialDistance(m, su.env.exportState(0, [])) <= su.config.executiveBudget
    requires InitialDistance(m, su.env.exportState(0, [])) * primitives <= su.config.primitiveBudget
    ensures Run(su, NO_BELIEF).outcome == GoalReached <==> EnoughAgents(m, su.env.exportState(0, []))
  {
    hide Run, IsCooperativeRun, EnoughAgents, InitialDistance;
    if EnoughAgents(m, su.env.exportState(0, [])) {
      DeliversInShortestPlanLength(m, su, primitives);
    } else {
      HaltsWhenUnsolvable(m, su, primitives);
    }
  }

  // ---------------------------------------------------------------------------------------------
  // The livelock escape
  // ---------------------------------------------------------------------------------------------

  /** The latest discrepancy recorded of a call. */
  function LatestReport(reports: seq<Report<GroundedSkillCall>>,
    c: GroundedSkillCall): Option<Report<GroundedSkillCall>>
    decreases |reports|
  {
    if reports == [] then None
    else if Last(reports).call == c then Some(Last(reports))
    else LatestReport(Init(reports), c)
  }

  lemma {:induction false} AdviceIsOnTheLatest(provider: Report<GroundedSkillCall> -> seq<GroundedSkillCall>,
    reports: seq<Report<GroundedSkillCall>>, c: GroundedSkillCall)
    ensures RecoveryFor(Some(provider), reports, c) ==
            match LatestReport(reports, c) { case None => [] case Some(report) => provider(report) }
    ensures LatestReport(reports, c).Some? ==> LatestReport(reports, c).value.call == c
    decreases |reports|
  {
    if reports != [] && Last(reports).call != c { AdviceIsOnTheLatest(provider, Init(reports), c); }
  }

  /** A consuming skill whose latest discrepancy is an execution failure: what the provider answers. */
  predicate HasEscape(reports: seq<Report<GroundedSkillCall>>, c: GroundedSkillCall)
  {
    c.skill in {Push, CooperativePush} && LatestReport(reports, c) == Some(Report(c, true))
  }

  /** A push that has just failed has its escape. */
  lemma FailedPushHasEscape(zone: ZoneId, b: BeliefState, r: BoxPushResult, reports: seq<Report<GroundedSkillCall>>)
    requires r.call.skill in {Push, CooperativePush} && !r.outcome.Success? && RuntimeReports(zone, b, r).Reported?
    ensures HasEscape(reports + RuntimeReports(zone, b, r).reports, r.call)
  {
    hide RuntimeReports;
    RuntimeReportsMean(zone, b, r);
  }

  /**
    Under the advisory policy an exhausted head halts the run if and only if it is no push whose latest
    discrepancy is a failure. Such a push never ends the run there: the walk that re-establishes the
    first agent's pose is enacted in the same cycle, and one walk per agent stands.
  */
  lemma ExhaustedPushEscapes(task: Task, su: BoxPushSetup, l: BoxPushLoop, step: nat, s: StateSnapshot,
    c: GroundedSkillCall)
    requires su == Compose(task, su.plan, su.env, su.config, su.policy, su.worldKey, su.advisory)
    requires su.policy.AdvisoryTwoTrack? && l.pending == [] && HeadIsExhausted(su, l, s, c)
    ensures Cycle(su, l, step, s).outcome == Some(HaltedRepeatedFailure) <==> !HasEscape(l.reports, c)
    ensures var r := Select(su, l, step, s, su.plan(l.belief, s), 0, 0, false, None);
            HasEscape(l.reports, c) && r.Chosen? ==>
              r.call == Call(GotoPushPose, [c.agents[0]], c.box, c.zone) && |r.state.pending| == |c.agents|
  {
    hide Cycle, Select, HeadIsExhausted;
    EscapeIffAdvice(su, l, step, s, c);
    AdviceIsOnTheLatest(su.recovery.value, l.reports, c);
  }
}
