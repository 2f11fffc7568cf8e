/**
  The hypotheses of the end-to-end results can be met together: an injective call key, a grounding, a
  planner function that is what the planner method answers, and a cooperative environment.
*/
module BoxPushWitness {
  import opened Common
  import opened Skills
  import opened SkillIR
  import opened Snapshots
  import opened Search
  import opened Planner
  import opened StateSpace
  import opened BoxPush
  import opened BoxPushPlanning
  import opened BoxPushAnswers
  import opened Execution
  import opened Belief
  import opened Predictor
  import opened Monitor
  import opened Executive
  import opened LoopModel
  import opened BoxPushExecutive
  import CallText

  // ---------------------------------------------------------------------------------------------
  // A key that tells calls apart
  // ---------------------------------------------------------------------------------------------

  /** A self-delimiting form: every character is announced, and the end is marked. */
  function Delimited(s: string): string
  {
    if s == "" then "." else "x" + [s[0]] + Delimited(s[1..])
  }

  lemma {:induction false} DelimitedSplits(a: string, x: string, b: string, y: string)
    requires Delimited(a) + x == Delimited(b) + y
    ensures a == b && x == y
  {
    var left, right := Delimited(a) + x, Delimited(b) + y;
    assert left[0] == right[0];
    if a != "" && b != "" {
      assert left[1] == a[0] && right[1] == b[0];
      assert left[2..] == Delimited(a[1..]) + x && right[2..] == Delimited(b[1..]) + y;
      DelimitedSplits(a[1..], x, b[1..], y);
      assert a == [a[0]] + a[1..] && b == [b[0]] + b[1..];
    } else if a == "" && b == "" {
      assert left[1..] == x && right[1..] == y;
    }
  }

  function KeyText(c: GroundedSkillCall): string
  {
    Delimited(SkillText(c.skill)) + (Delimited(c.agents[0]) + (Delimited(if |c.agents| == 2 then c.agents[1] else "") +
      (Delimited(if c.box.Some? then CallText.NatText(c.box.value) else "")
        + Delimited(if c.zone.Some? then c.zone.value else ""))))
  }

  lemma KeyTextIsFaithful()
    ensures Faithful(KeyText)
  {
    forall c: GroundedSkillCall, d: GroundedSkillCall | KeyText(c) == KeyText(d)
      ensures c == d
    {
      SameKeySameCall(c, d);
    }
  }

  lemma SameKeySameCall(c: GroundedSkillCall, d: GroundedSkillCall)
    requires KeyText(c) == KeyText(d)
    ensures c == d
  {
    hide Delimited, CallText.NatText, SkillText;
    var second := (e: GroundedSkillCall) => if |e.agents| == 2 then e.agents[1] else "";
    var box := (e: GroundedSkillCall) => if e.box.Some? then CallText.NatText(e.box.value) else "";
    var zone := (e: GroundedSkillCall) => if e.zone.Some? then e.zone.value else "";
    var slots := (e: GroundedSkillCall) => Delimited(box(e)) + Delimited(zone(e));
    var rest := (e: GroundedSkillCall) => Delimited(second(e)) + slots(e);
    DelimitedSplits(SkillText(c.skill), Delimited(c.agents[0]) + rest(c), SkillText(d.skill),
      Delimited(d.agents[0]) + rest(d));
    DelimitedSplits(c.agents[0], rest(c), d.agents[0], rest(d));
    DelimitedSplits(second(c), slots(c), second(d), slots(d));
    DelimitedSplits(box(c), Delimited(zone(c)), box(d), Delimited(zone(d)));
    assert Delimited(zone(c)) + "" == Delimited(zone(c)) && Delimited(zone(d)) + "" == Delimited(zone(d));
    DelimitedSplits(zone(c), "", zone(d), "");
    CallText.SkillTextIsName(c.skill);
    CallText.SkillTextIsName(d.skill);
    assert c.agents == if |c.agents| == 2 then [c.agents[0], c.agents[1]] else [c.agents[0]];
    assert d.agents == if |d.agents| == 2 then [d.agents[0], d.agents[1]] else [d.agents[0]];
    if c.box.Some? {
      CallText.NumeralOfNat(c.box.value);
      CallText.NumeralOfNat(d.box.value);
    }
  }

  // ---------------------------------------------------------------------------------------------
  // A grounding
  // ---------------------------------------------------------------------------------------------

  ghost function SoloCalls(name: SkillName, u: Universe): set<GroundedSkillCall>
    requires ValidUniverse(u) && name in {GotoPushPose, Push}
  {
    set i, k | 0 <= i < |u.agents| && 0 <= k < |u.boxes| :: Call(name, [u.agents[i]], Some(u.boxes[k]), Some(u.zone))
  }

  ghost function PairCalls(u: Universe): set<GroundedSkillCall>
    requires ValidUniverse(u)
  {
    set i, j, k | 0 <= i < |u.agents| && 0 <= j < |u.agents| && 0 <= k < |u.boxes|
      && StringLess(u.agents[i], u.agents[j]) ::
      Call(CooperativePush, [u.agents[i], u.agents[j]], Some(u.boxes[k]), Some(u.zone))
  }

  ghost function AllCalls(u: Universe): set<GroundedSkillCall>
    requires ValidUniverse(u)
  {
    SoloCalls(GotoPushPose, u) + SoloCalls(Push, u) + PairCalls(u)
  }

  lemma AllCallsAreGroundable(u: Universe, c: GroundedSkillCall)
    requires ValidUniverse(u)
    ensures c in AllCalls(u) <==> Groundable(DOMAIN_IR, u, c)
  {
    GroundableIsSymbolic(u, c);
    if IsSymbolic(c) && GroundableAs(c.skill, u, c) {
      var k :| 0 <= k < |u.boxes| && u.boxes[k] == c.box.value;
      var i :| 0 <= i < |u.agents| && u.agents[i] == c.agents[0];
      if c.skill == CooperativePush {
        var j :| 0 <= j < |u.agents| && u.agents[j] == c.agents[1];
        assert c == Call(CooperativePush, [u.agents[i], u.agents[j]], Some(u.boxes[k]), Some(u.zone));
        assert c in PairCalls(u);
      } else {
        assert c == Call(c.skill, [u.agents[i]], Some(u.boxes[k]), Some(u.zone));
        assert c in SoloCalls(c.skill, u);
      }
    }
  }

  /** Every universe has a grounding, under every faithful key. */
  lemma GroundingExists(u: Universe, key: GroundedSkillCall -> string) returns (calls: seq<GroundedSkillCall>)
    requires ValidUniverse(u) && Faithful(key)
    ensures IsGrounding(DOMAIN_IR, u, key, calls)
  {
    hide AllCalls, Groundable;
    var listed := Enumerate(AllCalls(u));
    SortIsSorted(key, listed);
    calls := SortCalls(key, listed);
    forall c
      ensures c in calls <==> Groundable(DOMAIN_IR, u, c)
    {
      AllCallsAreGroundable(u, c);
    }
  }

  // ---------------------------------------------------------------------------------------------
  // A cooperative environment
  // ---------------------------------------------------------------------------------------------

  /** The world in which a call just does what its model says, moving nothing. */
  function Carried(s: StateSnapshot, c: GroundedSkillCall): StateSnapshot
  {
    if c.skill in {Push, CooperativePush} && FindBox(s.boxes, c.box.value).Some?
    then WithBox(s, c.box.value, FindBox(s.boxes, c.box.value).value.position, true)
    else s
  }

  function CarriedAll(s: StateSnapshot, log: BoxPushLog): StateSnapshot
    decreases |log|
  {
    if log == [] then s else Carried(CarriedAll(s, Init(log)), Last(log).call)
  }

  function ObligingEnvironment(s: StateSnapshot): Environment<StateSnapshot, GroundedSkillCall>
  {
    Environment((n: nat, h: BoxPushLog) => CarriedAll(s, h),
      (h: BoxPushLog, c: GroundedSkillCall) =>
        Returned(Result(c, Success, CarriedAll(s, h), Carried(CarriedAll(s, h), c), 1, None)))
  }

  lemma {:induction false} CarriedKeepsIdentities(s: StateSnapshot, log: BoxPushLog)
    ensures AgentIds(CarriedAll(s, log)) == AgentIds(s) && BoxIds(CarriedAll(s, log)) == BoxIds(s)
    ensures CarriedAll(s, log).world == s.world
    decreases |log|
  {
    if log != [] {
      CarriedKeepsIdentities(s, Init(log));
      OneCarryKeepsIdentities(CarriedAll(s, Init(log)), Last(log).call);
    }
  }

  lemma OneCarryKeepsIdentities(s: StateSnapshot, c: GroundedSkillCall)
    ensures AgentIds(Carried(s, c)) == AgentIds(s) && BoxIds(Carried(s, c)) == BoxIds(s)
            && Carried(s, c).world == s.world
  {
  }

  lemma CarriedRealises(s: StateSnapshot, c: GroundedSkillCall, zone: ZoneId)
    requires IsSymbolic(c) && IsGrounded(zone, s, c)
    ensures Agrees(PROJECTION, Project(s) + Adds(c) - Deletes(c), Project(Carried(s, c)))
  {
    hide Project, WithBox;
    SuccessorView(s, {}, c);
    assert Project(s) + {} == Project(s);
    ProjectIsMonitored(Carried(s, c));
    if c.skill != GotoPushPose {
      DeliveryProjects(s, c.box.value, FindBox(s.boxes, c.box.value).value.position);
    }
  }

  /** From every snapshot with a delivery zone there is one. */
  lemma CooperativeEnvironmentExists(s: StateSnapshot, zone: ZoneId)
    requires zone != "" && s.world.deliveryZone != []
    ensures Cooperative(ObligingEnvironment(s), FromSnapshot(s, zone), 1)
  {
    hide Project, Carried;
    var env, u := ObligingEnvironment(s), FromSnapshot(s, zone);
    forall n: nat, h: BoxPushLog | Genuine(env, h)
      ensures Shows(u, h, env.exportState(n, h))
    {
      CarriedKeepsIdentities(s, h);
    }
    forall n: nat, h: BoxPushLog, c: GroundedSkillCall | Genuine(env, h) && Due(u.zone, env.exportState(n, h), h, c)
      ensures Realises(env.exportState(n, h), c, 1, env.executeSkill(h, c))
    {
      CarriedRealises(CarriedAll(s, h), c, zone);
    }
  }

  // ---------------------------------------------------------------------------------------------
  // The planner column is the planner
  // ---------------------------------------------------------------------------------------------

  ghost function ExactPlan(m: Mission, b: BeliefState): PlannerResult<GroundedSkillCall>
  {
    ExactAnswer(Instance(b.State(), m.task.goalDelivered, m.calls))
  }

  /** A function with the planner's whole promise exists. */
  lemma PlansExist(m: Mission) returns (plan: BoxPushPlanner)
    requires ValidMission(m)
    ensures PlansFor(m, plan) && forall b, s :: plan(b, s) == ExactPlan(m, b)
  {
    hide Correct, IsGrounding;
    SkillsAreValid();
    plan := (b: BeliefState, s: StateSnapshot) => ExactPlan(m, b);
    forall b: BeliefState, s: StateSnapshot | FromSnapshot(s, m.task.zone) == m.u
      ensures PlannerCorrect(DOMAIN_IR, b.State(), GoalSet(m.task.goalDelivered), m.u, m.key, m.nodeBudget, plan(b, s))
    {
      ExactPlanIsCorrect(m, b);
    }
  }

  lemma ExactPlanIsCorrect(m: Mission, b: BeliefState)
    requires ValidMission(m)
    ensures ValidDomain(DOMAIN_IR)
    ensures PlannerCorrect(DOMAIN_IR, b.State(), GoalSet(m.task.goalDelivered), m.u, m.key,
              m.nodeBudget, ExactPlan(m, b))
  {
    SkillsAreValid();
    GroundingIsTotal(m.u);
    var p := Instance(b.State(), m.task.goalDelivered, m.calls);
    if GoalSet(m.task.goalDelivered) <= b.State() {
      assert IsPlan(p, []);
      LeastPlanUnique(p, [], ExactAnswer(p).plan);
    }
    forall calls | IsGrounding(DOMAIN_IR, m.u, m.key, calls)
      ensures calls == m.calls
    {
      SortedIsUnique(m.key, calls, m.calls);
    }
  }

  /** And it is the only one: any planner column is what the planner method returns. */
  method ServePlan(m: Mission, ghost plan: BoxPushPlanner, b: BeliefState, s: StateSnapshot)
    returns (r: PlannerResult<GroundedSkillCall>)
    requires ValidMission(m) && PlansFor(m, plan) && FromSnapshot(s, m.task.zone) == m.u
    ensures r == plan(b, s)
  {
    SkillsAreValid();
    r := Plan(DOMAIN_IR, b.State(), GoalSetOf(m.task), FromSnapshot(s, m.task.zone), m.key, m.nodeBudget);
    AnswersAgree(m, b, r);
    AnswersAgree(m, b, plan(b, s));
  }

  function GoalSetOf(t: Task): (goal: set<Literal>)
    ensures goal == GoalSet(t.goalDelivered)
  {
    GoalLiterals(t)
  }

  lemma AnswersAgree(m: Mission, b: BeliefState, r: PlannerResult<GroundedSkillCall>)
    requires ValidMission(m) && ValidDomain(DOMAIN_IR)
    requires PlannerCorrect(DOMAIN_IR, b.State(), GoalSet(m.task.goalDelivered), m.u, m.key, m.nodeBudget, r)
    ensures r == ExactPlan(m, b)
  {
    hide PlannerCorrect, Lists, Fluents;
    GroundingIsTotal(m.u);
    FluentsListTheTouched(m.u, m.key, m.calls);
    AdequateFor(DOMAIN_IR, b.State(), GoalSet(m.task.goalDelivered), m.u, m.key, m.calls,
      Fluents(m.u.agents, m.u.boxes), m.nodeBudget, r);
  }

  // ---------------------------------------------------------------------------------------------
  // All together
  // ---------------------------------------------------------------------------------------------

  /**
    For every task whose boxes a snapshot with a delivery zone knows, and every configuration and
    policy, there is a run that meets all hypotheses of the end-to-end results.
  */
  lemma CooperativeRunExists(task: Task, s: StateSnapshot, config: OrchestrationConfig, policy: Policy,
    worldKey: StateSnapshot -> string) returns (m: Mission, su: BoxPushSetup)
    requires s.world.deliveryZone != [] && forall b :: b in task.goalDelivered ==> FindBox(s.boxes, b).Some?
    ensures IsCooperativeRun(m, su, 1) && m.task == task
    ensures su.config == config && su.policy == policy && su.worldKey == worldKey
    ensures WorldKey(su.env.exportState(0, [])) == WorldKey(s)
  {
    hide Cooperative, PlansFor;
    var u := FromSnapshot(s, task.zone);
    KeyTextIsFaithful();
    var calls := GroundingExists(u, KeyText);
    m := Mission(task, u, KeyText, calls, Power(|u.boxes| * (2 + |u.agents|)));
    var plan := PlansExist(m);
    CooperativeEnvironmentExists(s, task.zone);
    su := Compose(task, plan, ObligingEnvironment(s), config, policy, worldKey, None);
  }
}
