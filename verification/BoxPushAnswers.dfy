/** What the planner answers on BoxPush: exact lengths, unsolvable instances, and an adequate node budget. */
module BoxPushAnswers {
  import opened Common
  import opened Skills
  import opened SkillIR
  import opened Snapshots
  import opened Search
  import opened Planner
  import opened StateSpace
  import opened BoxPush
  import opened BoxPushPlanning

  const NODE_BUDGET := 100_000

  // ---------------------------------------------------------------------------------------------
  // Projected states
  // ---------------------------------------------------------------------------------------------

  /** A projection plus any tracked literals is a consistent state of the snapshot's own universe. */
  lemma ProjectionIsConsistent(s: StateSnapshot, tracked: SymbolicState, zone: ZoneId)
    requires zone != "" && OnlyTracked(PROJECTION, tracked)
    ensures Consistent(Project(s) + tracked, FromSnapshot(s, zone))
  {
    var u := FromSnapshot(s, zone);
    forall b | b in u.boxes
      ensures BoxConsistent(Project(s) + tracked, b)
    {
      ProjectMeaning(s, b);
    }
    forall a, o | a in u.agents && o in u.agents
      ensures DifferentOf(a, o) in Project(s) + tracked <==> a != o
    {
      ProjectDifferent(s, a, o);
    }
  }

  ghost function LightLeft(s: SymbolicState, goal: seq<BoxId>): nat
  {
    if goal == [] then 0
    else (if DeliveredOf(goal[0]) !in s && LightOf(goal[0]) in s then 1 else 0) + LightLeft(s, goal[1..])
  }

  ghost function HeavyLeft(s: SymbolicState, goal: seq<BoxId>): nat
  {
    if goal == [] then 0
    else (if DeliveredOf(goal[0]) !in s && LightOf(goal[0]) !in s then 1 else 0) + HeavyLeft(s, goal[1..])
  }

  ghost predicate NobodyPosed(s: SymbolicState, u: Universe)
  {
    forall a, b :: a in u.agents ==> InPoseOf(a, b) !in s
  }

  /** With nobody in pose the cost is two calls per light and three per heavy undelivered goal box. */
  lemma {:induction false} CostWithoutPoses(s: SymbolicState, u: Universe, goal: seq<BoxId>)
    requires NobodyPosed(s, u)
    ensures Cost(s, u, goal) == 2 * LightLeft(s, goal) + 3 * HeavyLeft(s, goal)
  {
    if goal != [] {
      assert Posed(s, u, goal[0]) == {};
      CostWithoutPoses(s, u, goal[1..]);
    }
  }

  lemma {:induction false} LeftCounts(s: SymbolicState, goal: seq<BoxId>)
    ensures HeavyLeft(s, goal) > 0 <==> exists b :: b in goal && DeliveredOf(b) !in s && LightOf(b) !in s
    ensures LightLeft(s, goal) > 0 <==> exists b :: b in goal && DeliveredOf(b) !in s && LightOf(b) in s
  {
    if goal != [] {
      LeftCounts(s, goal[1..]);
      assert goal == [goal[0]] + goal[1..];
    }
  }

  /**
    Planning from a projection with nobody in pose: solvable exactly when nothing is left, or there is
    an agent, and two of them if a heavy box is left; the plan then has 2 per light plus 3 per heavy.
  */
  lemma InitialClosedForm(
    s: SymbolicState, u: Universe, goal: seq<BoxId>, key: GroundedSkillCall -> string, calls: seq<GroundedSkillCall>)
    requires IsInstance(s, u, goal, key, calls) && NobodyPosed(s, u)
    ensures (exists path :: IsPlan(Instance(s, goal, calls), path)) <==>
            (LightLeft(s, goal) > 0 ==> |u.agents| >= 1) && (HeavyLeft(s, goal) > 0 ==> |u.agents| >= 2)
    ensures forall path :: LeastPlan(Instance(s, goal, calls), path) ==>
            |path| == 2 * LightLeft(s, goal) + 3 * HeavyLeft(s, goal)
  {
    ClosedForm(s, u, goal, key, calls);
    CostWithoutPoses(s, u, goal);
    LeftCounts(s, goal);
  }

  // ---------------------------------------------------------------------------------------------
  // An adequate node budget
  // ---------------------------------------------------------------------------------------------

  ghost function PoseFluents(agents: seq<AgentId>, b: BoxId): seq<Literal>
  {
    seq(|agents|, i requires 0 <= i < |agents| => InPoseOf(agents[i], b))
  }

  ghost function BoxFluents(agents: seq<AgentId>, b: BoxId): seq<Literal>
  {
    [DeliveredOf(b), PendingOf(b)] + PoseFluents(agents, b)
  }

  /** Every literal that some call of the universe can add or delete. */
  ghost function Fluents(agents: seq<AgentId>, boxes: seq<BoxId>): seq<Literal>
  {
    if boxes == [] then [] else BoxFluents(agents, boxes[0]) + Fluents(agents, boxes[1..])
  }

  lemma {:induction false} FluentCount(agents: seq<AgentId>, boxes: seq<BoxId>)
    ensures |Fluents(agents, boxes)| == |boxes| * (2 + |agents|)
  {
    if boxes != [] { FluentCount(agents, boxes[1..]); }
  }

  lemma {:induction false} FluentsOfBox(agents: seq<AgentId>, boxes: seq<BoxId>, b: BoxId, l: Literal)
    requires b in boxes && l in BoxFluents(agents, b)
    ensures l in Fluents(agents, boxes)
  {
    if boxes[0] != b { FluentsOfBox(agents, boxes[1..], b, l); }
  }

  lemma StepTouchesFluents(u: Universe, c: GroundedSkillCall)
    requires IsSymbolic(c) && GroundableAs(c.skill, u, c)
    ensures forall l :: l in Adds(c) + Deletes(c) ==> l in Fluents(u.agents, u.boxes)
  {
    var b := c.box.value;
    forall l | l in Adds(c) + Deletes(c)
      ensures l in Fluents(u.agents, u.boxes)
    {
      assert BoxFluents(u.agents, b)[0] == DeliveredOf(b) && BoxFluents(u.agents, b)[1] == PendingOf(b);
      if l.name == InPose {
        var k :| 0 <= k < |c.agents| && l == InPoseOf(c.agents[k], b);
        var i :| 0 <= i < |u.agents| && u.agents[i] == c.agents[k];
        assert BoxFluents(u.agents, b)[2 + i] == PoseFluents(u.agents, b)[i] == l;
      }
      FluentsOfBox(u.agents, u.boxes, b, l);
    }
  }

  /** The fluents list everything that planning over this universe can change. */
  lemma FluentsListTheTouched(u: Universe, key: GroundedSkillCall -> string, calls: seq<GroundedSkillCall>)
    requires IsGrounding(DOMAIN_IR, u, key, calls)
    ensures ValidDomain(DOMAIN_IR) && Lists(DOMAIN_IR, calls, Fluents(u.agents, u.boxes))
    ensures |Fluents(u.agents, u.boxes)| == |u.boxes| * (2 + |u.agents|)
  {
    SkillsAreValid();
    FluentCount(u.agents, u.boxes);
    forall c, l | c in calls && l in Mentioned(DOMAIN_IR, c)
      ensures l in Fluents(u.agents, u.boxes)
    {
      GroundableIsSymbolic(u, c);
      MentionedShape(c);
      StepTouchesFluents(u, c);
    }
  }

  lemma MentionedShape(c: GroundedSkillCall)
    requires IsSymbolic(c)
    ensures ValidDomain(DOMAIN_IR) && Mentioned(DOMAIN_IR, c) == Adds(c) + Deletes(c)
  {
    hide GroundEffects, EffectList, Added, Deleted, Adds, Deletes, ValidDomain, ValidSkill;
    SkillsAreValid();
    Resolved();
    GroundingShape(c);
    EffectsShape(c);
    assert IrOf(c) == Resolve(DOMAIN_IR, c.skill).value;
  }

  lemma SixteenFluentsFit()
    ensures Power(16) <= NODE_BUDGET
  {
    assert Power(4) == 16;
    assert Power(8) == 256;
    assert Power(12) == 4096;
  }

  /**
    The planner on BoxPush decides solvability: on any consistent instance with at most sixteen
    fluents (the frozen one has eight) and the default budget it never fails, finds a plan exactly
    when the instance is solvable, and the plan has exactly `Cost` calls.
  */
  lemma PlannerDecides(s: SymbolicState, u: Universe, goal: seq<BoxId>, key: GroundedSkillCall -> string,
    calls: seq<GroundedSkillCall>, budget: int, r: PlannerResult<GroundedSkillCall>)
    requires IsInstance(s, u, goal, key, calls) && Faithful(key)
    requires ValidDomain(DOMAIN_IR) && PlannerCorrect(DOMAIN_IR, s, GoalSet(goal), u, key, budget, r)
    requires Power(|u.boxes| * (2 + |u.agents|)) <= budget
    ensures r == ExactAnswer(Instance(s, goal, calls))
    ensures r.PlanFound? <==> Solvable(s, u, goal)
    ensures r.PlanFound? ==> |r.plan| == Cost(s, u, goal)
  {
    hide Cost, Solvable, Fluents, Lists;
    GroundingIsTotal(u);
    FluentsListTheTouched(u, key, calls);
    AdequateFor(DOMAIN_IR, s, GoalSet(goal), u, key, calls, Fluents(u.agents, u.boxes), budget, r);
    ClosedForm(s, u, goal, key, calls);
    if r.PlanFound? { assert IsPlan(Instance(s, goal, calls), r.plan); }
  }

  lemma GroundingIsTotal(u: Universe)
    requires Distinct(u.agents)
    ensures !GroundingRaises(DOMAIN_IR, u)
  {
    assert forall i :: 0 <= i < |DOMAIN_IR| ==> TakesBoxAndZone(DOMAIN_IR[i].name);
  }

  /** The frozen universe, two agents and two boxes, is far inside the default budget. */
  lemma FrozenInstanceNeverTimesOut(s: SymbolicState, u: Universe, goal: seq<BoxId>, key: GroundedSkillCall -> string,
    calls: seq<GroundedSkillCall>, r: PlannerResult<GroundedSkillCall>)
    requires IsInstance(s, u, goal, key, calls) && Faithful(key) && |u.boxes| * (2 + |u.agents|) <= 16
    requires ValidDomain(DOMAIN_IR) && PlannerCorrect(DOMAIN_IR, s, GoalSet(goal), u, key, NODE_BUDGET, r)
    ensures r.PlanFound? <==> Solvable(s, u, goal)
    ensures r.NoPlan? <==> !Solvable(s, u, goal)
  {
    PowerMonotone(|u.boxes| * (2 + |u.agents|), 16);
    SixteenFluentsFit();
    PlannerDecides(s, u, goal, key, calls, NODE_BUDGET, r);
  }

  /** The synthetic one-agent instance with a pending heavy box is answered `NoPlan`. */
  lemma SyntheticInstanceHasNoPlan(agent: AgentId, zone: ZoneId, key: GroundedSkillCall -> string,
    calls: seq<GroundedSkillCall>, r: PlannerResult<GroundedSkillCall>)
    requires agent != "" && zone != "" && Faithful(key)
    requires IsGrounding(DOMAIN_IR, Universe([agent], [0], zone), key, calls) && ValidDomain(DOMAIN_IR)
    requires PlannerCorrect(DOMAIN_IR, {DiscoveredOf(0), PendingOf(0), HeavyOf(0)}, {DeliveredOf(0)},
      Universe([agent], [0], zone), key, NODE_BUDGET, r)
    ensures r == NoPlan
  {
    var s := {DiscoveredOf(0), PendingOf(0), HeavyOf(0)};
    var u := Universe([agent], [0], zone);
    assert GoalSet([0]) == {DeliveredOf(0)};
    assert DeliveredOf(0) !in s && LightOf(0) !in s && 0 in [0];
    assert !Solvable(s, u, [0]);
    FrozenInstanceNeverTimesOut(s, u, [0], key, calls, r);
  }
}
