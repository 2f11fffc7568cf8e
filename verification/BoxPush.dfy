/** The frozen BoxPush V1 domain: three skill models, the projection and the task (domain/box_push_v1.py). */
module BoxPush {
  import opened Common
  import opened Skills
  import opened SkillIR
  import opened Snapshots

  function DiscoveredOf(b: BoxId): (l: Literal)
    ensures l.name == Discovered && |l.args| == 1 && l.args[0] == BoxValue(b)
  {
    Literal(Discovered, [BoxValue(b)])
  }

  function DeliveredOf(b: BoxId): (l: Literal)
    ensures l.name == Delivered && |l.args| == 1 && l.args[0] == BoxValue(b)
  {
    Literal(Delivered, [BoxValue(b)])
  }

  function PendingOf(b: BoxId): (l: Literal)
    ensures l.name == Pending && |l.args| == 1 && l.args[0] == BoxValue(b)
  {
    Literal(Pending, [BoxValue(b)])
  }

  function LightOf(b: BoxId): (l: Literal)
    ensures l.name == Light && |l.args| == 1 && l.args[0] == BoxValue(b)
  {
    Literal(Light, [BoxValue(b)])
  }

  function HeavyOf(b: BoxId): (l: Literal)
    ensures l.name == Heavy && |l.args| == 1 && l.args[0] == BoxValue(b)
  {
    Literal(Heavy, [BoxValue(b)])
  }

  function InPoseOf(a: AgentId, b: BoxId): (l: Literal)
    ensures l.name == InPose && |l.args| == 2 && l.args[0] == AgentValue(a) && l.args[1] == BoxValue(b)
  {
    Literal(InPose, [AgentValue(a), BoxValue(b)])
  }

  function DifferentOf(a: AgentId, b: AgentId): (l: Literal)
    ensures l.name == Different && |l.args| == 2 && l.args[0] == AgentValue(a) && l.args[1] == AgentValue(b)
  {
    Literal(Different, [AgentValue(a), AgentValue(b)])
  }

  // ---------------------------------------------------------------------------------------------
  // The frozen skill models
  // ---------------------------------------------------------------------------------------------

  const GOTO_PUSH_POSE := Skill(
    GotoPushPose, [VarAgent, VarBox, VarZone],
    [Lifted(Discovered, [VarBox]), Lifted(Pending, [VarBox])],
    [Effect(Lifted(InPose, [VarAgent, VarBox]), true)])

  const PUSH := Skill(
    Push, [VarAgent, VarBox, VarZone],
    [Lifted(InPose, [VarAgent, VarBox]), Lifted(Light, [VarBox]), Lifted(Pending, [VarBox])],
    [ Effect(Lifted(Delivered, [VarBox]), true), Effect(Lifted(Pending, [VarBox]), false),
      Effect(Lifted(InPose, [VarAgent, VarBox]), false)])

  const COOPERATIVE_PUSH := Skill(
    CooperativePush, [VarAgent1, VarAgent2, VarBox, VarZone],
    [ Lifted(Different, [VarAgent1, VarAgent2]), Lifted(Heavy, [VarBox]),
      Lifted(InPose, [VarAgent1, VarBox]), Lifted(InPose, [VarAgent2, VarBox]), Lifted(Pending, [VarBox])],
    [ Effect(Lifted(Delivered, [VarBox]), true), Effect(Lifted(Pending, [VarBox]), false),
      Effect(Lifted(InPose, [VarAgent1, VarBox]), false), Effect(Lifted(InPose, [VarAgent2, VarBox]), false)])

  const DOMAIN_IR: seq<Skill> := [GOTO_PUSH_POSE, PUSH, COOPERATIVE_PUSH]

  const PROJECTION := Projection({Discovered, Delivered, Pending, Light, Heavy, Different}, {InPose})

  lemma GotoIsValid()
    ensures ValidSkill(GOTO_PUSH_POSE)
  {
  }

  lemma PushIsValid()
    ensures ValidSkill(PUSH)
  {
  }

  lemma CooperativePushIsValid()
    ensures ValidSkill(COOPERATIVE_PUSH)
  {
  }

  lemma SkillsAreValid()
    ensures ValidDomain(DOMAIN_IR)
  {
    GotoIsValid();
    PushIsValid();
    CooperativePushIsValid();
  }

  lemma Resolved()
    ensures Resolve(DOMAIN_IR, GotoPushPose) == Some(GOTO_PUSH_POSE)
    ensures Resolve(DOMAIN_IR, Push) == Some(PUSH)
    ensures Resolve(DOMAIN_IR, CooperativePush) == Some(COOPERATIVE_PUSH)
    ensures Resolve(DOMAIN_IR, Explore) == Resolve(DOMAIN_IR, Wait) == None
  {
    assert DOMAIN_IR[0] == GOTO_PUSH_POSE && DOMAIN_IR[1] == PUSH && DOMAIN_IR[2] == COOPERATIVE_PUSH;
  }

  // ---------------------------------------------------------------------------------------------
  // What the models say of a grounded call
  // ---------------------------------------------------------------------------------------------

  predicate IsSymbolic(c: GroundedSkillCall)
  {
    c.skill in {GotoPushPose, Push, CooperativePush}
  }

  /** The literals a call's preconditions demand, in declaration order. */
  function PreconditionList(c: GroundedSkillCall): seq<Literal>
    requires IsSymbolic(c)
  {
    var b := c.box.value;
    if c.skill == GotoPushPose then [DiscoveredOf(b), PendingOf(b)]
    else if c.skill == Push then [InPoseOf(c.agents[0], b), LightOf(b), PendingOf(b)]
    else
      [DifferentOf(c.agents[0], c.agents[1]), HeavyOf(b), InPoseOf(c.agents[0], b), InPoseOf(c.agents[1], b),
       PendingOf(b)]
  }

  function Preconditions(c: GroundedSkillCall): set<Literal>
    requires IsSymbolic(c)
  {
    set i | 0 <= i < |PreconditionList(c)| :: PreconditionList(c)[i]
  }

  function EffectList(c: GroundedSkillCall): seq<GroundEffect>
    requires IsSymbolic(c)
  {
    var b := c.box.value;
    if c.skill == GotoPushPose then [GroundEffect(InPoseOf(c.agents[0], b), true)]
    else if c.skill == Push then
      [GroundEffect(DeliveredOf(b), true), GroundEffect(PendingOf(b), false),
        GroundEffect(InPoseOf(c.agents[0], b), false)]
    else
      [GroundEffect(DeliveredOf(b), true), GroundEffect(PendingOf(b), false),
        GroundEffect(InPoseOf(c.agents[0], b), false),
       GroundEffect(InPoseOf(c.agents[1], b), false)]
  }

  function Adds(c: GroundedSkillCall): set<Literal>
    requires IsSymbolic(c)
  {
    if c.skill == GotoPushPose then {InPoseOf(c.agents[0], c.box.value)} else {DeliveredOf(c.box.value)}
  }

  function Deletes(c: GroundedSkillCall): set<Literal>
    requires IsSymbolic(c)
  {
    var b := c.box.value;
    if c.skill == GotoPushPose then {}
    else if c.skill == Push then {PendingOf(b), InPoseOf(c.agents[0], b)}
    else {PendingOf(b), InPoseOf(c.agents[0], b), InPoseOf(c.agents[1], b)}
  }

  function IrOf(c: GroundedSkillCall): (ir: Skill)
    requires IsSymbolic(c)
    ensures ValidSkill(ir) && ir.name == c.skill
  {
    GotoIsValid();
    PushIsValid();
    CooperativePushIsValid();
    if c.skill == GotoPushPose then GOTO_PUSH_POSE else if c.skill == Push then PUSH else COOPERATIVE_PUSH
  }

  /** Binding gives every declared variable the identity it names. */
  lemma BindOneAgent(ir: Skill, c: GroundedSkillCall)
    requires IsSymbolic(c) && ir == IrOf(c) && c.skill != CooperativePush
    ensures ir.parameters == [VarAgent, VarBox, VarZone]
    ensures Bind(ir, c, VarAgent) == AgentValue(c.agents[0])
    ensures Bind(ir, c, VarBox) == BoxValue(c.box.value)
  {
    assert ir.parameters[0] == VarAgent && ir.parameters[1] == VarBox && ir.parameters[2] == VarZone;
  }

  lemma BindAgentPair(ir: Skill, c: GroundedSkillCall)
    requires IsSymbolic(c) && ir == IrOf(c) && c.skill == CooperativePush
    ensures ir.parameters == [VarAgent1, VarAgent2, VarBox, VarZone]
    ensures Bind(ir, c, VarAgent1) == AgentValue(c.agents[0])
    ensures Bind(ir, c, VarAgent2) == AgentValue(c.agents[1])
    ensures Bind(ir, c, VarBox) == BoxValue(c.box.value)
  {
    assert ir.parameters[0] == VarAgent1 && ir.parameters[1] == VarAgent2 && ir.parameters[2] == VarBox;
  }

  lemma GroundUnary(ir: Skill, c: GroundedSkillCall, name: PredicateName, v: Variable)
    requires ValidSkill(ir) && ir.name == c.skill && v in ir.parameters
    ensures Ground(ir, c, Lifted(name, [v])) == Literal(name, [Bind(ir, c, v)])
  {
  }

  lemma GroundBinary(ir: Skill, c: GroundedSkillCall, name: PredicateName, v: Variable, w: Variable)
    requires ValidSkill(ir) && ir.name == c.skill && v in ir.parameters && w in ir.parameters
    ensures Ground(ir, c, Lifted(name, [v, w])) == Literal(name, [Bind(ir, c, v), Bind(ir, c, w)])
  {
  }

  lemma GotoGround(c: GroundedSkillCall)
    requires c.skill == GotoPushPose
    ensures GroundPreconditions(IrOf(c), c) == PreconditionList(c)
    ensures GroundEffects(IrOf(c), c) == EffectList(c)
  {
    var ir := IrOf(c);
    BindOneAgent(ir, c);
    GroundUnary(ir, c, Discovered, VarBox);
    GroundUnary(ir, c, Pending, VarBox);
    GroundBinary(ir, c, InPose, VarAgent, VarBox);
  }

  lemma PushGround(c: GroundedSkillCall)
    requires c.skill == Push
    ensures GroundPreconditions(IrOf(c), c) == PreconditionList(c)
    ensures GroundEffects(IrOf(c), c) == EffectList(c)
  {
    var ir := IrOf(c);
    BindOneAgent(ir, c);
    GroundUnary(ir, c, Light, VarBox);
    GroundUnary(ir, c, Pending, VarBox);
    GroundUnary(ir, c, Delivered, VarBox);
    GroundBinary(ir, c, InPose, VarAgent, VarBox);
  }

  lemma CooperativePushPreconditions(c: GroundedSkillCall)
    requires c.skill == CooperativePush
    ensures GroundPreconditions(IrOf(c), c) == PreconditionList(c)
  {
    var ir := IrOf(c);
    BindAgentPair(ir, c);
    GroundBinary(ir, c, Different, VarAgent1, VarAgent2);
    GroundUnary(ir, c, Heavy, VarBox);
    GroundBinary(ir, c, InPose, VarAgent1, VarBox);
    GroundBinary(ir, c, InPose, VarAgent2, VarBox);
    GroundUnary(ir, c, Pending, VarBox);
  }

  lemma CooperativePushEffects(c: GroundedSkillCall)
    requires c.skill == CooperativePush
    ensures GroundEffects(IrOf(c), c) == EffectList(c)
  {
    var ir := IrOf(c);
    BindAgentPair(ir, c);
    GroundUnary(ir, c, Delivered, VarBox);
    GroundUnary(ir, c, Pending, VarBox);
    GroundBinary(ir, c, InPose, VarAgent1, VarBox);
    GroundBinary(ir, c, InPose, VarAgent2, VarBox);
  }

  /** Grounding the frozen models through the positional binding gives exactly these lists. */
  lemma GroundingShape(c: GroundedSkillCall)
    requires IsSymbolic(c)
    ensures GroundPreconditions(IrOf(c), c) == PreconditionList(c)
    ensures GroundEffects(IrOf(c), c) == EffectList(c)
  {
    if c.skill == GotoPushPose {
      GotoGround(c);
    } else if c.skill == Push {
      PushGround(c);
    } else {
      CooperativePushPreconditions(c);
      CooperativePushEffects(c);
    }
  }

  /** The effect list adds `Adds` and deletes `Deletes`, and no literal is in both. */
  lemma EffectsShape(c: GroundedSkillCall)
    requires IsSymbolic(c)
    ensures Added(EffectList(c)) == Adds(c) && Deleted(EffectList(c)) == Deletes(c)
    ensures Adds(c) !! Deletes(c)
  {
    var e := EffectList(c);
    assert e[0].literal in Added(e);
    if c.skill == Push {
      assert e[1].literal in Deleted(e) && e[2].literal in Deleted(e);
    } else if c.skill == CooperativePush {
      assert e[1].literal in Deleted(e) && e[2].literal in Deleted(e) && e[3].literal in Deleted(e);
    }
  }

  /** The frozen models never add and delete one literal, so the successor is add-then-delete. */
  lemma SuccessorShape(state: SymbolicState, c: GroundedSkillCall)
    requires IsSymbolic(c)
    ensures Apply(state, GroundEffects(IrOf(c), c)) == state + Adds(c) - Deletes(c)
  {
    GroundingShape(c);
    EffectsShape(c);
    ApplyIsAddThenDelete(state, EffectList(c));
  }

  /** A symbolic call is validated exactly when its precondition literals hold; others are outside. */
  lemma EvaluateShape(state: SymbolicState, c: GroundedSkillCall)
    ensures ValidDomain(DOMAIN_IR)
    ensures Evaluate(DOMAIN_IR, state, c) ==
            if !IsSymbolic(c) then OutsideSymbolicModel
            else if Preconditions(c) <= state then ValidatedCall else SymbolicallyInapplicable
  {
    SkillsAreValid();
    Resolved();
    if IsSymbolic(c) {
      GroundingShape(c);
      assert IrOf(c) == Resolve(DOMAIN_IR, c.skill).value;
      assert forall l :: l in Preconditions(c) ==> l in PreconditionList(c);
      assert forall i :: 0 <= i < |PreconditionList(c)| ==> PreconditionList(c)[i] in Preconditions(c);
    }
  }

  // ---------------------------------------------------------------------------------------------
  // The projection
  // ---------------------------------------------------------------------------------------------

  /** What the projection says about one box. Every box is discovered from the start. */
  function BoxFacts(b: BoxSnapshot): SymbolicState
  {
    {DiscoveredOf(b.id), if b.delivered then DeliveredOf(b.id) else PendingOf(b.id),
     if b.required > 1 then HeavyOf(b.id) else LightOf(b.id)}
  }

  function BoxPart(boxes: seq<BoxSnapshot>): SymbolicState
  {
    set b, l | b in boxes && l in BoxFacts(b) :: l
  }

  function DifferentFrom(a: AgentSnapshot, others: seq<AgentSnapshot>): SymbolicState
  {
    set o | o in others && a.id != o.id :: DifferentOf(a.id, o.id)
  }

  function AgentPart(agents: seq<AgentSnapshot>, others: seq<AgentSnapshot>): SymbolicState
  {
    set a, o | a in agents && o in others && a.id != o.id :: DifferentOf(a.id, o.id)
  }

  /** The literals a snapshot shows by inspection; no position, wall or zone cell is read. */
  function Project(s: StateSnapshot): SymbolicState
  {
    BoxPart(s.boxes) + AgentPart(s.agents, s.agents)
  }

  /** A literal about one box is projected exactly when it is among that box's facts. */
  lemma ProjectBox(s: StateSnapshot, b: BoxId, l: Literal)
    requires |l.args| == 1 && l.args[0] == BoxValue(b)
    ensures l in Project(s) <==> FindBox(s.boxes, b).Some? && l in BoxFacts(FindBox(s.boxes, b).value)
  {
    assert l !in AgentPart(s.agents, s.agents);
    forall x | x in s.boxes && l in BoxFacts(x)
      ensures FindBox(s.boxes, b) == Some(x)
    {
      BoxIsUnique(s, x);
    }
  }

  lemma BoxFactsMeaning(b: BoxSnapshot)
    ensures DiscoveredOf(b.id) in BoxFacts(b)
    ensures DeliveredOf(b.id) in BoxFacts(b) <==> b.delivered
    ensures PendingOf(b.id) in BoxFacts(b) <==> !b.delivered
    ensures HeavyOf(b.id) in BoxFacts(b) <==> b.required > 1
    ensures LightOf(b.id) in BoxFacts(b) <==> b.required <= 1
  {
  }

  /** What the projected literals mean, box by box and agent by agent. */
  lemma ProjectMeaning(s: StateSnapshot, b: BoxId)
    ensures DiscoveredOf(b) in Project(s) <==> FindBox(s.boxes, b).Some?
    ensures DeliveredOf(b) in Project(s) <==> FindBox(s.boxes, b).Some? && FindBox(s.boxes, b).value.delivered
    ensures PendingOf(b) in Project(s) <==> FindBox(s.boxes, b).Some? && !FindBox(s.boxes, b).value.delivered
    ensures HeavyOf(b) in Project(s) <==> FindBox(s.boxes, b).Some? && FindBox(s.boxes, b).value.required > 1
    ensures LightOf(b) in Project(s) <==> FindBox(s.boxes, b).Some? && FindBox(s.boxes, b).value.required <= 1
  {
    var found := FindBox(s.boxes, b);
    if found.Some? { BoxFactsMeaning(found.value); }
    ProjectBox(s, b, DiscoveredOf(b));
    ProjectBox(s, b, DeliveredOf(b));
    ProjectBox(s, b, PendingOf(b));
    ProjectBox(s, b, HeavyOf(b));
    ProjectBox(s, b, LightOf(b));
  }

  lemma ProjectDifferent(s: StateSnapshot, a: AgentId, o: AgentId)
    ensures DifferentOf(a, o) in Project(s) <==>
            a != o && FindAgent(s.agents, a).Some? && FindAgent(s.agents, o).Some?
  {
    if a != o && FindAgent(s.agents, a).Some? && FindAgent(s.agents, o).Some? {
      var x, y := FindAgent(s.agents, a).value, FindAgent(s.agents, o).value;
      assert DifferentOf(x.id, y.id) in Project(s);
    }
  }

  /** Nothing executive-tracked is ever projected, so the monitored view of a projection is itself. */
  lemma ProjectIsMonitored(s: StateSnapshot)
    ensures MonitoredView(PROJECTION, Project(s)) == Project(s)
  {
  }

  lemma BoxPartAppend(boxes: seq<BoxSnapshot>, b: BoxSnapshot)
    ensures BoxPart(boxes + [b]) == BoxPart(boxes) + BoxFacts(b)
  {
  }

  lemma AgentPartAppend(agents: seq<AgentSnapshot>, a: AgentSnapshot, others: seq<AgentSnapshot>)
    ensures AgentPart(agents + [a], others) == AgentPart(agents, others) + DifferentFrom(a, others)
  {
  }

  lemma DifferentFromAppend(a: AgentSnapshot, others: seq<AgentSnapshot>, o: AgentSnapshot)
    ensures DifferentFrom(a, others + [o]) ==
            DifferentFrom(a, others) + if a.id != o.id then {DifferentOf(a.id, o.id)} else {}
  {
  }

  /** The source's loops over boxes and agent pairs. */
  method ProjectLoop(s: StateSnapshot) returns (literals: SymbolicState)
    ensures literals == Project(s)
  {
    var boxLiterals := BoxLoop(s.boxes);
    var agentLiterals := {};
    for i := 0 to |s.agents|
      invariant agentLiterals == AgentPart(s.agents[..i], s.agents)
    {
      var different := DifferentFromLoop(s.agents[i], s.agents);
      AgentPartAppend(s.agents[..i], s.agents[i], s.agents);
      assert s.agents[..i + 1] == s.agents[..i] + [s.agents[i]];
      agentLiterals := agentLiterals + different;
    }
    assert s.agents[..|s.agents|] == s.agents;
    literals := boxLiterals + agentLiterals;
  }

  method BoxLoop(boxes: seq<BoxSnapshot>) returns (literals: SymbolicState)
    ensures literals == BoxPart(boxes)
  {
    literals := {};
    for i := 0 to |boxes|
      invariant literals == BoxPart(boxes[..i])
    {
      BoxPartAppend(boxes[..i], boxes[i]);
      assert boxes[..i + 1] == boxes[..i] + [boxes[i]];
      literals := literals + BoxFacts(boxes[i]);
    }
    assert boxes[..|boxes|] == boxes;
  }

  method DifferentFromLoop(a: AgentSnapshot, others: seq<AgentSnapshot>) returns (literals: SymbolicState)
    ensures literals == DifferentFrom(a, others)
  {
    literals := {};
    for k := 0 to |others|
      invariant literals == DifferentFrom(a, others[..k])
    {
      DifferentFromAppend(a, others[..k], others[k]);
      assert others[..k + 1] == others[..k] + [others[k]];
      if a.id != others[k].id {
        literals := literals + {DifferentOf(a.id, others[k].id)};
      }
    }
    assert others[..|others|] == others;
  }

  // ---------------------------------------------------------------------------------------------
  // The task
  // ---------------------------------------------------------------------------------------------

  datatype TaskRecord = Task(goalDelivered: seq<BoxId>, zone: ZoneId)

  /** The constructor sorts and de-duplicates the goal boxes and demands at least one. */
  type Task = t: TaskRecord | t.goalDelivered != [] && t.zone != "" && Distinct(t.goalDelivered)
    witness Task([0], "zone")

  function GoalLiterals(t: Task): set<Literal>
  {
    set b | b in t.goalDelivered :: DeliveredOf(b)
  }

  /** The task test raises on a goal box the snapshot lacks; it is defined when every one exists. */
  predicate IsSatisfiedBy(t: Task, s: StateSnapshot)
  {
    forall b :: b in t.goalDelivered ==> FindBox(s.boxes, b).Some? && FindBox(s.boxes, b).value.delivered
  }

  /** The loop's goal test on the world and the planner's goal test on the projection are one test. */
  lemma GoalTestsAgree(t: Task, s: StateSnapshot)
    ensures IsSatisfiedBy(t, s) <==> GoalLiterals(t) <= Project(s)
  {
    forall b | b in t.goalDelivered
      ensures DeliveredOf(b) in Project(s) <==> FindBox(s.boxes, b).Some? && FindBox(s.boxes, b).value.delivered
    {
      ProjectMeaning(s, b);
    }
    if GoalLiterals(t) <= Project(s) {
      forall b | b in t.goalDelivered
        ensures DeliveredOf(b) in Project(s)
      {
        assert DeliveredOf(b) in GoalLiterals(t);
      }
    }
  }
}
