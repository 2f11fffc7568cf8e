/**
  Lifted skill models, grounding, applicability and effects
  (shared/skill_ir.py, symbolic/applicability.py, shared/symbolic_state.py).

  Predicate names and lifted variables are enumerations, and a literal's arguments are typed
  identities: the source prints them as strings, and no predicate ever takes an argument of two
  types. A symbolic state is the set of its true literals; its digest key is that set itself.
*/
module SkillIR {
  import opened Common
  import opened Skills

  datatype PredicateName = Discovered | Delivered | Pending | Light | Heavy | InPose | Different

  datatype Value = AgentValue(agent: AgentId) | BoxValue(box: BoxId) | ZoneValue(zone: ZoneId)

  datatype Literal = Literal(name: PredicateName, args: seq<Value>)

  type SymbolicState = set<Literal>

  datatype Variable = VarAgent | VarAgent1 | VarAgent2 | VarBox | VarZone

  /** A predicate over the lifted variables of one skill. */
  datatype Lifted = Lifted(name: PredicateName, args: seq<Variable>)

  datatype Effect = Effect(lifted: Lifted, positive: bool)

  datatype Skill = Skill(
    name: SkillName, parameters: seq<Variable>, preconditions: seq<Lifted>, effects: seq<Effect>)

  datatype GroundEffect = GroundEffect(literal: Literal, positive: bool)

  // ---------------------------------------------------------------------------------------------
  // Binding and grounding
  // ---------------------------------------------------------------------------------------------

  predicate LiftedOver(parameters: seq<Variable>, lifted: Lifted)
  {
    forall i :: 0 <= i < |lifted.args| ==> lifted.args[i] in parameters
  }

  /** The constructor checks: distinct parameters, every argument declared, the signature expanded. */
  predicate ValidSkill(ir: Skill)
  {
    && (forall i, j :: 0 <= i < j < |ir.parameters| ==> ir.parameters[i] != ir.parameters[j])
    && (forall i :: 0 <= i < |ir.preconditions| ==> LiftedOver(ir.parameters, ir.preconditions[i]))
    && (forall i :: 0 <= i < |ir.effects| ==> LiftedOver(ir.parameters, ir.effects[i].lifted))
    && |ir.parameters| == AgentCount(ir.name) + (if TakesBoxAndZone(ir.name) then 2 else 0)
  }

  predicate ValidDomain(domain: seq<Skill>)
  {
    forall i :: 0 <= i < |domain| ==> ValidSkill(domain[i])
  }

  /** The call's identities in parameter order, the agent pair expanded into two of them. */
  function Values(call: GroundedSkillCall): (vs: seq<Value>)
    ensures |vs| == AgentCount(call.skill) + (if TakesBoxAndZone(call.skill) then 2 else 0)
  {
    var a := AgentValue(call.agents[0]);
    if !TakesBoxAndZone(call.skill) then [a]
    else if call.skill == CooperativePush then
      [a, AgentValue(call.agents[1]), BoxValue(call.box.value), ZoneValue(call.zone.value)]
    else [a, BoxValue(call.box.value), ZoneValue(call.zone.value)]
  }

  function Position(parameters: seq<Variable>, v: Variable): (i: nat)
    requires v in parameters
    ensures i < |parameters| && parameters[i] == v
  {
    if parameters[0] == v then 0 else 1 + Position(parameters[1..], v)
  }

  /** The identity a call gives to a lifted variable: both sides are zipped by position. */
  function Bind(ir: Skill, call: GroundedSkillCall, v: Variable): Value
    requires ValidSkill(ir) && ir.name == call.skill && v in ir.parameters
  {
    Values(call)[Position(ir.parameters, v)]
  }

  function Ground(ir: Skill, call: GroundedSkillCall, lifted: Lifted): Literal
    requires ValidSkill(ir) && ir.name == call.skill && LiftedOver(ir.parameters, lifted)
  {
    Literal(lifted.name, seq(|lifted.args|, i requires 0 <= i < |lifted.args| => Bind(ir, call, lifted.args[i])))
  }

  function GroundPreconditions(ir: Skill, call: GroundedSkillCall): seq<Literal>
    requires ValidSkill(ir) && ir.name == call.skill
  {
    seq(|ir.preconditions|, i requires 0 <= i < |ir.preconditions| => Ground(ir, call, ir.preconditions[i]))
  }

  function GroundEffects(ir: Skill, call: GroundedSkillCall): seq<GroundEffect>
    requires ValidSkill(ir) && ir.name == call.skill
  {
    seq(|ir.effects|, i requires 0 <= i < |ir.effects| =>
      GroundEffect(Ground(ir, call, ir.effects[i].lifted), ir.effects[i].positive))
  }

  /** `None` for a registry skill that the symbolic model deliberately leaves out. */
  function Resolve(domain: seq<Skill>, name: SkillName): (r: Option<Skill>)
    ensures r.Some? ==> r.value in domain && r.value.name == name
    ensures r.None? ==> forall i :: 0 <= i < |domain| ==> domain[i].name != name
  {
    if domain == [] then None
    else if domain[0].name == name then Some(domain[0])
    else Resolve(domain[1..], name)
  }

  // ---------------------------------------------------------------------------------------------
  // Applicability and effects
  // ---------------------------------------------------------------------------------------------

  function Evaluate(domain: seq<Skill>, state: SymbolicState, call: GroundedSkillCall): (v: CallValidation)
    requires ValidDomain(domain)
    ensures v.OutsideSymbolicModel? <==> forall i :: 0 <= i < |domain| ==> domain[i].name != call.skill
    ensures v in {ValidatedCall, SymbolicallyInapplicable, OutsideSymbolicModel}
  {
    match Resolve(domain, call.skill)
    case None => OutsideSymbolicModel
    case Some(ir) =>
      if forall i :: 0 <= i < |ir.preconditions| ==> GroundPreconditions(ir, call)[i] in state
      then ValidatedCall else SymbolicallyInapplicable
  }

  /** Effects in declaration order: a later effect on the same literal overrides an earlier one. */
  function Apply(state: SymbolicState, effects: seq<GroundEffect>): SymbolicState
    decreases |effects|
  {
    if effects == [] then state
    else
      var before := Apply(state, Init(effects));
      if Last(effects).positive then before + {Last(effects).literal} else before - {Last(effects).literal}
  }

  /** The source's loop over a local set of literals. */
  method ApplyEffects(state: SymbolicState, ir: Skill, call: GroundedSkillCall) returns (literals: SymbolicState)
    requires ValidSkill(ir) && ir.name == call.skill
    ensures literals == Apply(state, GroundEffects(ir, call))
  {
    literals := state;
    ghost var effects := GroundEffects(ir, call);
    for i := 0 to |ir.effects|
      invariant literals == Apply(state, effects[..i])
    {
      var literal := Ground(ir, call, ir.effects[i].lifted);
      assert Init(effects[..i + 1]) == effects[..i];
      if ir.effects[i].positive {
        literals := literals + {literal};
      } else {
        literals := literals - {literal};
      }
    }
    assert effects[..|effects|] == effects;
  }

  function Added(effects: seq<GroundEffect>): set<Literal>
  {
    set i | 0 <= i < |effects| && effects[i].positive :: effects[i].literal
  }

  function Deleted(effects: seq<GroundEffect>): set<Literal>
  {
    set i | 0 <= i < |effects| && !effects[i].positive :: effects[i].literal
  }

  /** Effect `i` adds the literal and no later effect deletes it. */
  ghost predicate AddedForGood(effects: seq<GroundEffect>, i: nat, l: Literal)
  {
    && i < |effects| && effects[i] == GroundEffect(l, true)
    && forall k :: i < k < |effects| ==> effects[k] != GroundEffect(l, false)
  }

  /** The value of a literal after the effects is decided by the last effect that mentions it. */
  lemma {:induction false} LastMentionDecides(state: SymbolicState, effects: seq<GroundEffect>, l: Literal)
    ensures l in Apply(state, effects) <==>
            || (exists i :: AddedForGood(effects, i, l))
            || (l in state && GroundEffect(l, false) !in effects)
    decreases |effects|
  {
    if effects != [] {
      var before := Init(effects);
      LastMentionDecides(state, before, l);
      assert effects == before + [Last(effects)];
      assert Last(effects) == GroundEffect(l, true) ==> AddedForGood(effects, |effects| - 1, l);
      if Last(effects) != GroundEffect(l, false) {
        assert forall k :: 0 <= k < |before| ==> before[k] == effects[k];
        forall i: nat
          ensures AddedForGood(before, i, l) ==> AddedForGood(effects, i, l)
          ensures AddedForGood(effects, i, l) && i < |before| ==> AddedForGood(before, i, l)
        {
        }
      }
    }
  }

  /**
    When no literal is both added and deleted, declaration order does not matter: the successor adds
    every positive literal and removes every negative one.
  */
  lemma ApplyIsAddThenDelete(state: SymbolicState, effects: seq<GroundEffect>)
    requires Added(effects) !! Deleted(effects)
    ensures Apply(state, effects) == state + Added(effects) - Deleted(effects)
  {
    forall l
      ensures l in Apply(state, effects) <==> l in state + Added(effects) - Deleted(effects)
    {
      LastMentionDecides(state, effects, l);
      if l in Added(effects) {
        var i :| 0 <= i < |effects| && effects[i] == GroundEffect(l, true);
        assert l !in Deleted(effects);
        assert AddedForGood(effects, i, l);
      }
    }
  }

  // ---------------------------------------------------------------------------------------------
  // The projection contract
  // ---------------------------------------------------------------------------------------------

  /** Predicates read off the world, and predicates maintained from execution outcomes. */
  datatype Projection = Projection(projectable: set<PredicateName>, tracked: set<PredicateName>)

  predicate ValidProjection(p: Projection)
  {
    p.projectable !! p.tracked
  }

  function MonitoredView(p: Projection, state: SymbolicState): (v: SymbolicState)
    ensures v <= state
    ensures forall l :: l in v ==> l.name in p.projectable
  {
    set l | l in state && l.name in p.projectable
  }

  predicate Agrees(p: Projection, predicted: SymbolicState, observed: SymbolicState)
  {
    MonitoredView(p, predicted) == MonitoredView(p, observed)
  }

  predicate OnlyTracked(p: Projection, state: SymbolicState)
  {
    forall l :: l in state ==> l.name in p.tracked
  }
}
