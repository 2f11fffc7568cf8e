/**
  The exact-state symbolic belief (symbolic/belief.py): projectable literals re-derived from the
  world at every sync, executive-tracked literals maintained from typed execution outcomes.
*/
module Belief {
  import opened Common
  import opened Skills
  import opened SkillIR
  import opened Snapshots
  import opened Execution
  import opened BoxPush

  type BoxPushResult = ExecutionResult<StateSnapshot, GroundedSkillCall>

  function WorldChanged(r: BoxPushResult): bool
  {
    WorldKey(r.pre) != WorldKey(r.post)
  }

  // ---------------------------------------------------------------------------------------------
  // What an outcome does to the tracked literals
  // ---------------------------------------------------------------------------------------------

  function TrackedOnly(p: Projection, literals: set<Literal>): set<Literal>
  {
    set l | l in literals && l.name in p.tracked
  }

  function RecordedSuccess(p: Projection, tracked: SymbolicState, effects: seq<GroundEffect>): SymbolicState
  {
    tracked + TrackedOnly(p, Added(effects)) - TrackedOnly(p, Deleted(effects))
  }

  /** Decision 13.8: success adds and then deletes; failure only drops what it may have disturbed. */
  function Recorded(domain: seq<Skill>, p: Projection, tracked: SymbolicState, call: GroundedSkillCall,
    succeeded: bool, changed: bool): SymbolicState
    requires ValidDomain(domain)
  {
    match Resolve(domain, call.skill)
    case None => tracked
    case Some(ir) =>
      var effects := GroundEffects(ir, call);
      if succeeded then RecordedSuccess(p, tracked, effects)
      else if changed then tracked - TrackedOnly(p, Added(effects))
      else tracked
  }

  lemma RecordedKeepsTracked(domain: seq<Skill>, p: Projection, tracked: SymbolicState, call: GroundedSkillCall,
    succeeded: bool, changed: bool)
    requires ValidDomain(domain) && OnlyTracked(p, tracked)
    ensures OnlyTracked(p, Recorded(domain, p, tracked, call, succeeded, changed))
  {
  }

  class ExactSymbolicBelief {
    const domain: seq<Skill>
    const projection: Projection
    const project: StateSnapshot -> SymbolicState
    var projected: SymbolicState
    var tracked: SymbolicState
    var synced: bool

    ghost predicate Valid()
      reads this
    {
      && ValidDomain(domain) && ValidProjection(projection)
      && OnlyTracked(projection, tracked)
      && forall l :: l in projected ==> l.name in projection.projectable
    }

    constructor (domain: seq<Skill>, projection: Projection, project: StateSnapshot -> SymbolicState)
      requires ValidDomain(domain) && ValidProjection(projection)
      ensures Valid() && projected == tracked == {} && !synced
      ensures this.domain == domain && this.projection == projection && this.project == project
    {
      this.domain, this.projection, this.project := domain, projection, project;
      projected, tracked, synced := {}, {}, false;
    }

    /** Tracked literals survive a sync untouched. */
    method Sync(snapshot: StateSnapshot)
      requires Valid()
      modifies this
      ensures Valid() && synced
      ensures projected == MonitoredView(projection, project(snapshot))
      ensures tracked == old(tracked)
    {
      projected := MonitoredView(projection, project(snapshot));
      synced := true;
    }

    /** `None` before the first sync, where the source raises. */
    function State(): (r: Option<SymbolicState>)
      reads this
      ensures r.Some? <==> synced
      ensures r.Some? ==> forall l :: l in r.value <==> l in projected || l in tracked
    {
      if synced then Some(projected + tracked) else None
    }

    /** Effects are visited in declaration order, all positive ones before all negative ones. */
    method RecordOutcome(r: BoxPushResult)
      requires Valid()
      modifies this
      ensures Valid()
      ensures projected == old(projected) && synced == old(synced)
      ensures tracked == Recorded(domain, projection, old(tracked), r.call, r.outcome.Success?, WorldChanged(r))
    {
      var resolved := Resolve(domain, r.call.skill);
      if resolved.None? {
        return;
      }
      var effects := GroundEffects(resolved.value, r.call);
      var changed := WorldChanged(r);
      for i := 0 to |effects|
        invariant Valid() && projected == old(projected) && synced == old(synced)
        invariant tracked ==
          if r.outcome.Success? then old(tracked) + TrackedOnly(projection, Added(effects[..i]))
          else if changed then old(tracked) - TrackedOnly(projection, Added(effects[..i]))
          else old(tracked)
      {
        AddedPrefix(effects, i);
        if effects[i].positive && effects[i].literal.name in projection.tracked {
          if r.outcome.Success? {
            tracked := tracked + {effects[i].literal};
          } else if changed {
            tracked := tracked - {effects[i].literal};
          }
        }
      }
      assert effects[..|effects|] == effects;
      if r.outcome.Success? {
        ghost var established := tracked;
        for i := 0 to |effects|
          invariant Valid() && projected == old(projected) && synced == old(synced)
          invariant tracked == established - TrackedOnly(projection, Deleted(effects[..i]))
        {
          AddedPrefix(effects, i);
          if !effects[i].positive && effects[i].literal.name in projection.tracked {
            tracked := tracked - {effects[i].literal};
          }
        }
      }
    }
  }

  lemma AddedPrefix(effects: seq<GroundEffect>, i: nat)
    requires i < |effects|
    ensures Added(effects[..i + 1]) == Added(effects[..i]) + if effects[i].positive then {effects[i].literal} else {}
    ensures Deleted(effects[..i + 1]) == Deleted(effects[..i]) + if effects[i].positive then {}
              else {effects[i].literal}
  {
    var longer := effects[..i + 1];
    assert longer[i] == effects[i];
    assert forall k :: 0 <= k < i ==> longer[k] == effects[..i][k];
  }

  // ---------------------------------------------------------------------------------------------
  // Belief maintenance and the planner's successor
  // ---------------------------------------------------------------------------------------------

  /** Every effect predicate of the model is declared as projectable or as tracked. */
  predicate EffectsDeclared(p: Projection, effects: seq<GroundEffect>)
  {
    forall i :: 0 <= i < |effects| ==> effects[i].literal.name in p.projectable + p.tracked
  }

  /**
    Sync then record after a successful attempt gives the belief the planner predicted, exactly when
    the monitor's symbolic basis is silent. The hypothesis on the effects is that none both adds and
    deletes one literal; `AddThenDeleteDiffers` says what happens without it.
  */
  lemma SuccessMatchesSuccessor(p: Projection, believed: SymbolicState, tracked: SymbolicState,
    e: seq<GroundEffect>, observed: SymbolicState)
    requires ValidProjection(p) && OnlyTracked(p, tracked) && believed == MonitoredView(p, believed) + tracked
    requires Added(e) !! Deleted(e) && EffectsDeclared(p, e)
    ensures MonitoredView(p, observed) + RecordedSuccess(p, tracked, e) == Apply(believed, e)
            <==> Agrees(p, Apply(believed, e), observed)
  {
    ApplyIsAddThenDelete(believed, e);
    var after := RecordedSuccess(p, tracked, e);
    var successor := Apply(believed, e);
    forall l: Literal
      ensures l.name in p.tracked ==> (l in successor <==> l in after)
      ensures l in successor ==> l.name in p.projectable + p.tracked
    {
      if l in successor && l !in believed {
        var i :| 0 <= i < |e| && e[i].positive && e[i].literal == l;
      }
    }
    SplitEquality(p, observed, after, successor);
  }

  /** A state is determined by its projectable and its tracked half. */
  lemma SplitEquality(p: Projection, observed: SymbolicState, after: SymbolicState, successor: SymbolicState)
    requires ValidProjection(p) && OnlyTracked(p, after)
    requires forall l: Literal :: l.name in p.tracked ==> (l in successor <==> l in after)
    requires forall l :: l in successor ==> l.name in p.projectable + p.tracked
    ensures MonitoredView(p, observed) + after == successor <==> Agrees(p, successor, observed)
  {
    var whole := MonitoredView(p, observed) + after;
    if whole == successor {
      assert MonitoredView(p, whole) == MonitoredView(p, observed);
    }
    if Agrees(p, successor, observed) {
      forall l
        ensures l in whole <==> l in successor
      {
        assert l.name in p.projectable ==> (l in successor <==> l in MonitoredView(p, successor));
      }
    }
  }

  /**
    Without that hypothesis the two disagree on a literal exactly when it is deleted somewhere and
    added for good afterwards: declaration order keeps it, adds-then-deletes drops it.
  */
  lemma AddThenDeleteDiffers(state: SymbolicState, effects: seq<GroundEffect>, l: Literal)
    ensures (l in state + Added(effects) - Deleted(effects) <==> l in Apply(state, effects)) <==>
            !(l in Deleted(effects) && exists i :: AddedForGood(effects, i, l))
  {
    LastMentionDecides(state, effects, l);
    if l in Added(effects) && l !in Deleted(effects) {
      var i :| 0 <= i < |effects| && effects[i] == GroundEffect(l, true);
      assert AddedForGood(effects, i, l);
    }
  }

  /** A concrete model on which the belief and the planner part: delete a literal, then add it. */
  lemma DeleteThenAddIsLost(l: Literal)
    ensures var effects := [GroundEffect(l, false), GroundEffect(l, true)];
            l in Apply({}, effects) && l !in {} + Added(effects) - Deleted(effects)
  {
    var effects := [GroundEffect(l, false), GroundEffect(l, true)];
    assert AddedForGood(effects, 1, l);
    assert effects[0] == GroundEffect(l, false);
    LastMentionDecides({}, effects, l);
  }

  // ---------------------------------------------------------------------------------------------
  // The frozen domain
  // ---------------------------------------------------------------------------------------------

  /** The belief the executive holds after syncing to `s` with these tracked literals. */
  function Believed(s: StateSnapshot, tracked: SymbolicState): SymbolicState
  {
    MonitoredView(PROJECTION, Project(s)) + tracked
  }

  lemma EffectsAreDeclared(call: GroundedSkillCall)
    requires IsSymbolic(call)
    ensures EffectsDeclared(PROJECTION, EffectList(call))
  {
  }

  lemma RecordedShape(tracked: SymbolicState, call: GroundedSkillCall, succeeded: bool, changed: bool)
    requires IsSymbolic(call)
    ensures ValidDomain(DOMAIN_IR)
    ensures Recorded(DOMAIN_IR, PROJECTION, tracked, call, succeeded, changed) ==
            if succeeded then RecordedSuccess(PROJECTION, tracked, EffectList(call))
            else if changed then tracked - TrackedOnly(PROJECTION, Added(EffectList(call)))
            else tracked
  {
    SkillsAreValid();
    Resolved();
    var ir := IrOf(call);
    assert Resolve(DOMAIN_IR, call.skill) == Some(ir);
    GroundingShape(call);
  }

  lemma RecordedOutside(tracked: SymbolicState, call: GroundedSkillCall, succeeded: bool, changed: bool)
    requires !IsSymbolic(call)
    ensures ValidDomain(DOMAIN_IR)
    ensures Recorded(DOMAIN_IR, PROJECTION, tracked, call, succeeded, changed) == tracked
  {
    SkillsAreValid();
    Resolved();
  }

  /** The frozen models meet the hypotheses, so on BoxPush the equivalence is unconditional. */
  lemma BoxPushSuccessMatchesSuccessor(projected: SymbolicState, tracked: SymbolicState, call: GroundedSkillCall,
    observed: SymbolicState)
    requires IsSymbolic(call) && OnlyTracked(PROJECTION, tracked)
    requires projected == MonitoredView(PROJECTION, projected)
    ensures ValidDomain(DOMAIN_IR)
    ensures MonitoredView(PROJECTION, observed) + Recorded(DOMAIN_IR, PROJECTION, tracked, call, true, true)
            == projected + tracked + Adds(call) - Deletes(call)
            <==> Agrees(PROJECTION, projected + tracked + Adds(call) - Deletes(call), observed)
  {
    EffectsShape(call);
    EffectsAreDeclared(call);
    ViewOfBelief(projected, tracked);
    SuccessMatchesSuccessor(PROJECTION, projected + tracked, tracked, EffectList(call), observed);
    ApplyIsAddThenDelete(projected + tracked, EffectList(call));
    RecordedShape(tracked, call, true, true);
  }

  lemma ViewOfBelief(projected: SymbolicState, tracked: SymbolicState)
    requires OnlyTracked(PROJECTION, tracked) && projected == MonitoredView(PROJECTION, projected)
    ensures MonitoredView(PROJECTION, projected + tracked) == projected
  {
  }

  function PosesOf(call: GroundedSkillCall): set<Literal>
    requires IsSymbolic(call)
  {
    set i | 0 <= i < |call.agents| :: InPoseOf(call.agents[i], call.box.value)
  }

  lemma PosesShape(call: GroundedSkillCall)
    requires IsSymbolic(call)
    ensures TrackedOnly(PROJECTION, Adds(call)) == if call.skill == GotoPushPose then PosesOf(call) else {}
    ensures TrackedOnly(PROJECTION, Deletes(call)) == if call.skill == GotoPushPose then {} else PosesOf(call)
  {
    var b := call.box.value;
    if call.skill == CooperativePush {
      assert PosesOf(call) == {InPoseOf(call.agents[0], b), InPoseOf(call.agents[1], b)};
    } else {
      assert PosesOf(call) == {InPoseOf(call.agents[0], b)};
    }
  }

  /** What one outcome does to the tracked poses, skill by skill. */
  lemma RecordedOnBoxPush(tracked: SymbolicState, call: GroundedSkillCall, succeeded: bool, changed: bool)
    ensures ValidDomain(DOMAIN_IR)
    ensures Recorded(DOMAIN_IR, PROJECTION, tracked, call, succeeded, changed) ==
            if !IsSymbolic(call) then tracked
            else if call.skill == GotoPushPose then
              if succeeded then tracked + PosesOf(call) else if changed then tracked - PosesOf(call) else tracked
            else if succeeded then tracked - PosesOf(call) else tracked
  {
    if IsSymbolic(call) {
      RecordedShape(tracked, call, succeeded, changed);
      EffectsShape(call);
      PosesShape(call);
    } else {
      RecordedOutside(tracked, call, succeeded, changed);
    }
  }

  // ---------------------------------------------------------------------------------------------
  // The tracked poses over a whole history
  // ---------------------------------------------------------------------------------------------

  function TrackedAfter(history: seq<BoxPushResult>): SymbolicState
    decreases |history|
  {
    SkillsAreValid();
    if history == [] then {}
    else
      var r := Last(history);
      Recorded(DOMAIN_IR, PROJECTION, TrackedAfter(Init(history)), r.call, r.outcome.Success?, WorldChanged(r))
  }

  predicate Establishes(r: BoxPushResult, a: AgentId, b: BoxId)
  {
    r.call.skill == GotoPushPose && r.call.agents[0] == a && r.call.box == Some(b) && r.outcome.Success?
  }

  /** A successful push that consumes the pose, or a failed walk to it that moved something. */
  predicate Disturbs(r: BoxPushResult, a: AgentId, b: BoxId)
  {
    || (r.call.skill in {Push, CooperativePush} && a in r.call.agents && r.call.box == Some(b) && r.outcome.Success?)
    || (r.call.skill == GotoPushPose && r.call.agents[0] == a && r.call.box == Some(b) && !r.outcome.Success?
      && WorldChanged(r))
  }

  ghost predicate Survives(history: seq<BoxPushResult>, i: nat, a: AgentId, b: BoxId)
  {
    i < |history| && Establishes(history[i], a, b) && forall k :: i < k < |history| ==> !Disturbs(history[k], a, b)
  }

  /** A pose is believed exactly when some successful walk to it has not been disturbed since. */
  lemma {:induction false} PoseBelievedIff(history: seq<BoxPushResult>, a: AgentId, b: BoxId)
    ensures InPoseOf(a, b) in TrackedAfter(history) <==> exists i :: Survives(history, i, a, b)
    decreases |history|
  {
    if history != [] {
      var before, r := Init(history), Last(history);
      PoseBelievedIff(before, a, b);
      PoseStep(TrackedAfter(before), r, a, b);
      assert history == before + [r];
      forall i: nat
        ensures Survives(history, i, a, b) <==>
                if i < |before| then Survives(before, i, a, b) && !Disturbs(r, a, b)
                else i == |before| && Establishes(r, a, b)
      {
        assert forall k :: 0 <= k < |before| ==> history[k] == before[k];
      }
      if Establishes(r, a, b) {
        assert Survives(history, |before|, a, b);
      }
    }
  }

  lemma PoseStep(tracked: SymbolicState, r: BoxPushResult, a: AgentId, b: BoxId)
    ensures ValidDomain(DOMAIN_IR)
    ensures InPoseOf(a, b) in Recorded(DOMAIN_IR, PROJECTION, tracked, r.call, r.outcome.Success?, WorldChanged(r)) <==>
            Establishes(r, a, b) || (InPoseOf(a, b) in tracked && !Disturbs(r, a, b))
    ensures !(Establishes(r, a, b) && Disturbs(r, a, b))
  {
    RecordedOnBoxPush(tracked, r.call, r.outcome.Success?, WorldChanged(r));
    if IsSymbolic(r.call) {
      PoseMember(r.call, a, b);
    }
  }

  lemma PoseMember(call: GroundedSkillCall, a: AgentId, b: BoxId)
    requires IsSymbolic(call)
    ensures InPoseOf(a, b) in PosesOf(call) <==> a in call.agents && call.box == Some(b)
    ensures call.skill != CooperativePush ==> (a in call.agents <==> call.agents[0] == a)
  {
    if a in call.agents && call.box == Some(b) {
      var i :| 0 <= i < |call.agents| && call.agents[i] == a;
      assert InPoseOf(call.agents[i], call.box.value) in PosesOf(call);
    }
  }
}
