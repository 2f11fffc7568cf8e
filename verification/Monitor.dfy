/** The monitor on both comparison bases, and recovery advice (symbolic/monitor.py, nl/recovery.py). */
module Monitor {
  import opened Common
  import opened Skills
  import opened SkillIR
  import opened Snapshots
  import opened Execution
  import opened BoxPush
  import opened Belief
  import opened Predictor

  datatype DiscrepancyKind = UnexpectedOutcome | ExecutionFailureOfApplicableSkill | StateEffectMismatch

  /** A complete comparison pair of one basis, or none. */
  datatype Evidence =
    | NoPair
    | SymbolicPair(predictedView: SymbolicState, observedView: SymbolicState)
    | WorldPair(predictedWorld: World, observedWorld: World)

  datatype Discrepancy = Discrepancy(kind: DiscrepancyKind, call: GroundedSkillCall, evidence: Evidence)

  /** The constructor demands a differing pair of every state-effect mismatch. */
  predicate WellFormedDiscrepancy(d: Discrepancy)
  {
    d.kind == StateEffectMismatch ==>
      match d.evidence
      case NoPair => false
      case SymbolicPair(p, o) => p != o
      case WorldPair(p, o) => p != o
  }

  /** The predictor's exceptions escape the monitor. */
  datatype MonitorOutcome = Reports(discrepancies: seq<Discrepancy>) | EscapedValueError | EscapedKeyError

  function SymbolicBasis(pre: SymbolicState, r: BoxPushResult): seq<Discrepancy>
    requires IsSymbolic(r.call)
  {
    var predicted := pre + Adds(r.call) - Deletes(r.call);
    var observed := Project(r.post);
    if Agrees(PROJECTION, predicted, observed) then []
    else [Discrepancy(StateEffectMismatch, r.call,
            SymbolicPair(MonitoredView(PROJECTION, predicted), MonitoredView(PROJECTION, observed)))]
  }

  predicate MatchesSome(worlds: seq<StateSnapshot>, observed: World)
  {
    exists i :: 0 <= i < |worlds| && WorldKey(worlds[i]) == observed
  }

  function WorldBasis(r: BoxPushResult, worlds: seq<StateSnapshot>): seq<Discrepancy>
  {
    if worlds == [] || MatchesSome(worlds, WorldKey(r.post)) then []
    else [Discrepancy(StateEffectMismatch, r.call, WorldPair(WorldKey(worlds[0]), WorldKey(r.post)))]
  }

  /** `pre` is the belief the attempt was chosen under; the observed side is the world's. */
  function MonitorExecution(pre: SymbolicState, r: BoxPushResult, zone: ZoneId): MonitorOutcome
  {
    if !IsSymbolic(r.call) then
      if r.outcome.Success? then Reports([]) else Reports([Discrepancy(UnexpectedOutcome, r.call, NoPair)])
    else if !r.outcome.Success? then Reports([Discrepancy(ExecutionFailureOfApplicableSkill, r.call, NoPair)])
    else
      match PredictWorldCandidates(r.pre, r.call, zone)
      case Candidates(worlds) => Reports(SymbolicBasis(pre, r) + WorldBasis(r, worlds))
      case RaisesValueError => EscapedValueError
      case RaisesKeyError => EscapedKeyError
  }

  /** Every report the monitor makes is one its record accepts. */
  lemma ReportsAreWellFormed(pre: SymbolicState, r: BoxPushResult, zone: ZoneId)
    requires MonitorExecution(pre, r, zone).Reports?
    ensures forall d :: d in MonitorExecution(pre, r, zone).discrepancies ==>
              WellFormedDiscrepancy(d) && d.call == r.call
  {
    if IsSymbolic(r.call) && r.outcome.Success? {
      var worlds := PredictWorldCandidates(r.pre, r.call, zone).worlds;
      forall d | d in WorldBasis(r, worlds)
        ensures WellFormedDiscrepancy(d) && d.call == r.call
      {
        assert worlds != [] && !MatchesSome(worlds, WorldKey(r.post));
        assert WorldKey(worlds[0]) != WorldKey(r.post);
      }
    }
  }

  /**
    What a report means: a mismatch is only ever reported of a success, an execution failure of a
    symbolic call that did not succeed, an unexpected outcome of a registry-only one; and every
    attempt that did not succeed is reported exactly once.
  */
  lemma ReportsMeanWhatHappened(pre: SymbolicState, r: BoxPushResult, zone: ZoneId)
    requires MonitorExecution(pre, r, zone).Reports?
    ensures var ds := MonitorExecution(pre, r, zone).discrepancies;
            && (!r.outcome.Success? ==> |ds| == 1)
            && (forall i :: 0 <= i < |ds| ==>
                  ds[i].kind == if r.outcome.Success? then StateEffectMismatch
                                else if IsSymbolic(r.call) then ExecutionFailureOfApplicableSkill
                                  else UnexpectedOutcome)
  {
  }

  /**
    A mismatch names what was predicted first and what was observed second: on the symbolic basis the
    monitored views of the believed successor and of the post-state, on the world basis the first
    candidate and the post-state; the symbolic one comes first, and each is made exactly when its basis
    disagrees. Only the prediction for a symbolic success can raise.
  */
  lemma MismatchesNameBothSides(pre: SymbolicState, r: BoxPushResult, zone: ZoneId)
    ensures MonitorExecution(pre, r, zone).Reports? <==>
            !(IsSymbolic(r.call) && r.outcome.Success?) || PredictWorldCandidates(r.pre, r.call, zone).Candidates?
    ensures IsSymbolic(r.call) && r.outcome.Success? && PredictWorldCandidates(r.pre, r.call, zone).Candidates? ==>
              var ds := MonitorExecution(pre, r, zone).discrepancies;
              var believed := pre + Adds(r.call) - Deletes(r.call);
              var worlds := PredictWorldCandidates(r.pre, r.call, zone).worlds;
              var symbolic := MonitoredView(PROJECTION, believed) != MonitoredView(PROJECTION, Project(r.post));
              var pair := SymbolicPair(MonitoredView(PROJECTION, believed), MonitoredView(PROJECTION, Project(r.post)));
              var world := worlds != [] && forall w :: w in worlds ==> WorldKey(w) != WorldKey(r.post);
              && |ds| == (if symbolic then 1 else 0) + (if world then 1 else 0)
              && (symbolic ==> ds[0].evidence == pair)
              && (world ==> ds[|ds| - 1].evidence == WorldPair(WorldKey(worlds[0]), WorldKey(r.post)))
  {
    hide Project, PredictWorldCandidates, MonitoredView, Adds, Deletes;
    if IsSymbolic(r.call) && r.outcome.Success? && PredictWorldCandidates(r.pre, r.call, zone).Candidates? {
      var worlds := PredictWorldCandidates(r.pre, r.call, zone).worlds;
      assert MatchesSome(worlds, WorldKey(r.post)) <==> exists w :: w in worlds && WorldKey(w) == WorldKey(r.post);
    }
  }

  /**
    Silence of the whole monitor: a success that agrees on the
    symbolic basis, and lands on a predicted world if any.
  */
  lemma SilentIff(pre: SymbolicState, r: BoxPushResult, zone: ZoneId)
    requires MonitorExecution(pre, r, zone).Reports?
    ensures MonitorExecution(pre, r, zone) == Reports([]) <==>
            && r.outcome.Success?
            && (IsSymbolic(r.call) ==>
                  && Agrees(PROJECTION, pre + Adds(r.call) - Deletes(r.call), Project(r.post))
                  && var worlds := PredictWorldCandidates(r.pre, r.call, zone).worlds;
                     worlds == [] || exists i :: 0 <= i < |worlds| && WorldKey(worlds[i]) == WorldKey(r.post))
  {
    hide Project, PredictWorldCandidates, MonitoredView;
  }

  lemma SameWorldSameProjection(s: StateSnapshot, t: StateSnapshot)
    requires WorldKey(s) == WorldKey(t)
    ensures Project(s) == Project(t)
  {
  }

  /**
    Agreement on the world basis implies agreement on the symbolic basis: a success that lands on a
    predicted world is reported by neither.
  */
  lemma WorldAgreementImpliesSymbolic(tracked: SymbolicState, r: BoxPushResult, zone: ZoneId)
    requires IsSymbolic(r.call) && r.outcome.Success? && OnlyTracked(PROJECTION, tracked)
    requires var w := PredictWorldCandidates(r.pre, r.call, zone);
             w.Candidates? && MatchesSome(w.worlds, WorldKey(r.post))
    ensures MonitorExecution(Project(r.pre) + tracked, r, zone) == Reports([])
  {
    hide Project, PredictWorldCandidates;
    var worlds := PredictWorldCandidates(r.pre, r.call, zone).worlds;
    var i :| 0 <= i < |worlds| && WorldKey(worlds[i]) == WorldKey(r.post);
    CandidatesCommute(r.pre, tracked, r.call, zone, worlds[i]);
    SameWorldSameProjection(worlds[i], r.post);
    ProjectIsMonitored(r.post);
  }

  /** A success is symbolically silent exactly when the maintained belief becomes the planned successor. */
  lemma SilentIffBeliefIsSuccessor(tracked: SymbolicState, r: BoxPushResult)
    requires IsSymbolic(r.call) && r.outcome.Success? && OnlyTracked(PROJECTION, tracked)
    ensures ValidDomain(DOMAIN_IR)
    ensures SymbolicBasis(Believed(r.pre, tracked), r) == [] <==>
            Believed(r.post, Recorded(DOMAIN_IR, PROJECTION, tracked, r.call, true, WorldChanged(r)))
            == Believed(r.pre, tracked) + Adds(r.call) - Deletes(r.call)
  {
    ProjectIsMonitored(r.pre);
    RecordedShape(tracked, r.call, true, true);
    RecordedShape(tracked, r.call, true, WorldChanged(r));
    BoxPushSuccessMatchesSuccessor(MonitoredView(PROJECTION, Project(r.pre)), tracked, r.call, Project(r.post));
  }

  // ---------------------------------------------------------------------------------------------
  // Recovery
  // ---------------------------------------------------------------------------------------------

  /** Re-establish the poses of a failed consuming skill; everything else gets no advice. */
  function ProposeRecovery(d: Discrepancy): (calls: seq<GroundedSkillCall>)
    ensures calls != [] ==> d.kind == ExecutionFailureOfApplicableSkill && d.call.skill in {Push, CooperativePush}
  {
    if d.kind == ExecutionFailureOfApplicableSkill && d.call.skill in {Push, CooperativePush} then
      seq(|d.call.agents|, i requires 0 <= i < |d.call.agents| =>
        Call(GotoPushPose, [d.call.agents[i]], d.call.box, d.call.zone))
    else []
  }

  /** The identities and static facts that no skill changes. */
  predicate SameIdentities(s: StateSnapshot, t: StateSnapshot)
  {
    && AgentIds(s) == AgentIds(t) && BoxIds(s) == BoxIds(t)
    && forall i :: 0 <= i < |s.boxes| && i < |t.boxes| ==> s.boxes[i].required == t.boxes[i].required
  }

  function Validates(s: StateSnapshot, tracked: SymbolicState, c: GroundedSkillCall): bool
  {
    SkillsAreValid();
    Evaluate(DOMAIN_IR, Believed(s, tracked), c).ValidatedCall?
  }

  /** The tracked literals after the recovery calls succeed one after another. */
  function AfterRecovery(tracked: SymbolicState, calls: seq<GroundedSkillCall>): SymbolicState
    decreases |calls|
  {
    SkillsAreValid();
    if calls == [] then tracked
    else Recorded(DOMAIN_IR, PROJECTION, AfterRecovery(tracked, Init(calls)), Last(calls), true, true)
  }

  lemma {:induction false} RecoveryPoses(tracked: SymbolicState, agents: seq<AgentId>, calls: seq<GroundedSkillCall>,
    box: BoxId)
    requires |calls| == |agents|
    requires forall i :: 0 <= i < |calls| ==>
      calls[i].skill == GotoPushPose && calls[i].agents == [agents[i]] && calls[i].box == Some(box)
    ensures tracked <= AfterRecovery(tracked, calls)
    ensures forall a :: a in agents ==> InPoseOf(a, box) in AfterRecovery(tracked, calls)
    decreases |calls|
  {
    if calls != [] {
      RecoveryPoses(tracked, Init(agents), Init(calls), box);
      RecordedOnBoxPush(AfterRecovery(tracked, Init(calls)), Last(calls), true, true);
      PoseMember(Last(calls), Last(agents), box);
      assert agents == Init(agents) + [Last(agents)];
    }
  }

  lemma StaticFacts(s: StateSnapshot, t: StateSnapshot, b: BoxId, a: AgentId, o: AgentId)
    requires SameIdentities(s, t)
    ensures LightOf(b) in Project(s) <==> LightOf(b) in Project(t)
    ensures HeavyOf(b) in Project(s) <==> HeavyOf(b) in Project(t)
    ensures DifferentOf(a, o) in Project(s) <==> DifferentOf(a, o) in Project(t)
  {
    ProjectMeaning(s, b);
    ProjectMeaning(t, b);
    ProjectDifferent(s, a, o);
    ProjectDifferent(t, a, o);
    SameBox(s, t, b);
    SameAgent(s, t, a);
    SameAgent(s, t, o);
  }

  lemma SameBox(s: StateSnapshot, t: StateSnapshot, b: BoxId)
    requires SameIdentities(s, t)
    ensures FindBox(s.boxes, b).Some? <==> FindBox(t.boxes, b).Some?
    ensures FindBox(s.boxes, b).Some? ==> FindBox(s.boxes, b).value.required == FindBox(t.boxes, b).value.required
  {
    assert forall i :: 0 <= i < |s.boxes| ==> BoxIds(s)[i] == BoxIds(t)[i];
    if FindBox(s.boxes, b).Some? {
      var i :| 0 <= i < |s.boxes| && s.boxes[i] == FindBox(s.boxes, b).value;
      BoxIsUnique(t, t.boxes[i]);
    }
    if FindBox(t.boxes, b).Some? {
      var i :| 0 <= i < |t.boxes| && t.boxes[i] == FindBox(t.boxes, b).value;
      BoxIsUnique(s, s.boxes[i]);
    }
  }

  lemma SameAgent(s: StateSnapshot, t: StateSnapshot, a: AgentId)
    requires SameIdentities(s, t)
    ensures FindAgent(s.agents, a).Some? <==> FindAgent(t.agents, a).Some?
  {
    assert forall i :: 0 <= i < |s.agents| ==> AgentIds(s)[i] == AgentIds(t)[i];
    if FindAgent(s.agents, a).Some? {
      var i :| 0 <= i < |s.agents| && s.agents[i] == FindAgent(s.agents, a).value;
      AgentIsUnique(t, t.agents[i]);
    }
    if FindAgent(t.agents, a).Some? {
      var i :| 0 <= i < |t.agents| && t.agents[i] == FindAgent(t.agents, a).value;
      AgentIsUnique(s, s.agents[i]);
    }
  }

  /** Applicability on BoxPush, literal by literal. */
  lemma ValidatesMeans(s: StateSnapshot, tracked: SymbolicState, c: GroundedSkillCall)
    requires IsSymbolic(c)
    ensures Validates(s, tracked, c) <==> forall l :: l in PreconditionList(c) ==> l in Believed(s, tracked)
  {
    EvaluateShape(Believed(s, tracked), c);
    assert forall l :: l in PreconditionList(c) <==> l in Preconditions(c);
  }

  /**
    Recovery restores applicability: after an applicable push fails, in every later world with the
    same identities in which the box is still pending, every proposed call is applicable whatever is
    tracked, so also after some of the others have succeeded.
  */
  lemma RecoveryCallsApply(c: GroundedSkillCall, s: StateSnapshot, tracked: SymbolicState, i: nat)
    requires c.skill in {Push, CooperativePush} && i < |c.agents|
    requires FindBox(s.boxes, c.box.value).Some? && !FindBox(s.boxes, c.box.value).value.delivered
    ensures var calls := ProposeRecovery(Discrepancy(ExecutionFailureOfApplicableSkill, c, NoPair));
            |calls| == |c.agents| && Validates(s, tracked, calls[i])
  {
    var call := ProposeRecovery(Discrepancy(ExecutionFailureOfApplicableSkill, c, NoPair))[i];
    ProjectMeaning(s, c.box.value);
    ValidatesMeans(s, tracked, call);
  }

  /** After all proposed calls have succeeded the failed call is applicable again. */
  lemma RecoveryRestores(c: GroundedSkillCall, pre: StateSnapshot, before: SymbolicState, s: StateSnapshot,
    tracked: SymbolicState)
    requires c.skill in {Push, CooperativePush} && Validates(pre, before, c) && OnlyTracked(PROJECTION, before)
    requires SameIdentities(pre, s)
    requires FindBox(s.boxes, c.box.value).Some? && !FindBox(s.boxes, c.box.value).value.delivered
    ensures var calls := ProposeRecovery(Discrepancy(ExecutionFailureOfApplicableSkill, c, NoPair));
            Validates(s, AfterRecovery(tracked, calls), c)
  {
    var calls := ProposeRecovery(Discrepancy(ExecutionFailureOfApplicableSkill, c, NoPair));
    var b := c.box.value;
    RecoveryPoses(tracked, c.agents, calls, b);
    ValidatesMeans(pre, before, c);
    ValidatesMeans(s, AfterRecovery(tracked, calls), c);
    ProjectMeaning(s, b);
    StaticFacts(pre, s, b, c.agents[0], Last(c.agents));
    RestoredPreconditions(c, pre, before, s, AfterRecovery(tracked, calls));
  }

  lemma RestoredPreconditions(c: GroundedSkillCall, pre: StateSnapshot, before: SymbolicState, s: StateSnapshot,
    tracked: SymbolicState)
    requires c.skill in {Push, CooperativePush} && OnlyTracked(PROJECTION, before)
    requires forall l :: l in PreconditionList(c) ==> l in Believed(pre, before)
    requires PendingOf(c.box.value) in Project(s)
    requires forall a :: a in c.agents ==> InPoseOf(a, c.box.value) in tracked
    requires LightOf(c.box.value) in Project(pre) ==> LightOf(c.box.value) in Project(s)
    requires HeavyOf(c.box.value) in Project(pre) ==> HeavyOf(c.box.value) in Project(s)
    requires DifferentOf(c.agents[0], Last(c.agents)) in Project(pre) ==>
               DifferentOf(c.agents[0], Last(c.agents)) in Project(s)
    ensures forall l :: l in PreconditionList(c) ==> l in Believed(s, tracked)
  {
    hide Project;
    ProjectIsMonitored(pre);
    ProjectIsMonitored(s);
    var list := PreconditionList(c);
    if c.skill == Push {
      assert list[1] in list;
    } else {
      assert list[0] in list && list[1] in list;
    }
  }
}
