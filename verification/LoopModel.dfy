/**
  One run of the executive loop as a function of its oracles (runtime/loop.py).

  `RunFrom` is the outer loop and `Cycle` its body: selection, gates and one attempt. The class in
  `Loop.dfy` performs the same steps in place and is proved to compute these functions.
*/
module LoopModel {
  import opened Common
  import opened Skills
  import opened Search
  import opened Execution
  import opened Executive

  datatype ConfigRecord = Config(
    executiveBudget: int, primitiveBudget: int, maxRejections: int, failureThreshold: int, haltOnFault: bool)

  type OrchestrationConfig = c: ConfigRecord |
    c.executiveBudget > 0 && c.primitiveBudget > 0 && c.maxRejections > 0 && c.failureThreshold > 0
    witness Config(50, 600, 5, 3, true)

  /** A proposal of the advisory track; only these columns are read, and only for the trace. */
  datatype Proposal<+C> = Proposal(call: Option<C>, coverage: Option<string>, confidence: Option<string>)

  datatype ProposeOutcome<+C> = Proposed(proposal: Option<Proposal<C>>) | ProposeRaised(fault: Fault)

  /** The attached track and its comparator, indexed by how often the track was consulted before. */
  datatype Advisory<!C> = Advisory(
    observe: nat -> Option<Fault>, propose: nat -> ProposeOutcome<C>, compare: (Option<C>, Proposal<C>) -> seq<string>)

  datatype MonitorResult<+C> = Reported(reports: seq<Report<C>>) | MonitorRaised

  datatype Setup<!S, !B, !C> = Setup(
    env: Environment<S, C>, config: OrchestrationConfig, policy: Policy,
    plan: (B, S) -> PlannerResult<C>, grounded: (S, C) -> bool, evaluate: (B, C) -> CallValidation,
    monitor: (B, ExecutionResult<S, C>) -> MonitorResult<C>,
    sync: (B, S) -> B, record: (B, ExecutionResult<S, C>) -> B,
    satisfied: S -> bool, worldKey: S -> string,
    advisory: Option<Advisory<C>>, recovery: Option<Report<C> -> seq<C>>)

  /** The loop's fields, and the log of what it asked of the environment and of the track. */
  datatype LoopState<S, B, C(==)> = LoopState(
    belief: B, entries: seq<Entry<S, C>>, failures: map<FailureKey<C>, nat>,
    extraExecutive: nat, extraPrimitive: nat, pending: seq<C>, reports: seq<Report<C>>,
    log: seq<Exchange<S, C>>, consulted: nat)

  datatype EpisodeOutcome = GoalReached | HaltedNoPlan | HaltedRepeatedFailure | FaultedEpisode | BudgetExhausted

  function Fresh<S, B, C(==)>(belief: B): LoopState<S, B, C>
  {
    LoopState(belief, [], map[], 0, 0, [], [], [], 0)
  }

  function ExecutiveCharged<S, B, C(==)>(l: LoopState<S, B, C>): nat
  {
    ExecutiveSteps(l.entries) + l.extraExecutive
  }

  function PrimitiveCharged<S, B, C(==)>(l: LoopState<S, B, C>): nat
  {
    PrimitiveSteps(l.entries) + l.extraPrimitive
  }

  predicate OutOfBudget<S, B, C(==)>(config: OrchestrationConfig, l: LoopState<S, B, C>)
  {
    ExecutiveCharged(l) >= config.executiveBudget || PrimitiveCharged(l) >= config.primitiveBudget
  }

  /** Append one entry to the history. */
  function Note<S, B, C(==)>(su: Setup<S, B, C>, l: LoopState<S, B, C>, e: Entry<S, C>): LoopState<S, B, C>
  {
    l.(entries := l.entries + [e], failures := Bumped(su.worldKey, l.failures, e))
  }

  function FaultHalt(config: OrchestrationConfig): Option<EpisodeOutcome>
  {
    if config.haltOnFault then Some(FaultedEpisode) else None
  }

  /** An entry of a cycle that made no attempt. */
  function PlainEntry<S, C>(step: nat, s: S, plan: Option<PlannerResult<C>>, decision: Option<Decision>,
    selected: Option<C>, validation: Option<CallValidation>, faults: seq<Fault>): Entry<S, C>
  {
    Entry(step, s, plan, decision, selected, validation, None, [], faults, NoAdvice())
  }

  function NoteFault<S, B, C(==)>(su: Setup<S, B, C>, l: LoopState<S, B, C>, step: nat, s: S,
    plan: Option<PlannerResult<C>>, fault: Fault): LoopState<S, B, C>
  {
    Note(su, l, PlainEntry(step, s, plan, None, None, None, [fault]))
  }

  const PLANNER_FAULT := Fault(PlannerComputationFailure, Unstaged, None)
  const PROTOCOL_FAULT := Fault(ExecutorMonitorProtocolFailure, Unstaged, None)
  const UNGROUNDED_FAULT := Fault(MissingGrounding, Unstaged, None)

  // ---------------------------------------------------------------------------------------------
  // Selection
  // ---------------------------------------------------------------------------------------------

  /** A cycle ends during selection, or a call is chosen together with the evidence acquired for it. */
  datatype Selection<S, B, C(==)> =
    | Ended(state: LoopState<S, B, C>, outcome: Option<EpisodeOutcome>, replans: nat, requests: nat)
    | Chosen(state: LoopState<S, B, C>, plan: PlannerResult<C>, call: C, proposal: Option<Proposal<C>>,
             divergences: seq<string>, replans: nat, requests: nat)

  function Situation<S, B, C(==)>(su: Setup<S, B, C>, l: LoopState<S, B, C>, s: S,
    plan: PlannerResult<C>): Preliminary<C>
  {
    if l.pending != [] then Preliminary(plan, None, 0, Some(l.pending[0]))
    else if plan.PlanFound? && plan.plan != [] then
      Preliminary(plan, Some(su.evaluate(l.belief, plan.plan[0])),
        Lookup(l.failures, (su.worldKey(s), plan.plan[0])), None)
    else Preliminary(plan, None, 0, None)
  }

  /** The symbolic side of the comparison: the call an Execute decision would enact. */
  function ComparedCall<C>(p: Preliminary<C>): Option<C>
  {
    if p.standing.Some? then p.standing
    else if p.plan.PlanFound? && p.plan.plan != [] then Some(p.plan.plan[0])
    else None
  }

  /** The advice on the most recent discrepancy of this call. */
  function RecoveryFor<C(==)>(recovery: Option<Report<C> -> seq<C>>, reports: seq<Report<C>>, call: C): seq<C>
    decreases |reports|
  {
    if recovery.None? || reports == [] then []
    else if Last(reports).call == call then recovery.value(Last(reports))
    else RecoveryFor(recovery, Init(reports), call)
  }

  datatype Acquisition<S, B, C(==)> =
    | Acquired(state: LoopState<S, B, C>, cached: Option<Proposal<C>>)
    | AcquisitionFault(state: LoopState<S, B, C>, fault: Fault)

  function Acquire<S, B, C(==)>(su: Setup<S, B, C>, l: LoopState<S, B, C>): Acquisition<S, B, C>
  {
    match su.advisory
    case None => Acquired(l, None)
    case Some(track) =>
      match track.propose(l.consulted)
      case Proposed(p) => Acquired(l.(consulted := l.consulted + 1), p)
      case ProposeRaised(fault) => AcquisitionFault(l.(consulted := l.consulted + 1), fault)
  }

  function Divergences<S, B, C(==)>(su: Setup<S, B, C>, p: Preliminary<C>, proposal: Option<Proposal<C>>): seq<string>
  {
    if proposal.Some? && su.advisory.Some? then su.advisory.value.compare(ComparedCall(p), proposal.value) else []
  }

  /** Ask the policy what it wants, acquire it at most once per cycle, then let it decide. */
  function Select<S, B, C(==)>(su: Setup<S, B, C>, l: LoopState<S, B, C>, step: nat, s: S, plan: PlannerResult<C>,
    replans: nat, requests: nat, acquired: bool, cached: Option<Proposal<C>>): Selection<S, B, C>
    requires !plan.PlannerFailure? && replans <= su.config.maxRejections
    decreases su.config.maxRejections - replans, if l.pending == [] then 1 else 0, 1
  {
    if WantsProposal(su.policy, su.config.failureThreshold, Situation(su, l, s, plan)) && !acquired then
      match Acquire(su, l)
      case AcquisitionFault(l1, fault) =>
        Ended(NoteFault(su, l1, step, s, Some(plan), fault), FaultHalt(su.config), replans, requests)
      case Acquired(l1, proposal) => Decide(su, l1, step, s, plan, replans, requests, true, proposal)
    else Decide(su, l, step, s, plan, replans, requests, acquired, cached)
  }

  function Decide<S, B, C(==)>(su: Setup<S, B, C>, l: LoopState<S, B, C>, step: nat, s: S, plan: PlannerResult<C>,
    replans: nat, requests: nat, acquired: bool, cached: Option<Proposal<C>>): Selection<S, B, C>
    requires !plan.PlannerFailure? && replans <= su.config.maxRejections
    decreases su.config.maxRejections - replans, if l.pending == [] then 1 else 0, 0
  {
    var p := Situation(su, l, s, plan);
    var proposal := if WantsProposal(su.policy, su.config.failureThreshold, p) then cached else None;
    match Route(su.policy, su.config.failureThreshold, p)
    case EnactCall(call) => Chosen(l, plan, call, proposal, Divergences(su, p, proposal), replans, requests)
    case HaltEpisode(about) =>
      var l1 := Note(su, l, PlainEntry(step, s, Some(plan), Some(DecisionHalt), about, None, []));
      Ended(l1, Some(if about.Some? then HaltedRepeatedFailure else HaltedNoPlan), replans, requests)
    case AskForProposal(call) =>
      var l1 := Note(su, l, PlainEntry(step, s, Some(plan), Some(DecisionRequestProposal), Some(call), None, []));
      var l2 := l1.(pending := RecoveryFor(su.recovery, l1.reports, call));
      if l2.pending == [] then
        var l3 := Note(su, l2, PlainEntry(step, s, Some(plan), Some(DecisionHalt), Some(call), None, []));
        Ended(l3, Some(HaltedRepeatedFailure), replans, requests + 1)
      else Select(su, l2, step, s, plan, replans, requests + 1, acquired, cached)
    case ReplanCycle =>
      if replans + 1 > su.config.maxRejections then
        Ended(NoteFault(su, l, step, s, Some(plan), PROTOCOL_FAULT), FaultHalt(su.config), replans + 1, requests)
      else
        var again := su.plan(l.belief, s);
        if again.PlannerFailure? then
          Ended(NoteFault(su, l, step, s, Some(again), PLANNER_FAULT), FaultHalt(su.config), replans + 1, requests)
        else Select(su, l, step, s, again, replans + 1, requests, acquired, cached)
  }

  // ---------------------------------------------------------------------------------------------
  // Gates and the attempt
  // ---------------------------------------------------------------------------------------------

  datatype CycleEnd<S, B, C(==)> = CycleEnd(state: LoopState<S, B, C>, outcome: Option<EpisodeOutcome>)

  function Observe<S, B, C(==)>(su: Setup<S, B, C>, l: LoopState<S, B, C>): (LoopState<S, B, C>, Option<Fault>)
  {
    match su.advisory
    case None => (l, None)
    case Some(track) => (l.(consulted := l.consulted + 1), track.observe(l.consulted))
  }

  /** The columns of an executed entry: enacted advice first, otherwise the advisory proposal. */
  function AdviceOf<C>(call: C, fromRecovery: bool, proposal: Option<Proposal<C>>, divergences: seq<string>): Advice<C>
  {
    Advice(
      if fromRecovery then Some(call) else if proposal.Some? then proposal.value.call else None,
      if proposal.Some? then proposal.value.coverage else None,
      if proposal.Some? && proposal.value.confidence.Some? then [proposal.value.confidence.value] else [],
      divergences)
  }

  /** The grounding gate, then the symbolic gate, then the attempt. */
  function Enact<S, B, C(==)>(su: Setup<S, B, C>, l: LoopState<S, B, C>, step: nat, s: S, plan: PlannerResult<C>,
    call: C, proposal: Option<Proposal<C>>, divergences: seq<string>): CycleEnd<S, B, C>
  {
    var advice := AdviceOf(call, l.pending != [] && call == l.pending[0], proposal, divergences);
    if !su.grounded(s, call) then
      var l1 := Note(su, l, PlainEntry(step, s, Some(plan), None, Some(call), Some(UngroundedCall),
        [UNGROUNDED_FAULT]));
      CycleEnd(l1.(pending := []), FaultHalt(su.config))
    else
      var verdict := su.evaluate(l.belief, call);
      if verdict.SymbolicallyInapplicable? then
        var l1 := Note(su, l, PlainEntry(step, s, Some(plan), Some(DecisionReplan), Some(call), Some(verdict), []));
        CycleEnd(l1.(pending := []), None)
      else
        Perform(su, l, step, s, plan, call, verdict, advice, divergences)
  }

  /** The attempt itself: ask the environment, log the exchange, and route its answer. */
  function Perform<S, B, C(==)>(su: Setup<S, B, C>, l: LoopState<S, B, C>, step: nat, s: S, plan: PlannerResult<C>,
    call: C, verdict: CallValidation, advice: Advice<C>, divergences: seq<string>): CycleEnd<S, B, C>
  {
    var response := su.env.executeSkill(l.log, call);
    var l1 := l.(log := l.log + [Exchange(call, response)]);
    match Execute(response)
    case Completed(r) => AfterResult(su, l1, step, s, plan, call, verdict, advice, r)
    case Faulted(fault, Some(r)) => AfterFaultedResult(su, l1, step, s, plan, call, verdict, advice, fault, r)
    case Faulted(fault, None) => AfterFault(su, l1, step, s, plan, call, verdict, divergences, fault)
    case Refused(v) => AfterRefusal(su, l1, step, s, plan, call, v)
  }

  /** A typed rejection from the environment is the fault it stands for. */
  function AfterRefusal<S, B, C(==)>(su: Setup<S, B, C>, l: LoopState<S, B, C>, step: nat, s: S,
    plan: PlannerResult<C>, call: C, v: Rejection): CycleEnd<S, B, C>
  {
    var fault := Fault(if v.MalformedCall? then MalformedSkillCall else MissingGrounding, Unstaged, None);
    CycleEnd(Note(su, l, PlainEntry(step, s, Some(plan), None, Some(call), Some(v), [fault])), FaultHalt(su.config))
  }

  function Validated(verdict: CallValidation): Option<CallValidation>
  {
    if verdict.ValidatedCall? then Some(verdict) else None
  }

  function ExecutedEntry<S, C>(step: nat, s: S, plan: PlannerResult<C>, call: C, validation: Option<CallValidation>,
    advice: Advice<C>, r: ExecutionResult<S, C>, reports: seq<Report<C>>, faults: seq<Fault>): Entry<S, C>
  {
    Entry(step, s, Some(plan), Some(DecisionExecute), Some(call), validation, Some(r), reports, faults, advice)
  }

  /** The normal path: maintain the belief, let the track observe, monitor, record. */
  function AfterResult<S, B, C(==)>(su: Setup<S, B, C>, l: LoopState<S, B, C>, step: nat, s: S, plan: PlannerResult<C>,
    call: C, verdict: CallValidation, advice: Advice<C>, r: ExecutionResult<S, C>): CycleEnd<S, B, C>
  {
    var pre := l.belief;
    var (l1, observeFault) := Observe(su, l.(belief := su.record(su.sync(pre, r.post), r)));
    if observeFault.Some? then
      CycleEnd(Note(su, l1, ExecutedEntry(step, s, plan, call, Some(verdict), advice, r, [], [observeFault.value])),
        FaultHalt(su.config))
    else AfterObservation(su, l1, step, s, plan, call, verdict, advice, pre, r)
  }

  /** Monitor on the belief the attempt was chosen under; standing advice is consumed here only. */
  function AfterObservation<S, B, C(==)>(su: Setup<S, B, C>, l: LoopState<S, B, C>, step: nat, s: S,
    plan: PlannerResult<C>, call: C, verdict: CallValidation, advice: Advice<C>, pre: B,
    r: ExecutionResult<S, C>): CycleEnd<S, B, C>
  {
    var verdicts := su.monitor(pre, r);
    var reports := if verdicts.Reported? then verdicts.reports else [];
    var faults := if verdicts.Reported? then [] else [PROTOCOL_FAULT];
    var l1 := l.(reports := l.reports + reports, pending := if l.pending == [] then [] else l.pending[1..]);
    CycleEnd(Note(su, l1, ExecutedEntry(step, s, plan, call, Some(verdict), advice, r, reports, faults)),
      if verdicts.Reported? then None else FaultHalt(su.config))
  }

  /** Case (a): the attempt completed and then faulted; only the monitor is skipped. */
  function AfterFaultedResult<S, B, C(==)>(su: Setup<S, B, C>, l: LoopState<S, B, C>, step: nat, s: S,
    plan: PlannerResult<C>, call: C, verdict: CallValidation, advice: Advice<C>, fault: Fault,
    r: ExecutionResult<S, C>): CycleEnd<S, B, C>
  {
    var (l1, observeFault) := Observe(su, l.(belief := su.record(su.sync(l.belief, r.post), r)));
    var faults := [fault] + if observeFault.Some? then [observeFault.value] else [];
    CycleEnd(Note(su, l1, ExecutedEntry(step, s, plan, call, Validated(verdict), advice, r, [], faults)),
      FaultHalt(su.config))
  }

  /** Cases (b) and (c): the case-(c) key charges one executive step and its primitives. */
  function AfterFault<S, B, C(==)>(su: Setup<S, B, C>, l: LoopState<S, B, C>, step: nat, s: S, plan: PlannerResult<C>,
    call: C, verdict: CallValidation, divergences: seq<string>, fault: Fault): CycleEnd<S, B, C>
  {
    var l1 := if fault.caseC.Some?
      then l.(extraExecutive := l.extraExecutive + 1, extraPrimitive := l.extraPrimitive + fault.caseC.value)
      else l;
    CycleEnd(Note(su, l1, Entry(step, s, Some(plan), None, Some(call), Validated(verdict), None, [], [fault],
      Advice(None, None, [], divergences))), FaultHalt(su.config))
  }

  function Cycle<S, B, C(==)>(su: Setup<S, B, C>, l: LoopState<S, B, C>, step: nat, s: S): CycleEnd<S, B, C>
  {
    var plan := su.plan(l.belief, s);
    if plan.PlannerFailure? then
      CycleEnd(NoteFault(su, l, step, s, Some(plan), PLANNER_FAULT), FaultHalt(su.config))
    else
      match Select(su, l, step, s, plan, 0, 0, false, None)
      case Ended(l1, outcome, _, _) => CycleEnd(l1, outcome)
      case Chosen(l1, chosen, call, proposal, divergences, _, _) =>
        Enact(su, l1, step, s, chosen, call, proposal, divergences)
  }

  // ---------------------------------------------------------------------------------------------
  // What a cycle does to the charges: an independent ledger over what the environment answered
  // ---------------------------------------------------------------------------------------------

  /** The executive step an answer costs: a result, a fault with a result or with the key, or an alien value. */
  function StepCharge<S, C>(r: Response<S, C>): nat
  {
    match r
    case Returned(_) => 1
    case RaisedFault(_, Some(_)) => 1
    case RaisedFault(fault, None) => if fault.caseC.Some? then 1 else 0
    case OffContract => 1
    case Rejected(_) => 0
  }

  function PrimitiveCharge<S, C>(r: Response<S, C>): nat
  {
    match r
    case Returned(result) => result.primitiveSteps
    case RaisedFault(_, Some(result)) => result.primitiveSteps
    case RaisedFault(fault, None) => if fault.caseC.Some? then fault.caseC.value else 0
    case OffContract => 0
    case Rejected(_) => 0
  }

  function StepLedger<S, C>(log: seq<Exchange<S, C>>): nat
    decreases |log|
  {
    if log == [] then 0 else StepLedger(Init(log)) + StepCharge(Last(log).response)
  }

  function PrimitiveLedger<S, C>(log: seq<Exchange<S, C>>): nat
    decreases |log|
  {
    if log == [] then 0 else PrimitiveLedger(Init(log)) + PrimitiveCharge(Last(log).response)
  }

  /** Nothing was asked of the environment and nothing was charged. */
  ghost predicate NothingCharged<S, B, C>(l: LoopState<S, B, C>, after: LoopState<S, B, C>)
  {
    && after.log == l.log && ExecutiveCharged(after) == ExecutiveCharged(l)
    && PrimitiveCharged(after) == PrimitiveCharged(l)
  }

  /** One attempt was made, and exactly what its answer costs was charged. */
  ghost predicate OneCharged<S, B, C>(l: LoopState<S, B, C>, after: LoopState<S, B, C>)
  {
    && after.log != [] && Init(after.log) == l.log
    && ExecutiveCharged(after) == ExecutiveCharged(l) + StepCharge(Last(after.log).response)
    && PrimitiveCharged(after) == PrimitiveCharged(l) + PrimitiveCharge(Last(after.log).response)
  }

  lemma NoteCharges<S, B, C>(su: Setup<S, B, C>, l: LoopState<S, B, C>, e: Entry<S, C>)
    ensures Note(su, l, e).log == l.log
    ensures ExecutiveCharged(Note(su, l, e)) == ExecutiveCharged(l) + StepsOf(e)
    ensures PrimitiveCharged(Note(su, l, e)) == PrimitiveCharged(l) + PrimitivesOf(e)
  {
    assert Init(l.entries + [e]) == l.entries;
  }

  /** The history only grew, by entries that record no execution and no report; nothing else but advice moved. */
  ghost predicate OnlyNotes<S, B, C>(l: LoopState<S, B, C>, after: LoopState<S, B, C>)
  {
    && after.belief == l.belief && after.log == l.log && after.reports == l.reports && after.failures == l.failures
    && after.extraExecutive == l.extraExecutive && after.extraPrimitive == l.extraPrimitive
    && |l.entries| <= |after.entries| && after.entries[..|l.entries|] == l.entries
    && forall i :: |l.entries| <= i < |after.entries| ==>
         after.entries[i].execution.None? && after.entries[i].reports == []
  }

  lemma PlainNote<S, B, C>(su: Setup<S, B, C>, l: LoopState<S, B, C>, after: LoopState<S, B, C>, e: Entry<S, C>)
    requires OnlyNotes(l, after) && e.execution.None? && e.reports == []
    ensures OnlyNotes(l, Note(su, after, e))
  {
  }

  lemma NotesTransitive<S, B, C>(l: LoopState<S, B, C>, mid: LoopState<S, B, C>, after: LoopState<S, B, C>)
    requires OnlyNotes(l, mid) && OnlyNotes(mid, after)
    ensures OnlyNotes(l, after)
  {
    assert after.entries[..|l.entries|] == after.entries[..|mid.entries|][..|l.entries|];
    assert forall i :: |l.entries| <= i < |mid.entries| ==> after.entries[i] == after.entries[..|mid.entries|][i];
  }

  lemma {:induction false} NotesChargeNothing<S, B, C>(l: LoopState<S, B, C>, after: LoopState<S, B, C>)
    requires OnlyNotes(l, after)
    ensures NothingCharged(l, after)
    decreases |after.entries|
  {
    if |after.entries| > |l.entries| {
      NotesChargeNothing(l, after.(entries := Init(after.entries)));
    } else {
      assert after.entries == l.entries;
    }
  }

  /** Selecting touches nothing but the history and the standing advice. */
  lemma {:induction false} SelectNotes<S, B, C>(su: Setup<S, B, C>, l: LoopState<S, B, C>, step: nat, s: S,
    plan: PlannerResult<C>, replans: nat, requests: nat, acquired: bool, cached: Option<Proposal<C>>)
    requires !plan.PlannerFailure? && replans <= su.config.maxRejections
    ensures OnlyNotes(l, Select(su, l, step, s, plan, replans, requests, acquired, cached).state)
    decreases su.config.maxRejections - replans, if l.pending == [] then 1 else 0, 1
  {
    if WantsProposal(su.policy, su.config.failureThreshold, Situation(su, l, s, plan)) && !acquired {
      match Acquire(su, l)
      case AcquisitionFault(l1, fault) =>
        PlainNote(su, l, l1, PlainEntry(step, s, Some(plan), None, None, None, [fault]));
      case Acquired(l1, proposal) =>
        DecideNotes(su, l1, step, s, plan, replans, requests, true, proposal);
        NotesTransitive(l, l1, Decide(su, l1, step, s, plan, replans, requests, true, proposal).state);
    } else {
      DecideNotes(su, l, step, s, plan, replans, requests, acquired, cached);
    }
  }

  lemma {:induction false} DecideNotes<S, B, C>(su: Setup<S, B, C>, l: LoopState<S, B, C>, step: nat, s: S,
    plan: PlannerResult<C>, replans: nat, requests: nat, acquired: bool, cached: Option<Proposal<C>>)
    requires !plan.PlannerFailure? && replans <= su.config.maxRejections
    ensures OnlyNotes(l, Decide(su, l, step, s, plan, replans, requests, acquired, cached).state)
    decreases su.config.maxRejections - replans, if l.pending == [] then 1 else 0, 0
  {
    match Route(su.policy, su.config.failureThreshold, Situation(su, l, s, plan))
    case EnactCall(call) =>
    case HaltEpisode(about) =>
      PlainNote(su, l, l, PlainEntry(step, s, Some(plan), Some(DecisionHalt), about, None, []));
    case AskForProposal(call) =>
      var e := PlainEntry(step, s, Some(plan), Some(DecisionRequestProposal), Some(call), None, []);
      PlainNote(su, l, l, e);
      var l2 := Note(su, l, e).(pending := RecoveryFor(su.recovery, l.reports, call));
      if l2.pending == [] {
        PlainNote(su, l, l2, PlainEntry(step, s, Some(plan), Some(DecisionHalt), Some(call), None, []));
      } else {
        SelectNotes(su, l2, step, s, plan, replans, requests + 1, acquired, cached);
        NotesTransitive(l, l2, Select(su, l2, step, s, plan, replans, requests + 1, acquired, cached).state);
      }
    case ReplanCycle =>
      PlainNote(su, l, l, PlainEntry(step, s, Some(plan), None, None, None, [PROTOCOL_FAULT]));
      if replans + 1 <= su.config.maxRejections {
        var again := su.plan(l.belief, s);
        if again.PlannerFailure? {
          PlainNote(su, l, l, PlainEntry(step, s, Some(again), None, None, None, [PLANNER_FAULT]));
        } else {
          SelectNotes(su, l, step, s, again, replans + 1, requests, acquired, cached);
        }
      }
  }

  lemma AfterObservationCharges<S, B, C>(su: Setup<S, B, C>, l: LoopState<S, B, C>, step: nat, s: S,
    plan: PlannerResult<C>, call: C, verdict: CallValidation, advice: Advice<C>, pre: B, r: ExecutionResult<S, C>)
    ensures var after := AfterObservation(su, l, step, s, plan, call, verdict, advice, pre, r).state;
            after.log == l.log && ExecutiveCharged(after) == ExecutiveCharged(l) + 1
            && PrimitiveCharged(after) == PrimitiveCharged(l) + r.primitiveSteps
  {
    var after := AfterObservation(su, l, step, s, plan, call, verdict, advice, pre, r).state;
    assert Init(after.entries) == l.entries;
  }

  lemma AfterResultCharges<S, B, C>(su: Setup<S, B, C>, l: LoopState<S, B, C>, step: nat, s: S, plan: PlannerResult<C>,
    call: C, verdict: CallValidation, advice: Advice<C>, r: ExecutionResult<S, C>)
    ensures var after := AfterResult(su, l, step, s, plan, call, verdict, advice, r).state;
            after.log == l.log && ExecutiveCharged(after) == ExecutiveCharged(l) + 1
            && PrimitiveCharged(after) == PrimitiveCharged(l) + r.primitiveSteps
  {
    hide AfterObservation, Note;
    var (l1, observeFault) := Observe(su, l.(belief := su.record(su.sync(l.belief, r.post), r)));
    if observeFault.Some? {
      NoteCharges(su, l1, ExecutedEntry(step, s, plan, call, Some(verdict), advice, r, [], [observeFault.value]));
    } else {
      AfterObservationCharges(su, l1, step, s, plan, call, verdict, advice, l.belief, r);
    }
  }

  lemma AfterFaultedResultCharges<S, B, C>(su: Setup<S, B, C>, l: LoopState<S, B, C>, step: nat, s: S,
    plan: PlannerResult<C>, call: C, verdict: CallValidation, advice: Advice<C>, fault: Fault,
    r: ExecutionResult<S, C>)
    ensures var after := AfterFaultedResult(su, l, step, s, plan, call, verdict, advice, fault, r).state;
            after.log == l.log && ExecutiveCharged(after) == ExecutiveCharged(l) + 1
            && PrimitiveCharged(after) == PrimitiveCharged(l) + r.primitiveSteps
  {
    var after := AfterFaultedResult(su, l, step, s, plan, call, verdict, advice, fault, r).state;
    assert Init(after.entries) == l.entries;
  }

  lemma AfterFaultCharges<S, B, C>(su: Setup<S, B, C>, l: LoopState<S, B, C>, step: nat, s: S, plan: PlannerResult<C>,
    call: C, verdict: CallValidation, divergences: seq<string>, fault: Fault)
    ensures var after := AfterFault(su, l, step, s, plan, call, verdict, divergences, fault).state;
            after.log == l.log
            && ExecutiveCharged(after) == ExecutiveCharged(l) + (if fault.caseC.Some? then 1 else 0)
            && PrimitiveCharged(after) == PrimitiveCharged(l) + (if fault.caseC.Some? then fault.caseC.value else 0)
  {
    var after := AfterFault(su, l, step, s, plan, call, verdict, divergences, fault).state;
    assert Init(after.entries) == l.entries;
  }

  lemma PerformCharges<S, B, C>(su: Setup<S, B, C>, l: LoopState<S, B, C>, step: nat, s: S, plan: PlannerResult<C>,
    call: C, verdict: CallValidation, advice: Advice<C>, divergences: seq<string>)
    ensures OneCharged(l, Perform(su, l, step, s, plan, call, verdict, advice, divergences).state)
  {
    hide AfterResult, AfterFaultedResult, AfterFault;
    var response := su.env.executeSkill(l.log, call);
    var l1 := l.(log := l.log + [Exchange(call, response)]);
    assert Init(l1.log) == l.log;
    match Execute(response)
    case Completed(r) => AfterResultCharges(su, l1, step, s, plan, call, verdict, advice, r);
    case Faulted(fault, Some(r)) => AfterFaultedResultCharges(su, l1, step, s, plan, call, verdict, advice, fault, r);
    case Faulted(fault, None) => AfterFaultCharges(su, l1, step, s, plan, call, verdict, divergences, fault);
    case Refused(v) =>
      var fault := Fault(if v.MalformedCall? then MalformedSkillCall else MissingGrounding, Unstaged, None);
      NoteCharges(su, l1, PlainEntry(step, s, Some(plan), None, Some(call), Some(v), [fault]));
  }

  lemma EnactCharges<S, B, C>(su: Setup<S, B, C>, l: LoopState<S, B, C>, step: nat, s: S, plan: PlannerResult<C>,
    call: C, proposal: Option<Proposal<C>>, divergences: seq<string>)
    ensures var after := Enact(su, l, step, s, plan, call, proposal, divergences).state;
            NothingCharged(l, after) || OneCharged(l, after)
  {
    hide Perform;
    var advice := AdviceOf(call, l.pending != [] && call == l.pending[0], proposal, divergences);
    var verdict := su.evaluate(l.belief, call);
    NoteCharges(su, l, PlainEntry(step, s, Some(plan), None, Some(call), Some(UngroundedCall), [UNGROUNDED_FAULT]));
    NoteCharges(su, l, PlainEntry(step, s, Some(plan), Some(DecisionReplan), Some(call), Some(verdict), []));
    PerformCharges(su, l, step, s, plan, call, verdict, advice, divergences);
  }

  lemma CycleCharges<S, B, C>(su: Setup<S, B, C>, l: LoopState<S, B, C>, step: nat, s: S)
    ensures var after := Cycle(su, l, step, s).state; NothingCharged(l, after) || OneCharged(l, after)
    ensures ExecutiveCharged(l) <= ExecutiveCharged(Cycle(su, l, step, s).state) <= ExecutiveCharged(l) + 1
  {
    var plan := su.plan(l.belief, s);
    if plan.PlannerFailure? {
      NoteCharges(su, l, PlainEntry(step, s, Some(plan), None, None, None, [PLANNER_FAULT]));
    } else {
      SelectNotes(su, l, step, s, plan, 0, 0, false, None);
      NotesChargeNothing(l, Select(su, l, step, s, plan, 0, 0, false, None).state);
      match Select(su, l, step, s, plan, 0, 0, false, None)
      case Ended(l1, outcome, _, _) =>
      case Chosen(l1, chosen, call, proposal, divergences, _, _) =>
        EnactCharges(su, l1, step, s, chosen, call, proposal, divergences);
    }
  }

  // ---------------------------------------------------------------------------------------------
  // The run
  // ---------------------------------------------------------------------------------------------

  datatype Turn<S, B, C(==)> =
    | Stopped(state: LoopState<S, B, C>, outcome: EpisodeOutcome, began: bool)
    | Continues(state: LoopState<S, B, C>, first: bool)

  /** Until it succeeds once, the track observes the synced snapshot before the cycle. */
  function Open<S, B, C(==)>(su: Setup<S, B, C>, l: LoopState<S, B, C>,
    first: bool): (LoopState<S, B, C>, Option<Fault>)
  {
    if first then Observe(su, l) else (l, None)
  }

  function Synced<S, B, C(==)>(su: Setup<S, B, C>, l: LoopState<S, B, C>, step: nat): LoopState<S, B, C>
  {
    l.(belief := su.sync(l.belief, su.env.exportState(step, l.log)))
  }

  /** Sync, open, goal gate before budget gate, then one cycle; an observe fault replaces the cycle. */
  function OneTurn<S, B, C(==)>(su: Setup<S, B, C>, l: LoopState<S, B, C>, step: nat, first: bool): Turn<S, B, C>
  {
    var s := su.env.exportState(step, l.log);
    var (l1, fault) := Open(su, Synced(su, l, step), first);
    if fault.Some? then
      var l2 := NoteFault(su, l1, step, s, None, fault.value);
      if su.config.haltOnFault then Stopped(l2, FaultedEpisode, true) else Continues(l2, true)
    else if su.satisfied(s) then Stopped(l1, GoalReached, false)
    else if OutOfBudget(su.config, l1) then Stopped(l1, BudgetExhausted, false)
    else
      var end := Cycle(su, l1, step, s);
      if end.outcome.Some? then Stopped(end.state, end.outcome.value, true)
      else Continues(end.state, first && su.advisory.None?)
  }

  /** A turn charges at most one executive step, and only while the budget is not used up. */
  lemma TurnCharges<S, B, C>(su: Setup<S, B, C>, l: LoopState<S, B, C>, step: nat, first: bool)
    ensures var after := OneTurn(su, l, step, first).state; NothingCharged(l, after) || OneCharged(l, after)
    ensures var after := OneTurn(su, l, step, first).state;
            ExecutiveCharged(after) == ExecutiveCharged(l)
            || (ExecutiveCharged(after) == ExecutiveCharged(l) + 1 && ExecutiveCharged(l) < su.config.executiveBudget)
  {
    var s := su.env.exportState(step, l.log);
    var (l1, fault) := Open(su, Synced(su, l, step), first);
    if fault.Some? {
      NoteCharges(su, l1, PlainEntry(step, s, None, None, None, None, [fault.value]));
    } else if !su.satisfied(s) && !OutOfBudget(su.config, l1) {
      CycleCharges(su, l1, step, s);
    }
  }

  datatype Episode<S, B, C(==)> = Episode(state: LoopState<S, B, C>, outcome: EpisodeOutcome, cycles: nat)

  /** The liveness guard's record: the next step index and the last synced snapshot. */
  function Guarded<S, B, C(==)>(su: Setup<S, B, C>, l: LoopState<S, B, C>, after: LoopState<S, B, C>,
    step: nat): Episode<S, B, C>
  {
    Episode(NoteFault(su, after, step + 1, su.env.exportState(step, l.log), None, PROTOCOL_FAULT),
      FaultedEpisode, step + 1)
  }

  /**
    The outer loop. It terminates because every turn either charges an executive step, of which there
    are `executiveBudget`, or adds to the zero-charge turns, of which the guard admits `maxRejections`.
  */
  function RunFrom<S, B, C(==)>(su: Setup<S, B, C>, l: LoopState<S, B, C>, step: nat, first: bool,
    zeroCharge: nat): Episode<S, B, C>
    requires ExecutiveCharged(l) <= su.config.executiveBudget && zeroCharge <= su.config.maxRejections
    decreases su.config.executiveBudget - ExecutiveCharged(l), su.config.maxRejections - zeroCharge
  {
    TurnCharges(su, l, step, first);
    match OneTurn(su, l, step, first)
    case Stopped(after, outcome, began) => Episode(after, outcome, if began then step + 1 else step)
    case Continues(after, first') =>
      if ExecutiveCharged(after) > ExecutiveCharged(l) then RunFrom(su, after, step + 1, first', 0)
      else if zeroCharge + 1 > su.config.maxRejections then Guarded(su, l, after, step)
      else RunFrom(su, after, step + 1, first', zeroCharge + 1)
  }

  function Run<S, B, C(==)>(su: Setup<S, B, C>, belief: B): Episode<S, B, C>
  {
    RunFrom(su, Fresh(belief), 0, true, 0)
  }
}
