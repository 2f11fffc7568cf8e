/**
  What a cycle records of the answer it got, column by column, and which call it asks for
  (runtime/loop.py, runtime/policies.py, runtime/executor.py).

  `LoopModel` follows the paths of the source; the predicates here say for each column what every
  answer leaves in it, whichever path led there.
*/
module LoopRecord {
  import opened Common
  import opened Skills
  import opened Search
  import opened Execution
  import opened Executive
  import opened LoopModel
  import opened LoopTheorems

  // ---------------------------------------------------------------------------------------------
  // One attempt
  // ---------------------------------------------------------------------------------------------

  /** The result an answer carries, attached to a fault or not. */
  ghost function ResultOf<S, C>(r: Response<S, C>): Option<ExecutionResult<S, C>>
  {
    if r.Returned? then Some(r.result) else if r.RaisedFault? then r.attached else None
  }

  /** What the observing track raises after a completed attempt. */
  ghost function ObserveFaults<S, B, C>(su: Setup<S, B, C>, consulted: nat, r: Response<S, C>): seq<Fault>
  {
    if ResultOf(r).Some? && su.advisory.Some? && su.advisory.value.observe(consulted).Some?
    then [su.advisory.value.observe(consulted).value] else []
  }

  /** The attempt completed without a fault up to the monitor, so the monitor judges it. */
  ghost predicate IsJudged<S, B, C>(su: Setup<S, B, C>, consulted: nat, r: Response<S, C>)
  {
    r.Returned? && ObserveFaults(su, consulted, r) == []
  }

  /** The belief after an answer: maintained for every result, judged or not, and for nothing else. */
  ghost function BeliefAfter<S, B, C>(su: Setup<S, B, C>, b: B, r: Response<S, C>): B
  {
    if ResultOf(r).Some? then su.record(su.sync(b, ResultOf(r).value.post), ResultOf(r).value) else b
  }

  /** The monitor's reports, for a judged attempt only, on the belief before it. */
  ghost function ReportsAfter<S, B, C>(su: Setup<S, B, C>, b: B, consulted: nat, r: Response<S, C>): seq<Report<C>>
  {
    if IsJudged(su, consulted, r) && su.monitor(b, r.result).Reported? then su.monitor(b, r.result).reports else []
  }

  /** The faults an answer leaves: its own one first, then the observer's; or the monitor's. */
  ghost predicate FaultsFit<S, B, C>(su: Setup<S, B, C>, b: B, consulted: nat, r: Response<S, C>, faults: seq<Fault>)
  {
    match r
    case Returned(result) =>
      if IsJudged(su, consulted, r) then faults == if su.monitor(b, result).Reported? then [] else [PROTOCOL_FAULT]
      else faults == ObserveFaults(su, consulted, r)
    case RaisedFault(fault, _) => faults == [fault] + ObserveFaults(su, consulted, r)
    case Rejected(v) =>
      |faults| == 1 && faults[0].kind == (if v.MalformedCall? then MalformedSkillCall else MissingGrounding)
    case OffContract => |faults| == 1 && faults[0].kind == MalformedBackendResult
  }

  /** The validation column: the gate's verdict, kept beside a fault only if it validated; the boundary's rejection. */
  ghost predicate ValidationFits<S, C>(verdict: CallValidation, r: Response<S, C>, validation: Option<CallValidation>)
  {
    match r
    case Returned(_) => validation == Some(verdict)
    case Rejected(v) => validation == Some(v)
    case _ => validation == if verdict.ValidatedCall? then Some(verdict) else None
  }

  /** What is charged beside the recorded results: a bare fault that carries the key, or an alien value. */
  ghost function ExtraSteps<S, C>(r: Response<S, C>): nat
  {
    if r.OffContract? || (r.RaisedFault? && r.attached.None? && r.fault.caseC.Some?) then 1 else 0
  }

  ghost function ExtraPrimitives<S, C>(r: Response<S, C>): nat
  {
    if r.RaisedFault? && r.attached.None? && r.fault.caseC.Some? then r.fault.caseC.value else 0
  }

  /** The evidence beside an attempt: enacted advice first, then the proposal with its reports. */
  ghost predicate AdviceFits<S, C>(standing: bool, call: C, proposal: Option<Proposal<C>>, divergences: seq<string>,
    r: Response<S, C>, advice: Advice<C>)
  {
    if ResultOf(r).None? then
      advice == Advice(None, None, [], if r.Rejected? then [] else divergences)
    else
      && advice.divergences == divergences
      && (standing ==> advice.proposal == Some(call))
      && (!standing && proposal.Some? ==> advice.proposal == proposal.value.call)
      && (!standing && proposal.None? ==> advice.proposal == None)
      && (proposal.Some? ==> advice.coverage == proposal.value.coverage)
      && (proposal.None? ==> advice.coverage == None && advice.confidence == [])
      && (proposal.Some? ==> forall c :: c in advice.confidence <==> proposal.value.confidence == Some(c))
      && |advice.confidence| <= 1
  }

  /** The one entry an attempt leaves, column by column. */
  ghost predicate EntryFits<S, B, C>(su: Setup<S, B, C>, b: B, consulted: nat, step: nat, s: S,
    plan: PlannerResult<C>, call: C, verdict: CallValidation, r: Response<S, C>, e: Entry<S, C>)
  {
    && e.step == step && e.pre == s && e.plan == Some(plan) && e.selected == Some(call)
    && e.execution == ResultOf(r) && e.decision == (if ResultOf(r).Some? then Some(DecisionExecute) else None)
    && e.reports == ReportsAfter(su, b, consulted, r)
    && ValidationFits(verdict, r, e.validation) && FaultsFit(su, b, consulted, r, e.faults)
  }

  /** Everything beside the entry. */
  ghost predicate StateFits<S, B, C>(su: Setup<S, B, C>, l: LoopState<S, B, C>, r: Response<S, C>,
    after: LoopState<S, B, C>)
  {
    && after.belief == BeliefAfter(su, l.belief, r)
    && after.reports == l.reports + ReportsAfter(su, l.belief, l.consulted, r)
    && after.pending == (if IsJudged(su, l.consulted, r) && l.pending != [] then l.pending[1..] else l.pending)
    && after.consulted == l.consulted + (if ResultOf(r).Some? && su.advisory.Some? then 1 else 0)
    && after.extraExecutive == l.extraExecutive + ExtraSteps(r)
    && after.extraPrimitive == l.extraPrimitive + ExtraPrimitives(r)
    && after.entries != [] && Init(after.entries) == l.entries
    && after.failures == Bumped(su.worldKey, l.failures, Last(after.entries))
  }

  /** What an answer leaves, except for the advice columns of its entry. */
  ghost predicate IsRecorded<S, B, C>(su: Setup<S, B, C>, l: LoopState<S, B, C>, step: nat, s: S,
    plan: PlannerResult<C>, call: C, verdict: CallValidation, r: Response<S, C>, end: CycleEnd<S, B, C>)
  {
    && StateFits(su, l, r, end.state)
    && EntryFits(su, l.belief, l.consulted, step, s, plan, call, verdict, r, Last(end.state.entries))
    && OutcomeFits(su.config, Last(end.state.entries).faults, end.outcome)
  }

  /** A cycle that made an attempt ends the run if and only if its entry carries a fault and faults halt. */
  ghost predicate OutcomeFits(config: OrchestrationConfig, faults: seq<Fault>, outcome: Option<EpisodeOutcome>)
  {
    outcome == if faults != [] && config.haltOnFault then Some(FaultedEpisode) else None
  }

  /** The whole effect of an answer to an attempt, once it is logged. */
  ghost predicate AnswerFits<S, B, C>(su: Setup<S, B, C>, l: LoopState<S, B, C>, step: nat, s: S,
    plan: PlannerResult<C>, call: C, verdict: CallValidation, standing: bool, proposal: Option<Proposal<C>>,
    divergences: seq<string>, r: Response<S, C>, end: CycleEnd<S, B, C>)
  {
    && IsRecorded(su, l, step, s, plan, call, verdict, r, end)
    && AdviceFits(standing, call, proposal, divergences, r, Last(end.state.entries).advice)
  }

  /** The whole effect of an attempt: its exchange is logged, and its answer leaves what it leaves. */
  ghost predicate AttemptFits<S, B, C>(su: Setup<S, B, C>, l: LoopState<S, B, C>, step: nat, s: S,
    plan: PlannerResult<C>, call: C, proposal: Option<Proposal<C>>, divergences: seq<string>, end: CycleEnd<S, B, C>)
  {
    var r := su.env.executeSkill(l.log, call);
    var standing := l.pending != [] && call == l.pending[0];
    && end.state.log == l.log + [Exchange(call, r)]
    && AnswerFits(su, l, step, s, plan, call, su.evaluate(l.belief, call), standing, proposal, divergences, r, end)
  }

  lemma ResultIsRecorded<S, B, C>(su: Setup<S, B, C>, l: LoopState<S, B, C>, step: nat, s: S, plan: PlannerResult<C>,
    call: C, verdict: CallValidation, standing: bool, proposal: Option<Proposal<C>>, divergences: seq<string>,
    result: ExecutionResult<S, C>)
    ensures var end := AfterResult(su, l, step, s, plan, call, verdict,
                         AdviceOf(call, standing, proposal, divergences), result);
            && AnswerFits(su, l, step, s, plan, call, verdict, standing, proposal, divergences, Returned(result), end)
            && end.state.log == l.log
  {
    var columns := AdviceOf(call, standing, proposal, divergences);
    AdviceIsRecorded<S, C>(call, standing, proposal, divergences, Returned(result));
    hide AdviceOf, AdviceFits;
    hide AfterResult, StateFits, EntryFits, OutcomeFits;
    if IsJudged(su, l.consulted, Returned(result)) {
      JudgedIsRecorded(su, l, step, s, plan, call, verdict, columns, result);
    } else {
      UnjudgedIsRecorded(su, l, step, s, plan, call, verdict, columns, result);
    }
  }

  lemma JudgedIsRecorded<S, B, C>(su: Setup<S, B, C>, l: LoopState<S, B, C>, step: nat, s: S, plan: PlannerResult<C>,
    call: C, verdict: CallValidation, columns: Advice<C>, result: ExecutionResult<S, C>)
    requires IsJudged(su, l.consulted, Returned(result))
    ensures var end := AfterResult(su, l, step, s, plan, call, verdict, columns, result);
            && IsRecorded(su, l, step, s, plan, call, verdict, Returned(result), end)
            && end.state.log == l.log && Last(end.state.entries).advice == columns
  {
    hide Bumped, PrimitiveSteps, ExecutiveSteps;
    var end := AfterResult(su, l, step, s, plan, call, verdict, columns, result);
    var verdicts := su.monitor(l.belief, result);
    var reports := if verdicts.Reported? then verdicts.reports else [];
    var faults := if verdicts.Reported? then [] else [PROTOCOL_FAULT];
    var e := ExecutedEntry(step, s, plan, call, Some(verdict), columns, result, reports, faults);
    assert end.state.entries == l.entries + [e];
  }

  lemma UnjudgedIsRecorded<S, B, C>(su: Setup<S, B, C>, l: LoopState<S, B, C>, step: nat, s: S, plan: PlannerResult<C>,
    call: C, verdict: CallValidation, columns: Advice<C>, result: ExecutionResult<S, C>)
    requires !IsJudged(su, l.consulted, Returned(result))
    ensures var end := AfterResult(su, l, step, s, plan, call, verdict, columns, result);
            && IsRecorded(su, l, step, s, plan, call, verdict, Returned(result), end)
            && end.state.log == l.log && Last(end.state.entries).advice == columns
  {
    hide Bumped;
    var end := AfterResult(su, l, step, s, plan, call, verdict, columns, result);
    var fault := su.advisory.value.observe(l.consulted).value;
    assert end.state.entries == l.entries + [ExecutedEntry(step, s, plan, call, Some(verdict), columns,
      result, [], [fault])];
  }

  lemma AdviceIsRecorded<S, C>(call: C, standing: bool, proposal: Option<Proposal<C>>, divergences: seq<string>,
    r: Response<S, C>)
    requires ResultOf(r).Some?
    ensures AdviceFits(standing, call, proposal, divergences, r, AdviceOf(call, standing, proposal, divergences))
  {
  }

  lemma FaultedResultIsRecorded<S, B, C>(su: Setup<S, B, C>, l: LoopState<S, B, C>, step: nat, s: S,
    plan: PlannerResult<C>, call: C, verdict: CallValidation, standing: bool, proposal: Option<Proposal<C>>,
    divergences: seq<string>, fault: Fault, result: ExecutionResult<S, C>)
    ensures var end := AfterFaultedResult(su, l, step, s, plan, call, verdict,
                         AdviceOf(call, standing, proposal, divergences), fault, result);
            && AnswerFits(su, l, step, s, plan, call, verdict, standing, proposal, divergences,
                 RaisedFault(fault, Some(result)), end)
            && end.state.log == l.log
  {
    hide Bumped;
    var end := AfterFaultedResult(su, l, step, s, plan, call, verdict,
      AdviceOf(call, standing, proposal, divergences), fault, result);
    assert Init(end.state.entries) == l.entries;
  }

  lemma FaultIsRecorded<S, B, C>(su: Setup<S, B, C>, l: LoopState<S, B, C>, step: nat, s: S, plan: PlannerResult<C>,
    call: C, verdict: CallValidation, standing: bool, proposal: Option<Proposal<C>>, divergences: seq<string>,
    r: Response<S, C>)
    requires r.OffContract? || (r.RaisedFault? && r.attached.None?)
    ensures var end := AfterFault(su, l, step, s, plan, call, verdict, divergences, Execute(r).fault);
            && AnswerFits(su, l, step, s, plan, call, verdict, standing, proposal, divergences, r, end)
            && end.state.log == l.log
  {
    hide Bumped;
    var end := AfterFault(su, l, step, s, plan, call, verdict, divergences, Execute(r).fault);
    var e: Entry<S, C> := Entry(step, s, Some(plan), None, Some(call), Validated(verdict), None, [], [Execute(r).fault],
      Advice(None, None, [], divergences));
    assert end.state.entries == l.entries + [e];
    BareFaultFits(su, l.belief, l.consulted, step, s, plan, call, verdict, divergences, r, e);
    hide EntryFits, AdviceFits;
  }

  lemma BareFaultFits<S, B, C>(su: Setup<S, B, C>, b: B, consulted: nat, step: nat, s: S, plan: PlannerResult<C>,
    call: C, verdict: CallValidation, divergences: seq<string>, r: Response<S, C>, e: Entry<S, C>)
    requires r.OffContract? || (r.RaisedFault? && r.attached.None?)
    requires e == Entry(step, s, Some(plan), None, Some(call), Validated(verdict), None, [], [Execute(r).fault],
                    Advice(None, None, [], divergences))
    ensures EntryFits(su, b, consulted, step, s, plan, call, verdict, r, e)
    ensures forall standing, proposal :: AdviceFits(standing, call, proposal, divergences, r, e.advice)
  {
  }

  lemma RefusalIsRecorded<S, B, C>(su: Setup<S, B, C>, l: LoopState<S, B, C>, step: nat, s: S, plan: PlannerResult<C>,
    call: C, verdict: CallValidation, standing: bool, proposal: Option<Proposal<C>>, divergences: seq<string>,
    v: Rejection)
    ensures var end := AfterRefusal(su, l, step, s, plan, call, v);
            && AnswerFits(su, l, step, s, plan, call, verdict, standing, proposal, divergences, Rejected(v), end)
            && end.state.log == l.log
  {
    hide Bumped;
    var end := AfterRefusal(su, l, step, s, plan, call, v);
    assert Init(end.state.entries) == l.entries;
  }

  /** Whatever the environment answers, the attempt leaves exactly that. */
  lemma AttemptIsRecorded<S, B, C>(su: Setup<S, B, C>, l: LoopState<S, B, C>, step: nat, s: S, plan: PlannerResult<C>,
    call: C, proposal: Option<Proposal<C>>, divergences: seq<string>)
    ensures var standing := l.pending != [] && call == l.pending[0];
            AttemptFits(su, l, step, s, plan, call, proposal, divergences,
              Perform(su, l, step, s, plan, call, su.evaluate(l.belief, call),
                AdviceOf(call, standing, proposal, divergences), divergences))
  {
    hide AfterResult, AfterFaultedResult, AfterFault, AfterRefusal, EntryFits, AdviceFits, AdviceOf, BeliefAfter,
      ReportsAfter, Bumped;
    var standing := l.pending != [] && call == l.pending[0];
    var r := su.env.executeSkill(l.log, call);
    var verdict := su.evaluate(l.belief, call);
    var l1 := l.(log := l.log + [Exchange(call, r)]);
    match r
    case Returned(result) => ResultIsRecorded(su, l1, step, s, plan, call, verdict, standing, proposal,
      divergences, result);
    case RaisedFault(fault, Some(result)) =>
      FaultedResultIsRecorded(su, l1, step, s, plan, call, verdict, standing, proposal, divergences, fault, result);
    case RaisedFault(_, None) =>
      FaultIsRecorded(su, l1, step, s, plan, call, verdict, standing, proposal, divergences, r);
    case OffContract =>
      FaultIsRecorded(su, l1, step, s, plan, call, verdict, standing, proposal, divergences, r);
    case Rejected(v) =>
      RefusalIsRecorded(su, l1, step, s, plan, call, verdict, standing, proposal, divergences, v);
  }

  // ---------------------------------------------------------------------------------------------
  // The gates
  // ---------------------------------------------------------------------------------------------

  /** A gate's rejection: one entry without an attempt, and no advice stands any more. */
  ghost predicate RejectedAtGate<S, B, C>(su: Setup<S, B, C>, l: LoopState<S, B, C>, step: nat, s: S,
    plan: PlannerResult<C>, call: C, verdict: CallValidation, end: CycleEnd<S, B, C>)
  {
    && end.state == l.(entries := end.state.entries, pending := [])
    && end.state.entries != [] && Init(end.state.entries) == l.entries
    && var e := Last(end.state.entries);
       && e.step == step && e.pre == s && e.plan == Some(plan) && e.selected == Some(call) && e.execution == None
       && e.reports == [] && e.validation == Some(verdict) && e.advice == Advice(None, None, [], [])
       && (if verdict.UngroundedCall? then e.decision == None && |e.faults| == 1 && e.faults[0].kind == MissingGrounding
           else e.decision == Some(DecisionReplan) && e.faults == [])
       && OutcomeFits(su.config, e.faults, end.outcome)
  }

  /** Identities first, then the belief's verdict, and an attempt of exactly the calls that pass both. */
  lemma GatesDecide<S, B, C>(su: Setup<S, B, C>, l: LoopState<S, B, C>, step: nat, s: S, plan: PlannerResult<C>,
    call: C, proposal: Option<Proposal<C>>, divergences: seq<string>)
    ensures var end := Enact(su, l, step, s, plan, call, proposal, divergences);
            if !su.grounded(s, call) then RejectedAtGate(su, l, step, s, plan, call, UngroundedCall, end)
            else if su.evaluate(l.belief, call) == SymbolicallyInapplicable
            then RejectedAtGate(su, l, step, s, plan, call, SymbolicallyInapplicable, end)
            else AttemptFits(su, l, step, s, plan, call, proposal, divergences, end)
  {
    hide Perform, AttemptFits;
    AttemptIsRecorded(su, l, step, s, plan, call, proposal, divergences);
    var end := Enact(su, l, step, s, plan, call, proposal, divergences);
    if !su.grounded(s, call) || su.evaluate(l.belief, call) == SymbolicallyInapplicable {
      assert end.state.entries == l.entries + [Last(end.state.entries)];
    }
  }

  // ---------------------------------------------------------------------------------------------
  // Which call a cycle asks for, and on which evidence
  // ---------------------------------------------------------------------------------------------

  /** Standing advice is due; without any, an applicable planned head below the failure threshold. */
  ghost predicate IsDue<S, B, C>(su: Setup<S, B, C>, l: LoopState<S, B, C>, s: S, plan: PlannerResult<C>, call: C)
  {
    if l.pending != [] then call == l.pending[0]
    else
      && plan.PlanFound? && plan.plan != [] && call == plan.plan[0]
      && su.evaluate(l.belief, call) != SymbolicallyInapplicable
      && Lookup(l.failures, (su.worldKey(s), call)) < su.config.failureThreshold
  }

  /** One entry without an attempt was added, carrying these faults. */
  ghost predicate OneFaultNoted<S, B, C>(l: LoopState<S, B, C>, step: nat, s: S, plan: Option<PlannerResult<C>>,
    fault: Fault, after: LoopState<S, B, C>)
  {
    && after == l.(entries := after.entries)
    && after.entries == l.entries + [Entry(step, s, plan, None, None, None, None, [], [fault], NoAdvice())]
  }

  /**
    A due call is chosen. The advisory policy first asks an attached track, once, and takes its proposal
    and the comparison with that very call along as evidence; a raise ends the cycle there. The
    symbolic-primary policy never asks.
  */
  lemma DueCallIsChosen<S, B, C>(su: Setup<S, B, C>, l: LoopState<S, B, C>, step: nat, s: S, plan: PlannerResult<C>,
    call: C)
    requires !plan.PlannerFailure? && IsDue(su, l, s, plan, call)
    ensures var r := Select(su, l, step, s, plan, 0, 0, false, None);
            if su.policy.SymbolicPrimary? || su.advisory.None? then r == Chosen(l, plan, call, None, [], 0, 0)
            else
              var asked := l.(consulted := l.consulted + 1);
              match su.advisory.value.propose(l.consulted)
              case Proposed(p) =>
                r == Chosen(asked, plan, call, p,
                       if p.Some? then su.advisory.value.compare(Some(call), p.value) else [], 0, 0)
              case ProposeRaised(fault) =>
                && r.Ended? && OneFaultNoted(asked, step, s, Some(plan), fault, r.state)
                && r.outcome == if su.config.haltOnFault then Some(FaultedEpisode) else None
  {
  }

  /** Without advice and without anything planned the cycle halts, under either policy and any track. */
  lemma NothingPlannedHalts<S, B, C>(su: Setup<S, B, C>, l: LoopState<S, B, C>, step: nat, s: S,
    plan: PlannerResult<C>)
    requires l.pending == [] && (plan.NoPlan? || plan == PlanFound([]))
    ensures var r := Select(su, l, step, s, plan, 0, 0, false, None);
            && r.Ended? && r.outcome == Some(HaltedNoPlan)
            && r.state == l.(entries := l.entries +
                 [Entry(step, s, Some(plan), Some(DecisionHalt), None, None, None, [], [], NoAdvice())])
  {
  }

  /**
    A planned head that the belief rules out is never attempted: the plan is asked for again as often as
    the configuration admits, and then the cycle ends on the protocol fault - no step, no consultation.
  */
  lemma {:induction false} InapplicableHeadFaults<S, B, C>(su: Setup<S, B, C>, l: LoopState<S, B, C>, step: nat, s: S,
    replans: nat, requests: nat, acquired: bool, cached: Option<Proposal<C>>)
    requires l.pending == [] && replans <= su.config.maxRejections
    requires var plan := su.plan(l.belief, s);
             && plan.PlanFound? && plan.plan != []
             && su.evaluate(l.belief, plan.plan[0]) == SymbolicallyInapplicable
    ensures var plan := su.plan(l.belief, s);
            var r := Select(su, l, step, s, plan, replans, requests, acquired, cached);
            && r.Ended? && r.replans == su.config.maxRejections + 1 && r.requests == requests
            && OneFaultNoted(l, step, s, Some(plan), PROTOCOL_FAULT, r.state)
            && r.outcome == if su.config.haltOnFault then Some(FaultedEpisode) else None
    decreases su.config.maxRejections - replans
  {
    var plan := su.plan(l.belief, s);
    assert Situation(su, l, s, plan).headVerdict == Some(SymbolicallyInapplicable);
    assert Select(su, l, step, s, plan, replans, requests, acquired, cached) ==
      Decide(su, l, step, s, plan, replans, requests, acquired, cached);
    if replans + 1 <= su.config.maxRejections {
      InapplicableHeadFaults(su, l, step, s, replans + 1, requests, acquired, cached);
    }
  }

  /** Under the symbolic-primary policy an exhausted head halts the cycle, with nobody asked. */
  lemma ExhaustedHeadHaltsCycle<S, B, C>(su: Setup<S, B, C>, l: LoopState<S, B, C>, step: nat, s: S,
    plan: PlannerResult<C>)
    requires su.policy.SymbolicPrimary? && l.pending == [] && plan.PlanFound? && plan.plan != []
    requires su.evaluate(l.belief, plan.plan[0]) != SymbolicallyInapplicable
    requires Lookup(l.failures, (su.worldKey(s), plan.plan[0])) >= su.config.failureThreshold
    ensures var r := Select(su, l, step, s, plan, 0, 0, false, None);
            && r.Ended? && r.outcome == Some(HaltedRepeatedFailure)
            && r.state == l.(entries := l.entries +
                 [Entry(step, s, Some(plan), Some(DecisionHalt), Some(plan.plan[0]), None, None, [], [], NoAdvice())])
  {
  }

  /** A planner failure is one faulted entry, and ends the run if and only if faults halt. */
  lemma PlannerFailureIsAFault<S, B, C>(su: Setup<S, B, C>, l: LoopState<S, B, C>, step: nat, s: S)
    requires su.plan(l.belief, s).PlannerFailure?
    ensures var end := Cycle(su, l, step, s);
            && OneFaultNoted(l, step, s, Some(su.plan(l.belief, s)), PLANNER_FAULT, end.state)
            && end.outcome == if su.config.haltOnFault then Some(FaultedEpisode) else None
  {
  }

  // ---------------------------------------------------------------------------------------------
  // A whole turn on a due call
  // ---------------------------------------------------------------------------------------------

  /** The state in which a turn comes to its cycle: synced, and observed if the track has not been so far. */
  ghost function Opened<S, B, C>(su: Setup<S, B, C>, l: LoopState<S, B, C>, step: nat, first: bool): LoopState<S, B, C>
  {
    l.(belief := su.sync(l.belief, su.env.exportState(step, l.log)),
       consulted := l.consulted + if first && su.advisory.Some? then 1 else 0)
  }

  /** The turn comes to its cycle: nothing raised at the opening, the goal is open and the budgets are not used up. */
  ghost predicate ComesToCycle<S, B, C>(su: Setup<S, B, C>, l: LoopState<S, B, C>, step: nat, first: bool)
  {
    && (first && su.advisory.Some? ==> su.advisory.value.observe(l.consulted).None?)
    && !su.satisfied(su.env.exportState(step, l.log))
    && ExecutiveCharged(l) < su.config.executiveBudget && PrimitiveCharged(l) < su.config.primitiveBudget
  }

  /**
    What comes before a cycle. A track that raises at the opening replaces the whole turn by its fault - the
    goal and the budgets are not even looked at - and is asked again in the next one; otherwise the goal
    wins over an exhausted budget, and neither leaves an entry.
  */
  lemma TurnGates<S, B, C>(su: Setup<S, B, C>, l: LoopState<S, B, C>, step: nat, first: bool)
    ensures var t := OneTurn(su, l, step, first);
            var s, l1 := su.env.exportState(step, l.log), Opened(su, l, step, first);
            if first && su.advisory.Some? && su.advisory.value.observe(l.consulted).Some? then
              && OneFaultNoted(l1, step, s, None, su.advisory.value.observe(l.consulted).value, t.state)
              && (if su.config.haltOnFault then t == Stopped(t.state, FaultedEpisode, true)
                  else t == Continues(t.state, true))
            else if su.satisfied(s) then t == Stopped(l1, GoalReached, false)
            else if !ComesToCycle(su, l, step, first) then t == Stopped(l1, BudgetExhausted, false)
            else t.Stopped? ==> t.began
  {
    hide Cycle;
  }

  /** What the track proposed for this cycle: nothing, unless the advisory policy has a track to ask. */
  ghost function ProposalFor<S, B, C>(su: Setup<S, B, C>, consulted: nat): Option<Proposal<C>>
  {
    if su.policy.AdvisoryTwoTrack? && su.advisory.Some? && su.advisory.value.propose(consulted).Proposed?
    then su.advisory.value.propose(consulted).proposal else None
  }

  /**
    A due call that passes both gates is attempted in that turn, whatever the environment answers, and its
    entry carries the evidence that this policy acquires: the proposal with its coverage and confidence,
    the comparison with the call, or the enacted advice.
  */
  lemma DueCallTurn<S, B, C>(su: Setup<S, B, C>, l: LoopState<S, B, C>, step: nat, first: bool, call: C)
    requires ComesToCycle(su, l, step, first)
    requires var s, l1 := su.env.exportState(step, l.log), Opened(su, l, step, first);
             && !su.plan(l1.belief, s).PlannerFailure? && IsDue(su, l1, s, su.plan(l1.belief, s), call)
             && su.grounded(s, call) && su.evaluate(l1.belief, call) != SymbolicallyInapplicable
             && (su.advisory.Some? ==> su.advisory.value.propose(l1.consulted).Proposed?)
    ensures var s, l1 := su.env.exportState(step, l.log), Opened(su, l, step, first);
            var t := OneTurn(su, l, step, first);
            var p := ProposalFor(su, l1.consulted);
            var asked := if su.policy.AdvisoryTwoTrack? && su.advisory.Some? then 1 else 0;
            && (t.Stopped? ==> t.began)
            && AttemptFits(su, l1.(consulted := l1.consulted + asked), step, s, su.plan(l1.belief, s), call, p,
                 if p.Some? then su.advisory.value.compare(Some(call), p.value) else [],
                 CycleEnd(t.state, if t.Stopped? then Some(t.outcome) else None))
  {
    hide Enact, Select, AttemptFits, IsDue;
    var s, l1 := su.env.exportState(step, l.log), Opened(su, l, step, first);
    var plan, p := su.plan(l1.belief, s), ProposalFor(su, l1.consulted);
    assert Open(su, Synced(su, l, step), first) == (l1, None);
    DueCallIsChosen(su, l1, step, s, plan, call);
    var r := Select(su, l1, step, s, plan, 0, 0, false, None);
    GatesDecide(su, r.state, step, s, plan, call, p, r.divergences);
  }
}
