/** What the outcome of an episode says about the run behind it (runtime/loop.py). */
module LoopOutcomes {
  import opened Common
  import opened Skills
  import opened Search
  import opened Execution
  import opened Executive
  import opened LoopModel
  import opened LoopTheorems

  /** The run ended on an entry that carries a fault. */
  predicate EndsOnFault<S, C(==)>(entries: seq<Entry<S, C>>)
  {
    entries != [] && Last(entries).faults != []
  }

  /** The run ended on a Halt decision that records no execution and no fault. */
  predicate EndsOnHalt<S, C(==)>(entries: seq<Entry<S, C>>)
  {
    && entries != [] && Last(entries).decision == Some(DecisionHalt)
    && Last(entries).execution.None? && Last(entries).faults == []
  }

  /** The planner had nothing to offer: no plan, or an empty one. */
  predicate NothingPlanned<S, C(==)>(e: Entry<S, C>)
  {
    e.plan.Some? && (e.plan.value.NoPlan? || e.plan.value == PlanFound([]))
  }

  /** The call named is the planned head, and it has failed as often as the threshold in this world. */
  predicate HeadAtThreshold<S, B, C(==)>(su: Setup<S, B, C>, failures: map<FailureKey<C>, nat>, e: Entry<S, C>)
  {
    && e.plan.Some? && e.plan.value.PlanFound? && e.plan.value.plan != []
    && e.selected == Some(e.plan.value.plan[0])
    && Lookup(failures, (su.worldKey(e.pre), e.selected.value)) >= su.config.failureThreshold
  }

  /** The verdicts a cycle itself can reach, and the entry each leaves behind. */
  ghost predicate Witnessed<S, B, C>(su: Setup<S, B, C>, state: LoopState<S, B, C>, outcome: Option<EpisodeOutcome>)
  {
    match outcome
    case None => true
    case Some(FaultedEpisode) => EndsOnFault(state.entries)
    case Some(HaltedNoPlan) => EndsOnHalt(state.entries) && NothingPlanned(Last(state.entries))
    case Some(HaltedRepeatedFailure) =>
      EndsOnHalt(state.entries) && HeadAtThreshold(su, state.failures, Last(state.entries))
    case Some(_) => false
  }

  lemma {:induction false} SelectRecords<S, B, C>(su: Setup<S, B, C>, l: LoopState<S, B, C>, step: nat, s: S,
    plan: PlannerResult<C>, replans: nat, requests: nat, acquired: bool, cached: Option<Proposal<C>>)
    requires !plan.PlannerFailure? && replans <= su.config.maxRejections
    ensures var r := Select(su, l, step, s, plan, replans, requests, acquired, cached);
            r.Ended? ==> Witnessed(su, r.state, r.outcome)
    decreases su.config.maxRejections - replans, if l.pending == [] then 1 else 0, 1
  {
    if WantsProposal(su.policy, su.config.failureThreshold, Situation(su, l, s, plan)) && !acquired {
      if Acquire(su, l).Acquired? {
        DecideRecords(su, Acquire(su, l).state, step, s, plan, replans, requests, true, Acquire(su, l).cached);
      }
    } else {
      DecideRecords(su, l, step, s, plan, replans, requests, acquired, cached);
    }
  }

  lemma {:induction false} DecideRecords<S, B, C>(su: Setup<S, B, C>, l: LoopState<S, B, C>, step: nat, s: S,
    plan: PlannerResult<C>, replans: nat, requests: nat, acquired: bool, cached: Option<Proposal<C>>)
    requires !plan.PlannerFailure? && replans <= su.config.maxRejections
    ensures var r := Decide(su, l, step, s, plan, replans, requests, acquired, cached);
            r.Ended? ==> Witnessed(su, r.state, r.outcome)
    decreases su.config.maxRejections - replans, if l.pending == [] then 1 else 0, 0
  {
    match Route(su.policy, su.config.failureThreshold, Situation(su, l, s, plan))
    case EnactCall(call) =>
    case HaltEpisode(about) =>
    case AskForProposal(call) =>
      var e := PlainEntry(step, s, Some(plan), Some(DecisionRequestProposal), Some(call), None, []);
      var l2 := Note(su, l, e).(pending := RecoveryFor(su.recovery, l.reports, call));
      if l2.pending != [] {
        SelectRecords(su, l2, step, s, plan, replans, requests + 1, acquired, cached);
      }
    case ReplanCycle =>
      if replans + 1 <= su.config.maxRejections && !su.plan(l.belief, s).PlannerFailure? {
        SelectRecords(su, l, step, s, su.plan(l.belief, s), replans + 1, requests, acquired, cached);
      }
  }

  /** The outcome of an attempt: none, or a halt on the fault its entry carries. */
  ghost predicate FaultOrNone<S, B, C>(e: CycleEnd<S, B, C>)
  {
    e.outcome.Some? ==> e.outcome == Some(FaultedEpisode) && EndsOnFault(e.state.entries)
  }

  lemma AfterResultRecords<S, B, C>(su: Setup<S, B, C>, l: LoopState<S, B, C>, step: nat, s: S, plan: PlannerResult<C>,
    call: C, verdict: CallValidation, advice: Advice<C>, r: ExecutionResult<S, C>)
    ensures FaultOrNone(AfterResult(su, l, step, s, plan, call, verdict, advice, r))
  {
    hide Bumped, Observe;
  }

  lemma AfterFaultedResultRecords<S, B, C>(su: Setup<S, B, C>, l: LoopState<S, B, C>, step: nat, s: S,
    plan: PlannerResult<C>, call: C, verdict: CallValidation, advice: Advice<C>, fault: Fault,
    r: ExecutionResult<S, C>)
    ensures FaultOrNone(AfterFaultedResult(su, l, step, s, plan, call, verdict, advice, fault, r))
  {
    hide Bumped, Observe;
  }

  lemma PerformRecords<S, B, C>(su: Setup<S, B, C>, l: LoopState<S, B, C>, step: nat, s: S, plan: PlannerResult<C>,
    call: C, verdict: CallValidation, advice: Advice<C>, divergences: seq<string>)
    ensures FaultOrNone(Perform(su, l, step, s, plan, call, verdict, advice, divergences))
  {
    hide AfterResult, AfterFaultedResult, Bumped;
    var response := su.env.executeSkill(l.log, call);
    var l1 := l.(log := l.log + [Exchange(call, response)]);
    match Execute(response)
    case Completed(r) => AfterResultRecords(su, l1, step, s, plan, call, verdict, advice, r);
    case Faulted(fault, Some(r)) => AfterFaultedResultRecords(su, l1, step, s, plan, call, verdict, advice, fault, r);
    case Faulted(fault, None) =>
    case Refused(v) =>
  }

  lemma EnactRecords<S, B, C>(su: Setup<S, B, C>, l: LoopState<S, B, C>, step: nat, s: S, plan: PlannerResult<C>,
    call: C, proposal: Option<Proposal<C>>, divergences: seq<string>)
    ensures FaultOrNone(Enact(su, l, step, s, plan, call, proposal, divergences))
  {
    hide Perform, Bumped;
    var advice := AdviceOf(call, l.pending != [] && call == l.pending[0], proposal, divergences);
    PerformRecords(su, l, step, s, plan, call, su.evaluate(l.belief, call), advice, divergences);
  }

  lemma CycleRecords<S, B, C>(su: Setup<S, B, C>, l: LoopState<S, B, C>, step: nat, s: S)
    ensures Witnessed(su, Cycle(su, l, step, s).state, Cycle(su, l, step, s).outcome)
  {
    hide Enact, Select;
    var plan := su.plan(l.belief, s);
    if !plan.PlannerFailure? {
      SelectRecords(su, l, step, s, plan, 0, 0, false, None);
      match Select(su, l, step, s, plan, 0, 0, false, None)
      case Ended(_, _, _, _) =>
      case Chosen(l1, chosen, call, proposal, divergences, _, _) =>
        EnactRecords(su, l1, step, s, chosen, call, proposal, divergences);
    }
  }

  /**
    Each outcome is evidenced by the state it ends in. The goal and the budgets are judged on the
    snapshot exported last; on the exact tie the goal wins, so an exhausted episode never satisfies it.
    A halt without a plan is the planner's own answer, a halt on repeated failure has its failures.
  */
  ghost predicate Evidenced<S, B, C>(su: Setup<S, B, C>, e: Episode<S, B, C>)
  {
    match e.outcome
    case GoalReached => su.satisfied(su.env.exportState(e.cycles, e.state.log))
    case BudgetExhausted => !su.satisfied(su.env.exportState(e.cycles, e.state.log)) && OutOfBudget(su.config, e.state)
    case FaultedEpisode => EndsOnFault(e.state.entries)
    case HaltedNoPlan => EndsOnHalt(e.state.entries) && NothingPlanned(Last(e.state.entries))
    case HaltedRepeatedFailure =>
      EndsOnHalt(e.state.entries) && HeadAtThreshold(su, e.state.failures, Last(e.state.entries))
  }

  lemma TurnIsEvidenced<S, B, C>(su: Setup<S, B, C>, l: LoopState<S, B, C>, step: nat, first: bool)
    ensures match OneTurn(su, l, step, first)
            case Stopped(after, outcome, began) =>
              Evidenced(su, Episode(after, outcome, if began then step + 1 else step))
            case Continues(_, _) => true
  {
    hide Cycle;
    var (l1, fault) := Open(su, Synced(su, l, step), first);
    CycleRecords(su, l1, step, su.env.exportState(step, l.log));
  }

  /** Every run, under either policy and in every environment, ends in a state that evidences its outcome. */
  lemma {:induction false} RunIsEvidenced<S, B, C>(su: Setup<S, B, C>, l: LoopState<S, B, C>, step: nat, first: bool,
    zeroCharge: nat)
    requires ExecutiveCharged(l) <= su.config.executiveBudget && zeroCharge <= su.config.maxRejections
    ensures Evidenced(su, RunFrom(su, l, step, first, zeroCharge))
    decreases su.config.executiveBudget - ExecutiveCharged(l), su.config.maxRejections - zeroCharge
  {
    hide OneTurn, OutOfBudget;
    TurnCharges(su, l, step, first);
    TurnIsEvidenced(su, l, step, first);
    match OneTurn(su, l, step, first)
    case Stopped(after, outcome, began) =>
    case Continues(after, first') =>
      if ExecutiveCharged(after) > ExecutiveCharged(l) {
        RunIsEvidenced(su, after, step + 1, first', 0);
      } else if zeroCharge + 1 <= su.config.maxRejections {
        RunIsEvidenced(su, after, step + 1, first', zeroCharge + 1);
      }
  }

  /** Counted from the trace: a run that halts on repeated failure recorded that many failures of its head. */
  lemma RepeatedFailureIsInTheTrace<S(!new), B(!new), C(!new)>(su: Setup<S, B, C>, belief: B)
    requires Run(su, belief).outcome == HaltedRepeatedFailure
    ensures var entries := Run(su, belief).state.entries;
            && entries != [] && Last(entries).selected.Some?
            && FailuresIn(su.worldKey, entries, (su.worldKey(Last(entries).pre), Last(entries).selected.value))
               >= su.config.failureThreshold
  {
    hide RunFrom;
    RunIsEvidenced(su, Fresh(belief), 0, true, 0);
    RunConserves(su, belief);
  }

  // ---------------------------------------------------------------------------------------------
  // One undisturbed turn
  // ---------------------------------------------------------------------------------------------

  /** The situation of a turn in which the plan head passes every gate and its attempt succeeds. */
  ghost predicate HeadSucceeds<S, B, C>(su: Setup<S, B, C>, l: LoopState<S, B, C>, s: S, b: B, plan: seq<C>,
    r: ExecutionResult<S, C>)
  {
    && !su.satisfied(s) && plan != [] && su.plan(b, s) == PlanFound(plan)
    && su.evaluate(b, plan[0]) == ValidatedCall && su.grounded(s, plan[0])
    && su.env.executeSkill(l.log, plan[0]) == Returned(r) && r.outcome.Success?
    && su.monitor(b, r).Reported?
  }

  /** The entry of such a turn. */
  ghost predicate RecordsHead<S, C>(e: Entry<S, C>, plan: seq<C>, r: ExecutionResult<S, C>)
    requires plan != []
  {
    && e.plan == Some(PlanFound(plan)) && e.decision == Some(DecisionExecute) && e.selected == Some(plan[0])
    && e.execution == Some(r) && e.faults == []
  }

  /** The head has not yet reached the failure threshold in this world. */
  predicate HeadIsFresh<S, B, C(==)>(su: Setup<S, B, C>, l: LoopState<S, B, C>, s: S, call: C)
  {
    Lookup(l.failures, (su.worldKey(s), call)) < su.config.failureThreshold
  }

  /** Under either policy such a turn attempts the head and charges it; nothing else moves. */
  lemma UndisturbedTurn<S, B, C>(su: Setup<S, B, C>, l: LoopState<S, B, C>, step: nat, first: bool, plan: seq<C>,
    r: ExecutionResult<S, C>)
    requires su.advisory.None? && l.pending == [] && !OutOfBudget(su.config, l)
    requires HeadSucceeds(su, l, su.env.exportState(step, l.log),
               su.sync(l.belief, su.env.exportState(step, l.log)), plan, r)
    requires HeadIsFresh(su, l, su.env.exportState(step, l.log), plan[0])
    ensures var t := OneTurn(su, l, step, first);
            && t.Continues? && t.state.pending == [] && t.state.failures == l.failures
            && t.state.belief == su.record(su.sync(su.sync(l.belief, su.env.exportState(step, l.log)), r.post), r)
            && t.state.log == l.log + [Exchange(plan[0], Returned(r))]
            && |t.state.entries| == |l.entries| + 1 && Init(t.state.entries) == l.entries
            && RecordsHead(Last(t.state.entries), plan, r)
            && ExecutiveCharged(t.state) == ExecutiveCharged(l) + 1
            && PrimitiveCharged(t.state) == PrimitiveCharged(l) + r.primitiveSteps
  {
    var s := su.env.exportState(step, l.log);
    var l1 := Synced(su, l, step);
    var found := PlanFound(plan);
    assert Select(su, l1, step, s, found, 0, 0, false, None) == Chosen(l1, found, plan[0], None, [], 0, 0);
    var advice := AdviceOf(plan[0], false, None, []);
    var l2 := l1.(log := l1.log + [Exchange(plan[0], Returned(r))]);
    assert Enact(su, l1, step, s, found, plan[0], None, []) ==
      AfterResult(su, l2, step, s, found, plan[0], ValidatedCall, advice, r);
    var after := OneTurn(su, l, step, first).state;
    assert Init(after.entries) == l.entries;
  }

  /** The situation of a turn in which the plan head passes every gate and its attempt fails. */
  ghost predicate HeadFails<S, B, C>(su: Setup<S, B, C>, l: LoopState<S, B, C>, s: S, b: B, plan: seq<C>,
    r: ExecutionResult<S, C>)
  {
    && !su.satisfied(s) && plan != [] && su.plan(b, s) == PlanFound(plan)
    && su.evaluate(b, plan[0]) == ValidatedCall && su.grounded(s, plan[0])
    && su.env.executeSkill(l.log, plan[0]) == Returned(r) && !r.outcome.Success? && r.call == plan[0]
    && su.monitor(b, r).Reported?
  }

  /** Such a turn charges the attempt, reports it and bumps its key; the run goes on. */
  lemma FailingTurn<S, B, C>(su: Setup<S, B, C>, l: LoopState<S, B, C>, step: nat, first: bool, plan: seq<C>,
    r: ExecutionResult<S, C>)
    requires su.advisory.None? && l.pending == [] && !OutOfBudget(su.config, l)
    requires HeadFails(su, l, su.env.exportState(step, l.log),
               su.sync(l.belief, su.env.exportState(step, l.log)), plan, r)
    requires HeadIsFresh(su, l, su.env.exportState(step, l.log), plan[0])
    ensures var s := su.env.exportState(step, l.log);
            var b := su.sync(l.belief, s);
            var t := OneTurn(su, l, step, first);
            && t.Continues? && t.state.pending == []
            && t.state.failures == l.failures[(su.worldKey(s), plan[0]) :=
                 Lookup(l.failures, (su.worldKey(s), plan[0])) + 1]
            && t.state.belief == su.record(su.sync(b, r.post), r)
            && t.state.reports == l.reports + su.monitor(b, r).reports
            && t.state.log == l.log + [Exchange(plan[0], Returned(r))]
            && ExecutiveCharged(t.state) == ExecutiveCharged(l) + 1
            && PrimitiveCharged(t.state) == PrimitiveCharged(l) + r.primitiveSteps
  {
    var s := su.env.exportState(step, l.log);
    var l1 := Synced(su, l, step);
    var found := PlanFound(plan);
    assert Select(su, l1, step, s, found, 0, 0, false, None) == Chosen(l1, found, plan[0], None, [], 0, 0);
    var advice := AdviceOf(plan[0], false, None, []);
    var l2 := l1.(log := l1.log + [Exchange(plan[0], Returned(r))]);
    assert Enact(su, l1, step, s, found, plan[0], None, []) ==
      AfterResult(su, l2, step, s, found, plan[0], ValidatedCall, advice, r);
    var after := OneTurn(su, l, step, first).state;
    assert Init(after.entries) == l.entries;
  }

  /** Without a plan and without advice the turn halts at once, under either policy. */
  lemma TurnWithoutPlan<S, B, C>(su: Setup<S, B, C>, l: LoopState<S, B, C>, step: nat, first: bool)
    requires su.advisory.None? && l.pending == [] && !OutOfBudget(su.config, l)
    requires var s := su.env.exportState(step, l.log); !su.satisfied(s) && su.plan(su.sync(l.belief, s), s) == NoPlan
    ensures var t := OneTurn(su, l, step, first);
            t.Stopped? && t.outcome == HaltedNoPlan && t.began && t.state.log == l.log
  {
    var s := su.env.exportState(step, l.log);
    var l1 := Synced(su, l, step);
    assert Select(su, l1, step, s, NoPlan, 0, 0, false, None) ==
      Ended(Note(su, l1, PlainEntry(step, s, Some(NoPlan), Some(DecisionHalt), None, None, [])),
        Some(HaltedNoPlan), 0, 0);
  }

  // ---------------------------------------------------------------------------------------------
  // Standing advice
  // ---------------------------------------------------------------------------------------------

  /** How one entry moves the advice: consumed by a clean attempt, dropped by a gate, kept by a fault of the attempt. */
  ghost predicate AdviceMoves<S, C>(e: Entry<S, C>, before: seq<C>, after: seq<C>)
    requires before != []
  {
    && (e.execution.Some? && e.faults == [] ==> after == before[1..])
    && (e.decision == Some(DecisionReplan) ==> after == [])
    && (e.execution.None? && e.decision.None? && e.validation != Some(UngroundedCall) ==> after == before)
    && (after == before || after == before[1..] || after == [])
  }

  lemma AfterResultAdvice<S, B, C>(su: Setup<S, B, C>, l: LoopState<S, B, C>, step: nat, s: S, plan: PlannerResult<C>,
    call: C, verdict: CallValidation, advice: Advice<C>, r: ExecutionResult<S, C>)
    requires l.pending != []
    ensures var e := AfterResult(su, l, step, s, plan, call, verdict, advice, r);
            e.state.entries != [] && Last(e.state.entries).selected == Some(call)
            && AdviceMoves(Last(e.state.entries), l.pending, e.state.pending)
  {
    hide Bumped;
  }

  lemma AfterFaultedResultAdvice<S, B, C>(su: Setup<S, B, C>, l: LoopState<S, B, C>, step: nat, s: S,
    plan: PlannerResult<C>, call: C, verdict: CallValidation, advice: Advice<C>, fault: Fault,
    r: ExecutionResult<S, C>)
    requires l.pending != []
    ensures var e := AfterFaultedResult(su, l, step, s, plan, call, verdict, advice, fault, r);
            e.state.entries != [] && Last(e.state.entries).selected == Some(call)
            && AdviceMoves(Last(e.state.entries), l.pending, e.state.pending)
  {
    hide Bumped;
  }

  lemma PerformAdvice<S, B, C>(su: Setup<S, B, C>, l: LoopState<S, B, C>, step: nat, s: S, plan: PlannerResult<C>,
    call: C, verdict: CallValidation, advice: Advice<C>, divergences: seq<string>)
    requires l.pending != []
    ensures var e := Perform(su, l, step, s, plan, call, verdict, advice, divergences);
            e.state.entries != [] && Last(e.state.entries).selected == Some(call)
            && AdviceMoves(Last(e.state.entries), l.pending, e.state.pending)
  {
    hide AfterResult, AfterFaultedResult, Bumped;
    var response := su.env.executeSkill(l.log, call);
    var l1 := l.(log := l.log + [Exchange(call, response)]);
    match Execute(response)
    case Completed(r) => AfterResultAdvice(su, l1, step, s, plan, call, verdict, advice, r);
    case Faulted(fault, Some(r)) => AfterFaultedResultAdvice(su, l1, step, s, plan, call, verdict, advice, fault, r);
    case Faulted(fault, None) =>
    case Refused(v) =>
  }

  /**
    While advice stands a cycle enacts its first call and nothing else, whatever the planner found; the
    advice is consumed by a judged attempt only, and a gate that rejects the call drops all of it.
  */
  lemma StandingAdviceIsFollowed<S, B, C>(su: Setup<S, B, C>, l: LoopState<S, B, C>, step: nat, s: S)
    requires l.pending != [] && !su.plan(l.belief, s).PlannerFailure?
    ensures var e := Cycle(su, l, step, s);
            && e.state.entries != []
            && (Last(e.state.entries).selected.Some? ==>
                  Last(e.state.entries).selected == Some(l.pending[0])
                  && AdviceMoves(Last(e.state.entries), l.pending, e.state.pending))
            && (Last(e.state.entries).selected.None? ==> e.state.pending == l.pending && e.state.log == l.log)
  {
    hide Perform, Bumped, AdviceMoves, Enact, Select;
    var plan := su.plan(l.belief, s);
    SelectAdvice(su, l, step, s, plan, 0, false, None);
    var r := Select(su, l, step, s, plan, 0, 0, false, None);
    if r.Chosen? {
      EnactAdvice(su, r.state, step, s, r.plan, r.call, r.proposal, r.divergences);
    }
  }

  /** Selection under standing advice: its first call is chosen, or the track's raise ends the cycle. */
  lemma SelectAdvice<S, B, C>(su: Setup<S, B, C>, l: LoopState<S, B, C>, step: nat, s: S, plan: PlannerResult<C>,
    requests: nat, acquired: bool, cached: Option<Proposal<C>>)
    requires l.pending != [] && !plan.PlannerFailure?
    ensures var r := Select(su, l, step, s, plan, 0, requests, acquired, cached);
            && r.state.pending == l.pending && r.state.log == l.log
            && (r.Chosen? ==> r.call == l.pending[0])
            && (r.Ended? ==>
                  r.outcome == FaultHalt(su.config) && r.state.entries != [] && Last(r.state.entries).selected.None?)
  {
    hide Bumped;
    var got := Acquire(su, l);
    var l1 := got.state;
    assert Route(su.policy, su.config.failureThreshold, Situation(su, l, s, plan)) == EnactCall(l.pending[0]);
    assert Route(su.policy, su.config.failureThreshold, Situation(su, l1, s, plan)) == EnactCall(l.pending[0]);
    assert Decide(su, l, step, s, plan, 0, requests, acquired, cached).Chosen?;
    if got.Acquired? {
      assert Decide(su, l1, step, s, plan, 0, requests, true, got.cached).Chosen?;
    }
  }

  lemma EnactAdvice<S, B, C>(su: Setup<S, B, C>, l: LoopState<S, B, C>, step: nat, s: S, plan: PlannerResult<C>,
    call: C, proposal: Option<Proposal<C>>, divergences: seq<string>)
    requires l.pending != []
    ensures var e := Enact(su, l, step, s, plan, call, proposal, divergences);
            e.state.entries != [] && Last(e.state.entries).selected == Some(call)
            && AdviceMoves(Last(e.state.entries), l.pending, e.state.pending)
  {
    hide Perform, Bumped;
    var advice := AdviceOf(call, l.pending != [] && call == l.pending[0], proposal, divergences);
    PerformAdvice(su, l, step, s, plan, call, su.evaluate(l.belief, call), advice, divergences);
  }

  // ---------------------------------------------------------------------------------------------
  // The repeated-failure escape
  // ---------------------------------------------------------------------------------------------

  /** The planned head passes the symbolic gate and has reached the failure threshold in this world. */
  ghost predicate HeadIsExhausted<S, B, C>(su: Setup<S, B, C>, l: LoopState<S, B, C>, s: S, call: C)
  {
    var plan := su.plan(l.belief, s);
    && plan.PlanFound? && plan.plan != [] && plan.plan[0] == call
    && su.evaluate(l.belief, call) != SymbolicallyInapplicable
    && Lookup(l.failures, (su.worldKey(s), call)) >= su.config.failureThreshold
  }

  /**
    Under the advisory policy an exhausted head ends the run on repeated failure if and only if the
    provider has no advice on the latest discrepancy of that call; otherwise the advice stands, its
    first call is enacted in the same cycle, and only a fault can end the run there.
  */
  lemma EscapeIffAdvice<S, B, C>(su: Setup<S, B, C>, l: LoopState<S, B, C>, step: nat, s: S, call: C)
    requires su.policy.AdvisoryTwoTrack? && l.pending == [] && HeadIsExhausted(su, l, s, call)
    ensures var advice := RecoveryFor(su.recovery, l.reports, call);
            var r := Select(su, l, step, s, su.plan(l.belief, s), 0, 0, false, None);
            && (Cycle(su, l, step, s).outcome == Some(HaltedRepeatedFailure) <==> advice == [])
            && (advice != [] && r.Chosen? ==> r.call == advice[0] && r.state.pending == advice)
            && (advice != [] && r.Ended? ==> r.outcome == FaultHalt(su.config))
  {
    hide Bumped, Enact, Select;
    var plan := su.plan(l.belief, s);
    var advice := RecoveryFor(su.recovery, l.reports, call);
    var e := PlainEntry(step, s, Some(plan), Some(DecisionRequestProposal), Some(call), None, []);
    var l2 := Note(su, l, e).(pending := advice);
    ExhaustedHeadAsks(su, l, step, s, call);
    if advice != [] {
      SelectAdvice(su, l2, step, s, plan, 1, false, None);
      var r := Select(su, l2, step, s, plan, 0, 1, false, None);
      if r.Chosen? {
        EnactRecords(su, r.state, step, s, r.plan, r.call, r.proposal, r.divergences);
      }
    }
  }

  /** The advice is the provider's on the latest discrepancy of the call; without one, or a provider, there is none. */
  lemma {:induction false} LatestDiscrepancyDecides<C>(recovery: Option<Report<C> -> seq<C>>, reports: seq<Report<C>>,
    call: C, i: nat)
    requires i <= |reports| && forall k :: i < k < |reports| ==> reports[k].call != call
    requires i < |reports| ==> reports[i].call == call
    requires i == |reports| ==> forall k :: 0 <= k < |reports| ==> reports[k].call != call
    ensures RecoveryFor(recovery, reports, call) ==
            if recovery.Some? && i < |reports| then recovery.value(reports[i]) else []
    decreases |reports|
  {
    if reports != [] && i != |reports| - 1 {
      LatestDiscrepancyDecides(recovery, Init(reports), call, if i == |reports| then i - 1 else i);
    }
  }

  /** The request is recorded, and selection goes on under the advice or ends in the halt. */
  lemma ExhaustedHeadAsks<S, B, C>(su: Setup<S, B, C>, l: LoopState<S, B, C>, step: nat, s: S, call: C)
    requires su.policy.AdvisoryTwoTrack? && l.pending == [] && HeadIsExhausted(su, l, s, call)
    ensures var plan := su.plan(l.belief, s);
            var advice := RecoveryFor(su.recovery, l.reports, call);
            var e := PlainEntry(step, s, Some(plan), Some(DecisionRequestProposal), Some(call), None, []);
            var l2 := Note(su, l, e).(pending := advice);
            var r := Select(su, l, step, s, plan, 0, 0, false, None);
            if advice == [] then r.Ended? && r.outcome == Some(HaltedRepeatedFailure)
            else r == Select(su, l2, step, s, plan, 0, 1, false, None)
  {
    hide Bumped;
    var plan := su.plan(l.belief, s);
    assert Route(su.policy, su.config.failureThreshold, Situation(su, l, s, plan)) == AskForProposal(call);
    assert Select(su, l, step, s, plan, 0, 0, false, None) == Decide(su, l, step, s, plan, 0, 0, false, None);
  }

  /** The situation of the escape: an exhausted head, one call of advice, and that call succeeds. */
  ghost predicate AdviceSucceeds<S, B, C>(su: Setup<S, B, C>, l: LoopState<S, B, C>, s: S, head: C, advice: C,
    r: ExecutionResult<S, C>)
  {
    && !su.satisfied(s) && HeadIsExhausted(su, l, s, head) && RecoveryFor(su.recovery, l.reports, head) == [advice]
    && su.grounded(s, advice) && su.evaluate(l.belief, advice) == ValidatedCall
    && su.env.executeSkill(l.log, advice) == Returned(r) && r.outcome.Success? && su.monitor(l.belief, r).Reported?
  }

  /** In one turn the request is recorded, the advice is enacted and consumed, and the run goes on. */
  lemma EscapeTurn<S, B, C>(su: Setup<S, B, C>, l: LoopState<S, B, C>, step: nat, first: bool, head: C, advice: C,
    r: ExecutionResult<S, C>)
    requires su.advisory.None? && su.policy.AdvisoryTwoTrack? && l.pending == [] && !OutOfBudget(su.config, l)
    requires AdviceSucceeds(su, Synced(su, l, step), su.env.exportState(step, l.log), head, advice, r)
    ensures var b := Synced(su, l, step).belief;
            var t := OneTurn(su, l, step, first);
            && t.Continues? && t.state.pending == [] && t.state.failures == l.failures
            && t.state.belief == su.record(su.sync(b, r.post), r)
            && t.state.reports == l.reports + su.monitor(b, r).reports
            && t.state.log == l.log + [Exchange(advice, Returned(r))]
            && ExecutiveCharged(t.state) == ExecutiveCharged(l) + 1
            && PrimitiveCharged(t.state) == PrimitiveCharged(l) + r.primitiveSteps
  {
    hide Select, AfterResult, Note;
    var s := su.env.exportState(step, l.log);
    var l1 := Synced(su, l, step);
    var plan := su.plan(l1.belief, s);
    var e := PlainEntry(step, s, Some(plan), Some(DecisionRequestProposal), Some(head), None, []);
    var noted := Note(su, l1, e);
    var l2 := noted.(pending := [advice]);
    ExhaustedHeadAsks(su, l1, step, s, head);
    NoteCharges(su, l1, e);
    NoteKeepsRest(su, l1, e);
    ChoosesAdvice(su, l2, step, s, plan, advice);
    var columns := AdviceOf(advice, true, None, []);
    var l3 := l2.(log := l2.log + [Exchange(advice, Returned(r))]);
    assert Enact(su, l2, step, s, plan, advice, None, []) ==
      AfterResult(su, l3, step, s, plan, advice, ValidatedCall, columns, r);
    AfterResultCharges(su, l3, step, s, plan, advice, ValidatedCall, columns, r);
    CleanResult(su, l3, step, s, plan, advice, columns, r);
    assert ExecutiveCharged(l3) == ExecutiveCharged(noted) && PrimitiveCharged(l3) == PrimitiveCharged(noted);
  }

  lemma ChoosesAdvice<S, B, C>(su: Setup<S, B, C>, l: LoopState<S, B, C>, step: nat, s: S, plan: PlannerResult<C>,
    advice: C)
    requires su.advisory.None? && l.pending == [advice] && !plan.PlannerFailure?
    ensures Select(su, l, step, s, plan, 0, 1, false, None) == Chosen(l, plan, advice, None, [], 0, 1)
  {
    assert Route(su.policy, su.config.failureThreshold, Situation(su, l, s, plan)) == EnactCall(advice);
    assert Decide(su, l, step, s, plan, 0, 1, false, None) == Chosen(l, plan, advice, None, [], 0, 1);
    assert Decide(su, l, step, s, plan, 0, 1, true, None) == Chosen(l, plan, advice, None, [], 0, 1);
  }

  /** A success without a track: maintained, judged, recorded, and the advice consumed. */
  lemma CleanResult<S, B, C>(su: Setup<S, B, C>, l: LoopState<S, B, C>, step: nat, s: S, plan: PlannerResult<C>,
    call: C, columns: Advice<C>, r: ExecutionResult<S, C>)
    requires su.advisory.None? && l.pending != [] && r.outcome.Success? && su.monitor(l.belief, r).Reported?
    ensures var e := AfterResult(su, l, step, s, plan, call, ValidatedCall, columns, r);
            && e.outcome.None? && e.state.pending == l.pending[1..] && e.state.failures == l.failures
            && e.state.log == l.log
            && e.state.belief == su.record(su.sync(l.belief, r.post), r)
            && e.state.reports == l.reports + su.monitor(l.belief, r).reports
  {
  }

  lemma NoteKeepsRest<S, B, C>(su: Setup<S, B, C>, l: LoopState<S, B, C>, e: Entry<S, C>)
    ensures var n := Note(su, l, e);
            && n.belief == l.belief && n.reports == l.reports && n.log == l.log
            && n.extraExecutive == l.extraExecutive && n.extraPrimitive == l.extraPrimitive
            && (e.execution.None? ==> n.failures == l.failures)
  {
  }

  /** Under the symbolic-primary policy an exhausted head halts the run in that turn, with no further attempt. */
  lemma ExhaustedHeadHalts<S, B, C>(su: Setup<S, B, C>, l: LoopState<S, B, C>, step: nat, first: bool, head: C)
    requires su.advisory.None? && su.policy.SymbolicPrimary? && l.pending == [] && !OutOfBudget(su.config, l)
    requires var s := su.env.exportState(step, l.log);
             !su.satisfied(s) && HeadIsExhausted(su, Synced(su, l, step), s, head)
    ensures var t := OneTurn(su, l, step, first);
            t.Stopped? && t.outcome == HaltedRepeatedFailure && t.began && t.state.log == l.log
  {
    hide Bumped;
    var s := su.env.exportState(step, l.log);
    var l1 := Synced(su, l, step);
    var plan := su.plan(l1.belief, s);
    assert Route(su.policy, su.config.failureThreshold, Situation(su, l1, s, plan)) == HaltEpisode(Some(head));
    assert Select(su, l1, step, s, plan, 0, 0, false, None) ==
      Ended(Note(su, l1, PlainEntry(step, s, Some(plan), Some(DecisionHalt), Some(head), None, [])),
        Some(HaltedRepeatedFailure), 0, 0);
  }

  /** A turn that charges its step is one step of the run. */
  lemma ChargedTurn<S, B, C>(su: Setup<S, B, C>, l: LoopState<S, B, C>, step: nat, first: bool, zeroCharge: nat)
    requires ExecutiveCharged(l) <= su.config.executiveBudget && zeroCharge <= su.config.maxRejections
    requires var t := OneTurn(su, l, step, first); t.Continues? && ExecutiveCharged(t.state) == ExecutiveCharged(l) + 1
    ensures var t := OneTurn(su, l, step, first);
            && ExecutiveCharged(t.state) <= su.config.executiveBudget
            && RunFrom(su, l, step, first, zeroCharge) == RunFrom(su, t.state, step + 1, t.first, 0)
  {
    hide OneTurn;
    TurnCharges(su, l, step, first);
  }

  /** A turn that stops is the end of the run. */
  lemma StoppedTurn<S, B, C>(su: Setup<S, B, C>, l: LoopState<S, B, C>, step: nat, first: bool, zeroCharge: nat)
    requires ExecutiveCharged(l) <= su.config.executiveBudget && zeroCharge <= su.config.maxRejections
    requires OneTurn(su, l, step, first).Stopped?
    ensures var t := OneTurn(su, l, step, first);
            RunFrom(su, l, step, first, zeroCharge) == Episode(t.state, t.outcome, if t.began then step + 1 else step)
  {
    hide OneTurn;
  }
}
