/**
  The executive loop manager in the source's own form: an object whose methods update its fields
  (runtime/loop.py). Each method is proved to compute the corresponding function of `LoopModel`.
*/
module Loop {
  import opened Common
  import opened Skills
  import opened Search
  import opened Execution
  import opened Executive
  import opened LoopModel
  import opened LoopTheorems

  class ExecutiveLoopManager<S(!new), B(!new), C(==, !new)> {
    const su: Setup<S, B, C>
    const history: ExecutiveHistory<S, C>
    var belief: B
    var extraExecutive: nat
    var extraPrimitive: nat
    var pendingRecovery: seq<C>
    var allReports: seq<Report<C>>
    var zeroProgressCycles: nat
    /** What has been asked of the environment and of the track so far. */
    var log: seq<Exchange<S, C>>
    var consulted: nat

    ghost predicate Valid()
      reads this, history
    {
      history.worldKey == su.worldKey && history.Valid()
    }

    ghost function State(): LoopState<S, B, C>
      reads this, history
    {
      LoopState(belief, history.entries, history.failures, extraExecutive, extraPrimitive, pendingRecovery,
        allReports, log, consulted)
    }

    constructor (su: Setup<S, B, C>, belief: B)
      ensures Valid() && fresh(history) && this.su == su
      ensures State() == Fresh(belief) && zeroProgressCycles == 0
    {
      this.su := su;
      this.belief := belief;
      history := new ExecutiveHistory(su.worldKey);
      extraExecutive, extraPrimitive := 0, 0;
      pendingRecovery, allReports := [], [];
      zeroProgressCycles := 0;
      log, consulted := [], 0;
    }

    method AddEntry(e: Entry<S, C>)
      requires Valid()
      modifies history
      ensures Valid() && State() == Note(su, old(State()), e)
    {
      history.Append(e);
    }

    /** The two budgets read the recorded sums plus the case-(c) charges. */
    method Charged() returns (executive: nat, primitive: nat)
      requires Valid()
      ensures executive == ExecutiveCharged(State()) && primitive == PrimitiveCharged(State())
    {
      executive, primitive := history.StepsUsed();
      executive, primitive := executive + extraExecutive, primitive + extraPrimitive;
    }

    method ChargeCaseC(fault: Fault)
      requires Valid()
      modifies this
      ensures Valid() && zeroProgressCycles == old(zeroProgressCycles)
      ensures State() == if fault.caseC.None? then old(State()) else
        old(State()).(extraExecutive := old(extraExecutive) + 1,
          extraPrimitive := old(extraPrimitive) + fault.caseC.value)
    {
      if fault.caseC.Some? {
        extraExecutive := extraExecutive + 1;
        extraPrimitive := extraPrimitive + fault.caseC.value;
      }
    }

    /** Walk the discrepancies backwards to the latest one of this call. */
    method AdviceFor(call: C) returns (advice: seq<C>)
      ensures advice == RecoveryFor(su.recovery, allReports, call)
    {
      if su.recovery.None? {
        return [];
      }
      var i := |allReports|;
      assert allReports[..i] == allReports;
      while i > 0
        invariant 0 <= i <= |allReports|
        invariant RecoveryFor(su.recovery, allReports, call) == RecoveryFor(su.recovery, allReports[..i], call)
      {
        assert Init(allReports[..i]) == allReports[..i - 1];
        i := i - 1;
        if allReports[i].call == call {
          return su.recovery.value(allReports[i]);
        }
      }
      return [];
    }

    method ObserveTrack() returns (fault: Option<Fault>)
      requires Valid()
      modifies this
      ensures Valid() && zeroProgressCycles == old(zeroProgressCycles)
      ensures (State(), fault) == Observe(su, old(State()))
    {
      match su.advisory {
        case None => fault := None;
        case Some(track) =>
          fault := track.observe(consulted);
          consulted := consulted + 1;
      }
    }

    /** Acquire the advisory proposal; a raise is a fault, never content. */
    method AcquireProposal() returns (proposal: Option<Proposal<C>>, fault: Option<Fault>)
      requires Valid()
      modifies this
      ensures Valid() && zeroProgressCycles == old(zeroProgressCycles) && pendingRecovery == old(pendingRecovery)
      ensures Acquire(su, old(State())) == if fault.Some? then AcquisitionFault(State(), fault.value)
                else Acquired(State(), proposal)
    {
      proposal, fault := None, None;
      match su.advisory {
        case None =>
        case Some(track) =>
          var answer := track.propose(consulted);
          consulted := consulted + 1;
          match answer {
            case Proposed(p) => proposal := p;
            case ProposeRaised(f) => fault := Some(f);
          }
      }
    }

    function CurrentSituation(s: S, plan: PlannerResult<C>): (p: Preliminary<C>)
      requires history.worldKey == su.worldKey
      reads this, history
      ensures p == Situation(su, State(), s, plan)
    {
      if pendingRecovery != [] then Preliminary(plan, None, 0, Some(pendingRecovery[0]))
      else if plan.PlanFound? && plan.plan != [] then
        Preliminary(plan, Some(su.evaluate(belief, plan.plan[0])), history.FailureCount(s, plan.plan[0]), None)
      else Preliminary(plan, None, 0, None)
    }

    /** A request with no advice to enact halts; otherwise the advice stands and selection goes on. */
    method RequestAdvice(step: nat, s: S, plan: PlannerResult<C>, call: C) returns (standing: bool)
      requires Valid()
      modifies this, history
      ensures Valid() && zeroProgressCycles == old(zeroProgressCycles)
      ensures standing == (pendingRecovery != [])
      ensures var l1 := Note(su, old(State()), PlainEntry(step, s, Some(plan), Some(DecisionRequestProposal),
                Some(call), None, []));
              var l2 := l1.(pending := RecoveryFor(su.recovery, l1.reports, call));
              State() == if standing then l2 else Note(su, l2,
                PlainEntry(step, s, Some(plan), Some(DecisionHalt), Some(call), None, []))
    {
      AddEntry(PlainEntry(step, s, Some(plan), Some(DecisionRequestProposal), Some(call), None, []));
      var advice := AdviceFor(call);
      pendingRecovery := advice;
      standing := pendingRecovery != [];
      if !standing {
        AddEntry(PlainEntry(step, s, Some(plan), Some(DecisionHalt), Some(call), None, []));
      }
    }

    /** Discard the plan and replan, within the rejections one cycle allows. */
    method ReplanOnce(step: nat, s: S, plan: PlannerResult<C>, replans: nat)
      returns (outcome: Option<EpisodeOutcome>, ended: bool, next: PlannerResult<C>)
      requires Valid() && replans <= su.config.maxRejections
      modifies history
      ensures Valid() && (!ended ==> !next.PlannerFailure? && replans + 1 <= su.config.maxRejections)
      ensures ended ==> outcome == FaultHalt(su.config)
      ensures (ended, next) ==
              (replans + 1 > su.config.maxRejections || su.plan(belief, s).PlannerFailure?, su.plan(belief, s))
      ensures State() == if replans + 1 > su.config.maxRejections
                then NoteFault(su, old(State()), step, s, Some(plan), PROTOCOL_FAULT)
        else if ended then NoteFault(su, old(State()), step, s, Some(next), PLANNER_FAULT)
        else old(State())
    {
      outcome, ended, next := FaultHalt(su.config), true, su.plan(belief, s);
      if replans + 1 > su.config.maxRejections {
        AddEntry(PlainEntry(step, s, Some(plan), None, None, None, [PROTOCOL_FAULT]));
      } else if next.PlannerFailure? {
        AddEntry(PlainEntry(step, s, Some(next), None, None, None, [PLANNER_FAULT]));
      } else {
        ended := next.PlannerFailure?;
      }
    }

    /** One policy decision: a call is chosen, the cycle ends, or selection goes on. */
    method DecideOnce(step: nat, s: S, before: PlannerResult<C>, replansBefore: nat, requestsBefore: nat,
      acquired: bool, cached: Option<Proposal<C>>) returns (call: Option<C>, ended: bool,
      outcome: Option<EpisodeOutcome>, plan: PlannerResult<C>, proposal: Option<Proposal<C>>, divergences: seq<string>,
      replans: nat, requests: nat)
      requires Valid() && !before.PlannerFailure? && replansBefore <= su.config.maxRejections
      modifies this, history
      ensures Valid() && zeroProgressCycles == old(zeroProgressCycles)
      ensures !ended && call.None? ==> !plan.PlannerFailure? && replansBefore <= replans <= su.config.maxRejections
      ensures !ended && call.None? && replans == replansBefore ==> old(pendingRecovery) == [] && pendingRecovery != []
      ensures Decide(su, old(State()), step, s, before, replansBefore, requestsBefore, acquired, cached) ==
              if call.Some? then Chosen(State(), plan, call.value, proposal, divergences, replans, requests)
              else if ended then Ended(State(), outcome, replans, requests)
              else Select(su, State(), step, s, plan, replans, requests, acquired, cached)
    {
      call, ended, outcome, divergences := None, false, None, [];
      plan, replans, requests := before, replansBefore, requestsBefore;
      var p := CurrentSituation(s, plan);
      proposal := if WantsProposal(su.policy, su.config.failureThreshold, p) then cached else None;
      match Route(su.policy, su.config.failureThreshold, p) {
        case EnactCall(c) =>
          divergences := Divergences(su, p, proposal);
          call := Some(c);
        case HaltEpisode(about) =>
          AddEntry(PlainEntry(step, s, Some(plan), Some(DecisionHalt), about, None, []));
          outcome := Some(if about.Some? then HaltedRepeatedFailure else HaltedNoPlan);
          ended := true;
        case AskForProposal(c) =>
          var standing := RequestAdvice(step, s, plan, c);
          requests := requests + 1;
          outcome := Some(HaltedRepeatedFailure);
          ended := !standing;
          assert Decide(su, old(State()), step, s, before, replansBefore, requestsBefore, acquired, cached) ==
              if ended then Ended(State(), outcome, replans, requests)
              else Select(su, State(), step, s, plan, replans, requests, acquired, cached);
        case ReplanCycle =>
          outcome, ended, plan := ReplanOnce(step, s, plan, replans);
          replans := replans + 1;
      }
    }

    /** The inner loop: acquire, compare, decide, until a call is chosen or the cycle ends. */
    method SelectCall(step: nat, s: S, first: PlannerResult<C>)
      returns (call: Option<C>, outcome: Option<EpisodeOutcome>, plan: PlannerResult<C>, proposal: Option<Proposal<C>>,
               divergences: seq<string>, replans: nat, requests: nat)
      requires Valid() && !first.PlannerFailure?
      modifies this, history
      ensures Valid() && zeroProgressCycles == old(zeroProgressCycles)
      ensures Select(su, old(State()), step, s, first, 0, 0, false, None) ==
              if call.Some? then Chosen(State(), plan, call.value, proposal, divergences, replans, requests)
              else Ended(State(), outcome, replans, requests)
    {
      hide Note, Situation, Acquire, Decide, Route;
      plan, replans, requests := first, 0, 0;
      var acquired, cached := false, None;
      while true
        invariant Valid() && zeroProgressCycles == old(zeroProgressCycles)
        invariant !plan.PlannerFailure? && replans <= su.config.maxRejections
        invariant Select(su, State(), step, s, plan, replans, requests, acquired, cached)
               == Select(su, old(State()), step, s, first, 0, 0, false, None)
        decreases su.config.maxRejections - replans, if pendingRecovery == [] then 1 else 0
      {
        ghost var hadAdvice, triedBefore := pendingRecovery != [], replans;
        if WantsProposal(su.policy, su.config.failureThreshold, CurrentSituation(s, plan)) && !acquired {
          var fault;
          cached, fault := AcquireProposal();
          if fault.Some? {
            AddEntry(PlainEntry(step, s, Some(plan), None, None, None, [fault.value]));
            call, outcome, proposal, divergences := None, FaultHalt(su.config), None, [];
            return;
          }
          acquired := true;
        }
        assert hadAdvice == (pendingRecovery != []);
        var ended;
        call, ended, outcome, plan, proposal, divergences, replans, requests :=
          DecideOnce(step, s, plan, replans, requests, acquired, cached);
        if call.Some? || ended {
          return;
        }
      }
    }

    /** The attempt completed and returned: maintain the belief, observe, monitor, record. */
    method HandleResult(step: nat, s: S, plan: PlannerResult<C>, call: C, verdict: CallValidation, advice: Advice<C>,
      r: ExecutionResult<S, C>) returns (outcome: Option<EpisodeOutcome>)
      requires Valid()
      modifies this, history
      ensures Valid() && zeroProgressCycles == old(zeroProgressCycles)
      ensures CycleEnd(State(), outcome) == AfterResult(su, old(State()), step, s, plan, call, verdict, advice, r)
    {
      hide Note, AfterObservation;
      var pre := belief;
      belief := su.record(su.sync(pre, r.post), r);
      var observeFault := ObserveTrack();
      if observeFault.Some? {
        AddEntry(ExecutedEntry(step, s, plan, call, Some(verdict), advice, r, [], [observeFault.value]));
        return FaultHalt(su.config);
      }
      outcome := MonitorAttempt(step, s, plan, call, verdict, advice, pre, r);
    }

    method MonitorAttempt(step: nat, s: S, plan: PlannerResult<C>, call: C, verdict: CallValidation, advice: Advice<C>,
      pre: B, r: ExecutionResult<S, C>) returns (outcome: Option<EpisodeOutcome>)
      requires Valid()
      modifies this, history
      ensures Valid() && zeroProgressCycles == old(zeroProgressCycles)
      ensures CycleEnd(State(), outcome) == AfterObservation(su, old(State()), step, s, plan, call,
                verdict, advice, pre, r)
    {
      hide Note;
      var verdicts := su.monitor(pre, r);
      var reports := if verdicts.Reported? then verdicts.reports else [];
      allReports := allReports + reports;
      if pendingRecovery != [] {
        pendingRecovery := pendingRecovery[1..];
      }
      var faults := if verdicts.MonitorRaised? then [PROTOCOL_FAULT] else [];
      AddEntry(ExecutedEntry(step, s, plan, call, Some(verdict), advice, r, reports, faults));
      outcome := if verdicts.MonitorRaised? then FaultHalt(su.config) else None;
    }

    /** Case (a) of the fault rule. */
    method HandleFaultedResult(step: nat, s: S, plan: PlannerResult<C>, call: C, verdict: CallValidation,
      advice: Advice<C>, fault: Fault, r: ExecutionResult<S, C>) returns (outcome: Option<EpisodeOutcome>)
      requires Valid()
      modifies this, history
      ensures Valid() && zeroProgressCycles == old(zeroProgressCycles)
      ensures CycleEnd(State(), outcome) == AfterFaultedResult(su, old(State()), step, s, plan, call,
                verdict, advice, fault, r)
    {
      belief := su.record(su.sync(belief, r.post), r);
      var observeFault := ObserveTrack();
      var faults := [fault] + if observeFault.Some? then [observeFault.value] else [];
      AddEntry(ExecutedEntry(step, s, plan, call, Validated(verdict), advice, r, [], faults));
      return FaultHalt(su.config);
    }

    /** Cases (b) and (c): only a fault with the case-(c) key charges anything. */
    method HandleFault(step: nat, s: S, plan: PlannerResult<C>, call: C, verdict: CallValidation,
      divergences: seq<string>, fault: Fault) returns (outcome: Option<EpisodeOutcome>)
      requires Valid()
      modifies this, history
      ensures Valid() && zeroProgressCycles == old(zeroProgressCycles)
      ensures CycleEnd(State(), outcome) == AfterFault(su, old(State()), step, s, plan, call, verdict,
                divergences, fault)
    {
      ChargeCaseC(fault);
      AddEntry(Entry(step, s, Some(plan), None, Some(call), Validated(verdict), None, [], [fault],
        Advice(None, None, [], divergences)));
      outcome := FaultHalt(su.config);
    }

    /** Execute through the boundary check and route the answer. */
    method Attempt(step: nat, s: S, plan: PlannerResult<C>, call: C, verdict: CallValidation, advice: Advice<C>,
      divergences: seq<string>) returns (outcome: Option<EpisodeOutcome>)
      requires Valid()
      modifies this, history
      ensures Valid() && zeroProgressCycles == old(zeroProgressCycles)
      ensures CycleEnd(State(), outcome) == Perform(su, old(State()), step, s, plan, call, verdict, advice, divergences)
    {
      hide AfterResult, AfterFaultedResult, AfterFault, Note, IndexMatches;
      var response := su.env.executeSkill(log, call);
      log := log + [Exchange(call, response)];
      match Execute(response) {
        case Completed(r) =>
          outcome := HandleResult(step, s, plan, call, verdict, advice, r);
        case Faulted(fault, Some(r)) =>
          outcome := HandleFaultedResult(step, s, plan, call, verdict, advice, fault, r);
        case Faulted(fault, None) =>
          outcome := HandleFault(step, s, plan, call, verdict, divergences, fault);
        case Refused(v) =>
          var fault := Fault(if v.MalformedCall? then MalformedSkillCall else MissingGrounding, Unstaged, None);
          AddEntry(PlainEntry(step, s, Some(plan), None, Some(call), Some(v), [fault]));
          outcome := FaultHalt(su.config);
      }
    }

    /** Both gates stand before the executor; either drops the standing advice. */
    method PassGates(step: nat, s: S, plan: PlannerResult<C>, call: C, proposal: Option<Proposal<C>>,
      divergences: seq<string>) returns (outcome: Option<EpisodeOutcome>)
      requires Valid()
      modifies this, history
      ensures Valid() && zeroProgressCycles == old(zeroProgressCycles)
      ensures CycleEnd(State(), outcome) == LoopModel.Enact(su, old(State()), step, s, plan, call,
                proposal, divergences)
    {
      hide Perform, Note;
      var advice := AdviceOf(call, pendingRecovery != [] && call == pendingRecovery[0], proposal, divergences);
      var verdict := su.evaluate(belief, call);
      if !su.grounded(s, call) {
        AddEntry(PlainEntry(step, s, Some(plan), None, Some(call), Some(UngroundedCall), [UNGROUNDED_FAULT]));
        pendingRecovery := [];
        outcome := FaultHalt(su.config);
      } else if verdict.SymbolicallyInapplicable? {
        AddEntry(PlainEntry(step, s, Some(plan), Some(DecisionReplan), Some(call), Some(verdict), []));
        pendingRecovery := [];
        outcome := None;
      } else {
        outcome := Attempt(step, s, plan, call, verdict, advice, divergences);
      }
    }

    method RunCycle(step: nat, s: S) returns (outcome: Option<EpisodeOutcome>)
      requires Valid()
      modifies this, history
      ensures Valid() && zeroProgressCycles == old(zeroProgressCycles)
      ensures CycleEnd(State(), outcome) == Cycle(su, old(State()), step, s)
    {
      hide Select, Enact, Note;
      var plan := su.plan(belief, s);
      if plan.PlannerFailure? {
        AddEntry(PlainEntry(step, s, Some(plan), None, None, None, [PLANNER_FAULT]));
        return FaultHalt(su.config);
      }
      var call, ended, chosen, proposal, divergences, replans, requests := SelectCall(step, s, plan);
      if call.None? {
        return ended;
      }
      outcome := PassGates(step, s, chosen, call.value, proposal, divergences);
    }

    /** Sync, open, gate, cycle. `began` is false when a gate ended the episode before any cycle. */
    method TakeTurn(step: nat, firstBefore: bool) returns (outcome: Option<EpisodeOutcome>, began: bool, first: bool)
      requires Valid()
      modifies this, history
      ensures Valid() && zeroProgressCycles == old(zeroProgressCycles)
      ensures OneTurn(su, old(State()), step, firstBefore) ==
              if outcome.Some? then Stopped(State(), outcome.value, began) else Continues(State(), first)
    {
      hide Cycle, Note;
      var s := su.env.exportState(step, log);
      belief := su.sync(belief, s);
      var observeFault := None;
      first, began := firstBefore, true;
      if first {
        observeFault := ObserveTrack();
      }
      if observeFault.Some? {
        AddEntry(PlainEntry(step, s, None, None, None, None, [observeFault.value]));
        outcome := FaultHalt(su.config);
      } else {
        first := first && su.advisory.None?;
        var executive, primitive := Charged();
        if su.satisfied(s) {
          return Some(GoalReached), false, first;
        }
        if executive >= su.config.executiveBudget || primitive >= su.config.primitiveBudget {
          return Some(BudgetExhausted), false, first;
        }
        outcome := RunCycle(step, s);
      }
    }

    /** The outer loop, with the liveness guard that bounds zero-charge cycles. */
    method Run() returns (outcome: EpisodeOutcome, cycles: nat)
      requires Valid() && ExecutiveCharged(State()) <= su.config.executiveBudget
               && zeroProgressCycles <= su.config.maxRejections
      modifies this, history
      ensures Valid()
      ensures Episode(State(), outcome, cycles) == RunFrom(su, old(State()), 0, true, old(zeroProgressCycles))
    {
      hide OneTurn, Note;
      var step, first := 0, true;
      while true
        invariant Valid() && ExecutiveCharged(State()) <= su.config.executiveBudget
                  && zeroProgressCycles <= su.config.maxRejections
        invariant RunFrom(su, State(), step, first, zeroProgressCycles) ==
                    RunFrom(su, old(State()), 0, true, old(zeroProgressCycles))
        decreases su.config.executiveBudget - ExecutiveCharged(State()), su.config.maxRejections - zeroProgressCycles
      {
        ghost var before := State();
        TurnCharges(su, before, step, first);
        var chargedBefore, _ := Charged();
        var s := su.env.exportState(step, log);
        var ended, began, next := TakeTurn(step, first);
        if ended.Some? {
          return ended.value, if began then step + 1 else step;
        }
        step, first := step + 1, next;
        var charged, _ := Charged();
        if charged == chargedBefore {
          if zeroProgressCycles + 1 > su.config.maxRejections {
            zeroProgressCycles := zeroProgressCycles + 1;
            AddEntry(PlainEntry(step, s, None, None, None, None, [PROTOCOL_FAULT]));
            return FaultedEpisode, step;
          }
          zeroProgressCycles := zeroProgressCycles + 1;
        } else {
          zeroProgressCycles := 0;
        }
      }
    }
  }

  /** A whole episode of a fresh manager: its outcome, its cycles and the state it leaves are the specified ones. */
  method RunEpisode<S(!new), B(!new), C(==, !new)>(su: Setup<S, B, C>, belief: B)
    returns (manager: ExecutiveLoopManager<S, B, C>, outcome: EpisodeOutcome, cycles: nat)
    ensures fresh(manager) && manager.Valid()
    ensures Episode(manager.State(), outcome, cycles) == LoopModel.Run(su, belief)
    ensures cycles <= (su.config.executiveBudget + 1) * (su.config.maxRejections + 1)
  {
    manager := new ExecutiveLoopManager(su, belief);
    outcome, cycles := manager.Run();
    RunIsBounded(su, belief);
  }
}
