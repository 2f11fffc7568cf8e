/** What holds of every run of the executive loop, in every environment (runtime/loop.py). */
module LoopTheorems {
  import opened Common
  import opened Skills
  import opened Search
  import opened Execution
  import opened Executive
  import opened LoopModel

  // ---------------------------------------------------------------------------------------------
  // How long a run can be
  // ---------------------------------------------------------------------------------------------

  /** Within a cycle: at most `maxRejections` + 1 replans, and one request unless advice is standing. */
  lemma {:induction false} SelectionIsBounded<S, B, C>(su: Setup<S, B, C>, l: LoopState<S, B, C>, step: nat, s: S,
    plan: PlannerResult<C>, replans: nat, requests: nat, acquired: bool, cached: Option<Proposal<C>>)
    requires !plan.PlannerFailure? && replans <= su.config.maxRejections
    ensures var r := Select(su, l, step, s, plan, replans, requests, acquired, cached);
            r.replans <= su.config.maxRejections + 1 && r.requests <= requests + if l.pending == [] then 1 else 0
    decreases su.config.maxRejections - replans, if l.pending == [] then 1 else 0, 1
  {
    if WantsProposal(su.policy, su.config.failureThreshold, Situation(su, l, s, plan)) && !acquired {
      if Acquire(su, l).Acquired? {
        DecisionIsBounded(su, Acquire(su, l).state, step, s, plan, replans, requests, true, Acquire(su, l).cached);
      }
    } else {
      DecisionIsBounded(su, l, step, s, plan, replans, requests, acquired, cached);
    }
  }

  lemma {:induction false} DecisionIsBounded<S, B, C>(su: Setup<S, B, C>, l: LoopState<S, B, C>, step: nat, s: S,
    plan: PlannerResult<C>, replans: nat, requests: nat, acquired: bool, cached: Option<Proposal<C>>)
    requires !plan.PlannerFailure? && replans <= su.config.maxRejections
    ensures var r := Decide(su, l, step, s, plan, replans, requests, acquired, cached);
            r.replans <= su.config.maxRejections + 1 && r.requests <= requests + if l.pending == [] then 1 else 0
    decreases su.config.maxRejections - replans, if l.pending == [] then 1 else 0, 0
  {
    match Route(su.policy, su.config.failureThreshold, Situation(su, l, s, plan))
    case EnactCall(call) =>
    case HaltEpisode(about) =>
    case AskForProposal(call) =>
      var e := PlainEntry(step, s, Some(plan), Some(DecisionRequestProposal), Some(call), None, []);
      var l2 := Note(su, l, e).(pending := RecoveryFor(su.recovery, l.reports, call));
      if l2.pending != [] {
        SelectionIsBounded(su, l2, step, s, plan, replans, requests + 1, acquired, cached);
      }
    case ReplanCycle =>
      if replans + 1 <= su.config.maxRejections && !su.plan(l.belief, s).PlannerFailure? {
        SelectionIsBounded(su, l, step, s, su.plan(l.belief, s), replans + 1, requests, acquired, cached);
      }
  }

  /** Turns left: each charged step may be surrounded by `maxRejections` free ones. */
  ghost function TurnsLeft(config: OrchestrationConfig, charged: nat, zeroCharge: nat): int
  {
    (config.executiveBudget - charged) * (config.maxRejections + 1) + config.maxRejections - zeroCharge + 1
  }

  lemma TurnsLeftDrops(config: OrchestrationConfig, charged: nat, zeroCharge: nat)
    requires charged <= config.executiveBudget && zeroCharge <= config.maxRejections
    ensures TurnsLeft(config, charged, zeroCharge) >= 1
    ensures TurnsLeft(config, charged + 1, 0) + 1 <= TurnsLeft(config, charged, zeroCharge)
    ensures TurnsLeft(config, charged, zeroCharge + 1) + 1 <= TurnsLeft(config, charged, zeroCharge)
  {
    var left, more := config.executiveBudget - charged, config.maxRejections + 1;
    assert left * more >= 0;
    assert (left - 1) * more == left * more - more;
  }

  lemma {:induction false} TurnsAreBounded<S, B, C>(su: Setup<S, B, C>, l: LoopState<S, B, C>, step: nat, first: bool,
    zeroCharge: nat)
    requires ExecutiveCharged(l) <= su.config.executiveBudget && zeroCharge <= su.config.maxRejections
    ensures RunFrom(su, l, step, first, zeroCharge).cycles <= step
              + TurnsLeft(su.config, ExecutiveCharged(l), zeroCharge)
    decreases su.config.executiveBudget - ExecutiveCharged(l), su.config.maxRejections - zeroCharge
  {
    hide OneTurn, TurnsLeft;
    TurnCharges(su, l, step, first);
    TurnsLeftDrops(su.config, ExecutiveCharged(l), zeroCharge);
    match OneTurn(su, l, step, first)
    case Stopped(after, outcome, began) =>
    case Continues(after, first') =>
      if ExecutiveCharged(after) > ExecutiveCharged(l) {
        TurnsAreBounded(su, after, step + 1, first', 0);
      } else if zeroCharge + 1 <= su.config.maxRejections {
        TurnsAreBounded(su, after, step + 1, first', zeroCharge + 1);
      }
  }

  /** Every run, halting or continuing on faults, takes at most (B + 1)(R + 1) cycles. */
  lemma RunIsBounded<S, B, C>(su: Setup<S, B, C>, belief: B)
    ensures Run(su, belief).cycles <= (su.config.executiveBudget + 1) * (su.config.maxRejections + 1)
  {
    TurnsAreBounded(su, Fresh(belief), 0, true, 0);
    var b, r := su.config.executiveBudget, su.config.maxRejections;
    assert (b + 1) * (r + 1) == b * (r + 1) + (r + 1);
  }

  // ---------------------------------------------------------------------------------------------
  // The books: charges, the failure index and the legality of the trace
  // ---------------------------------------------------------------------------------------------

  /** Charges equal the ledger of the environment's answers; the index equals a count over the trace. */
  ghost predicate Balanced<S, B, C(!new)>(su: Setup<S, B, C>, l: LoopState<S, B, C>)
  {
    && ExecutiveCharged(l) == StepLedger(l.log)
    && PrimitiveCharged(l) == PrimitiveLedger(l.log)
    && IndexMatches(su.worldKey, l.failures, l.entries)
  }

  lemma {:induction false} NotesKeepIndex<S, B, C(!new)>(su: Setup<S, B, C>, l: LoopState<S, B, C>,
    after: LoopState<S, B, C>)
    requires OnlyNotes(l, after) && IndexMatches(su.worldKey, l.failures, l.entries)
    ensures IndexMatches(su.worldKey, after.failures, after.entries)
    decreases |after.entries|
  {
    if |after.entries| > |l.entries| {
      var shorter := after.(entries := Init(after.entries));
      NotesKeepIndex(su, l, shorter);
      AppendEntry(su.worldKey, after.failures, Init(after.entries), Last(after.entries));
      assert after.entries == Init(after.entries) + [Last(after.entries)];
    } else {
      assert after.entries == l.entries;
    }
  }

  /** An attempt appends one entry and bumps the index by it. */
  ghost predicate OneEntry<S, B, C>(su: Setup<S, B, C>, l: LoopState<S, B, C>, after: LoopState<S, B, C>)
  {
    && after.entries != [] && Init(after.entries) == l.entries
    && after.failures == Bumped(su.worldKey, l.failures, Last(after.entries))
  }

  lemma NoteIsOneEntry<S, B, C>(su: Setup<S, B, C>, l: LoopState<S, B, C>, e: Entry<S, C>)
    ensures OneEntry(su, l, Note(su, l, e)) && Last(Note(su, l, e).entries) == e
  {
    assert Init(l.entries + [e]) == l.entries;
  }

  /** What the collaborators promise about the faults and verdicts they hand over. */
  ghost predicate Contract<S(!new), B(!new), C(!new)>(su: Setup<S, B, C>)
  {
    && (forall h, c :: AttachedFaultIsLate(su.env.executeSkill(h, c)))
    && (su.advisory.Some? ==> forall n :: ObserveFaultIsLate(su.advisory.value.observe(n)))
    && (forall b, c :: IsModelVerdict(su.evaluate(b, c)))
  }

  predicate AttachedFaultIsLate<S, C>(r: Response<S, C>)
  {
    r.RaisedFault? && r.attached.Some? ==> !r.fault.ArisesBeforeExecution()
  }

  predicate ObserveFaultIsLate(f: Option<Fault>)
  {
    f.Some? ==> !f.value.ArisesBeforeExecution()
  }

  predicate IsModelVerdict(v: CallValidation)
  {
    v in {ValidatedCall, SymbolicallyInapplicable, OutsideSymbolicModel}
  }

  lemma AfterObservationEntry<S, B, C>(su: Setup<S, B, C>, l: LoopState<S, B, C>, step: nat, s: S,
    plan: PlannerResult<C>, call: C, verdict: CallValidation, advice: Advice<C>, pre: B, r: ExecutionResult<S, C>)
    ensures var after := AfterObservation(su, l, step, s, plan, call, verdict, advice, pre, r).state;
            OneEntry(su, l, after) && Last(after.entries).pre == s && Last(after.entries).execution == Some(r)
            && (IsModelVerdict(verdict) && !verdict.SymbolicallyInapplicable? ==> LegalEntry(Last(after.entries)))
  {
    var after := AfterObservation(su, l, step, s, plan, call, verdict, advice, pre, r).state;
    assert Init(after.entries) == l.entries;
  }

  lemma AfterResultEntry<S(!new), B(!new), C(!new)>(su: Setup<S, B, C>, l: LoopState<S, B, C>, step: nat, s: S,
    plan: PlannerResult<C>, call: C, verdict: CallValidation, advice: Advice<C>, r: ExecutionResult<S, C>)
    ensures var after := AfterResult(su, l, step, s, plan, call, verdict, advice, r).state;
            OneEntry(su, l, after) && Last(after.entries).pre == s && Last(after.entries).execution == Some(r)
            && (Contract(su) && IsModelVerdict(verdict) && !verdict.SymbolicallyInapplicable? ==>
                 LegalEntry(Last(after.entries)))
  {
    hide AfterObservation, Note;
    var (l1, observeFault) := Observe(su, l.(belief := su.record(su.sync(l.belief, r.post), r)));
    if observeFault.Some? {
      assert Contract(su) ==> ObserveFaultIsLate(su.advisory.value.observe(l.consulted));
      NoteIsOneEntry(su, l1, ExecutedEntry(step, s, plan, call, Some(verdict), advice, r, [], [observeFault.value]));
    } else {
      AfterObservationEntry(su, l1, step, s, plan, call, verdict, advice, l.belief, r);
    }
  }

  lemma AfterFaultedResultEntry<S(!new), B(!new), C(!new)>(su: Setup<S, B, C>, l: LoopState<S, B, C>, step: nat, s: S,
    plan: PlannerResult<C>, call: C, verdict: CallValidation, advice: Advice<C>, fault: Fault,
    r: ExecutionResult<S, C>)
    ensures var after := AfterFaultedResult(su, l, step, s, plan, call, verdict, advice, fault, r).state;
            OneEntry(su, l, after) && Last(after.entries).faults != []
            && (Contract(su) && !fault.ArisesBeforeExecution() ==> LegalEntry(Last(after.entries)))
  {
    var after := AfterFaultedResult(su, l, step, s, plan, call, verdict, advice, fault, r).state;
    assert Init(after.entries) == l.entries;
    assert su.advisory.Some? && Contract(su) ==> ObserveFaultIsLate(su.advisory.value.observe(l.consulted));
  }

  lemma AfterFaultEntry<S, B, C>(su: Setup<S, B, C>, l: LoopState<S, B, C>, step: nat, s: S, plan: PlannerResult<C>,
    call: C, verdict: CallValidation, divergences: seq<string>, fault: Fault)
    ensures var after := AfterFault(su, l, step, s, plan, call, verdict, divergences, fault).state;
            OneEntry(su, l, after) && Last(after.entries).execution.None?
  {
    var after := AfterFault(su, l, step, s, plan, call, verdict, divergences, fault).state;
    assert Init(after.entries) == l.entries;
  }

  /** The one entry of an attempt: legal, and a counted failure only of a returned result. */
  lemma PerformAddsOneEntry<S(!new), B(!new), C(!new)>(su: Setup<S, B, C>, l: LoopState<S, B, C>, step: nat, s: S,
    plan: PlannerResult<C>, call: C, verdict: CallValidation, advice: Advice<C>, divergences: seq<string>)
    ensures var after := Perform(su, l, step, s, plan, call, verdict, advice, divergences).state;
            && OneEntry(su, l, after)
            && (Contract(su) && IsModelVerdict(verdict) && !verdict.SymbolicallyInapplicable? ==>
                 LegalEntry(Last(after.entries)))
            && (CountsAsFailure(Last(after.entries)) ==>
                  Last(after.entries).pre == s
                  && su.env.executeSkill(l.log, call) == Returned(Last(after.entries).execution.value))
  {
    hide AfterResult, AfterFaultedResult, AfterFault, Note;
    var response := su.env.executeSkill(l.log, call);
    assert Contract(su) ==> AttachedFaultIsLate(response);
    var l1 := l.(log := l.log + [Exchange(call, response)]);
    match Execute(response)
    case Completed(r) => AfterResultEntry(su, l1, step, s, plan, call, verdict, advice, r);
    case Faulted(fault, Some(r)) => AfterFaultedResultEntry(su, l1, step, s, plan, call, verdict, advice, fault, r);
    case Faulted(fault, None) => AfterFaultEntry(su, l1, step, s, plan, call, verdict, divergences, fault);
    case Refused(v) =>
      var fault := Fault(if v.MalformedCall? then MalformedSkillCall else MissingGrounding, Unstaged, None);
      NoteIsOneEntry(su, l1, PlainEntry(step, s, Some(plan), None, Some(call), Some(v), [fault]));
  }

  lemma EnactAddsOneEntry<S(!new), B(!new), C(!new)>(su: Setup<S, B, C>, l: LoopState<S, B, C>, step: nat, s: S,
    plan: PlannerResult<C>, call: C, proposal: Option<Proposal<C>>, divergences: seq<string>)
    ensures var after := Enact(su, l, step, s, plan, call, proposal, divergences).state;
            && OneEntry(su, l, after)
            && (Contract(su) ==> LegalEntry(Last(after.entries)))
            && (CountsAsFailure(Last(after.entries)) ==>
                  Last(after.entries).pre == s
                  && su.env.executeSkill(l.log, call) == Returned(Last(after.entries).execution.value))
  {
    hide Perform, Note;
    var advice := AdviceOf(call, l.pending != [] && call == l.pending[0], proposal, divergences);
    var verdict := su.evaluate(l.belief, call);
    assert Contract(su) ==> IsModelVerdict(verdict);
    NoteIsOneEntry(su, l, PlainEntry(step, s, Some(plan), None, Some(call), Some(UngroundedCall), [UNGROUNDED_FAULT]));
    NoteIsOneEntry(su, l, PlainEntry(step, s, Some(plan), Some(DecisionReplan), Some(call), Some(verdict), []));
    PerformAddsOneEntry(su, l, step, s, plan, call, verdict, advice, divergences);
  }

  lemma OneEntryKeepsIndex<S, B, C(!new)>(su: Setup<S, B, C>, l: LoopState<S, B, C>, after: LoopState<S, B, C>)
    requires OneEntry(su, l, after) && IndexMatches(su.worldKey, l.failures, l.entries)
    ensures IndexMatches(su.worldKey, after.failures, after.entries)
  {
    AppendEntry(su.worldKey, l.failures, l.entries, Last(after.entries));
    assert after.entries == l.entries + [Last(after.entries)];
  }

  /** A cycle only notes, or notes and then appends the one entry of its chosen call. */
  lemma CycleShape<S(!new), B(!new), C(!new)>(su: Setup<S, B, C>, l: LoopState<S, B, C>, step: nat, s: S)
    returns (mid: LoopState<S, B, C>)
    ensures OnlyNotes(l, mid)
    ensures var after := Cycle(su, l, step, s).state;
            after == mid || (OneEntry(su, mid, after) && (Contract(su) ==> LegalEntry(Last(after.entries))))
  {
    var plan := su.plan(l.belief, s);
    if plan.PlannerFailure? {
      mid := NoteFault(su, l, step, s, Some(plan), PLANNER_FAULT);
      PlainNote(su, l, l, PlainEntry(step, s, Some(plan), None, None, None, [PLANNER_FAULT]));
    } else {
      SelectNotes(su, l, step, s, plan, 0, 0, false, None);
      mid := Select(su, l, step, s, plan, 0, 0, false, None).state;
      match Select(su, l, step, s, plan, 0, 0, false, None)
      case Ended(l1, outcome, _, _) =>
      case Chosen(l1, chosen, call, proposal, divergences, _, _) =>
        EnactAddsOneEntry(su, l1, step, s, chosen, call, proposal, divergences);
    }
  }

  lemma TurnKeepsIndex<S(!new), B(!new), C(!new)>(su: Setup<S, B, C>, l: LoopState<S, B, C>, step: nat, first: bool)
    requires IndexMatches(su.worldKey, l.failures, l.entries)
    ensures var after := OneTurn(su, l, step, first).state; IndexMatches(su.worldKey, after.failures, after.entries)
  {
    hide Cycle;
    var s := su.env.exportState(step, l.log);
    var (l1, fault) := Open(su, Synced(su, l, step), first);
    if fault.Some? {
      var e := PlainEntry<S, C>(step, s, None, None, None, None, [fault.value]);
      AppendEntry(su.worldKey, l1.failures, l1.entries, e);
    } else if !su.satisfied(s) && !OutOfBudget(su.config, l1) {
      var mid := CycleShape(su, l1, step, s);
      NotesKeepIndex(su, l1, mid);
      var after := Cycle(su, l1, step, s).state;
      if after != mid { OneEntryKeepsIndex(su, mid, after); }
    }
  }

  lemma TurnBalances<S(!new), B(!new), C(!new)>(su: Setup<S, B, C>, l: LoopState<S, B, C>, step: nat, first: bool)
    requires Balanced(su, l)
    ensures Balanced(su, OneTurn(su, l, step, first).state)
  {
    hide OneTurn;
    TurnCharges(su, l, step, first);
    TurnKeepsIndex(su, l, step, first);
  }

  lemma GuardBalances<S(!new), B(!new), C(!new)>(su: Setup<S, B, C>, l: LoopState<S, B, C>, after: LoopState<S, B, C>,
    step: nat)
    requires Balanced(su, after)
    ensures Balanced(su, Guarded(su, l, after, step).state)
    ensures ExecutiveCharged(Guarded(su, l, after, step).state) == ExecutiveCharged(after)
  {
    var e := PlainEntry<S, C>(step + 1, su.env.exportState(step, l.log), None, None, None, None, [PROTOCOL_FAULT]);
    NoteCharges(su, after, e);
    AppendEntry(su.worldKey, after.failures, after.entries, e);
  }

  /**
    Charge conservation over whole runs. The executive steps charged are exactly the attempts that
    ended in a result, in a fault with a result or in a fault with the case-(c) key; primitives
    likewise; the failure index is exactly the count over the trace; the budget is never exceeded.
  */
  lemma {:induction false} RunBalances<S(!new), B(!new), C(!new)>(su: Setup<S, B, C>, l: LoopState<S, B, C>, step: nat,
    first: bool, zeroCharge: nat)
    requires ExecutiveCharged(l) <= su.config.executiveBudget && zeroCharge <= su.config.maxRejections
    requires Balanced(su, l)
    ensures Balanced(su, RunFrom(su, l, step, first, zeroCharge).state)
    ensures ExecutiveCharged(RunFrom(su, l, step, first, zeroCharge).state) <= su.config.executiveBudget
    decreases su.config.executiveBudget - ExecutiveCharged(l), su.config.maxRejections - zeroCharge
  {
    hide OneTurn, Balanced, Guarded;
    TurnCharges(su, l, step, first);
    TurnBalances(su, l, step, first);
    match OneTurn(su, l, step, first)
    case Stopped(after, outcome, began) =>
    case Continues(after, first') =>
      if ExecutiveCharged(after) > ExecutiveCharged(l) {
        RunBalances(su, after, step + 1, first', 0);
      } else if zeroCharge + 1 <= su.config.maxRejections {
        RunBalances(su, after, step + 1, first', zeroCharge + 1);
      } else {
        GuardBalances(su, l, after, step);
      }
  }

  lemma RunConserves<S(!new), B(!new), C(!new)>(su: Setup<S, B, C>, belief: B)
    ensures var l := Run(su, belief).state;
            && ExecutiveCharged(l) == StepLedger(l.log) <= su.config.executiveBudget
            && PrimitiveCharged(l) == PrimitiveLedger(l.log)
            && forall key :: Lookup(l.failures, key) == FailuresIn(su.worldKey, l.entries, key)
  {
    RunBalances(su, Fresh(belief), 0, true, 0);
  }

  // ---------------------------------------------------------------------------------------------
  // Legality of the trace
  // ---------------------------------------------------------------------------------------------

  ghost predicate LegalTrace<S, C>(entries: seq<Entry<S, C>>)
  {
    forall i :: 0 <= i < |entries| ==> LegalEntry(entries[i])
  }

  lemma NotesStayLegal<S, B, C>(l: LoopState<S, B, C>, after: LoopState<S, B, C>)
    requires OnlyNotes(l, after) && LegalTrace(l.entries)
    ensures LegalTrace(after.entries)
  {
    forall i | 0 <= i < |after.entries|
      ensures LegalEntry(after.entries[i])
    {
      if i < |l.entries| { assert after.entries[i] == after.entries[..|l.entries|][i]; }
    }
  }

  lemma TurnIsLegal<S(!new), B(!new), C(!new)>(su: Setup<S, B, C>, l: LoopState<S, B, C>, step: nat, first: bool)
    requires Contract(su) && LegalTrace(l.entries)
    ensures LegalTrace(OneTurn(su, l, step, first).state.entries)
  {
    hide Cycle, Contract;
    var s := su.env.exportState(step, l.log);
    var (l1, fault) := Open(su, Synced(su, l, step), first);
    if fault.None? && !su.satisfied(s) && !OutOfBudget(su.config, l1) {
      var mid := CycleShape(su, l1, step, s);
      NotesStayLegal(l1, mid);
      var after := Cycle(su, l1, step, s).state;
      if after != mid {
        assert after.entries == mid.entries + [Last(after.entries)];
      }
    }
  }

  /** No run ever records an entry that the trace schema refuses. */
  lemma {:induction false} RunIsLegal<S(!new), B(!new), C(!new)>(su: Setup<S, B, C>, l: LoopState<S, B, C>, step: nat,
    first: bool, zeroCharge: nat)
    requires ExecutiveCharged(l) <= su.config.executiveBudget && zeroCharge <= su.config.maxRejections
    requires Contract(su) && LegalTrace(l.entries)
    ensures LegalTrace(RunFrom(su, l, step, first, zeroCharge).state.entries)
    decreases su.config.executiveBudget - ExecutiveCharged(l), su.config.maxRejections - zeroCharge
  {
    hide OneTurn, Contract;
    TurnCharges(su, l, step, first);
    TurnIsLegal(su, l, step, first);
    match OneTurn(su, l, step, first)
    case Stopped(after, outcome, began) =>
    case Continues(after, first') =>
      if ExecutiveCharged(after) > ExecutiveCharged(l) {
        RunIsLegal(su, after, step + 1, first', 0);
      } else if zeroCharge + 1 <= su.config.maxRejections {
        RunIsLegal(su, after, step + 1, first', zeroCharge + 1);
      }
  }
}
