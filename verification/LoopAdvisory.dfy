/**
  The advisory track advises and never selects: attaching one that never raises changes no decision
  of either shipped policy over a whole run (runtime/loop.py, runtime/policies.py).
*/
module LoopAdvisory {
  import opened Common
  import opened Skills
  import opened Search
  import opened Execution
  import opened Executive
  import opened LoopModel

  function Stripped<S, C>(e: Entry<S, C>): Entry<S, C>
  {
    e.(advice := NoAdvice())
  }

  /** Equal in everything but the advisory columns of the trace and the consultation count. */
  ghost predicate SameButAdvice<S, B, C>(l: LoopState<S, B, C>, m: LoopState<S, B, C>)
  {
    && l.belief == m.belief && l.failures == m.failures && l.log == m.log
    && l.extraExecutive == m.extraExecutive && l.extraPrimitive == m.extraPrimitive
    && l.pending == m.pending && l.reports == m.reports
    && |l.entries| == |m.entries|
    && forall i :: 0 <= i < |l.entries| ==> Stripped(l.entries[i]) == Stripped(m.entries[i])
  }

  /** The same executive without the track. */
  function Bare<S, B, C>(su: Setup<S, B, C>): Setup<S, B, C>
  {
    su.(advisory := None)
  }

  ghost predicate NeverRaises<S, B, C>(su: Setup<S, B, C>)
  {
    su.advisory.Some? ==> forall n :: su.advisory.value.observe(n).None? && su.advisory.value.propose(n).Proposed?
  }

  lemma SameNote<S, B, C>(su: Setup<S, B, C>, l: LoopState<S, B, C>, m: LoopState<S, B, C>, e: Entry<S, C>,
    f: Entry<S, C>)
    requires SameButAdvice(l, m) && Stripped(e) == Stripped(f)
    ensures SameButAdvice(Note(su, l, e), Note(Bare(su), m, f))
  {
  }

  lemma {:induction false} SameSteps<S, C>(entries: seq<Entry<S, C>>, others: seq<Entry<S, C>>)
    requires |entries| == |others| && forall i :: 0 <= i < |entries| ==> Stripped(entries[i]) == Stripped(others[i])
    ensures ExecutiveSteps(entries) == ExecutiveSteps(others) && PrimitiveSteps(entries) == PrimitiveSteps(others)
    decreases |entries|
  {
    if entries != [] {
      SameSteps(Init(entries), Init(others));
      assert Stripped(Last(entries)) == Stripped(Last(others));
    }
  }

  lemma SameCharges<S, B, C>(l: LoopState<S, B, C>, m: LoopState<S, B, C>)
    requires SameButAdvice(l, m)
    ensures ExecutiveCharged(l) == ExecutiveCharged(m) && PrimitiveCharged(l) == PrimitiveCharged(m)
  {
    SameSteps(l.entries, m.entries);
  }

  /** Both end the cycle alike, or both choose the same call of the same plan. */
  ghost predicate SameSelection<S, B, C>(a: Selection<S, B, C>, b: Selection<S, B, C>)
  {
    && SameButAdvice(a.state, b.state) && a.Ended? == b.Ended?
    && (a.Ended? ==> a.outcome == b.outcome)
    && (a.Chosen? ==> a.plan == b.plan && a.call == b.call)
  }

  lemma {:induction false} SameSelect<S, B, C>(su: Setup<S, B, C>, l: LoopState<S, B, C>, m: LoopState<S, B, C>,
    step: nat, s: S, plan: PlannerResult<C>, replans: nat, requests: nat, acquired: bool, cached: Option<Proposal<C>>,
    other: Option<Proposal<C>>)
    requires !plan.PlannerFailure? && replans <= su.config.maxRejections
    requires NeverRaises(su) && SameButAdvice(l, m)
    ensures SameSelection(Select(su, l, step, s, plan, replans, requests, acquired, cached),
                          Select(Bare(su), m, step, s, plan, replans, requests, acquired, other))
    decreases su.config.maxRejections - replans, if l.pending == [] then 1 else 0, 1
  {
    assert Situation(su, l, s, plan) == Situation(Bare(su), m, s, plan);
    if WantsProposal(su.policy, su.config.failureThreshold, Situation(su, l, s, plan)) && !acquired {
      var got := Acquire(su, l);
      assert got.Acquired? && SameButAdvice(got.state, m);
      SameDecide(su, got.state, m, step, s, plan, replans, requests, true, got.cached, None);
    } else {
      SameDecide(su, l, m, step, s, plan, replans, requests, acquired, cached, other);
    }
  }

  lemma {:induction false} SameDecide<S, B, C>(su: Setup<S, B, C>, l: LoopState<S, B, C>, m: LoopState<S, B, C>,
    step: nat, s: S, plan: PlannerResult<C>, replans: nat, requests: nat, acquired: bool, cached: Option<Proposal<C>>,
    other: Option<Proposal<C>>)
    requires !plan.PlannerFailure? && replans <= su.config.maxRejections
    requires NeverRaises(su) && SameButAdvice(l, m)
    ensures SameSelection(Decide(su, l, step, s, plan, replans, requests, acquired, cached),
                          Decide(Bare(su), m, step, s, plan, replans, requests, acquired, other))
    decreases su.config.maxRejections - replans, if l.pending == [] then 1 else 0, 0
  {
    hide NeverRaises, SameButAdvice, Note, Select, RecoveryFor, WantsProposal, Divergences;
    SituationsAgree(su, l, m, s, plan);
    match Route(su.policy, su.config.failureThreshold, Situation(su, l, s, plan))
    case EnactCall(call) =>
    case HaltEpisode(about) =>
      var e := PlainEntry(step, s, Some(plan), Some(DecisionHalt), about, None, []);
      SameNote(su, l, m, e, e);
    case AskForProposal(call) =>
      SameEscape(su, l, m, step, s, plan, call);
      var advice := RecoveryFor(su.recovery, l.reports, call);
      if advice != [] {
        SameSelect(su, Escaped(su, l, step, s, plan, call), Escaped(Bare(su), m, step, s, plan, call),
          step, s, plan, replans, requests + 1, acquired, cached, other);
      }
    case ReplanCycle =>
      var again := su.plan(l.belief, s);
      if replans + 1 > su.config.maxRejections {
        var e := PlainEntry(step, s, Some(plan), None, None, None, [PROTOCOL_FAULT]);
        SameNote(su, l, m, e, e);
      } else if again.PlannerFailure? {
        var e := PlainEntry(step, s, Some(again), None, None, None, [PLANNER_FAULT]);
        SameNote(su, l, m, e, e);
      } else {
        SameSelect(su, l, m, step, s, again, replans + 1, requests, acquired, cached, other);
      }
  }

  /** The state after a proposal request: one note, and the provider's advice standing. */
  function Escaped<S, B, C>(su: Setup<S, B, C>, l: LoopState<S, B, C>, step: nat, s: S, plan: PlannerResult<C>,
    call: C): LoopState<S, B, C>
  {
    Note(su, l, PlainEntry(step, s, Some(plan), Some(DecisionRequestProposal), Some(call), None, [])).(
      pending := RecoveryFor(su.recovery, l.reports, call))
  }

  lemma SameEscape<S, B, C>(su: Setup<S, B, C>, l: LoopState<S, B, C>, m: LoopState<S, B, C>, step: nat, s: S,
    plan: PlannerResult<C>, call: C)
    requires SameButAdvice(l, m)
    ensures var x, y := Escaped(su, l, step, s, plan, call), Escaped(Bare(su), m, step, s, plan, call);
            var h := PlainEntry(step, s, Some(plan), Some(DecisionHalt), Some(call), None, []);
            && SameButAdvice(x, y) && SameButAdvice(Note(su, x, h), Note(Bare(su), y, h))
    ensures Note(su, l, PlainEntry(step, s, Some(plan), Some(DecisionRequestProposal), Some(call),
              None, [])).reports == l.reports
    ensures Note(Bare(su), m, PlainEntry(step, s, Some(plan), Some(DecisionRequestProposal), Some(call),
              None, [])).reports == l.reports
  {
    SituationsAgree(su, l, m, s, plan);
    var e := PlainEntry(step, s, Some(plan), Some(DecisionRequestProposal), Some(call), None, []);
    var h := PlainEntry(step, s, Some(plan), Some(DecisionHalt), Some(call), None, []);
    SameDrop(su, l, m, e, RecoveryFor(su.recovery, l.reports, call));
    SameNote(su, Escaped(su, l, step, s, plan, call), Escaped(Bare(su), m, step, s, plan, call), h, h);
  }

  lemma SituationsAgree<S, B, C>(su: Setup<S, B, C>, l: LoopState<S, B, C>, m: LoopState<S, B, C>, s: S,
    plan: PlannerResult<C>)
    requires SameButAdvice(l, m)
    ensures Situation(su, l, s, plan) == Situation(Bare(su), m, s, plan)
    ensures l.belief == m.belief && l.reports == m.reports && l.pending == m.pending && l.log == m.log
  {
  }

  ghost predicate SameEnd<S, B, C>(a: CycleEnd<S, B, C>, b: CycleEnd<S, B, C>)
  {
    SameButAdvice(a.state, b.state) && a.outcome == b.outcome
  }

  lemma SameAfterObservation<S, B, C>(su: Setup<S, B, C>, l: LoopState<S, B, C>, m: LoopState<S, B, C>, step: nat,
    s: S, plan: PlannerResult<C>, call: C, verdict: CallValidation, a: Advice<C>, b: Advice<C>, pre: B,
    r: ExecutionResult<S, C>)
    requires SameButAdvice(l, m)
    ensures SameEnd(AfterObservation(su, l, step, s, plan, call, verdict, a, pre, r),
                    AfterObservation(Bare(su), m, step, s, plan, call, verdict, b, pre, r))
  {
  }

  lemma SameAfterResult<S, B, C>(su: Setup<S, B, C>, l: LoopState<S, B, C>, m: LoopState<S, B, C>, step: nat, s: S,
    plan: PlannerResult<C>, call: C, verdict: CallValidation, a: Advice<C>, b: Advice<C>, r: ExecutionResult<S, C>)
    requires NeverRaises(su) && SameButAdvice(l, m)
    ensures SameEnd(AfterResult(su, l, step, s, plan, call, verdict, a, r),
              AfterResult(Bare(su), m, step, s, plan, call, verdict, b, r))
  {
    hide AfterObservation, Note;
    var (l1, _) := Observe(su, l.(belief := su.record(su.sync(l.belief, r.post), r)));
    var (m1, _) := Observe(Bare(su), m.(belief := su.record(su.sync(m.belief, r.post), r)));
    SameAfterObservation(su, l1, m1, step, s, plan, call, verdict, a, b, l.belief, r);
  }

  lemma SameAfterFaultedResult<S, B, C>(su: Setup<S, B, C>, l: LoopState<S, B, C>, m: LoopState<S, B, C>, step: nat,
    s: S, plan: PlannerResult<C>, call: C, verdict: CallValidation, a: Advice<C>, b: Advice<C>, fault: Fault,
    r: ExecutionResult<S, C>)
    requires NeverRaises(su) && SameButAdvice(l, m)
    ensures SameEnd(AfterFaultedResult(su, l, step, s, plan, call, verdict, a, fault, r),
                    AfterFaultedResult(Bare(su), m, step, s, plan, call, verdict, b, fault, r))
  {
  }

  lemma SameAfterFault<S, B, C>(su: Setup<S, B, C>, l: LoopState<S, B, C>, m: LoopState<S, B, C>, step: nat, s: S,
    plan: PlannerResult<C>, call: C, verdict: CallValidation, a: seq<string>, b: seq<string>, fault: Fault)
    requires SameButAdvice(l, m)
    ensures SameEnd(AfterFault(su, l, step, s, plan, call, verdict, a, fault),
              AfterFault(Bare(su), m, step, s, plan, call, verdict, b, fault))
  {
  }

  lemma SameLog<S, B, C>(l: LoopState<S, B, C>, m: LoopState<S, B, C>, log: seq<Exchange<S, C>>)
    requires SameButAdvice(l, m)
    ensures SameButAdvice(l.(log := log), m.(log := log))
  {
  }

  lemma SamePerform<S, B, C>(su: Setup<S, B, C>, l: LoopState<S, B, C>, m: LoopState<S, B, C>, step: nat, s: S,
    plan: PlannerResult<C>, call: C, verdict: CallValidation, x: Advice<C>, y: Advice<C>, a: seq<string>,
    b: seq<string>)
    requires NeverRaises(su) && SameButAdvice(l, m)
    ensures SameEnd(Perform(su, l, step, s, plan, call, verdict, x, a),
              Perform(Bare(su), m, step, s, plan, call, verdict, y, b))
  {
    hide NeverRaises, SameButAdvice, AfterResult, AfterFaultedResult, AfterFault, Note;
    SituationsAgree(su, l, m, s, plan);
    var response := su.env.executeSkill(l.log, call);
    var log := l.log + [Exchange(call, response)];
    var l1, m1 := l.(log := log), m.(log := log);
    SameLog(l, m, log);
    match Execute(response)
    case Completed(r) => SameAfterResult(su, l1, m1, step, s, plan, call, verdict, x, y, r);
    case Faulted(fault, Some(r)) => SameAfterFaultedResult(su, l1, m1, step, s, plan, call, verdict, x, y, fault, r);
    case Faulted(fault, None) => SameAfterFault(su, l1, m1, step, s, plan, call, verdict, a, b, fault);
    case Refused(v) =>
      var fault := Fault(if v.MalformedCall? then MalformedSkillCall else MissingGrounding, Unstaged, None);
      var e := PlainEntry(step, s, Some(plan), None, Some(call), Some(v), [fault]);
      SameNote(su, l1, m1, e, e);
  }

  lemma SameEnact<S, B, C>(su: Setup<S, B, C>, l: LoopState<S, B, C>, m: LoopState<S, B, C>, step: nat, s: S,
    plan: PlannerResult<C>, call: C, p: Option<Proposal<C>>, q: Option<Proposal<C>>, a: seq<string>, b: seq<string>)
    requires NeverRaises(su) && SameButAdvice(l, m)
    ensures SameEnd(Enact(su, l, step, s, plan, call, p, a), Enact(Bare(su), m, step, s, plan, call, q, b))
  {
    hide NeverRaises, SameButAdvice, Perform, Note;
    SituationsAgree(su, l, m, s, plan);
    var verdict := su.evaluate(l.belief, call);
    if !su.grounded(s, call) {
      SameDrop(su, l, m,
        PlainEntry(step, s, Some(plan), None, Some(call), Some(UngroundedCall), [UNGROUNDED_FAULT]), []);
    } else if verdict.SymbolicallyInapplicable? {
      SameDrop(su, l, m, PlainEntry(step, s, Some(plan), Some(DecisionReplan), Some(call), Some(verdict), []), []);
    } else {
      var standing := l.pending != [] && call == l.pending[0];
      SamePerform(su, l, m, step, s, plan, call, verdict, AdviceOf(call, standing, p, a),
        AdviceOf(call, standing, q, b), a, b);
    }
  }

  /** The same note on both sides, and the same new standing advice. */
  lemma SameDrop<S, B, C>(su: Setup<S, B, C>, l: LoopState<S, B, C>, m: LoopState<S, B, C>, e: Entry<S, C>,
    pending: seq<C>)
    requires SameButAdvice(l, m)
    ensures SameButAdvice(Note(su, l, e).(pending := pending), Note(Bare(su), m, e).(pending := pending))
  {
    SameNote(su, l, m, e, e);
  }

  lemma SameCycle<S, B, C>(su: Setup<S, B, C>, l: LoopState<S, B, C>, m: LoopState<S, B, C>, step: nat, s: S)
    requires NeverRaises(su) && SameButAdvice(l, m)
    ensures SameEnd(Cycle(su, l, step, s), Cycle(Bare(su), m, step, s))
  {
    hide NeverRaises, SameButAdvice, Select, Enact, Note;
    var plan := su.plan(l.belief, s);
    SituationsAgree(su, l, m, s, plan);
    if plan.PlannerFailure? {
      var e := PlainEntry(step, s, Some(plan), None, None, None, [PLANNER_FAULT]);
      SameNote(su, l, m, e, e);
    } else {
      SameSelect(su, l, m, step, s, plan, 0, 0, false, None, None);
      var x, y := Select(su, l, step, s, plan, 0, 0, false, None),
        Select(Bare(su), m, step, s, plan, 0, 0, false, None);
      if x.Chosen? {
        SameEnact(su, x.state, y.state, step, s, x.plan, x.call, x.proposal, y.proposal, x.divergences, y.divergences);
      }
    }
  }

  lemma SameOpening<S, B, C>(su: Setup<S, B, C>, l: LoopState<S, B, C>, m: LoopState<S, B, C>, step: nat, first: bool,
    other: bool)
    requires NeverRaises(su) && SameButAdvice(l, m)
    ensures SameButAdvice(Open(su, Synced(su, l, step), first).0, Open(Bare(su), Synced(Bare(su), m, step), other).0)
    ensures Open(su, Synced(su, l, step), first).1.None? && Open(Bare(su), Synced(Bare(su), m, step), other).1.None?
  {
  }

  lemma SameTurn<S, B, C>(su: Setup<S, B, C>, l: LoopState<S, B, C>, m: LoopState<S, B, C>, step: nat, first: bool,
    other: bool)
    requires NeverRaises(su) && SameButAdvice(l, m)
    ensures var a, b := OneTurn(su, l, step, first), OneTurn(Bare(su), m, step, other);
            && SameButAdvice(a.state, b.state) && a.Stopped? == b.Stopped?
            && (a.Stopped? ==> a.outcome == b.outcome && a.began == b.began)
  {
    hide NeverRaises, Cycle, Open, Synced;
    SameOpening(su, l, m, step, first, other);
    var l1, m1 := Open(su, Synced(su, l, step), first).0, Open(Bare(su), Synced(Bare(su), m, step), other).0;
    SameCharges(l1, m1);
    SameCycle(su, l1, m1, step, su.env.exportState(step, l.log));
  }

  /**
    Attaching an advisory track that never raises changes nothing: from states that differ in advice
    only, the run with the track and the run without it make the same calls with the same outcomes
    and end the same way after as many cycles; their traces differ in the advisory columns only.
  */
  lemma {:induction false} AdvisoryChangesNothing<S, B, C>(su: Setup<S, B, C>, l: LoopState<S, B, C>,
    m: LoopState<S, B, C>, step: nat, first: bool, other: bool, zeroCharge: nat)
    requires NeverRaises(su) && SameButAdvice(l, m)
    requires ExecutiveCharged(l) <= su.config.executiveBudget && zeroCharge <= su.config.maxRejections
    ensures ExecutiveCharged(m) <= su.config.executiveBudget
    ensures var a, b := RunFrom(su, l, step, first, zeroCharge), RunFrom(Bare(su), m, step, other, zeroCharge);
            a.outcome == b.outcome && a.cycles == b.cycles && SameButAdvice(a.state, b.state)
    decreases su.config.executiveBudget - ExecutiveCharged(l), su.config.maxRejections - zeroCharge
  {
    hide NeverRaises, OneTurn, SameButAdvice, Note;
    SameCharges(l, m);
    SameTurn(su, l, m, step, first, other);
    var a, b := OneTurn(su, l, step, first), OneTurn(Bare(su), m, step, other);
    SameCharges(a.state, b.state);
    TurnCharges(su, l, step, first);
    if a.Continues? {
      if ExecutiveCharged(a.state) > ExecutiveCharged(l) {
        AdvisoryChangesNothing(su, a.state, b.state, step + 1, a.first, b.first, 0);
      } else if zeroCharge + 1 <= su.config.maxRejections {
        AdvisoryChangesNothing(su, a.state, b.state, step + 1, a.first, b.first, zeroCharge + 1);
      } else {
        SituationsAgree(su, l, m, su.env.exportState(step, l.log), NoPlan);
        var e := PlainEntry<S, C>(step + 1, su.env.exportState(step, l.log), None, None, None, None, [PROTOCOL_FAULT]);
        SameNote(su, a.state, b.state, e, e);
      }
    }
  }

  lemma AdvisoryIsEvidenceOnly<S, B, C>(su: Setup<S, B, C>, belief: B)
    requires NeverRaises(su)
    ensures Run(su, belief).outcome == Run(Bare(su), belief).outcome
    ensures Run(su, belief).cycles == Run(Bare(su), belief).cycles
    ensures Run(su, belief).state.log == Run(Bare(su), belief).state.log
    ensures Run(su, belief).state.reports == Run(Bare(su), belief).state.reports
    ensures SameButAdvice(Run(su, belief).state, Run(Bare(su), belief).state)
  {
    AdvisoryChangesNothing(su, Fresh(belief), Fresh(belief), 0, true, true, 0);
  }
}
