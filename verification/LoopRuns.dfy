/**
  Whole runs, read off the trace, the log and the configuration: which runs a fault ends, within which
  budgets every attempt starts, when the liveness guard fires, what of the answers is in the trace, and
  how often the track is consulted (runtime/loop.py).
*/
module LoopRuns {
  import opened Common
  import opened Skills
  import opened Search
  import opened Execution
  import opened Executive
  import opened LoopModel
  import opened LoopTheorems
  import opened LoopOutcomes
  import opened LoopAdvisory
  import opened LoopRecord

  // ---------------------------------------------------------------------------------------------
  // Which runs a fault ends
  // ---------------------------------------------------------------------------------------------

  /** The history grew by entries of this cycle, none of them with a fault. */
  ghost predicate QuietSince<S, C>(before: seq<Entry<S, C>>, step: nat, s: S, after: seq<Entry<S, C>>)
  {
    && |before| <= |after| && after[..|before|] == before
    && forall i :: |before| <= i < |after| ==> after[i].step == step && after[i].pre == s && after[i].faults == []
  }

  /** What the last entry of a cycle says about how the cycle ends. */
  ghost predicate EndFits<S, C>(config: OrchestrationConfig, e: Entry<S, C>, step: nat, s: S,
    outcome: Option<EpisodeOutcome>)
  {
    && e.step == step && e.pre == s
    && (e.faults != [] ==> outcome == if config.haltOnFault then Some(FaultedEpisode) else None)
    && (e.faults == [] ==> outcome != Some(FaultedEpisode))
  }

  /** Only the last entry of a cycle may carry a fault, and then the configuration decides. */
  ghost predicate CycleFits<S, B, C>(su: Setup<S, B, C>, before: seq<Entry<S, C>>, step: nat, s: S,
    after: seq<Entry<S, C>>, outcome: Option<EpisodeOutcome>)
  {
    after != [] && QuietSince(before, step, s, Init(after)) && EndFits(su.config, Last(after), step, s, outcome)
  }

  ghost predicate SelectionFits<S, B, C>(su: Setup<S, B, C>, before: seq<Entry<S, C>>, step: nat, s: S,
    r: Selection<S, B, C>)
  {
    match r
    case Ended(after, outcome, _, _) => CycleFits(su, before, step, s, after.entries, outcome)
    case Chosen(after, _, _, _, _, _, _) => QuietSince(before, step, s, after.entries)
  }

  lemma QuietTransitive<S, C>(before: seq<Entry<S, C>>, step: nat, s: S, mid: seq<Entry<S, C>>, after: seq<Entry<S, C>>)
    requires QuietSince(before, step, s, mid) && QuietSince(mid, step, s, after)
    ensures QuietSince(before, step, s, after)
  {
    assert after[..|before|] == after[..|mid|][..|before|];
    assert forall i :: |before| <= i < |mid| ==> after[i] == after[..|mid|][i];
  }

  lemma SelectionAfterQuiet<S, B, C>(su: Setup<S, B, C>, before: seq<Entry<S, C>>, step: nat, s: S,
    mid: seq<Entry<S, C>>, r: Selection<S, B, C>)
    requires QuietSince(before, step, s, mid) && SelectionFits(su, mid, step, s, r)
    ensures SelectionFits(su, before, step, s, r)
  {
    hide QuietSince;
    match r
    case Ended(after, outcome, _, _) => QuietTransitive(before, step, s, mid, Init(after.entries));
    case Chosen(after, _, _, _, _, _, _) => QuietTransitive(before, step, s, mid, after.entries);
  }

  lemma OneNoteFits<S, B, C>(su: Setup<S, B, C>, l: LoopState<S, B, C>, step: nat, s: S, e: Entry<S, C>,
    outcome: Option<EpisodeOutcome>)
    requires EndFits(su.config, e, step, s, outcome)
    ensures CycleFits(su, l.entries, step, s, Note(su, l, e).entries, outcome)
    ensures e.faults == [] ==> QuietSince(l.entries, step, s, Note(su, l, e).entries)
  {
    assert Init(l.entries + [e]) == l.entries;
  }

  lemma {:induction false} SelectFits<S, B, C>(su: Setup<S, B, C>, l: LoopState<S, B, C>, step: nat, s: S,
    plan: PlannerResult<C>, replans: nat, requests: nat, acquired: bool, cached: Option<Proposal<C>>)
    requires !plan.PlannerFailure? && replans <= su.config.maxRejections
    ensures SelectionFits(su, l.entries, step, s, Select(su, l, step, s, plan, replans, requests, acquired, cached))
    decreases su.config.maxRejections - replans, if l.pending == [] then 1 else 0, 1
  {
    hide CycleFits, Bumped;
    if WantsProposal(su.policy, su.config.failureThreshold, Situation(su, l, s, plan)) && !acquired {
      match Acquire(su, l)
      case Acquired(l1, proposal) => DecideFits(su, l1, step, s, plan, replans, requests, true, proposal);
      case AcquisitionFault(l1, fault) =>
        OneNoteFits(su, l1, step, s, PlainEntry(step, s, Some(plan), None, None, None, [fault]),
          Select(su, l, step, s, plan, replans, requests, acquired, cached).outcome);
    } else {
      DecideFits(su, l, step, s, plan, replans, requests, acquired, cached);
    }
  }

  lemma {:induction false} DecideFits<S, B, C>(su: Setup<S, B, C>, l: LoopState<S, B, C>, step: nat, s: S,
    plan: PlannerResult<C>, replans: nat, requests: nat, acquired: bool, cached: Option<Proposal<C>>)
    requires !plan.PlannerFailure? && replans <= su.config.maxRejections
    ensures SelectionFits(su, l.entries, step, s, Decide(su, l, step, s, plan, replans, requests, acquired, cached))
    decreases su.config.maxRejections - replans, if l.pending == [] then 1 else 0, 0
  {
    hide CycleFits, SelectionFits, Bumped;
    var r := Decide(su, l, step, s, plan, replans, requests, acquired, cached);
    match Route(su.policy, su.config.failureThreshold, Situation(su, l, s, plan))
    case EnactCall(call) =>
      ChosenFits(su, l, step, s, r);
    case HaltEpisode(about) =>
      var e := PlainEntry<S, C>(step, s, Some(plan), Some(DecisionHalt), about, None, []);
      OneNoteFits(su, l, step, s, e, r.outcome);
      EndedFits(su, l.entries, step, s, r);
    case AskForProposal(call) =>
      var e := PlainEntry<S, C>(step, s, Some(plan), Some(DecisionRequestProposal), Some(call), None, []);
      OneNoteFits(su, l, step, s, e, None);
      var l2 := Note(su, l, e).(pending := RecoveryFor(su.recovery, l.reports, call));
      if l2.pending == [] {
        var halt := PlainEntry<S, C>(step, s, Some(plan), Some(DecisionHalt), Some(call), None, []);
        OneNoteFits(su, l2, step, s, halt, r.outcome);
        EndedFits(su, l2.entries, step, s, r);
      } else {
        SelectFits(su, l2, step, s, plan, replans, requests + 1, acquired, cached);
      }
      SelectionAfterQuiet(su, l.entries, step, s, l2.entries, r);
    case ReplanCycle =>
      var again := su.plan(l.belief, s);
      if replans + 1 <= su.config.maxRejections && !again.PlannerFailure? {
        SelectFits(su, l, step, s, again, replans + 1, requests, acquired, cached);
      } else {
        var e := if replans + 1 > su.config.maxRejections
          then PlainEntry<S, C>(step, s, Some(plan), None, None, None, [PROTOCOL_FAULT])
          else PlainEntry<S, C>(step, s, Some(again), None, None, None, [PLANNER_FAULT]);
        OneNoteFits(su, l, step, s, e, r.outcome);
        EndedFits(su, l.entries, step, s, r);
      }
  }

  lemma EndedFits<S, B, C>(su: Setup<S, B, C>, before: seq<Entry<S, C>>, step: nat, s: S, r: Selection<S, B, C>)
    requires r.Ended? && CycleFits(su, before, step, s, r.state.entries, r.outcome)
    ensures SelectionFits(su, before, step, s, r)
  {
  }

  lemma ChosenFits<S, B, C>(su: Setup<S, B, C>, l: LoopState<S, B, C>, step: nat, s: S, r: Selection<S, B, C>)
    requires r.Chosen? && r.state == l
    ensures SelectionFits(su, l.entries, step, s, r)
  {
  }

  lemma EnactFits<S, B, C>(su: Setup<S, B, C>, l: LoopState<S, B, C>, step: nat, s: S, plan: PlannerResult<C>, call: C,
    proposal: Option<Proposal<C>>, divergences: seq<string>)
    ensures var end := Enact(su, l, step, s, plan, call, proposal, divergences);
            CycleFits(su, l.entries, step, s, end.state.entries, end.outcome)
  {
    hide Enact, StateFits, FaultsFit, AdviceFits, ValidationFits;
    GatesDecide(su, l, step, s, plan, call, proposal, divergences);
    var end := Enact(su, l, step, s, plan, call, proposal, divergences);
    StateGrows(su, l, su.env.executeSkill(l.log, call), end.state);
  }

  lemma StateGrows<S, B, C>(su: Setup<S, B, C>, l: LoopState<S, B, C>, r: Response<S, C>, after: LoopState<S, B, C>)
    ensures StateFits(su, l, r, after) ==> after.entries != [] && Init(after.entries) == l.entries
  {
  }

  lemma CycleEndsRight<S, B, C>(su: Setup<S, B, C>, l: LoopState<S, B, C>, step: nat, s: S)
    ensures var end := Cycle(su, l, step, s); CycleFits(su, l.entries, step, s, end.state.entries, end.outcome)
  {
    hide Enact, Select, QuietSince, EndFits;
    var plan := su.plan(l.belief, s);
    if plan.PlannerFailure? {
      PlannerFailureFits(su, l, step, s);
    } else {
      SelectFits(su, l, step, s, plan, 0, 0, false, None);
      match Select(su, l, step, s, plan, 0, 0, false, None)
      case Ended(_, _, _, _) =>
      case Chosen(l1, chosen, call, proposal, divergences, _, _) =>
        EnactFits(su, l1, step, s, chosen, call, proposal, divergences);
        QuietTransitive(l.entries, step, s, l1.entries, Init(Cycle(su, l, step, s).state.entries));
    }
  }

  lemma PlannerFailureFits<S, B, C>(su: Setup<S, B, C>, l: LoopState<S, B, C>, step: nat, s: S)
    requires su.plan(l.belief, s).PlannerFailure?
    ensures var end := Cycle(su, l, step, s); CycleFits(su, l.entries, step, s, end.state.entries, end.outcome)
  {
    PlannerFailureIsAFault(su, l, step, s);
    var e := PlainEntry<S, C>(step, s, Some(su.plan(l.belief, s)), None, None, None, [PLANNER_FAULT]);
    OneNoteFits(su, l, step, s, e, Cycle(su, l, step, s).outcome);
  }

  /** A turn that began a cycle ends as its last entry says; one that did not adds nothing and ends the run. */
  lemma TurnEndsRight<S, B, C>(su: Setup<S, B, C>, l: LoopState<S, B, C>, step: nat, first: bool)
    ensures var t := OneTurn(su, l, step, first);
            var s := su.env.exportState(step, l.log);
            if t.Stopped? && !t.began then t.state.entries == l.entries && t.outcome != FaultedEpisode
            else CycleFits(su, l.entries, step, s, t.state.entries, if t.Stopped? then Some(t.outcome) else None)
  {
    hide Cycle, CycleFits, OutOfBudget, Bumped;
    var s := su.env.exportState(step, l.log);
    var (l1, fault) := Open(su, Synced(su, l, step), first);
    if fault.Some? {
      var t := OneTurn(su, l, step, first);
      var e := PlainEntry<S, C>(step, s, None, None, None, None, [fault.value]);
      OneNoteFits(su, l1, step, s, e, if t.Stopped? then Some(t.outcome) else None);
    } else {
      CycleEndsRight(su, l1, step, s);
    }
  }

  /**
    If faults halt, then no entry before the last carries one, and a run whose last entry carries one
    ended on it. If they do not, then the only faulted episodes are those of the liveness guard, which
    alone stamps its entry with the next step, after more than `maxRejections` cycles.
  */
  ghost predicate FaultRule<S, B, C>(config: OrchestrationConfig, before: seq<Entry<S, C>>, step: nat, zeroCharge: nat,
    e: Episode<S, B, C>)
  {
    var after := e.state.entries;
    && |before| <= |after| && after[..|before|] == before && step <= e.cycles
    && (config.haltOnFault ==> forall i :: |before| <= i < |after| && after[i].faults != [] ==>
          i == |after| - 1 && e.outcome == FaultedEpisode)
    && (!config.haltOnFault ==> (e.outcome == FaultedEpisode <==> |before| < |after| && Last(after).step == e.cycles))
    && (!config.haltOnFault && e.outcome == FaultedEpisode ==> e.cycles - step + zeroCharge > config.maxRejections)
  }

  lemma StoppedRule<S, B, C>(su: Setup<S, B, C>, l: LoopState<S, B, C>, step: nat, first: bool, zeroCharge: nat)
    requires OneTurn(su, l, step, first).Stopped?
    ensures var t := OneTurn(su, l, step, first);
            FaultRule(su.config, l.entries, step, zeroCharge,
              Episode(t.state, t.outcome, if t.began then step + 1 else step))
  {
    hide OneTurn;
    TurnEndsRight(su, l, step, first);
    var after := OneTurn(su, l, step, first).state.entries;
    if OneTurn(su, l, step, first).began {
      PrefixOfInit(l.entries, after);
    }
  }

  lemma PrefixOfInit<T>(before: seq<T>, after: seq<T>)
    requires after != [] && |before| <= |Init(after)| && Init(after)[..|before|] == before
    ensures after[..|before|] == before
  {
    assert after[..|before|] == Init(after)[..|before|];
  }

  lemma GuardRule<S, B, C>(su: Setup<S, B, C>, l: LoopState<S, B, C>, step: nat, first: bool, zeroCharge: nat)
    requires OneTurn(su, l, step, first).Continues? && zeroCharge + 1 > su.config.maxRejections
    ensures FaultRule(su.config, l.entries, step, zeroCharge,
              Guarded(su, l, OneTurn(su, l, step, first).state, step))
  {
    hide OneTurn, Bumped;
    TurnEndsRight(su, l, step, first);
    var mid := OneTurn(su, l, step, first).state;
    var after := Guarded(su, l, mid, step).state.entries;
    assert after[..|mid.entries|] == mid.entries;
    PrefixOfInit(l.entries, mid.entries);
    assert after[..|l.entries|] == mid.entries[..|l.entries|];
    assert forall i :: 0 <= i < |mid.entries| ==> after[i] == after[..|mid.entries|][i];
  }

  /** One continuing turn before a run that keeps the rule. */
  lemma RuleCons<S, B, C>(su: Setup<S, B, C>, l: LoopState<S, B, C>, step: nat, first: bool, zeroCharge: nat,
    z: nat, e: Episode<S, B, C>)
    requires OneTurn(su, l, step, first).Continues? && z <= zeroCharge + 1
    requires FaultRule(su.config, OneTurn(su, l, step, first).state.entries, step + 1, z, e)
    ensures FaultRule(su.config, l.entries, step, zeroCharge, e)
  {
    hide OneTurn;
    TurnEndsRight(su, l, step, first);
    var mid, after := OneTurn(su, l, step, first).state.entries, e.state.entries;
    PrefixOfInit(l.entries, mid);
    assert after[..|l.entries|] == after[..|mid|][..|l.entries|];
    assert forall i :: 0 <= i < |mid| ==> after[i] == after[..|mid|][i];
  }

  lemma {:induction false} RunKeepsFaultRule<S, B, C>(su: Setup<S, B, C>, l: LoopState<S, B, C>, step: nat, first: bool,
    zeroCharge: nat)
    requires ExecutiveCharged(l) <= su.config.executiveBudget && zeroCharge <= su.config.maxRejections
    ensures FaultRule(su.config, l.entries, step, zeroCharge, RunFrom(su, l, step, first, zeroCharge))
    decreases su.config.executiveBudget - ExecutiveCharged(l), su.config.maxRejections - zeroCharge
  {
    hide OneTurn, FaultRule, Guarded;
    TurnCharges(su, l, step, first);
    match OneTurn(su, l, step, first)
    case Stopped(after, outcome, began) => StoppedRule(su, l, step, first, zeroCharge);
    case Continues(after, first') =>
      if ExecutiveCharged(after) > ExecutiveCharged(l) {
        RunKeepsFaultRule(su, after, step + 1, first', 0);
        RuleCons(su, l, step, first, zeroCharge, 0, RunFrom(su, after, step + 1, first', 0));
      } else if zeroCharge + 1 > su.config.maxRejections {
        GuardRule(su, l, step, first, zeroCharge);
      } else {
        RunKeepsFaultRule(su, after, step + 1, first', zeroCharge + 1);
        RuleCons(su, l, step, first, zeroCharge, zeroCharge + 1, RunFrom(su, after, step + 1, first', zeroCharge + 1));
      }
  }

  // ---------------------------------------------------------------------------------------------
  // What of the answers is in the trace, and within which budgets they were asked for
  // ---------------------------------------------------------------------------------------------

  /** Every result the environment answered with, in order. */
  ghost function ResultsIn<S, C>(log: seq<Exchange<S, C>>): seq<ExecutionResult<S, C>>
    decreases |log|
  {
    if log == [] then []
    else
      var r := ResultOf(Last(log).response);
      ResultsIn(Init(log)) + if r.Some? then [r.value] else []
  }

  /** Every execution in the trace, in order. */
  ghost function ExecutionsIn<S, C>(entries: seq<Entry<S, C>>): seq<ExecutionResult<S, C>>
    decreases |entries|
  {
    if entries == [] then []
    else
      var x := Last(entries).execution;
      ExecutionsIn(Init(entries)) + if x.Some? then [x.value] else []
  }

  ghost function ReportsIn<S, C>(entries: seq<Entry<S, C>>): seq<Report<C>>
    decreases |entries|
  {
    if entries == [] then [] else ReportsIn(Init(entries)) + Last(entries).reports
  }

  lemma {:induction false} NotesAddNothing<S, B, C>(l: LoopState<S, B, C>, after: LoopState<S, B, C>)
    requires OnlyNotes(l, after)
    ensures ExecutionsIn(after.entries) == ExecutionsIn(l.entries) && ReportsIn(after.entries) == ReportsIn(l.entries)
    decreases |after.entries|
  {
    if |after.entries| > |l.entries| {
      NotesAddNothing(l, after.(entries := Init(after.entries)));
    } else {
      assert after.entries == l.entries;
    }
  }

  /** The cycle asked nothing of the environment and left belief, discrepancies and recorded results alone. */
  ghost predicate NothingAsked<S, B, C>(l: LoopState<S, B, C>, after: LoopState<S, B, C>)
  {
    && after.log == l.log && after.belief == l.belief && after.reports == l.reports
    && ExecutionsIn(after.entries) == ExecutionsIn(l.entries) && ReportsIn(after.entries) == ReportsIn(l.entries)
  }

  /** It made this one attempt, and its answer is in the log, the belief, the discrepancies and the trace. */
  ghost predicate OneAsked<S, B, C>(su: Setup<S, B, C>, l: LoopState<S, B, C>, call: C, consulted: nat,
    after: LoopState<S, B, C>)
  {
    var r := su.env.executeSkill(l.log, call);
    && after.log == l.log + [Exchange(call, r)] && after.belief == BeliefAfter(su, l.belief, r)
    && after.reports == l.reports + ReportsAfter(su, l.belief, consulted, r)
    && ReportsIn(after.entries) == ReportsIn(l.entries) + ReportsAfter(su, l.belief, consulted, r)
    && ExecutionsIn(after.entries) == ExecutionsIn(l.entries) + if ResultOf(r).Some? then [ResultOf(r).value] else []
  }

  lemma EnactAsks<S, B, C>(su: Setup<S, B, C>, l: LoopState<S, B, C>, step: nat, s: S, plan: PlannerResult<C>, call: C,
    proposal: Option<Proposal<C>>, divergences: seq<string>)
    ensures var after := Enact(su, l, step, s, plan, call, proposal, divergences).state;
            NothingAsked(l, after) || OneAsked(su, l, call, l.consulted, after)
  {
    hide Enact, FaultsFit, AdviceFits, ValidationFits, OutcomeFits, Bumped, BeliefAfter, ReportsAfter;
    GatesDecide(su, l, step, s, plan, call, proposal, divergences);
  }

  lemma NotesThenAsk<S, B, C>(su: Setup<S, B, C>, l: LoopState<S, B, C>, mid: LoopState<S, B, C>, call: C,
    consulted: nat, after: LoopState<S, B, C>)
    requires OnlyNotes(l, mid)
    ensures NothingAsked(mid, after) ==> NothingAsked(l, after)
    ensures OneAsked(su, mid, call, consulted, after) ==> OneAsked(su, l, call, consulted, after)
  {
    NotesAddNothing(l, mid);
  }

  /** A cycle asks nothing, or makes one attempt, of the call and after the consultations returned. */
  lemma CycleAsks<S(!new), B(!new), C(!new)>(su: Setup<S, B, C>, l: LoopState<S, B, C>, step: nat, s: S)
    returns (asked: Option<(C, nat)>)
    ensures var after := Cycle(su, l, step, s).state;
            match asked
            case None => NothingAsked(l, after)
            case Some((call, consulted)) => OneAsked(su, l, call, consulted, after)
  {
    hide Enact, Select, OneAsked, NothingAsked, OnlyNotes;
    var plan := su.plan(l.belief, s);
    asked := None;
    if plan.PlannerFailure? {
      PlannerFailureAsksNothing(su, l, step, s);
    } else {
      SelectNotes(su, l, step, s, plan, 0, 0, false, None);
      match Select(su, l, step, s, plan, 0, 0, false, None)
      case Ended(l1, _, _, _) => NotesAskNothing(l, l1);
      case Chosen(l1, chosen, call, proposal, divergences, _, _) =>
        EnactAsks(su, l1, step, s, chosen, call, proposal, divergences);
        NotesThenAsk(su, l, l1, call, l1.consulted, Cycle(su, l, step, s).state);
        asked := if NothingAsked(l, Cycle(su, l, step, s).state) then None else Some((call, l1.consulted));
    }
  }

  lemma NotesAskNothing<S, B, C>(l: LoopState<S, B, C>, after: LoopState<S, B, C>)
    requires OnlyNotes(l, after)
    ensures NothingAsked(l, after)
  {
    NotesAddNothing(l, after);
  }

  lemma PlannerFailureAsksNothing<S, B, C>(su: Setup<S, B, C>, l: LoopState<S, B, C>, step: nat, s: S)
    requires su.plan(l.belief, s).PlannerFailure?
    ensures NothingAsked(l, Cycle(su, l, step, s).state)
  {
    PlannerFailureIsAFault(su, l, step, s);
    PlainNote(su, l, l, PlainEntry(step, s, Some(su.plan(l.belief, s)), None, None, None, [PLANNER_FAULT]));
    NotesAddNothing(l, Cycle(su, l, step, s).state);
  }

  /**
    A turn syncs the belief with the export, and then asks nothing or makes one attempt, which it starts
    below both budgets only. Whatever becomes of the turn, the belief after it is the synced one, with the
    result maintained if the answer carried one.
  */
  lemma TurnAsks<S(!new), B(!new), C(!new)>(su: Setup<S, B, C>, l: LoopState<S, B, C>, step: nat, first: bool)
    returns (asked: Option<(C, nat)>)
    ensures var after := OneTurn(su, l, step, first).state;
            var synced := l.(belief := su.sync(l.belief, su.env.exportState(step, l.log)));
            match asked
            case None => NothingAsked(synced, after)
            case Some((call, consulted)) =>
              && OneAsked(su, synced, call, consulted, after)
              && ExecutiveCharged(l) < su.config.executiveBudget && PrimitiveCharged(l) < su.config.primitiveBudget
  {
    hide Cycle, OneAsked, NothingAsked, Bumped;
    var s := su.env.exportState(step, l.log);
    var synced := l.(belief := su.sync(l.belief, s));
    var (l1, fault) := Open(su, Synced(su, l, step), first);
    asked := None;
    if fault.Some? {
      var e := PlainEntry<S, C>(step, s, None, None, None, None, [fault.value]);
      PlainNote(su, l1, l1, e);
      NotesAskNothing(l1, Note(su, l1, e));
      ConsultedAsideNothing(synced, l1, OneTurn(su, l, step, first).state);
    } else if su.satisfied(s) || OutOfBudget(su.config, l1) {
      ConsultedAsideNothing(synced, l1, l1);
    } else {
      asked := CycleAsks(su, l1, step, s);
      var after := OneTurn(su, l, step, first).state;
      if asked.None? { ConsultedAsideNothing(synced, l1, after); }
      else { ConsultedAsideOne(su, synced, l1, asked.value.0, asked.value.1, after); }
    }
  }

  lemma ConsultedAsideNothing<S, B, C>(l: LoopState<S, B, C>, m: LoopState<S, B, C>, after: LoopState<S, B, C>)
    requires m == l.(consulted := m.consulted)
    ensures NothingAsked(m, after) ==> NothingAsked(l, after)
    ensures m == after ==> NothingAsked(l, after)
  {
  }

  lemma ConsultedAsideOne<S, B, C>(su: Setup<S, B, C>, l: LoopState<S, B, C>, m: LoopState<S, B, C>, call: C,
    consulted: nat, after: LoopState<S, B, C>)
    requires m == l.(consulted := m.consulted) && OneAsked(su, m, call, consulted, after)
    ensures OneAsked(su, l, call, consulted, after)
  {
  }

  /**
    The run so far is true to its log: every logged answer is the environment's own, every result in it is
    in the trace, once and in order, and no other; the discrepancies are those of the trace; and every
    attempt began with both ledgers below their budgets.
  */
  ghost predicate TrueToLog<S, B, C>(su: Setup<S, B, C>, l: LoopState<S, B, C>)
  {
    && Genuine(su.env, l.log)
    && ExecutionsIn(l.entries) == ResultsIn(l.log) && l.reports == ReportsIn(l.entries)
    && forall i :: 0 <= i < |l.log| ==>
         StepLedger(l.log[..i]) < su.config.executiveBudget && PrimitiveLedger(l.log[..i]) < su.config.primitiveBudget
  }

  lemma AskedStaysTrue<S(!new), B(!new), C(!new)>(su: Setup<S, B, C>, l: LoopState<S, B, C>, call: C, consulted: nat,
    after: LoopState<S, B, C>)
    requires TrueToLog(su, l) && OneAsked(su, l, call, consulted, after)
    requires StepLedger(l.log) < su.config.executiveBudget && PrimitiveLedger(l.log) < su.config.primitiveBudget
    ensures TrueToLog(su, after)
  {
    hide BeliefAfter, ReportsAfter;
    assert Init(after.log) == l.log;
    forall i | 0 <= i < |after.log|
      ensures StepLedger(after.log[..i]) < su.config.executiveBudget
              && PrimitiveLedger(after.log[..i]) < su.config.primitiveBudget
    {
      if i < |l.log| { assert after.log[..i] == l.log[..i]; } else { assert after.log[..i] == l.log; }
    }
  }

  lemma TurnStaysTrue<S(!new), B(!new), C(!new)>(su: Setup<S, B, C>, l: LoopState<S, B, C>, step: nat, first: bool)
    requires TrueToLog(su, l) && Balanced(su, l)
    ensures TrueToLog(su, OneTurn(su, l, step, first).state)
  {
    hide OneTurn, OneAsked;
    var asked := TurnAsks(su, l, step, first);
    var synced := l.(belief := su.sync(l.belief, su.env.exportState(step, l.log)));
    if asked.Some? {
      AskedStaysTrue(su, synced, asked.value.0, asked.value.1, OneTurn(su, l, step, first).state);
    }
  }

  lemma GuardStaysTrue<S, B, C>(su: Setup<S, B, C>, l: LoopState<S, B, C>, after: LoopState<S, B, C>, step: nat)
    requires TrueToLog(su, after)
    ensures TrueToLog(su, Guarded(su, l, after, step).state)
  {
    var e := PlainEntry<S, C>(step + 1, su.env.exportState(step, l.log), None, None, None, None, [PROTOCOL_FAULT]);
    assert Init(after.entries + [e]) == after.entries;
  }

  lemma {:induction false} RunStaysTrue<S(!new), B(!new), C(!new)>(su: Setup<S, B, C>, l: LoopState<S, B, C>, step: nat,
    first: bool, zeroCharge: nat)
    requires ExecutiveCharged(l) <= su.config.executiveBudget && zeroCharge <= su.config.maxRejections
    requires TrueToLog(su, l) && Balanced(su, l)
    ensures TrueToLog(su, RunFrom(su, l, step, first, zeroCharge).state)
    decreases su.config.executiveBudget - ExecutiveCharged(l), su.config.maxRejections - zeroCharge
  {
    hide OneTurn, Balanced, Guarded, TrueToLog;
    TurnCharges(su, l, step, first);
    TurnBalances(su, l, step, first);
    TurnStaysTrue(su, l, step, first);
    match OneTurn(su, l, step, first)
    case Stopped(after, outcome, began) =>
    case Continues(after, first') =>
      if ExecutiveCharged(after) > ExecutiveCharged(l) {
        RunStaysTrue(su, after, step + 1, first', 0);
      } else if zeroCharge + 1 <= su.config.maxRejections {
        RunStaysTrue(su, after, step + 1, first', zeroCharge + 1);
      } else {
        GuardStaysTrue(su, l, after, step);
      }
  }

  /**
    Over every run: the log is genuine, the trace holds exactly its results, no attempt began at or above
    a budget - and a run that ends exhausted has reached one of the two, with the goal still open.
  */
  lemma RunIsTrueToLog<S(!new), B(!new), C(!new)>(su: Setup<S, B, C>, belief: B)
    ensures var e := Run(su, belief);
            && TrueToLog(su, e.state)
            && (e.outcome == BudgetExhausted ==>
                  && !su.satisfied(su.env.exportState(e.cycles, e.state.log))
                  && (StepLedger(e.state.log) >= su.config.executiveBudget
                      || PrimitiveLedger(e.state.log) >= su.config.primitiveBudget))
  {
    hide RunFrom, TrueToLog;
    FreshIsTrue(su, belief);
    RunStaysTrue(su, Fresh(belief), 0, true, 0);
    RunConserves(su, belief);
    RunIsEvidenced(su, Fresh(belief), 0, true, 0);
  }

  lemma FreshIsTrue<S(!new), B(!new), C(!new)>(su: Setup<S, B, C>, belief: B)
    ensures TrueToLog(su, Fresh(belief)) && Balanced(su, Fresh(belief))
  {
  }

  // ---------------------------------------------------------------------------------------------
  // When the liveness guard fires
  // ---------------------------------------------------------------------------------------------

  /** The first `n` turns of a run, as far as they go. */
  ghost function Turns<S, B, C>(su: Setup<S, B, C>, belief: B, n: nat): Turn<S, B, C>
  {
    if n == 0 then Continues(Fresh(belief), true)
    else
      var t := Turns(su, belief, n - 1);
      if t.Continues? then OneTurn(su, t.state, n - 1, t.first) else t
  }

  /** How many of the last turns charged nothing. */
  ghost function IdleTurns<S, B, C>(su: Setup<S, B, C>, belief: B, n: nat): nat
  {
    if n == 0 then 0
    else if ExecutiveCharged(Turns(su, belief, n).state) > ExecutiveCharged(Turns(su, belief, n - 1).state) then 0
    else IdleTurns(su, belief, n - 1) + 1
  }

  /** Over that many idle turns nothing was charged. */
  lemma {:induction false} IdleTurnsChargeNothing<S, B, C>(su: Setup<S, B, C>, belief: B, n: nat, k: nat)
    requires k <= IdleTurns(su, belief, n)
    ensures k <= n && ExecutiveCharged(Turns(su, belief, n).state) == ExecutiveCharged(Turns(su, belief, n - k).state)
    decreases n
  {
    hide Turns, ExecutiveCharged;
    if k > 0 {
      ChargesOnlyGrow(su, belief, n);
      IdleTurnsChargeNothing(su, belief, n - 1, k - 1);
    }
  }

  lemma ChargesOnlyGrow<S, B, C>(su: Setup<S, B, C>, belief: B, n: nat)
    requires n > 0
    ensures ExecutiveCharged(Turns(su, belief, n).state) >= ExecutiveCharged(Turns(su, belief, n - 1).state)
  {
    hide OneTurn;
    var t := Turns(su, belief, n - 1);
    if t.Continues? { TurnCharges(su, t.state, n - 1, t.first); }
  }

  /** The turns go on after `n` of them: none has stopped, and never more than `maxRejections` were idle in a row. */
  ghost predicate GoesOn<S, B, C>(su: Setup<S, B, C>, belief: B, n: nat)
  {
    && Turns(su, belief, n).Continues?
    && forall k :: 0 <= k <= n ==> IdleTurns(su, belief, k) <= su.config.maxRejections
  }

  /** The run ends with its next turn: the turn stops, or it is one idle turn too many and the guard records that. */
  ghost predicate EndsWith<S, B, C>(su: Setup<S, B, C>, belief: B, n: nat, e: Episode<S, B, C>)
  {
    var before, t := Turns(su, belief, n).state, Turns(su, belief, n + 1);
    if t.Stopped? then e == Episode(t.state, t.outcome, if t.began then n + 1 else n)
    else
      && IdleTurns(su, belief, n + 1) == su.config.maxRejections + 1
      && e.outcome == FaultedEpisode && e.cycles == n + 1
      && e.state == t.state.(entries := t.state.entries +
           [Entry(n + 1, su.env.exportState(n, before.log), None, None, None, None, None, [],
             [PROTOCOL_FAULT], NoAdvice())])
  }

  /**
    A run is its turns, up to the first one that stops; only after exactly `maxRejections` + 1 turns in a
    row that charged nothing the liveness guard ends it, and no earlier.
  */
  lemma RunIsItsTurns<S, B, C>(su: Setup<S, B, C>, belief: B) returns (n: nat)
    ensures GoesOn(su, belief, n) && EndsWith(su, belief, n, Run(su, belief))
  {
    hide RunFrom;
    n := TurnsOfRun(su, belief, 0);
  }

  lemma {:induction false} TurnsOfRun<S, B, C>(su: Setup<S, B, C>, belief: B, k: nat) returns (n: nat)
    requires GoesOn(su, belief, k)
    requires var t := Turns(su, belief, k);
             && ExecutiveCharged(t.state) <= su.config.executiveBudget
             && IdleTurns(su, belief, k) <= su.config.maxRejections
             && Run(su, belief) == RunFrom(su, t.state, k, t.first, IdleTurns(su, belief, k))
    ensures GoesOn(su, belief, n) && EndsWith(su, belief, n, Run(su, belief))
    decreases su.config.executiveBudget - ExecutiveCharged(Turns(su, belief, k).state),
              su.config.maxRejections - IdleTurns(su, belief, k)
  {
    hide OneTurn, Run;
    var t := Turns(su, belief, k);
    TurnCharges(su, t.state, k, t.first);
    var next := OneTurn(su, t.state, k, t.first);
    assert Turns(su, belief, k + 1) == next;
    if next.Continues? && IdleTurns(su, belief, k + 1) <= su.config.maxRejections {
      n := TurnsOfRun(su, belief, k + 1);
    } else {
      n := k;
    }
  }

  // ---------------------------------------------------------------------------------------------
  // How often the track is consulted
  // ---------------------------------------------------------------------------------------------

  /** An entry of a call that was put to the gates, not of a halt or a request. */
  ghost predicate IsEnacted<S, C>(e: Entry<S, C>)
  {
    e.selected.Some? && e.decision != Some(DecisionHalt) && e.decision != Some(DecisionRequestProposal)
  }

  ghost function EnactedIn<S, C>(entries: seq<Entry<S, C>>): nat
    decreases |entries|
  {
    if entries == [] then 0 else EnactedIn(Init(entries)) + if IsEnacted(Last(entries)) then 1 else 0
  }

  lemma EnactedOnce<S, C>(entries: seq<Entry<S, C>>, e: Entry<S, C>)
    ensures EnactedIn(entries + [e]) == EnactedIn(entries) + if IsEnacted(e) then 1 else 0
  {
    assert Init(entries + [e]) == entries;
  }

  /** The proposals asked for so far: one beside each enacted call, under the advisory policy only. */
  ghost function Asks<S, B, C>(su: Setup<S, B, C>, entries: seq<Entry<S, C>>): nat
  {
    if su.policy.AdvisoryTwoTrack? then EnactedIn(entries) else 0
  }

  /** Selection asks once if it chooses a call under the advisory policy, and never otherwise. */
  ghost predicate SelectionConsults<S, B, C>(su: Setup<S, B, C>, l: LoopState<S, B, C>, acquired: bool,
    r: Selection<S, B, C>)
  {
    && EnactedIn(r.state.entries) == EnactedIn(l.entries)
    && r.state.consulted == l.consulted + if r.Chosen? && su.policy.AdvisoryTwoTrack? && !acquired then 1 else 0
  }

  lemma {:induction false} SelectConsults<S, B, C>(su: Setup<S, B, C>, l: LoopState<S, B, C>, step: nat, s: S,
    plan: PlannerResult<C>, replans: nat, requests: nat, acquired: bool, cached: Option<Proposal<C>>)
    requires NeverRaises(su) && su.advisory.Some? && !plan.PlannerFailure? && replans <= su.config.maxRejections
    ensures SelectionConsults(su, l, acquired, Select(su, l, step, s, plan, replans, requests, acquired, cached))
    decreases su.config.maxRejections - replans, if l.pending == [] then 1 else 0, 1
  {
    if WantsProposal(su.policy, su.config.failureThreshold, Situation(su, l, s, plan)) && !acquired {
      var got := Acquire(su, l);
      assert got.Acquired?;
      assert Route(su.policy, su.config.failureThreshold, Situation(su, got.state, s, plan)).EnactCall?;
      assert Decide(su, got.state, step, s, plan, replans, requests, true, got.cached).Chosen?;
    } else {
      DecideConsults(su, l, step, s, plan, replans, requests, acquired, cached);
    }
  }

  lemma {:induction false} DecideConsults<S, B, C>(su: Setup<S, B, C>, l: LoopState<S, B, C>, step: nat, s: S,
    plan: PlannerResult<C>, replans: nat, requests: nat, acquired: bool, cached: Option<Proposal<C>>)
    requires NeverRaises(su) && su.advisory.Some? && !plan.PlannerFailure? && replans <= su.config.maxRejections
    requires WantsProposal(su.policy, su.config.failureThreshold, Situation(su, l, s, plan)) ==> acquired
    ensures SelectionConsults(su, l, acquired, Decide(su, l, step, s, plan, replans, requests, acquired, cached))
    decreases su.config.maxRejections - replans, if l.pending == [] then 1 else 0, 0
  {
    hide Bumped, NeverRaises, RecoveryFor, EnactedIn, IsEnacted;
    match Route(su.policy, su.config.failureThreshold, Situation(su, l, s, plan))
    case EnactCall(call) =>
    case HaltEpisode(about) =>
      NotEnacted(l.entries, PlainEntry<S, C>(step, s, Some(plan), Some(DecisionHalt), about, None, []));
    case AskForProposal(call) =>
      AskConsults(su, l, step, s, plan, replans, requests, acquired, cached, call);
    case ReplanCycle =>
      var again := su.plan(l.belief, s);
      NotEnacted(l.entries, PlainEntry<S, C>(step, s, Some(plan), None, None, None, [PROTOCOL_FAULT]));
      NotEnacted(l.entries, PlainEntry<S, C>(step, s, Some(again), None, None, None, [PLANNER_FAULT]));
      if replans + 1 <= su.config.maxRejections && !again.PlannerFailure? {
        SelectConsults(su, l, step, s, again, replans + 1, requests, acquired, cached);
      }
  }

  lemma {:induction false} AskConsults<S, B, C>(su: Setup<S, B, C>, l: LoopState<S, B, C>, step: nat, s: S,
    plan: PlannerResult<C>, replans: nat, requests: nat, acquired: bool, cached: Option<Proposal<C>>, call: C)
    requires NeverRaises(su) && su.advisory.Some? && !plan.PlannerFailure? && replans <= su.config.maxRejections
    requires Route(su.policy, su.config.failureThreshold, Situation(su, l, s, plan)) == AskForProposal(call)
    ensures l.pending == []
    ensures SelectionConsults(su, l, acquired, Decide(su, l, step, s, plan, replans, requests, acquired, cached))
    decreases su.config.maxRejections - replans, 0, 2
  {
    hide Bumped, NeverRaises, RecoveryFor, EnactedIn, IsEnacted;
    var e := PlainEntry<S, C>(step, s, Some(plan), Some(DecisionRequestProposal), Some(call), None, []);
    NotEnacted(l.entries, e);
    var l2 := Note(su, l, e).(pending := RecoveryFor(su.recovery, l.reports, call));
    if l2.pending == [] {
      NotEnacted(l2.entries, PlainEntry<S, C>(step, s, Some(plan), Some(DecisionHalt), Some(call), None, []));
    } else {
      SelectConsults(su, l2, step, s, plan, replans, requests + 1, acquired, cached);
    }
  }

  lemma NotEnacted<S, C>(entries: seq<Entry<S, C>>, e: Entry<S, C>)
    requires e.selected.None? || e.decision in {Some(DecisionHalt), Some(DecisionRequestProposal)}
    ensures EnactedIn(entries + [e]) == EnactedIn(entries)
  {
    EnactedOnce(entries, e);
  }

  /** Consultations so far, beyond `base`: one for each proposal asked for, and one observation for each result. */
  ghost predicate Consulted<S, B, C>(su: Setup<S, B, C>, base: nat, l: LoopState<S, B, C>)
  {
    l.consulted == base + Asks(su, l.entries) + |ResultsIn(l.log)|
  }

  lemma EnactConsults<S, B, C>(su: Setup<S, B, C>, l: LoopState<S, B, C>, step: nat, s: S, plan: PlannerResult<C>,
    call: C, proposal: Option<Proposal<C>>, divergences: seq<string>)
    requires su.advisory.Some?
    ensures var after := Enact(su, l, step, s, plan, call, proposal, divergences).state;
            && EnactedIn(after.entries) == EnactedIn(l.entries) + 1
            && after.consulted == l.consulted + |ResultsIn(after.log)| - |ResultsIn(l.log)|
  {
    hide Enact, FaultsFit, AdviceFits, ValidationFits, OutcomeFits, Bumped, BeliefAfter, ReportsAfter;
    GatesDecide(su, l, step, s, plan, call, proposal, divergences);
    var after := Enact(su, l, step, s, plan, call, proposal, divergences).state;
    if after.log != l.log { assert Init(after.log) == l.log; }
  }

  lemma CycleConsults<S, B, C>(su: Setup<S, B, C>, base: nat, l: LoopState<S, B, C>, step: nat, s: S)
    requires NeverRaises(su) && su.advisory.Some? && Consulted(su, base, l)
    ensures Consulted(su, base, Cycle(su, l, step, s).state)
  {
    hide Enact, Select, NeverRaises;
    var plan := su.plan(l.belief, s);
    if plan.PlannerFailure? {
      EnactedOnce(l.entries, PlainEntry<S, C>(step, s, Some(plan), None, None, None, [PLANNER_FAULT]));
    } else {
      SelectConsults(su, l, step, s, plan, 0, 0, false, None);
      SelectNotes(su, l, step, s, plan, 0, 0, false, None);
      match Select(su, l, step, s, plan, 0, 0, false, None)
      case Ended(_, _, _, _) =>
      case Chosen(l1, chosen, call, proposal, divergences, _, _) =>
        EnactConsults(su, l1, step, s, chosen, call, proposal, divergences);
    }
  }

  lemma TurnConsults<S, B, C>(su: Setup<S, B, C>, base: nat, l: LoopState<S, B, C>, step: nat, first: bool)
    requires NeverRaises(su) && su.advisory.Some? && Consulted(su, base, l)
    ensures var t := OneTurn(su, l, step, first);
            && Consulted(su, if first then base + 1 else base, t.state) && (t.Continues? ==> !t.first)
  {
    hide Cycle;
    var (l1, fault) := Open(su, Synced(su, l, step), first);
    CycleConsults(su, if first then base + 1 else base, l1, step, su.env.exportState(step, l.log));
  }

  lemma {:induction false} RunConsults<S, B, C>(su: Setup<S, B, C>, base: nat, l: LoopState<S, B, C>, step: nat,
    first: bool, zeroCharge: nat)
    requires ExecutiveCharged(l) <= su.config.executiveBudget && zeroCharge <= su.config.maxRejections
    requires NeverRaises(su) && su.advisory.Some? && Consulted(su, base, l)
    ensures Consulted(su, if first then base + 1 else base, RunFrom(su, l, step, first, zeroCharge).state)
    decreases su.config.executiveBudget - ExecutiveCharged(l), su.config.maxRejections - zeroCharge
  {
    hide OneTurn, Consulted, Guarded, NeverRaises;
    var more := if first then base + 1 else base;
    TurnCharges(su, l, step, first);
    TurnConsults(su, base, l, step, first);
    match OneTurn(su, l, step, first)
    case Stopped(after, outcome, began) =>
    case Continues(after, first') =>
      if ExecutiveCharged(after) > ExecutiveCharged(l) {
        RunConsults(su, more, after, step + 1, first', 0);
      } else if zeroCharge + 1 <= su.config.maxRejections {
        RunConsults(su, more, after, step + 1, first', zeroCharge + 1);
      } else {
        GuardConsults(su, more, l, after, step);
      }
  }

  lemma GuardConsults<S, B, C>(su: Setup<S, B, C>, base: nat, l: LoopState<S, B, C>, after: LoopState<S, B, C>,
    step: nat)
    requires Consulted(su, base, after)
    ensures Consulted(su, base, Guarded(su, l, after, step).state)
  {
    var e := PlainEntry<S, C>(step + 1, su.env.exportState(step, l.log), None, None, None, None, [PROTOCOL_FAULT]);
    EnactedOnce(after.entries, e);
  }

  /**
    An attached track that never raises is consulted exactly once at the start, once for every result of
    the run, and - under the advisory policy only - once beside every call put to the gates.
  */
  lemma ConsultationsAreCounted<S, B, C>(su: Setup<S, B, C>, belief: B)
    requires NeverRaises(su) && su.advisory.Some?
    ensures var l := Run(su, belief).state;
            l.consulted == 1 + |ResultsIn(l.log)| + if su.policy.AdvisoryTwoTrack? then EnactedIn(l.entries) else 0
  {
    RunConsults(su, 0, Fresh(belief), 0, true, 0);
  }
}
