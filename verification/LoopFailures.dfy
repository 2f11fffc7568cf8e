/** Repeated failure under the symbolic-primary policy (runtime/loop.py, runtime/policies.py). */
module LoopFailures {
  import opened Common
  import opened Skills
  import opened Search
  import opened Execution
  import opened Executive
  import opened LoopAdvisory
  import opened LoopModel
  import opened LoopTheorems

  /** A result reports the call that was requested. */
  ghost predicate ReturnsItsCall<S(!new), B, C(!new)>(su: Setup<S, B, C>)
  {
    forall h, c :: ResultIsFor(su.env.executeSkill(h, c), c)
  }

  predicate ResultIsFor<S, C(==)>(r: Response<S, C>, c: C)
  {
    r.Returned? ==> r.result.call == c
  }

  // ---------------------------------------------------------------------------------------------
  // No key ever exceeds the threshold
  // ---------------------------------------------------------------------------------------------

  ghost predicate BelowThreshold<S, B, C(!new)>(su: Setup<S, B, C>, l: LoopState<S, B, C>)
  {
    l.pending == [] && forall key :: Lookup(l.failures, key) <= su.config.failureThreshold
  }

  /** The policy only enacts a plan head that has not yet reached the threshold in this world. */
  lemma {:induction false} ChosenIsBelow<S, B, C>(su: Setup<S, B, C>, l: LoopState<S, B, C>, step: nat, s: S,
    plan: PlannerResult<C>, replans: nat, acquired: bool, cached: Option<Proposal<C>>)
    requires !plan.PlannerFailure? && replans <= su.config.maxRejections
    requires su.policy.SymbolicPrimary? && l.pending == []
    ensures var r := Select(su, l, step, s, plan, replans, 0, acquired, cached);
            r.state.pending == [] && r.state.failures == l.failures && r.state.log == l.log
            && (r.Chosen? ==> Lookup(l.failures, (su.worldKey(s), r.call)) < su.config.failureThreshold)
    decreases su.config.maxRejections - replans
  {
    if Route(su.policy, su.config.failureThreshold, Situation(su, l, s, plan)).ReplanCycle?
      && replans + 1 <= su.config.maxRejections && !su.plan(l.belief, s).PlannerFailure? {
      ChosenIsBelow(su, l, step, s, su.plan(l.belief, s), replans + 1, acquired, cached);
    }
  }

  lemma EnactKeepsNothingStanding<S, B, C>(su: Setup<S, B, C>, l: LoopState<S, B, C>, step: nat, s: S,
    plan: PlannerResult<C>, call: C, proposal: Option<Proposal<C>>, divergences: seq<string>)
    requires l.pending == []
    ensures Enact(su, l, step, s, plan, call, proposal, divergences).state.pending == []
  {
  }

  lemma EnactStaysBelow<S(!new), B(!new), C(!new)>(su: Setup<S, B, C>, l: LoopState<S, B, C>, step: nat, s: S,
    plan: PlannerResult<C>, call: C, proposal: Option<Proposal<C>>, divergences: seq<string>)
    requires ReturnsItsCall(su) && BelowThreshold(su, l)
    requires Lookup(l.failures, (su.worldKey(s), call)) < su.config.failureThreshold
    ensures BelowThreshold(su, Enact(su, l, step, s, plan, call, proposal, divergences).state)
  {
    hide Enact;
    EnactKeepsNothingStanding(su, l, step, s, plan, call, proposal, divergences);
    EnactAddsOneEntry(su, l, step, s, plan, call, proposal, divergences);
    assert ResultIsFor(su.env.executeSkill(l.log, call), call);
    var after := Enact(su, l, step, s, plan, call, proposal, divergences).state;
    var e := Last(after.entries);
    assert CountsAsFailure(e) ==> KeyOf(su.worldKey, e) == (su.worldKey(s), call);
    forall key
      ensures Lookup(after.failures, key) <= su.config.failureThreshold
    {
      assert Lookup(l.failures, key) <= su.config.failureThreshold;
    }
  }

  lemma TurnStaysBelow<S(!new), B(!new), C(!new)>(su: Setup<S, B, C>, l: LoopState<S, B, C>, step: nat, first: bool)
    requires ReturnsItsCall(su) && su.policy.SymbolicPrimary? && BelowThreshold(su, l)
    ensures BelowThreshold(su, OneTurn(su, l, step, first).state)
  {
    hide Select, Enact, ReturnsItsCall;
    var s := su.env.exportState(step, l.log);
    var (l1, fault) := Open(su, Synced(su, l, step), first);
    var plan := su.plan(l1.belief, s);
    if !plan.PlannerFailure? {
      ChosenIsBelow(su, l1, step, s, plan, 0, false, None);
      var r := Select(su, l1, step, s, plan, 0, 0, false, None);
      if r.Chosen? {
        EnactStaysBelow(su, r.state, step, s, r.plan, r.call, r.proposal, r.divergences);
      }
    }
  }

  /** In a whole run no (world, call) pair accumulates more than the threshold of faultless failures. */
  lemma {:induction false} RunStaysBelow<S(!new), B(!new), C(!new)>(su: Setup<S, B, C>, l: LoopState<S, B, C>,
    step: nat, first: bool, zeroCharge: nat)
    requires ExecutiveCharged(l) <= su.config.executiveBudget && zeroCharge <= su.config.maxRejections
    requires ReturnsItsCall(su) && su.policy.SymbolicPrimary? && BelowThreshold(su, l)
    ensures BelowThreshold(su, RunFrom(su, l, step, first, zeroCharge).state)
    decreases su.config.executiveBudget - ExecutiveCharged(l), su.config.maxRejections - zeroCharge
  {
    hide OneTurn, ReturnsItsCall;
    TurnCharges(su, l, step, first);
    TurnStaysBelow(su, l, step, first);
    match OneTurn(su, l, step, first)
    case Stopped(after, outcome, began) =>
    case Continues(after, first') =>
      if ExecutiveCharged(after) > ExecutiveCharged(l) {
        RunStaysBelow(su, after, step + 1, first', 0);
      } else if zeroCharge + 1 <= su.config.maxRejections {
        RunStaysBelow(su, after, step + 1, first', zeroCharge + 1);
      }
  }

  /** Counted from the trace itself: the bound holds of the recorded failures of every key. */
  lemma FailuresNeverExceedThreshold<S(!new), B(!new), C(!new)>(su: Setup<S, B, C>, belief: B, key: FailureKey<C>)
    requires ReturnsItsCall(su) && su.policy.SymbolicPrimary?
    ensures FailuresIn(su.worldKey, Run(su, belief).state.entries, key) <= su.config.failureThreshold
  {
    RunStaysBelow(su, Fresh(belief), 0, true, 0);
    RunConserves(su, belief);
    assert Lookup(Run(su, belief).state.failures, key) <= su.config.failureThreshold;
  }

  // ---------------------------------------------------------------------------------------------
  // A plan head that always fails halts the run after exactly the threshold
  // ---------------------------------------------------------------------------------------------

  /** An answer that is a failure of `call` which leaves the belief and the books as `Stuck` says. */
  ghost predicate FailsQuietly<S, B, C>(su: Setup<S, B, C>, belief: B, call: C, r: Response<S, C>)
  {
    && r.Returned? && r.result.call == call && !r.result.outcome.Success?
    && su.record(su.sync(belief, r.result.post), r.result) == belief
    && su.monitor(belief, r.result).Reported?
  }

  /** The synced snapshot shows the stuck situation: same world, same belief, same plan head. */
  ghost predicate StuckState<S, B, C>(su: Setup<S, B, C>, belief: B, call: C, world: string, s: S)
  {
    && su.worldKey(s) == world && su.sync(belief, s) == belief && !su.satisfied(s)
    && su.plan(belief, s).PlanFound? && su.plan(belief, s).plan != [] && su.plan(belief, s).plan[0] == call
    && su.grounded(s, call) && su.evaluate(belief, call) == ValidatedCall
  }

  /** The log goes on from `base` with attempts of this one call. */
  ghost predicate Repeats<S, C>(env: Environment<S, C>, base: seq<Exchange<S, C>>, log: seq<Exchange<S, C>>, call: C)
  {
    && |base| <= |log| && log[..|base|] == base
    && forall i :: |base| <= i < |log| ==> log[i] == Exchange(call, env.executeSkill(log[..i], call))
  }

  /** The log goes on from `base` with attempts of this one call, and is at most `limit` long. */
  ghost predicate RepeatsUpTo<S, C>(env: Environment<S, C>, base: seq<Exchange<S, C>>, log: seq<Exchange<S, C>>,
    call: C, limit: nat)
  {
    Repeats(env, base, log, call) && |log| <= limit
  }

  /**
    From the log `base` on, and until it is `limit` long, the call fails
    without changing the world, each time within `primitives` steps.
  */
  ghost predicate Stuck<S(!new), B, C(!new)>(su: Setup<S, B, C>, base: seq<Exchange<S, C>>, limit: nat, belief: B,
    call: C, world: string, primitives: nat)
  {
    && su.policy.SymbolicPrimary? && su.advisory.None?
    && (forall n, h :: RepeatsUpTo(su.env, base, h, call, limit) ==>
         StuckState(su, belief, call, world, su.env.exportState(n, h)))
    && (forall h :: RepeatsUpTo(su.env, base, h, call, limit) ==>
         FailsQuietly(su, belief, call, su.env.executeSkill(h, call)))
    && (forall h :: RepeatsUpTo(su.env, base, h, call, limit) ==> AtMost(su.env.executeSkill(h, call), primitives))
  }

  predicate AtMost<S, C>(r: Response<S, C>, primitives: nat)
  {
    r.Returned? ==> r.result.primitiveSteps <= primitives
  }

  /** One more attempt: the belief, the standing advice and the plan head are as before, the key is bumped. */
  lemma StuckAttempt<S(!new), B, C(!new)>(su: Setup<S, B, C>, l: LoopState<S, B, C>, step: nat, first: bool,
    base: seq<Exchange<S, C>>, limit: nat, call: C, world: string, primitives: nat)
    requires var b := Synced(su, l, step).belief;
             Stuck(su, base, limit, b, call, world, primitives) && RepeatsUpTo(su.env, base, l.log, call, limit)
    requires l.pending == [] && !OutOfBudget(su.config, l)
    requires Lookup(l.failures, (world, call)) < su.config.failureThreshold
    ensures var t := OneTurn(su, l, step, first);
            && t.Continues? && t.state.belief == Synced(su, l, step).belief && t.state.pending == []
            && Lookup(t.state.failures, (world, call)) == Lookup(l.failures, (world, call)) + 1
            && |t.state.log| == |l.log| + 1 && Repeats(su.env, base, t.state.log, call)
            && ExecutiveCharged(t.state) == ExecutiveCharged(l) + 1
            && PrimitiveCharged(t.state) <= PrimitiveCharged(l) + primitives
  {
    var s := su.env.exportState(step, l.log);
    var l1 := Synced(su, l, step);
    assert StuckState(su, l1.belief, call, world, s);
    var response := su.env.executeSkill(l.log, call);
    assert FailsQuietly(su, l1.belief, call, response);
    assert AtMost(response, primitives);
    var plan := su.plan(l1.belief, s);
    assert Select(su, l1, step, s, plan, 0, 0, false, None) == Chosen(l1, plan, call, None, [], 0, 0);
    var after := OneTurn(su, l, step, first).state;
    assert Init(after.entries) == l.entries;
    RepeatsOnce(su.env, base, l.log, call);
  }

  lemma RepeatsOnce<S, C>(env: Environment<S, C>, base: seq<Exchange<S, C>>, log: seq<Exchange<S, C>>, call: C)
    requires Repeats(env, base, log, call)
    ensures Repeats(env, base, log + [Exchange(call, env.executeSkill(log, call))], call)
  {
    var longer := log + [Exchange(call, env.executeSkill(log, call))];
    assert longer[..|base|] == log[..|base|] && longer[..|log|] == log;
    assert forall i :: |base| <= i < |log| ==> longer[..i] == log[..i];
  }

  lemma StuckHalt<S(!new), B, C(!new)>(su: Setup<S, B, C>, l: LoopState<S, B, C>, step: nat, first: bool,
    base: seq<Exchange<S, C>>, limit: nat, call: C, world: string, primitives: nat)
    requires var b := Synced(su, l, step).belief;
             Stuck(su, base, limit, b, call, world, primitives) && RepeatsUpTo(su.env, base, l.log, call, limit)
    requires l.pending == [] && !OutOfBudget(su.config, l)
    requires Lookup(l.failures, (world, call)) >= su.config.failureThreshold
    ensures var t := OneTurn(su, l, step, first);
            && t.Stopped? && t.outcome == HaltedRepeatedFailure && t.began && t.state.log == l.log
            && t.state.belief == Synced(su, l, step).belief && t.state.failures == l.failures
  {
    var s := su.env.exportState(step, l.log);
    var l1 := Synced(su, l, step);
    assert StuckState(su, l1.belief, call, world, s);
    var plan := su.plan(l1.belief, s);
    var halted := Note(su, l1, PlainEntry(step, s, Some(plan), Some(DecisionHalt), Some(call), None, []));
    assert Select(su, l1, step, s, plan, 0, 0, false, None) == Ended(halted, Some(HaltedRepeatedFailure), 0, 0);
  }

  /** Within the limit another sync changes nothing. */
  lemma StuckStaysSynced<S(!new), B, C(!new)>(su: Setup<S, B, C>, l: LoopState<S, B, C>, step: nat,
    base: seq<Exchange<S, C>>, limit: nat, call: C, world: string, primitives: nat)
    requires Stuck(su, base, limit, l.belief, call, world, primitives) && RepeatsUpTo(su.env, base, l.log, call, limit)
    ensures Synced(su, l, step) == l
  {
    assert StuckState(su, l.belief, call, world, su.env.exportState(step, l.log));
  }

  /**
    A plan head that, in the belief this turn syncs, always fails without changing the world is attempted
    as often as the threshold still allows, and then the run halts on repeated failure with that belief -
    provided neither budget is reached first. The log names nothing but those attempts.
  */
  lemma {:induction false} StuckRunHalts<S(!new), B(!new), C(!new)>(su: Setup<S, B, C>, l: LoopState<S, B, C>,
    step: nat, first: bool, zeroCharge: nat, base: seq<Exchange<S, C>>, limit: nat, call: C, world: string,
    primitives: nat, left: nat)
    requires Stuck(su, base, limit, Synced(su, l, step).belief, call, world, primitives)
    requires Repeats(su.env, base, l.log, call) && l.pending == [] && |l.log| + left <= limit
    requires left == su.config.failureThreshold - Lookup(l.failures, (world, call))
    requires ExecutiveCharged(l) + left < su.config.executiveBudget && zeroCharge <= su.config.maxRejections
    requires PrimitiveCharged(l) + left * primitives < su.config.primitiveBudget
    ensures var r := RunFrom(su, l, step, first, zeroCharge);
            && r.outcome == HaltedRepeatedFailure && r.cycles == step + left + 1
            && |r.state.log| == |l.log| + left && Repeats(su.env, base, r.state.log, call)
            && r.state.belief == Synced(su, l, step).belief
            && Lookup(r.state.failures, (world, call)) == su.config.failureThreshold
    decreases left
  {
    hide OneTurn, Stuck, Repeats, Synced;
    assert left * primitives >= 0;
    TurnCharges(su, l, step, first);
    if left == 0 {
      StuckHalt(su, l, step, first, base, limit, call, world, primitives);
    } else {
      StuckAttempt(su, l, step, first, base, limit, call, world, primitives);
      assert left * primitives == (left - 1) * primitives + primitives;
      var t := OneTurn(su, l, step, first);
      StuckStaysSynced(su, t.state, step + 1, base, limit, call, world, primitives);
      StuckRunHalts(su, t.state, step + 1, t.first, 0, base, limit, call, world, primitives, left - 1);
    }
  }

  /** An attached track that never raises does not change that. */
  lemma StuckRunHaltsWithTrack<S(!new), B(!new), C(!new)>(su: Setup<S, B, C>, l: LoopState<S, B, C>, step: nat,
    first: bool, zeroCharge: nat, base: seq<Exchange<S, C>>, limit: nat, call: C, world: string, primitives: nat,
    left: nat)
    requires NeverRaises(su) && Stuck(Bare(su), base, limit, Synced(su, l, step).belief, call, world, primitives)
    requires Repeats(su.env, base, l.log, call) && l.pending == [] && |l.log| + left <= limit
    requires left == su.config.failureThreshold - Lookup(l.failures, (world, call))
    requires ExecutiveCharged(l) + left < su.config.executiveBudget && zeroCharge <= su.config.maxRejections
    requires PrimitiveCharged(l) + left * primitives < su.config.primitiveBudget
    ensures var r := RunFrom(su, l, step, first, zeroCharge);
            && r.outcome == HaltedRepeatedFailure && r.cycles == step + left + 1
            && |r.state.log| == |l.log| + left && Repeats(su.env, base, r.state.log, call)
            && r.state.belief == Synced(su, l, step).belief
            && Lookup(r.state.failures, (world, call)) == su.config.failureThreshold
  {
    hide Stuck, Repeats, NeverRaises, RunFrom;
    StuckRunHalts(Bare(su), l, step, first, zeroCharge, base, limit, call, world, primitives, left);
    AdvisoryChangesNothing(su, l, l, step, first, first, zeroCharge);
  }

  /**
    From the start: a run whose very first head is stuck makes exactly the threshold of attempts, all of
    that call, and halts on repeated failure in the cycle after them.
  */
  lemma StuckFromTheStart<S(!new), B(!new), C(!new)>(su: Setup<S, B, C>, belief: B, call: C, world: string,
    primitives: nat)
    requires var b := su.sync(belief, su.env.exportState(0, []));
             NeverRaises(su) && Stuck(Bare(su), [], su.config.failureThreshold, b, call, world, primitives)
    requires su.config.failureThreshold < su.config.executiveBudget
    requires su.config.failureThreshold * primitives < su.config.primitiveBudget
    ensures var r := Run(su, belief);
            && r.outcome == HaltedRepeatedFailure && r.cycles == su.config.failureThreshold + 1
            && |r.state.log| == su.config.failureThreshold && Repeats(su.env, [], r.state.log, call)
            && r.state.belief == su.sync(belief, su.env.exportState(0, []))
  {
    hide Stuck, NeverRaises, RunFrom;
    var threshold := su.config.failureThreshold;
    StuckRunHaltsWithTrack(su, Fresh(belief), 0, true, 0, [], threshold, call, world, primitives, threshold);
  }
}
