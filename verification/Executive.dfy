/**
  The records of the executive runtime, its history and the shipped policies
  (runtime/executive_history.py, runtime/executor.py, runtime/policies.py, shared/trace_schema.py).

  The runtime is generic in the domain-owned state `S`, belief `B` and call `C`. World digests are an
  abstract function `worldKey`; a call's serialization key is the call itself. The environment and
  the advisory track are oracles: any function of what has happened so far, so a theorem over all
  oracles is a theorem over every behaviour they can show.
*/
module Executive {
  import opened Common
  import opened Skills
  import opened Search
  import opened Execution

  // ---------------------------------------------------------------------------------------------
  // The environment boundary
  // ---------------------------------------------------------------------------------------------

  /** The two rejections an environment may return; every other value is alien to the boundary. */
  type Rejection = v: CallValidation | v.MalformedCall? || v.UngroundedCall? witness MalformedCall

  /** What an environment does with a call: a result, a typed rejection, a raise, or an alien value. */
  datatype Response<+S, +C> =
    | Returned(result: ExecutionResult<S, C>)
    | Rejected(verdict: Rejection)
    | RaisedFault(fault: Fault, attached: Option<ExecutionResult<S, C>>)
    | OffContract

  datatype Exchange<+S, +C> = Exchange(call: C, response: Response<S, C>)

  datatype Environment<!S, !C> = Environment(
    exportState: (nat, seq<Exchange<S, C>>) -> S,
    executeSkill: (seq<Exchange<S, C>>, C) -> Response<S, C>)

  /** A log the environment itself produced: every answer in it is what it gives to that call at that point. */
  ghost predicate Genuine<S, C>(env: Environment<S, C>, log: seq<Exchange<S, C>>)
    decreases |log|
  {
    log == [] || (Genuine(env, Init(log)) && Last(log).response == env.executeSkill(Init(log), Last(log).call))
  }

  datatype Attempt<+S, +C> =
    | Completed(result: ExecutionResult<S, C>)
    | Refused(verdict: Rejection)
    | Faulted(fault: Fault, attached: Option<ExecutionResult<S, C>>)

  /** The executor's boundary check: an alien value becomes a fault that charges its executive step. */
  function Execute<S, C>(r: Response<S, C>): Attempt<S, C>
  {
    match r
    case Returned(result) => Completed(result)
    case Rejected(verdict) => Refused(verdict)
    case RaisedFault(fault, attached) => Faulted(fault, attached)
    case OffContract => Faulted(Fault(MalformedBackendResult, Unstaged, Some(0)), None)
  }

  // ---------------------------------------------------------------------------------------------
  // The trace
  // ---------------------------------------------------------------------------------------------

  datatype Decision = DecisionExecute | DecisionReplan | DecisionRequestProposal | DecisionHalt

  /** A discrepancy as the runtime sees it. */
  datatype Report<+C> = Report(call: C, failure: bool)

  /** The advisory columns of a trace entry: evidence only. */
  datatype Advice<+C> = Advice(proposal: Option<C>, coverage: Option<string>, confidence: seq<string>,
    divergences: seq<string>)

  datatype Entry<+S, +C> = Entry(
    step: nat, pre: S, plan: Option<PlannerResult<C>>, decision: Option<Decision>, selected: Option<C>,
    validation: Option<CallValidation>, execution: Option<ExecutionResult<S, C>>,
    reports: seq<Report<C>>, faults: seq<Fault>, advice: Advice<C>)

  function NoAdvice<C>(): Advice<C>
  {
    Advice(None, None, [], [])
  }

  /** Lifecycle legality: an executed entry carries no pre-executor rejection and no earlier fault. */
  predicate LegalEntry<S, C>(e: Entry<S, C>)
  {
    e.execution.Some? ==>
      && (e.validation.Some? ==> !e.validation.value.IsPreExecutorRejection())
      && forall i :: 0 <= i < |e.faults| ==> !e.faults[i].ArisesBeforeExecution()
  }

  function StepsOf<S, C>(e: Entry<S, C>): nat
  {
    if e.execution.Some? then 1 else 0
  }

  function PrimitivesOf<S, C>(e: Entry<S, C>): nat
  {
    if e.execution.Some? then e.execution.value.primitiveSteps else 0
  }

  function ExecutiveSteps<S, C>(entries: seq<Entry<S, C>>): nat
    decreases |entries|
  {
    if entries == [] then 0 else ExecutiveSteps(Init(entries)) + StepsOf(Last(entries))
  }

  function PrimitiveSteps<S, C>(entries: seq<Entry<S, C>>): nat
    decreases |entries|
  {
    if entries == [] then 0 else PrimitiveSteps(Init(entries)) + PrimitivesOf(Last(entries))
  }

  /** The entry is a faultless failure; such entries feed the repeated-failure index. */
  predicate CountsAsFailure<S, C>(e: Entry<S, C>)
  {
    e.execution.Some? && !e.execution.value.outcome.Success? && e.faults == []
  }

  type FailureKey<C> = (string, C)

  function KeyOf<S, C>(worldKey: S -> string, e: Entry<S, C>): FailureKey<C>
    requires e.execution.Some?
  {
    (worldKey(e.pre), e.execution.value.call)
  }

  /** How often a key failed, counted from the trace. */
  function FailuresIn<S, C(==)>(worldKey: S -> string, entries: seq<Entry<S, C>>, key: FailureKey<C>): nat
    decreases |entries|
  {
    if entries == [] then 0 else
      var counted := CountsAsFailure(Last(entries)) && KeyOf(worldKey, Last(entries)) == key;
      FailuresIn(worldKey, Init(entries), key) + if counted then 1 else 0
  }

  function Lookup<C(==)>(failures: map<FailureKey<C>, nat>, key: FailureKey<C>): nat
  {
    if key in failures then failures[key] else 0
  }

  function Bumped<S, C(==)>(worldKey: S -> string, failures: map<FailureKey<C>, nat>,
    e: Entry<S, C>): map<FailureKey<C>, nat>
  {
    if CountsAsFailure(e) then failures[KeyOf(worldKey, e) := Lookup(failures, KeyOf(worldKey, e)) + 1] else failures
  }

  /** The index answers for every key what counting the trace would answer. */
  ghost predicate IndexMatches<S, C(!new)>(worldKey: S -> string, failures: map<FailureKey<C>, nat>,
    entries: seq<Entry<S, C>>)
  {
    forall key :: Lookup(failures, key) == FailuresIn(worldKey, entries, key)
  }

  lemma AppendEntry<S, C(!new)>(worldKey: S -> string, failures: map<FailureKey<C>, nat>, entries: seq<Entry<S, C>>,
    e: Entry<S, C>)
    ensures ExecutiveSteps(entries + [e]) == ExecutiveSteps(entries) + StepsOf(e)
    ensures PrimitiveSteps(entries + [e]) == PrimitiveSteps(entries) + PrimitivesOf(e)
    ensures IndexMatches(worldKey, failures, entries) ==>
      IndexMatches(worldKey, Bumped(worldKey, failures, e), entries + [e])
  {
    assert Init(entries + [e]) == entries && Last(entries + [e]) == e;
  }

  /** Ordered trace plus repeated-failure bookkeeping, updated together on every append. */
  class ExecutiveHistory<S(!new), C(==, !new)> {
    const worldKey: S -> string
    var entries: seq<Entry<S, C>>
    var failures: map<FailureKey<C>, nat>

    ghost predicate Valid()
      reads this
    {
      IndexMatches(worldKey, failures, entries)
    }

    constructor (worldKey: S -> string)
      ensures Valid() && entries == [] && failures == map[] && this.worldKey == worldKey
    {
      this.worldKey := worldKey;
      entries, failures := [], map[];
    }

    method Append(e: Entry<S, C>)
      requires Valid()
      modifies this
      ensures Valid()
      ensures entries == old(entries) + [e]
      ensures failures == Bumped(worldKey, old(failures), e)
    {
      AppendEntry(worldKey, failures, entries, e);
      entries := entries + [e];
      if CountsAsFailure(e) {
        var key := KeyOf(worldKey, e);
        failures := failures[key := Lookup(failures, key) + 1];
      }
    }

    /** The sums over the recorded accounting, as loops over the trace. */
    method StepsUsed() returns (executive: nat, primitive: nat)
      ensures executive == ExecutiveSteps(entries) && primitive == PrimitiveSteps(entries)
    {
      executive, primitive := 0, 0;
      for i := 0 to |entries|
        invariant executive == ExecutiveSteps(entries[..i]) && primitive == PrimitiveSteps(entries[..i])
      {
        AppendEntry(worldKey, map[], entries[..i], entries[i]);
        assert entries[..i + 1] == entries[..i] + [entries[i]];
        executive, primitive := executive + StepsOf(entries[i]), primitive + PrimitivesOf(entries[i]);
      }
      assert entries[..|entries|] == entries;
    }

    function FailureCount(pre: S, call: C): nat
      reads this
    {
      Lookup(failures, (worldKey(pre), call))
    }
  }

  // ---------------------------------------------------------------------------------------------
  // The policies
  // ---------------------------------------------------------------------------------------------

  datatype Policy = SymbolicPrimary | AdvisoryTwoTrack

  /** What is known before any track input is acquired. */
  datatype Preliminary<+C> = Preliminary(
    plan: PlannerResult<C>, headVerdict: Option<CallValidation>, failureCount: nat, standing: Option<C>)

  datatype PolicyDecision<+C> =
    | EnactCall(call: C)
    | ReplanCycle
    | AskForProposal(call: C)
    | HaltEpisode(about: Option<C>)

  /** The shared plan-head routing; only the repeated-failure escape differs between the policies. */
  function Route<C>(policy: Policy, threshold: nat, p: Preliminary<C>): PolicyDecision<C>
    requires !p.plan.PlannerFailure?
  {
    if p.standing.Some? then EnactCall(p.standing.value)
    else if p.plan.NoPlan? || p.plan.plan == [] then HaltEpisode(None)
    else if p.headVerdict == Some(SymbolicallyInapplicable) then ReplanCycle
    else if p.failureCount >= threshold then
      if policy.SymbolicPrimary? then HaltEpisode(Some(p.plan.plan[0])) else AskForProposal(p.plan.plan[0])
    else EnactCall(p.plan.plan[0])
  }

  /** Symbolic-primary asks for nothing; advisory asks for evidence beside each call it will enact. */
  function WantsProposal<C>(policy: Policy, threshold: nat, p: Preliminary<C>): bool
    requires !p.plan.PlannerFailure?
  {
    policy.AdvisoryTwoTrack? && Route(policy, threshold, p).EnactCall?
  }

  /** Where the two policies part: on a call both would otherwise enact, at the failure threshold. */
  lemma PoliciesDifferOnlyInTheEscape<C>(threshold: nat, p: Preliminary<C>)
    requires !p.plan.PlannerFailure?
    ensures Route(SymbolicPrimary, threshold, p) == Route(AdvisoryTwoTrack, threshold, p) <==>
            !(p.standing.None? && p.plan.PlanFound? && p.plan.plan != []
              && p.headVerdict != Some(SymbolicallyInapplicable) && p.failureCount >= threshold)
  {
  }
}
