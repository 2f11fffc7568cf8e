/** Execution results, faults and discrepancies (shared/execution.py, shared/faults.py, shared/discrepancy.py). */
module Execution {
  import opened Common

  datatype Outcome = Success | Partial | Failure | Timeout

  datatype FailureClass = Unchanged | PartialExecution | RejectedBeforeTransition

  /** A call that reached the executor. It always costs one executive step. */
  datatype ExecutionResult<+S, +C> = Result(
    call: C, outcome: Outcome, pre: S, post: S, primitiveSteps: nat, failureClass: Option<FailureClass>)

  /** The constructor checks: a class exactly on failure, and the class agrees with the two states. */
  predicate WellFormedResult<S, C, K(==)>(r: ExecutionResult<S, C>, worldKey: S -> K)
  {
    && (r.outcome.Success? <==> r.failureClass.None?)
    && (r.failureClass == Some(PartialExecution) ==> worldKey(r.pre) != worldKey(r.post))
    && (r.failureClass.Some? && !r.failureClass.value.PartialExecution? ==> worldKey(r.pre) == worldKey(r.post))
  }

  datatype FaultKind =
    | MalformedBackendResult | SerializationFailure | BackendApiException | MissingGrounding
    | ExecutorMonitorProtocolFailure | PlannerComputationFailure | MalformedSkillCall | NlTrackFailure

  datatype Stage = Unstaged | AtPropose | AtObserve

  /** `caseC` is the parsed `primitive_steps_before_failure` key of a mid-execution fault. */
  datatype Fault = Fault(kind: FaultKind, stage: Stage, caseC: Option<nat>)
  {
    /** Detected upstream of the executor, so no attempt can have happened. */
    predicate ArisesBeforeExecution() {
      if kind == NlTrackFailure && stage == AtObserve then false
      else kind in {MalformedSkillCall, MissingGrounding, PlannerComputationFailure, NlTrackFailure}
    }
  }
}
