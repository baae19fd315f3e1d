/**
 The caller's side of the update-settings action: it submits the update task,
 waits for it on a latch, and turns the failure it may have recorded while
 waiting into the exception it throws, or else returns a response.
 */
module MasterOperation {
  import opened Wrappers
  import opened SettingsMerge
  import opened UpdateTask

  /**
   The throwables the action deals with. `ElasticSearchException` stands for
   that class and all its subclasses, which the `instanceof` test matches
   alike; `OtherThrowable` covers every other throwable. A message may be
   absent, as a Java throwable's message may be null.
   */
  datatype Throwable =
    | ElasticSearchException(message: Option<string>, cause: Option<Throwable>)
    | InterruptedException(message: Option<string>)
    | OtherThrowable(className: string, message: Option<string>)

  /** The action's response; it carries no fields. */
  datatype ClusterUpdateSettingsResponse = ClusterUpdateSettingsResponse

  /** What the caller of the action gets: a response, or a thrown exception. */
  datatype Outcome = Returned(response: ClusterUpdateSettingsResponse) | Thrown(exception: Throwable)

  /** How the wait on the latch ended: released by the task, or interrupted. */
  datatype WaitResult = Released | Interrupted(interruptMessage: Option<string>)

  /**
   The failure the action has recorded once the wait is over. Only an
   interrupted wait records one; whatever the task itself does is never
   recorded.
   */
  function RecordedFailure(wait: WaitResult): (failure: Option<Throwable>)
    ensures failure.Some? <==> wait.Interrupted?
    ensures failure.Some? ==> failure.value.InterruptedException? && failure.value.message == wait.interruptMessage
  {
    match wait
    case Released => None
    case Interrupted(msg) => Some(InterruptedException(msg))
  }

  /**
   The mapping from the recorded failure to what the caller sees: no failure
   gives a response; an ElasticSearchException is rethrown as it is; any other
   throwable is wrapped in an ElasticSearchException carrying its message and
   the throwable as cause.
   */
  function ShapeOutcome(failure: Option<Throwable>): (outcome: Outcome)
    ensures outcome.Returned? <==> failure.None?
    ensures outcome.Thrown? ==> outcome.exception.ElasticSearchException?
    ensures failure.Some? && failure.value.ElasticSearchException? ==> outcome == Thrown(failure.value)
    ensures failure.Some? && !failure.value.ElasticSearchException? ==>
              outcome.Thrown? && outcome.exception.cause == Some(failure.value)
  {
    match failure
    case None => Returned(ClusterUpdateSettingsResponse)
    case Some(t) =>
      if t.ElasticSearchException? then Thrown(t)
      else Thrown(ElasticSearchException(t.message, Some(t)))
  }

  /**
   Nothing of a recorded failure is lost: the thrown exception keeps its
   message, and the failure is either the thrown exception or its cause.
   */
  lemma ShapeOutcomeKeepsFailure(failure: Throwable)
    ensures ShapeOutcome(Some(failure)).Thrown?
    ensures ShapeOutcome(Some(failure)).exception.message == failure.message
    ensures var thrown := ShapeOutcome(Some(failure)).exception;
            thrown == failure || thrown.cause == Some(failure)
    ensures ShapeOutcome(Some(ShapeOutcome(Some(failure)).exception)) == ShapeOutcome(Some(failure))
  {
  }

  /** The result of one action call: the state the submitted task computes, and the caller's outcome. */
  datatype Operation = Operation(taskResult: ClusterState, outcome: Outcome)

  /**
   The action's `masterOperation`: the task runs on the cluster service
   whatever happens to the wait, and the caller's outcome depends only on
   how the wait ended.
   */
  function RunMasterOperation(current: ClusterState, request: UpdateRequest, isDynamic: string -> bool,
                              reroute: ClusterState -> RoutingTable, wait: WaitResult): (op: Operation)
    ensures op.taskResult == Execute(current, request, isDynamic, reroute)
    ensures op.outcome.Returned? <==> wait.Released?
    ensures wait.Interrupted? ==>
              op.outcome == Thrown(ElasticSearchException(wait.interruptMessage,
                                                          Some(InterruptedException(wait.interruptMessage))))
  {
    Operation(Execute(current, request, isDynamic, reroute), ShapeOutcome(RecordedFailure(wait)))
  }

  /**
   A request that changes nothing is still answered with a response when the
   wait completes; rejected keys are warnings, never errors.
   */
  lemma NoOpIsAnswered(current: ClusterState, request: UpdateRequest, isDynamic: string -> bool,
                       reroute: ClusterState -> RoutingTable)
    requires !Changed(request, isDynamic)
    ensures RunMasterOperation(current, request, isDynamic, reroute, Released)
            == Operation(current, Returned(ClusterUpdateSettingsResponse))
  {
  }

  /**
   The caller's outcome never depends on the state or the request: the task
   reports nothing back but the release of the latch.
   */
  lemma OutcomeDependsOnlyOnWait(c1: ClusterState, r1: UpdateRequest, c2: ClusterState, r2: UpdateRequest,
                                 isDynamic: string -> bool, reroute: ClusterState -> RoutingTable, wait: WaitResult)
    ensures RunMasterOperation(c1, r1, isDynamic, reroute, wait).outcome
            == RunMasterOperation(c2, r2, isDynamic, reroute, wait).outcome
  {
  }
}
