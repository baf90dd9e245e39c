/**
 * The workflow definition: a state machine in the style of the Amazon States
 * Language, of which only Task and Parallel states are supported.
 */
module Workflow {
  import opened Base

  const StateTypeTask := "Task"
  const StateTypeParallel := "Parallel"

  /**
   * States maps each state name to its state, so a name identifies at most one
   * state.  StartAt and every Next are plain strings: nothing in the type says
   * that they are keys of States; the interpreter checks that when it runs.
   */
  datatype StateMachine = StateMachine(comment: string, startAt: string, states: map<string, State>)

  /** One node.  ParallelExecution is a pointer that may be nil on any state. */
  datatype State = State(
    stateType: string,
    appName: string,
    funcName: string,
    next: string,
    comment: string,
    end: bool,
    parallelExecution: Option<ParallelExecution>)

  /** The fan-out descriptor; it holds a whole nested StateMachine by value. */
  datatype ParallelExecution = ParallelExecution(
    iterableItemsKey: string,
    iterableItemName: string,
    stateMachine: StateMachine)

  /** The state types the interpreter dispatches on. */
  datatype StateKind = Task | Parallel

  /** Recognises the two state-type tags; every other string is unknown. */
  function KindOf(stateType: string): (k: Option<StateKind>)
    ensures k == Some(Task) <==> stateType == StateTypeTask
    ensures k == Some(Parallel) <==> stateType == StateTypeParallel
    ensures k.None? <==> stateType != StateTypeTask && stateType != StateTypeParallel
  {
    if stateType == StateTypeTask then Some(Task)
    else if stateType == StateTypeParallel then Some(Parallel)
    else None
  }
}
