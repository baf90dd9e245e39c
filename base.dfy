/** Option, Result and the error values that the gateway core returns. */
module Base {

  /** A Go pointer that may be nil, or a value that may be absent. */
  datatype Option<+T> = None | Some(value: T)

  /** Every non-nil Go `error` the modelled core can return. */
  datatype Error =
    | UnknownStateName(name: string)       // a state name that is not a key of States
    | UnknownStateType(stateType: string)  // a Type other than "Task" and "Parallel"
    | InvalidJson                          // the input of a Parallel state is not JSON
    | NotAnObject                          // the input of a Parallel state is JSON but not an object
    | MissingParallelExecution             // a Parallel state whose ParallelExecution is nil
    | KeyNotFound(key: string)             // IterableItemsKey is not a key of the input object
    | NotAnArray                           // the value at IterableItemsKey is not an array
    | StepLimit                            // the step bound of this model ran out
    | Lookup(reason: string)               // the form a failed metadata-store lookup's error takes
    | Platform(reason: string)             // the form a failed GetCall's or Submit's error takes

  /** A Go `(value, error)` pair: exactly one of the two is meaningful. */
  datatype Result<+T> = Ok(value: T) | Err(error: Error)
}
