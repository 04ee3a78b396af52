/** Outcomes of fallible calls. */
module Wrappers {
  datatype Option<+T> = None | Some(value: T)

  datatype Result<+T, +E> = Ok(value: T) | Err(error: E) {
    predicate IsFailure() { Err? }

    function PropagateFailure<U>(): Result<U, E>
      requires Err?
    {
      Err(error)
    }

    function Extract(): T
      requires Ok?
    {
      value
    }
  }

  /** The outcome of a call that returns nothing. */
  datatype Done = Done

  /** A call does what its specification says, or reports the specified error and changes nothing. */
  ghost predicate Did<S, E>(before: S, spec: Result<S, E>, after: S, r: Result<Done, E>) {
    if spec.Ok? then r.Ok? && after == spec.value else r == Err(spec.error) && after == before
  }

  /** As `Did`, before an error has been rolled back. */
  ghost predicate Tried<S, E>(spec: Result<S, E>, after: S, r: Result<Done, E>) {
    if spec.Ok? then r.Ok? && after == spec.value else r == Err(spec.error)
  }
}
