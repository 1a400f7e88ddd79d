/** The ways a call into the calculator raises instead of returning a value. */
module Errors {

  /** Why a call fails. Both dispatch failures surface as a TypeError in the
      program; dividing by a zero reading is a ZeroDivisionError. */
  datatype Fault =
    | UnknownWorkoutType(code: string)              // the code has no registry entry
    | WrongArgumentCount(expected: nat, given: nat) // the readings do not fit the constructor
    | ZeroDivision                                  // a zero duration or a zero height

  /** A value, or the fault raised while computing it. */
  datatype Result<+T> = Ok(value: T) | Err(fault: Fault) {

    predicate IsFailure() {
      Err?
    }

    function PropagateFailure<U>(): Result<U>
      requires Err?
    {
      Err(fault)
    }

    function Extract(): T
      requires Ok?
    {
      value
    }
  }
}
