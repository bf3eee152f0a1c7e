/** The failures the object model reports, and the wrappers that carry them. */
module Outcomes {

  datatype Option<+T> = None | Some(value: T)

  /** Failure kinds of the object model. */
  datatype Error =
    | UnknownProperty(name: string)  // Bind named a property the node does not have
    | TypeMismatch(property: string) // a bound variable's value does not fit the property's type
    | NoChildren                     // a boolean node with no first child to delegate to
    | Unmodelled                     // geometry of a transform, whose rule is not part of this model

  datatype Result<+T> = Ok(value: T) | Err(error: Error) {
    predicate IsFailure() {
      Err?
    }

    function PropagateFailure<U>(): Result<U>
      requires Err?
    {
      Err(error)
    }

    function Extract(): T
      requires Ok?
    {
      value
    }
  }

  /** The result of an operation that returns nothing but may fail. */
  datatype Outcome = Pass | Fail(error: Error)
}
