/** Option, Result and the kinds of throwable the framework can raise.
    A PHP exception is modelled as an `Err` carrying the kind of the
    exception class; message texts are not modelled. */
module Outcomes {

  datatype Option<+T> = None | Some(value: T)

  /** Why a call threw. */
  datatype ErrorKind =
    // PHP runtime warnings, which the installed error handler turns into ErrorException
    | UndefinedKey                     // "Undefined array key"
    | UndefinedVariable                // "Undefined variable"
    | ArrayToStringConversion          // an array interpolated into a string
    | ScalarUsedAsArray                // `$x[] = v` on a scalar (Error, or the deprecation for false)
    // PHP engine errors
    | TypeError                        // a declared parameter or return type is violated
    | UninitializedProperty            // a typed property read before it was assigned
    | ArgumentCountError               // too few arguments passed to a method
    // the framework's own exception classes
    | QueryBuilderInvalidArgument
    | DataRepositoryInvalidArgument
    | DataMapperInvalidArgument
    | SessionInvalidArgument
    | SessionFailure                   // SessionException, wrapping a storage failure
    | GlobalManagerInvalidArgument(unset: bool)  // unset == true: not set; false: set but empty
    | RouterBadMethodCall(code: int)
    | DBConnectionFailure
    // a throwable raised by a collaborator outside the model, rethrown unchanged
    | Foreign(tag: nat)

  /** The result of a PHP call that returns a value or throws. */
  datatype Result<+T> = Ok(value: T) | Err(error: ErrorKind)

  /** The result of a PHP call that returns nothing or throws. */
  datatype Outcome = Done | Failed(error: ErrorKind)
}
