/**
 * Optional values, results, and the exceptions the core throws. A C++
 * `throw` is modelled as a `Failure` result or a `Some` error out-parameter.
 */
module Outcomes {

  datatype Option<T> = None | Some(value: T)

  datatype Result<T> = Success(value: T) | Failure(error: Error)

  /** The exceptions the simulation core can raise. */
  datatype Error =
    | DomainError(what: string)   // std::domain_error with its message
    | BadArrayNewLength           // std::bad_array_new_length from `new T[n]` with n < 0
    | BadFunctionCall             // std::bad_function_call from calling an empty std::function
}
