/** Failures raised while building bodies, and the result type that carries them. */
module Errors {

  /** The exceptions the core can raise, each with the text or key that identifies it. */
  datatype Error =
      /** `std::invalid_argument`: a body with a non-positive diameter or mass, or a number `std::stod` cannot read. */
    | InvalidArgument(reason: string)
      /** `json::out_of_range`: `at(key)` on an object that has no such key. */
    | MissingField(key: string)
      /** `json::type_error`: `at(key)` on a value that is not an object, or `get<T>()` on a value of another type. */
    | WrongType(key: string)

  /** Either a value or the error that stopped its construction; works with `:-`. */
  datatype Result<+T> = Ok(value: T) | Err(error: Error) {

    predicate IsFailure() {
      Err?
    }

    function PropagateFailure<U>(): Result<U>
      requires Err?
    {
      Err(error)
    }

    function Extract(): T
      requires Ok?
    {
      value
    }
  }

  datatype Option<+T> = None | Some(value: T)
}
