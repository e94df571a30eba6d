/** Vocabulary shared by every module of the model. */
module Prelude {

  datatype Option<+T> = None | Some(value: T)

  /** The ways a transaction of the source ends without committing. */
  datatype Error =
    | NotFound
    | Insufficient
    | Exhausted
    | AlreadyActive
    | UnknownPlan
    | ConstraintViolated
    | Serialization
    | Unavailable

  datatype Result<+T> = Ok(value: T) | Err(error: Error)

  function Max(a: int, b: int): int {
    if a < b then b else a
  }

  function Min(a: int, b: int): int {
    if a < b then a else b
  }
}
