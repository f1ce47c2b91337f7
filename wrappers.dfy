/** Optional values, results and the errors the builders can raise. */
module Wrappers {

  /** An optional value: a hook that may be absent, a field that may be missing. */
  datatype Option<+T> = None | Some(value: T)

  /** What a builder operation can signal instead of returning normally. */
  datatype Error =
    | ValidationFailed          // a `validate` hook rejected a new leaf
    | IndexNotFound(index: int) // `setOperator` addressed a slot that does not exist
    | Malformed                 // `restore` met a record with neither condition nor expression

  /** Either the value an operation returns or the error it throws. */
  datatype Result<+T> = Ok(value: T) | Err(error: Error)
}
