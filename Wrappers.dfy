/** Small value wrappers shared by every module of the model. */
module Wrappers {

  /** A value that may be absent: JavaScript's `T | null` / `T | undefined`. */
  datatype Option<+T> = None | Some(value: T)

  /** The settled value of a promise produced by this code base: either the
      resolved value or the message of the `Error` it was rejected with. */
  datatype Result<+T> = Ok(value: T) | Err(message: string)

  /** The settled value of an awaited call into code outside the model
      (the identity provider, the task service). A rejection carries the
      `code` property of the thrown error, which may be missing. */
  datatype Outcome<+T> = Resolved(value: T) | Rejected(code: Option<string>)

  /** JavaScript truthiness of a `string | null` value: null and "" are falsy. */
  predicate Truthy(s: Option<string>) {
    s.Some? && s.value != ""
  }
}
