/** Failure-carrying values shared by the model's modules. */
module Wrappers {

  /** A value that may be absent (`undefined`/`null` in the modelled code). */
  datatype Option<+T> = None | Some(value: T)

  /** A value, or the message of the `Error` thrown instead of producing it. */
  datatype Result<+T> = Ok(value: T) | Err(error: string)

  /** A `Promise<void>`: it resolves, or it rejects with an error message. */
  datatype Outcome = Pass | Fail(error: string)

  /** JavaScript truthiness of an optional string: present and non-empty. */
  predicate Truthy(s: Option<string>) {
    s.Some? && s.value != ""
  }
}
