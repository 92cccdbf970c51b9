/** JavaScript values that the routes and the page branch on. */
module Js {

  datatype Option<T> = None | Some(value: T)

  /** What a `throw` hands to a `catch`: an `Error` object, or any other value. */
  datatype Thrown = ErrorObject(message: string) | OtherValue

  /** The outcome of a call that may throw. */
  datatype Result<T> = Ok(value: T) | Threw(thrown: Thrown)

  /** `error instanceof Error ? error.message : fallback` */
  function ErrorText(t: Thrown, fallback: string): string {
    match t
    case ErrorObject(m) => m
    case OtherValue => fallback
  }

  /** A JSON string field read as a condition: absent and empty are both falsy. */
  predicate Truthy(s: Option<string>) {
    s.Some? && s.value != ""
  }
}
