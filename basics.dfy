/** Small wrapper datatypes shared by every module of the model. */
module Basics {

  datatype Option<+T> = None | Some(value: T)

  /** A JSON reply of a route handler: a body sent with status 200, or an
      `{ error }` body sent with the given error status. */
  datatype Response<+T> = Ok(body: T) | Error(status: nat, message: string)

  /** What a JavaScript `x || d` does for an optional string: the value when it
      is present and non-empty, the default otherwise. */
  function OrDefault(x: Option<string>, d: string): (r: string)
    ensures r == d || (x.Some? && r == x.value && r != "")
    ensures x.Some? && x.value != "" ==> r == x.value
  {
    if x.Some? && x.value != "" then x.value else d
  }

  /** JavaScript truthiness of an optional string (`!x` is its negation). */
  predicate Truthy(x: Option<string>) {
    x.Some? && x.value != ""
  }
}
