/** Small value wrappers shared by the modules of the model. */
module Wrappers {

  /** A JavaScript value that may be `null`/`undefined` (None) or present (Some). */
  datatype Option<+T> = None | Some(value: T)

  /** How an awaited SDK promise settles: it resolves, or it rejects with an error message. */
  datatype Outcome = Resolved | Rejected(message: string)

  /** JavaScript truthiness of a string-valued field: present and not the empty string. */
  predicate Truthy(v: Option<string>)
  {
    v.Some? && v.value != ""
  }
}
