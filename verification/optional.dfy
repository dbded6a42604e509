/** A value that may be absent: JavaScript's `null`, Python's `None`. */
module Optional {

  datatype Option<+T> = None | Some(value: T)

  /**
    Truthiness of an optional string, the same in JavaScript (`if (id)`) and
    in Python (`if not session_id`): absent and empty are both false.
  */
  predicate Truthy(s: Option<string>)
  {
    s.Some? && s.value != ""
  }

}
