/** The JavaScript values the core reads out of parsed JSON and hands to event listeners. */
module Values {

  /** `undefined` stands for an absent JSON field; `ErrorObject` is an `Error` instance
      (only its message is observable to the listeners). */
  datatype Value =
    | Undefined
    | Null
    | Bool(b: bool)
    | Num(n: real)
    | Str(s: string)
    | ErrorObject(message: string)

  /** A JavaScript number that is a whole number. */
  predicate IsInteger(x: real) {
    x.Floor as real == x
  }

  /** Whether a value can come out of JSON.parse (an Error object cannot). */
  predicate IsJson(v: Value) {
    !v.ErrorObject?
  }
}
