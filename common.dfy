/** Value shapes shared by every state container and flow of the client:
    optional values, local-storage slots and the outcome of a remote call. */
module Common {

  /** A value that may be missing (JavaScript's `null` / `undefined`). */
  datatype Option<T> = None | Some(value: T) {
    function GetOr(default: T): T {
      if Some? then value else default
    }
  }

  /** What reading one local-storage key yields once its text has gone
      through `JSON.parse`: nothing (the key is absent, or holds the empty
      string, which the callers treat as absent), text that does not parse
      into the expected shape, or a parsed value. */
  datatype Slot<T> = Empty | Corrupt | Stored(value: T)

  /** The outcome of one remote call: the reply body, or an error whose
      server-supplied message may be empty ("" stands for a missing
      `err.response.data.message`). */
  datatype Reply<T> = Ok(body: T) | Failed(message: string)

  /** JavaScript's `a || b` on strings: the empty string is falsy. */
  function OrElse(a: string, b: string): string {
    if a != "" then a else b
  }

  /** `a || b` yields one of its operands, is empty only when both are (so
      a non-empty default always gives a non-empty text), has "" as its
      identity on either side and regroups freely, so a chain such as
      `error || message || "Reservation failed"` is the first non-empty
      operand. */
  lemma OrElseChoice(a: string, b: string, c: string)
    ensures OrElse(a, b) == a || OrElse(a, b) == b
    ensures OrElse(a, b) == "" <==> a == "" && b == ""
    ensures OrElse("", b) == b && OrElse(a, "") == a
    ensures OrElse(OrElse(a, b), c) == OrElse(a, OrElse(b, c))
  {
  }
}
