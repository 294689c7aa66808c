/** What a route handler sends back, and the request checks of `express-validator` it uses. */
module Http {
  import opened Wrappers

  /** The outcome of one request:
      - `Ok`: a 2xx status with a body;
      - `Fail`: an error status with a text (or `{ message }`) body;
      - `Invalid`: status 400 with the messages of the failed `express-validator` checks;
      - `NoReply`: the handler threw outside its `try`, so Express 4 never answers. */
  datatype Reply<T> =
    | Ok(status: int, value: T)
    | Fail(status: int, message: string)
    | Invalid(errors: seq<string>)
    | NoReply

  predicate IsHexDigit(c: char)
  {
    '0' <= c <= '9' || 'a' <= c <= 'f' || 'A' <= c <= 'F'
  }

  /** `isUUID()`: five groups of 8, 4, 4, 4 and 12 hexadecimal digits joined by hyphens. */
  predicate IsUuid(s: string)
  {
    |s| == 36
    && (forall i :: 0 <= i < 36 ==> if i in {8, 13, 18, 23} then s[i] == '-' else IsHexDigit(s[i]))
  }

  /** A `Some` string that is not empty: how JavaScript tests a value for truth. */
  predicate Truthy(s: Option<string>)
  {
    s.Some? && s.value != ""
  }
}
