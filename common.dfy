/** Values shared by every component: optional values, the outcome of an
    operation that may raise, and Python's truthiness for the few value
    kinds the bot tests with `if x:`. */
module Common {

  datatype Option<T> = None | Some(value: T) {
    /** `d.get(key, default)` on a dictionary entry that may be missing. */
    function GetOr(default: T): T {
      match this
      case Some(v) => v
      case None => default
    }
  }

  /** The exceptions the core can raise. */
  datatype Error =
    | GatewayFailure          // any exception raised by a broker call
    | MissingKey(key: string) // a KeyError on the shared state dictionary
    | ZeroDivision            // ZeroDivisionError in a division

  datatype Result<T> = Ok(value: T) | Err(error: Error)

  /** Truthiness of an order id (None or the empty string is falsy). */
  predicate IdTruthy(id: Option<string>) {
    id.Some? && id.value != ""
  }

  /** Truthiness of a number that may be missing (None or 0 is falsy). */
  predicate RealTruthy(x: Option<real>) {
    x.Some? && x.value != 0.0
  }

  predicate IntTruthy(x: Option<int>) {
    x.Some? && x.value != 0
  }
}
