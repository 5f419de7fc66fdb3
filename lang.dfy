/** Value types standing for the Java runtime notions the interceptors rely on:
    a nullable reference, an exception, and the two ways a call can end. */
module Lang {

  /** A Java reference that may be null. */
  datatype Option<+T> = None | Some(value: T) {
    function GetOr(default: T): T {
      match this
      case Some(v) => v
      case None => default
    }
  }

  /** A thrown exception: its class name and its (nullable) message. */
  datatype Throwable = Throwable(className: string, message: Option<string>)

  /** How a `void` Java call ends: it returns, or it throws. */
  datatype Completion = Normal | Abrupt(exception: Throwable)

  /** How a value-returning Java call ends. */
  datatype Outcome<T> = Returned(value: T) | Threw(exception: Throwable)
}
