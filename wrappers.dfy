/** Failure-compatible wrappers shared by every driver module, and the error
    codes that the hub's `alpaca_exception` carries (they become the Alpaca
    ErrorNumber of a response). */
module Wrappers {

  datatype Option<+T> = None | Some(value: T) {
    predicate IsFailure() { None? }
    function PropagateFailure<U>(): Option<U> requires None? { None }
    function Extract(): T requires Some? { value }
  }

  /** The error codes a driver throws. */
  datatype ErrorCode =
    | NotImplemented
    | InvalidValue
    | NotConnected
    | InvalidOperation
    | UnspecifiedError
    | DriverError

  /** The numeric Alpaca error number of each code. */
  function Number(e: ErrorCode): (n: int)
    ensures 0x400 <= n <= 0x500
  {
    match e
    case NotImplemented => 0x400
    case InvalidValue => 0x401
    case NotConnected => 0x407
    case InvalidOperation => 0x40B
    case UnspecifiedError => 0x4FF
    case DriverError => 0x500
  }

  lemma NumberInjective(a: ErrorCode, b: ErrorCode)
    ensures Number(a) == Number(b) ==> a == b
  {
  }

  /** The outcome of an operation that either returns a value or throws an
      `alpaca_exception` with a code. */
  datatype Result<+T> = Ok(value: T) | Err(error: ErrorCode) {
    predicate IsFailure() { Err? }
    function PropagateFailure<U>(): Result<U> requires Err? { Err(error) }
    function Extract(): T requires Ok? { value }
  }
}
