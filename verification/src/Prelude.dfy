/** Option and Result types, and the two key sources an advanced wallet manager serves. */
module Prelude {

  datatype Option<+T> = None | Some(value: T) {
    predicate IsFailure() { None? }

    function PropagateFailure<U>(): Option<U>
      requires None?
    {
      None
    }

    function Extract(): T
      requires Some?
    {
      value
    }

    function OkOr(error: Error): Result<T> {
      match this
      case None => Err(error)
      case Some(v) => Ok(v)
    }
  }

  /** The exception classes of the handlers, without their messages. */
  datatype Error =
    | BadRequest
    | Validation
    | NotFound
    | NotImplemented
    | Assertion
    | Network
    | Internal

  datatype Result<+T> = Ok(value: T) | Err(error: Error) {
    predicate IsFailure() { Err? }

    function PropagateFailure<U>(): Result<U>
      requires Err?
    {
      Err(error)
    }

    function Extract(): T
      requires Ok?
    {
      value
    }

    function ToOption(): Option<T> {
      match this
      case Ok(v) => Some(v)
      case Err(_) => None
    }
  }

  /** The `source` field of a request: which of the customer's two keys it concerns. */
  datatype Source = User | Backup {
    function Other(): Source { if this == User then Backup else User }
  }

  /** Randomness drawn by one call. */
  type Seed = nat

  /** How the key provider took a posted key; an answer can be lost after the key was stored. */
  datatype Post = Acknowledged | StoredButLost | Refused

  /** JavaScript truthiness of an optional string: absent and empty both read as false. */
  predicate Truthy(s: Option<string>) {
    s.Some? && s.value != ""
  }
}
