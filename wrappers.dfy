/** Option and Result as the crate uses them from Rust's standard library. */
module Wrappers {
  datatype Option<+T> = None | Some(value: T)

  datatype Result<+T, +E> = Ok(value: T) | Err(error: E)
  {
    /** Rust's `Result::ok`: keeps the value and drops the error. */
    function ToOption(): (o: Option<T>)
      ensures o.Some? <==> this.Ok?
      ensures o.Some? ==> o.value == this.value
    {
      match this
      case Ok(v) => Some(v)
      case Err(_) => None
    }
  }

  /** What a call that may panic produced: a value, or a panic (an `unwrap` of an error, a failed debug assertion). */
  datatype Outcome<+T> = Returned(value: T) | Panicked
}
