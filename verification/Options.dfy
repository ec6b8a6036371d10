/** Values that may be missing, and operations that may fail. */
module Options {

  datatype Option<+T> = None | Some(value: T)

  /** Text that is there and not empty. */
  predicate Present(text: Option<string>) {
    text.Some? && text.value != ""
  }

  datatype Result<+T, +E> = Ok(value: T) | Err(error: E) {
    predicate IsFailure() {
      Err?
    }
    function PropagateFailure<U>(): Result<U, E>
      requires Err?
    {
      Err(error)
    }
    function Extract(): T
      requires Ok?
    {
      value
    }
  }

  /** How many more durable operations happen before the process dies; none if it lives. */
  type Crash = Option<nat>

  function Spend(crash: Crash): Crash {
    if crash.Some? && crash.value > 0 then Some(crash.value - 1) else crash
  }
}
