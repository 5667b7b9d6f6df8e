/** Option, Result and error values shared by the whole model.

    `Error` follows the `anyhow` crate the program uses: an error is its
    outermost message plus the chain of messages it wraps, and
    `.context(msg)` pushes a new outermost message in front. */
module Wrappers {

  datatype Option<+T> = None | Some(value: T)

  /** The unit value `()`. */
  datatype Unit = Unit

  /** An `anyhow::Error`: `message` is what `{}` displays, `causes` the
      wrapped errors, outermost first. */
  datatype Error = Error(message: string, causes: seq<string>)

  datatype Result<+T> = Ok(value: T) | Err(error: Error)

  /** What a piece of code that may panic ends with: a returned value or a
      panic with its message. */
  datatype Completion<+T> = Returned(value: T) | Panicked(message: string)

  /** The chain of messages `{:#}` would show: the outermost message, then
      each cause in turn. */
  function Chain(e: Error): seq<string> {
    [e.message] + e.causes
  }

  /** The innermost message of the chain (`Error::root_cause`). */
  function RootCause(e: Error): string {
    if e.causes == [] then e.message else e.causes[|e.causes| - 1]
  }

  /** `anyhow::Context::context` on an error: the new message is shown, the
      whole old chain follows it, and the root cause is still the old one. */
  function WithContext(e: Error, msg: string): (r: Error)
    ensures Chain(r) == [msg] + Chain(e)
    ensures RootCause(r) == RootCause(e)
  {
    Error(msg, [e.message] + e.causes)
  }

  /** `anyhow::Context::context` on a `Result`: a success passes unchanged;
      an error is shown as `msg` and keeps its chain and its root cause. */
  function ResultContext<T>(r: Result<T>, msg: string): (c: Result<T>)
    ensures r.Ok? <==> c.Ok?
    ensures r.Ok? ==> c == r
    ensures r.Err? ==> Chain(c.error) == [msg] + Chain(r.error) && RootCause(c.error) == RootCause(r.error)
  {
    match r
    case Ok(v) => Ok(v)
    case Err(e) => Err(WithContext(e, msg))
  }
}
