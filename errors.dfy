/**
 * The error values of github.com/pkg/errors as the Go code uses them: an
 * error is its message and nil is None. Wrap and Wrapf put a context in
 * front of the message and pass nil through unchanged.
 */
module Errors {
  import opened Wrappers
  import Text

  /** errors.Wrap(err, msg) and errors.Wrapf(err, msg): nil stays nil; otherwise "msg: " before the cause. */
  function Wrap(err: Option<string>, msg: string): (r: Option<string>)
    ensures r.None? <==> err.None?
    ensures r.Some? ==> Text.HasPrefix(r.value, msg + ": ") && r.value[|msg| + 2..] == err.value
  {
    if err.None? then None else Some(msg + ": " + err.value)
  }
}
