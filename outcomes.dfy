/** Results of operations that, in the modelled program, may raise a Python exception. */
module Outcomes {

  datatype Option<+T> = None | Some(value: T)

  /** The built-in Python exceptions the modelled code can raise. */
  datatype Exception = ValueError | KeyError | IndexError | AttributeError

  /** A value, or the exception raised instead of returning one. */
  datatype Result<+T> = Ok(value: T) | Raise(exc: Exception)

  /** The state a loop leaves behind: all of its input applied, or the
      updates made before an exception stopped it, with that exception. */
  datatype Run<+S> = Completed(state: S) | Aborted(state: S, exc: Exception)
}
