/** Option and Result, used for JavaScript's `null`/`undefined` and for thrown errors. */
module Wrappers {

  datatype Option<+T> = None | Some(value: T)

  datatype Result<+T, +E> = Success(value: T) | Failure(error: E)

  /**
   * The `use…` hook of a React context: the value of the nearest provider, or the
   * error it throws when no provider is in scope.
   */
  function UseContext<P>(context: Option<P>, message: string): (r: Result<P, string>)
    ensures context.None? <==> r == Failure(message)
    ensures context.Some? ==> r == Success(context.value)
  {
    match context
    case None => Failure(message)
    case Some(p) => Success(p)
  }
}
