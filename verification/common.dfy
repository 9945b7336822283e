/** The value types a thunk talks in: optional slots, errors, the `Fin<A>`
    result of an evaluation, and the outcome of a foreign call that may throw.
 */
module Common {

  datatype Option<+T> = None | Some(value: T)

  /** An error, identified by its message. An exception caught by the thunk
      becomes the error carrying the same message (`Error.New(e)`). */
  datatype Error = Error(message: string)

  /** The reserved message that marks a cancellation. The library defines the
      actual text in a file that is not part of this model; no property here
      depends on which text it is. */
  const CancelledText: string := "cancelled"

  /** `Error.New(Thunk.CancelledText)` */
  function Cancellation(): (e: Error)
    ensures e.message == CancelledText
  {
    Error(CancelledText)
  }

  /** The library's `Fin<A>`: a success value or an error. */
  datatype Fin<+A> = Succ(value: A) | Fail(error: Error)

  /** What invoking a delegate does: it returns a value or it throws an
      exception (modelled by the exception's message, as an `Error`). */
  datatype Call<+T> = Returns(result: T) | Throws(exn: Error)

  /** The `Fin` a caller sees for a producer call once exceptions are turned
      into data: a returned result as is, a thrown exception as a failure. */
  function Caught<A>(c: Call<Fin<A>>): Fin<A>
  {
    match c
    case Returns(fin) => fin
    case Throws(e) => Fail(e)
  }
}
