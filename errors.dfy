/** Shapes of Go return values shared by every module of the model. */
module Errors {

  /** A value that may be absent (a nil pointer, a missing cookie, a key not found). */
  datatype Option<T> = None | Some(value: T)

  /** Go's `error`: nil, or an error that carries its message (`err.Error()`). */
  datatype Error = Nil | Fail(message: string)

  /** A Go function returning `(T, error)`. */
  datatype Ret<T> = Ret(value: T, err: Error)

  /** The end of a Go call that may also panic at run time instead of returning. */
  datatype Outcome<T> = Return(ret: Ret<T>) | Panic(reason: string)
}
