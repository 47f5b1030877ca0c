/** Dynamically typed values and the exceptions of the exercises.

    Every exercise checks the run-time type of its arguments (`isinstance`) before it
    touches any state. The models therefore take arguments as tagged values and return
    the raised exception as an explicit error instead of excluding it with a precondition.
 */
module Values {

  /** A Python value as far as the exercises look at it: an `int`, a `str`, a `float`,
      `None`, a `datetime` (only compared by identity of its stamp here), or an object that
      cannot be compared with an `int`. */
  datatype Value =
    | Int(i: int)
    | Str(s: string)
    | Float(x: real)
    | NoneValue
    | DateTime(stamp: int)
    | Obj

  /** The built-in exception classes the exercises raise. */
  datatype Error =
    | TypeError
    | ValueError
    | IndexError
    | ZeroDivisionError
    | AttributeError

  datatype Option<+T> = None | Some(value: T)

  /** A call that returns a value or raises. */
  datatype Result<+T> = Ok(value: T) | Err(error: Error)

  /** A call that returns nothing of interest (`None`) or raises. */
  datatype Outcome = Pass | Fail(error: Error)
}
