/**
 * The small part of the JavaScript runtime that the four lab pages depend on:
 * thrown errors and their classes, numbers that may be NaN or infinite, and
 * the host's Math functions, which stay uninterpreted.
 */
module JsRuntime {

  datatype Option<+T> = None | Some(value: T)

  /** The class of a thrown value, for the classes the pages test with `instanceof`. */
  datatype ErrorClass = RangeError | TypeError | ReferenceError | Error | NotAnError

  /**
   * `e instanceof cls`. RangeError, TypeError and ReferenceError all extend
   * Error; a thrown value that is not an Error object is an instance of none.
   */
  predicate InstanceOf(e: ErrorClass, cls: ErrorClass)
  {
    e != NotAnError && (e == cls || cls == Error)
  }

  /** The pages' own word for "error", the message prefix when no error class is named. */
  const GenericErrorPrefix: string := "Помилка"

  /**
   * The outcome of code that may throw: a value, or the class of the thrown
   * error together with what its message reports.
   */
  datatype Result<+T, +I> = Ok(value: T) | Err(kind: ErrorClass, info: I)
  {
    predicate IsFailure() { Err? }

    function PropagateFailure<U>(): Result<U, I>
      requires Err?
    {
      Err(kind, info)
    }

    function Extract(): T
      requires Ok?
    {
      value
    }
  }

  /**
   * A JavaScript number. The pages only ever ask `Number.isFinite` of a
   * number, so NaN, +Infinity and -Infinity are one case.
   */
  datatype Number = Finite(r: real) | NonFinite

  /**
   * The host's `Math.PI`, `Math.sin` and `Math.cos`, and floating-point
   * division (which yields a non-finite number on a zero divisor or on
   * overflow). None of them is interpreted by the model.
   */
  datatype HostMath = HostMath(pi: real, sin: real -> real, cos: real -> real, div: (real, real) -> Number)

  /** Division that behaves as exact real division wherever the divisor is not zero. */
  ghost predicate ExactDivision(m: HostMath)
  {
    forall n: real, d: real :: m.div(n, d) == (if d == 0.0 then NonFinite else Finite(n / d))
  }

  /** `Math.abs` on a finite number. */
  function Abs(x: real): (r: real)
    ensures r >= 0.0 && (r == x || r == -x)
  {
    if x < 0.0 then -x else x
  }
}
