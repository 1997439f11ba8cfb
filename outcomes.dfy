/** Result types shared by every stage of the front-end. */
module Outcomes {

  /** A nullable reference of the Go code (`*T` that may be nil). */
  datatype Option<+T> = None | Some(value: T)

  /** The two ways the Go code stops at run time instead of returning. */
  datatype PanicKind = IndexOutOfRange | NilDereference

  /**
   * What a Go call `(T, error)` can end in: a value, an `error` value with
   * its message, or a run-time panic.  Usable with `:-`.
   */
  datatype Outcome<+T> = Ok(value: T) | Err(message: string) | Panic(kind: PanicKind)
  {
    predicate IsFailure() {
      !Ok?
    }

    function PropagateFailure<U>(): (r: Outcome<U>)
      requires !Ok?
    {
      match this
      case Err(m) => Err(m)
      case Panic(k) => Panic(k)
    }

    function Extract(): T
      requires Ok?
    {
      value
    }
  }

  /**
   * How a Go validator that returns `bool` ends: `Ok(true)`, `Ok(false)`
   * or a panic.  The walk's error messages are only "false" there.
   */
  function Verdict<T>(o: Outcome<T>): (r: Outcome<bool>)
    ensures r.Ok? <==> !o.Panic?
    ensures r == Ok(true) <==> o.Ok?
    ensures o.Panic? ==> r == Panic(o.kind)
  {
    match o
    case Ok(_) => Ok(true)
    case Err(_) => Ok(false)
    case Panic(k) => Panic(k)
  }
}
