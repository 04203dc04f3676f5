/** Small value wrappers shared by every module of the model. */
module Wrappers {

  /** A value that may be missing; `None` also stands for JavaScript's `null`. */
  datatype Option<+T> = None | Some(value: T)

  /** The outcome of an operation that can fail with an error of type `E`. */
  datatype Result<+T, +E> = Ok(value: T) | Err(error: E) {
    predicate IsFailure() { Err? }

    function PropagateFailure<U>(): Result<U, E>
      requires Err?
    {
      Err(error)
    }

    function Extract(): T
      requires Ok?
    {
      value
    }
  }

  /** A JavaScript property value: either `undefined` or a defined value. */
  datatype Js<+T> = Undefined | Val(value: T)

  /** One key of a partial object used as an update: the key is absent, or it is
      present and carries a value that may itself be `undefined`. */
  datatype Field<+T> = Absent | Present(value: Js<T>)

  /** Object spread `{ ...current, ...patch }` for one key: an absent key keeps the
      current value, a present key overwrites it, also with `undefined`. */
  function Merge<T>(current: Js<T>, patch: Field<T>): (r: Js<T>)
    ensures patch.Absent? ==> r == current
    ensures patch.Present? ==> r == patch.value
  {
    match patch
    case Absent => current
    case Present(v) => v
  }

  /** One byte of a Node.js `Buffer`. */
  type Byte = x: int | 0 <= x < 256

  /** JavaScript truthiness of a possibly undefined string: `undefined` and `""` are falsy. */
  predicate TruthyString(s: Js<string>) {
    s.Val? && s.value != ""
  }
}
