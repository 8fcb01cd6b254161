/** Datatypes and small helpers shared by every part of the model. */
module Common {

  datatype Option<+T> = None | Some(value: T)

  datatype Result<+T, +E> = Ok(value: T) | Err(error: E) {
    predicate IsFailure() { Err? }

    function PropagateFailure<U>(): Result<U, E>
      requires Err?
    {
      Err(error)
    }

    function Extract(): T
      requires Ok?
    {
      value
    }
  }

  function Max(x: real, y: real): real { if x < y then y else x }

  function Min(x: real, y: real): real { if y < x then y else x }

  function MaxNat(x: nat, y: nat): nat { if x < y then y else x }
}
