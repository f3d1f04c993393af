/** Results, errors and bytes shared by every component. */
module Basics {

  datatype Option<+T> = None | Some(value: T)

  /** The `std::io::ErrorKind`s the crate branches on; every other kind is `Other`. */
  datatype ErrorKind =
    | NotFound
    | PermissionDenied
    | AlreadyExists
    | InvalidInput
    | InvalidData
    | TimedOut
    | Unsupported
    | Other

  datatype Result<+T> = Ok(value: T) | Err(kind: ErrorKind) {
    predicate IsFailure() {
      Err?
    }

    function PropagateFailure<U>(): Result<U>
      requires Err?
    {
      Err(kind)
    }

    function Extract(): T
      requires Ok?
    {
      value
    }
  }

  type Byte = x: int | 0 <= x < 256

  function Min(a: int, b: int): int {
    if a <= b then a else b
  }

  function Pow2(n: nat): (r: nat)
    ensures r > 0
  {
    if n == 0 then 1 else 2 * Pow2(n - 1)
  }
}
