// Types shared by every module of the project.

module Common {

  // One octet, and Go's uint8.
  type U8 = x: int | 0 <= x < 256

  datatype Option<+T> = None | Some(value: T)

  datatype Result<+T> = Ok(value: T) | Err {
    predicate IsFailure() {
      Err?
    }

    function PropagateFailure<U>(): Result<U>
      requires Err?
    {
      Err
    }

    function Extract(): T
      requires Ok?
    {
      value
    }
  }

  const TWO64: nat := 0x1_0000_0000_0000_0000
}
