/** Small value helpers shared by the other modules. */
module Base {

  /** A value that may be absent: the model's stand-in for a C NULL pointer. */
  datatype Option<+T> = None | Some(value: T)

  function Min(a: int, b: int): int
  {
    if a <= b then a else b
  }
}
