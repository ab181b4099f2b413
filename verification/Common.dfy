/** Value types shared by the models of the packages. */
module Common {
  datatype Option<+T> = None | Some(value: T)

  newtype byte = x: int | 0 <= x < 256

  type Bytes = seq<byte>

  /** Nano ids are numbered in the order they are drawn, so a drawn id is fresh. */
  type RequestId = nat
  type Token = nat
  type Failure = string

  datatype Result<+T> = Ok(value: T) | Err(error: Failure)

  function Max(a: int, b: int): int {
    if a < b then b else a
  }
}
