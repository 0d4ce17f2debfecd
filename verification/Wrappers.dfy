/** Optional values and results shared by every other module. */
module Wrappers {

  datatype Option<+T> = None | Some(value: T)

  /** A refusal carries the HTTP-level reason; the transaction around it rolls back. */
  datatype Result<+T, +E> = Ok(value: T) | Err(error: E)

  function Min(a: int, b: int): int { if a <= b then a else b }

  function Max(a: int, b: int): int { if a >= b then a else b }
}
