/** Optional values and results with an error, as the portal's code uses
    `None` for a missing cleaned value and error sets for a rejected form. */
module Wrappers {

  datatype Option<+T> = None | Some(value: T)

  datatype Result<+T, +E> = Ok(value: T) | Err(error: E)

  function Min(a: int, b: int): int
  {
    if a <= b then a else b
  }
}
