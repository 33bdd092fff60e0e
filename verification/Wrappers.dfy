/** The one optional-value type shared by the whole project. */
module Wrappers {

  datatype Option<+T> = None | Some(value: T)

  function Max(x: int, y: int): int {
    if x < y then y else x
  }

  function MaxReal(x: real, y: real): real {
    if x < y then y else x
  }
}
