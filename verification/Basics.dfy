/** Small value types shared by the other modules. */
module Basics {
  datatype Option<+T> = None | Some(value: T)

  function Max(x: int, y: int): int {
    if x > y then x else y
  }

  function Min(x: int, y: int): int {
    if x < y then x else y
  }
}
