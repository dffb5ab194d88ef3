/** Small shared definitions: an optional value and integer min/max. */
module Util {

  /** Stands for a JavaScript value that may be `null`. */
  datatype Option<T> = None | Some(value: T)

  function Min(a: int, b: int): int { if a <= b then a else b }

  function Max(a: int, b: int): int { if a >= b then a else b }
}
