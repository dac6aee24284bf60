/**
 * What every module shares: an optional value, and the usual integer functions.
 */
module Basics {
  datatype Option<T> = None | Some(value: T)

  function Abs(x: int): int { if x < 0 then -x else x }
  function Min(a: int, b: int): int { if a < b then a else b }
  function Max(a: int, b: int): int { if a < b then b else a }
}
