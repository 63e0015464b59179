/** Optional values and the smaller and larger of two numbers. */
module Basics {

  datatype Option<+T> = None | Some(value: T)

  function Max(a: int, b: int): (r: int) { if a >= b then a else b }

  function Min(a: int, b: int): (r: int) { if a <= b then a else b }

  function MaxReal(a: real, b: real): (r: real) { if a >= b then a else b }

  function MinReal(a: real, b: real): (r: real) { if a <= b then a else b }
}
