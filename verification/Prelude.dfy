/** Shared small datatypes and real arithmetic. */
module Prelude {
  datatype Option<+T> = None | Some(value: T)

  /** The tolerance the source allows on quantities (1e-10). */
  const TOLERANCE: real := 0.0000000001

  function Min(a: real, b: real): real {
    if a <= b then a else b
  }

  function Max(a: real, b: real): real {
    if a >= b then a else b
  }

  function Abs(a: real): real {
    if a >= 0.0 then a else -a
  }
}
