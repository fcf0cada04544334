/** Small value helpers shared by every part of the engine model. */
module Common {

  /** A value that may be absent: JavaScript's `null` / `undefined`. */
  datatype Option<+T> = None | Some(value: T)

  function Abs(x: real): real {
    if x < 0.0 then -x else x
  }

  /** `Math.max` on two finite numbers. */
  function Max(a: real, b: real): real {
    if a < b then b else a
  }

  /** `Math.min` on two finite numbers. */
  function Min(a: real, b: real): real {
    if a < b then a else b
  }

  function MaxInt(a: int, b: int): int {
    if a < b then b else a
  }
}
