/** Small value types shared by every part of the model. */
module Base {

  /** A value that may be absent: the model's rendering of TypeScript's `T | null`. */
  datatype Option<T> = None | Some(value: T)

  /** A 2-D vector, matter-js's `Vector` (`{ x, y }`), over exact reals. */
  datatype Vector = Vector(x: real, y: real)

  function Add(a: Vector, b: Vector): Vector
  {
    Vector(a.x + b.x, a.y + b.y)
  }

  /** JavaScript's `Math.max` on two numbers (no NaN). */
  function Max(a: real, b: real): (m: real)
    ensures m >= a && m >= b
    ensures m == a || m == b
  {
    if a >= b then a else b
  }
}
