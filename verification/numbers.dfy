/** Small helpers shared by the model: JavaScript's Math.max / Math.min on
    numbers (modelled as reals) and an optional value for TypeScript's `?:`
    properties. */
module Numbers {

  /** Math.max of two numbers. */
  function Max(a: real, b: real): (r: real)
    ensures r >= a && r >= b
    ensures r == a || r == b
  {
    if a >= b then a else b
  }

  /** Math.min of two numbers. */
  function Min(a: real, b: real): (r: real)
    ensures r <= a && r <= b
    ensures r == a || r == b
  {
    if a <= b then a else b
  }

  function Abs(x: real): (r: real)
    ensures r >= 0.0
    ensures r == x || r == -x
  {
    if x >= 0.0 then x else -x
  }
}

module Optional {

  /** A TypeScript optional property: absent (`undefined`) or present. */
  datatype Option<T> = None | Some(value: T) {

    /** The `x ?? d` default, which is also `x || d` when every present value
        is truthy or the only falsy one equals the default. */
    function GetOr(default: T): T
    {
      match this
      case Some(v) => v
      case None => default
    }
  }
}
