/** Small shared vocabulary: an optional value and the real-number helpers
    (`min`, `max`, `abs`) that the trading code uses on prices and amounts. */
module Basics {

  datatype Option<+T> = None | Some(value: T) {
    function GetOr(default: T): T {
      match this
      case Some(v) => v
      case None => default
    }
  }

  /** A dictionary entry: the key is absent, holds `None`, or holds a value. */
  datatype Entry<+T> = Missing | Null | Present(value: T)

  function MinReal(a: real, b: real): (r: real)
    ensures r <= a && r <= b && (r == a || r == b)
  {
    if a <= b then a else b
  }

  function MaxReal(a: real, b: real): (r: real)
    ensures r >= a && r >= b && (r == a || r == b)
  {
    if a >= b then a else b
  }

  function MaxInt(a: int, b: int): (r: int)
    ensures r >= a && r >= b && (r == a || r == b)
  {
    if a >= b then a else b
  }

  function AbsReal(x: real): (r: real)
    ensures r >= 0.0 && (r == x || r == -x)
  {
    if x < 0.0 then -x else x
  }

  /** `x / n` for a positive count. */
  function PerItem(x: real, n: nat): (r: real)
    requires n > 0
    ensures r * (n as real) == x
  {
    x / (n as real)
  }

  /** `(part / n) * 100` for a part of a positive count. */
  function Percent(part: nat, n: nat): (r: real)
    requires 0 < n && part <= n
    ensures r * (n as real) == (part as real) * 100.0
    ensures 0.0 <= r <= 100.0
  {
    var q := (part as real) / (n as real);
    assert 0.0 <= q <= 1.0;
    q * 100.0
  }

  /** Multiplying by a non-negative factor keeps an order. */
  lemma MulLeRight(a: real, b: real, c: real)
    requires a <= b && c >= 0.0
    ensures a * c <= b * c
  {
  }

  /** Dividing by a positive divisor keeps an order. */
  lemma DivLeRight(a: real, b: real, d: real)
    requires a <= b && d > 0.0
    ensures a / d <= b / d
  {
  }
}
