/**
 * Exact stand-ins for the JavaScript numeric helpers the economy uses:
 * `Math.ceil`, `Math.pow` with a natural exponent, and the
 * `Math.floor(Math.random() * n)` idiom that picks an index.
 * All arithmetic is on mathematical reals; IEEE-754 rounding is not modelled.
 */
module Numbers {

  /** `Math.ceil(x)`: the least integer that is not below `x`. */
  function Ceil(x: real): (r: int)
    ensures x <= r as real < x + 1.0
  {
    -((-x).Floor)
  }

  /** `Math.pow(b, n)` for a natural exponent. */
  function Pow(b: real, n: nat): (r: real)
    ensures b > 0.0 ==> r > 0.0
    ensures b >= 1.0 ==> r >= 1.0
  {
    if n == 0 then 1.0
    else
      var p := Pow(b, n - 1);
      assert b >= 1.0 ==> b * p >= p by {
        if b >= 1.0 { assert b * p - p == (b - 1.0) * p; }
      }
      b * p
  }

  /**
   * `Math.floor(Math.random() * n)` where `roll` is the value
   * `Math.random()` returned: always a valid index of an `n`-element list.
   */
  function RollIndex(roll: real, n: nat): (k: nat)
    requires 0.0 <= roll < 1.0 && n > 0
    ensures k < n
    ensures k as real <= roll * n as real < k as real + 1.0
  {
    var x := roll * n as real;
    assert 0.0 <= x < n as real by {
      assert n as real - x == (1.0 - roll) * n as real;
    }
    x.Floor
  }
}
