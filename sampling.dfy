/**
 * Random draws. Every `Math.random()` call of the components becomes a parameter of
 * type `Unit`: a real in [0, 1), as the host promises. Their distribution is not modelled.
 */
module Sampling {

  /** A result of `Math.random()`. */
  type Unit = r: real | 0.0 <= r < 1.0

  /**
   * `Math.floor(Math.random() * n)`: a uniform index into something of size `n`.
   * When `n` is 0 the product is 0 and so is its floor.
   */
  function Scaled(r: Unit, n: nat): (k: nat)
    ensures n > 0 ==> k < n
    ensures n == 0 ==> k == 0
    ensures k as real <= r * n as real < k as real + 1.0
  {
    assert 0.0 <= r * n as real <= n as real;
    (r * n as real).Floor
  }
}
