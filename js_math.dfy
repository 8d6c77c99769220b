/** The two pieces of the JavaScript `Math` object that the sketches rely on
    exactly, stated over real numbers. */
module JsMath {

  /** `Math.PI`: the double closest to pi, taken here as an exact real. */
  const Pi: real := 3.141592653589793

  /** `Math.round`: the integer nearest to `x`, halves rounding up
      (that is, floor(x + 0.5)). */
  function Round(x: real): (n: int)
    ensures -0.5 <= x - n as real < 0.5
  {
    (x + 0.5).Floor
  }
}
