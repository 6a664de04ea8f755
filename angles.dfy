/** Angle constants of the renderer, the math-library functions it calls, and
    the single wrap that keeps a heading or a ray angle in [0, TAU). */
module Angles {

  // Truncated decimal constants exactly as the renderer defines them.
  const PI: real := 3.1415926535
  const PI2: real := 1.5707963267   // PI / 2
  const PI3: real := 4.7123889803   // 3 PI / 2
  const TAU: real := 6.2831853071

  /** Field of view in radians. */
  const FOV: real := 1.3962634016

  /** The C library's tan, cos and sin, left uninterpreted: any three total functions. */
  datatype Trig = Trig(tan: real -> real, cos: real -> real, sin: real -> real)

  /** The ray caster divides by tan(angle) when the ray angle is positive and
      not PI; the model requires that quotient to be a real number at that angle. */
  ghost predicate CotDefinedAt(trig: Trig, angle: real)
  {
    0.0 < angle && angle != PI ==> trig.tan(angle) != 0.0
  }

  /** Adds or subtracts one full turn at most, never a general modulo. */
  function Wrap(a: real): (r: real)
    ensures r == a || r == a + TAU || r == a - TAU
    ensures -TAU <= a < 2.0 * TAU ==> 0.0 <= r < TAU
    ensures 0.0 <= a < TAU ==> r == a
  {
    if a < 0.0 then a + TAU
    else if a >= TAU then a - TAU
    else a
  }

  /** Wrapping after every increment gives the same angle as adding all the
      increments first and wrapping once, as long as the total stays within one
      turn either side of [0, TAU). */
  lemma WrapAdvance(v: real, inc: real)
    requires -TAU <= v && v + inc < 2.0 * TAU
    requires 0.0 <= inc < TAU
    ensures Wrap(Wrap(v) + inc) == Wrap(v + inc)
    ensures 0.0 <= Wrap(v + inc) < TAU
  {
  }
}
