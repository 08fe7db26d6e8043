/** The cubic ease-in-out curve that shapes every scroll animation. */
module Easing {

  /** `easeInOutCubic`: the fraction of the distance covered after the fraction `t` of the duration. */
  function EaseInOutCubic(t: real): real
  {
    if t < 0.5 then 4.0 * t * t * t else (t - 1.0) * (2.0 * t - 2.0) * (2.0 * t - 2.0) + 1.0
  }

  /** The two halves of the curve: `4t³` before the midpoint, `4(t−1)³ + 1` from it on. */
  lemma Branches(t: real)
    ensures t < 0.5 ==> EaseInOutCubic(t) == 4.0 * t * t * t
    ensures 0.5 <= t ==> EaseInOutCubic(t) == 4.0 * (t - 1.0) * (t - 1.0) * (t - 1.0) + 1.0
  {
  }

  /** The values the library's own tests pin down. */
  lemma KnownValues()
    ensures EaseInOutCubic(0.0) == 0.0
    ensures EaseInOutCubic(0.25) == 0.0625
    ensures EaseInOutCubic(0.5) == 0.5
    ensures EaseInOutCubic(0.75) == 0.9375
    ensures EaseInOutCubic(1.0) == 1.0
  {
  }

  /** Cubing preserves order. */
  lemma CubeMonotone(a: real, b: real)
    requires a <= b
    ensures a * a * a <= b * b * b
  {
    var d := b - a;
    // b³ − a³ = (b − a)(a² + ab + b²) and a² + ab + b² = (a + b/2)² + 3b²/4 >= 0
    var s := a * a + a * b + b * b;
    assert s == (a + b / 2.0) * (a + b / 2.0) + 3.0 * b * b / 4.0;
    assert (a + b / 2.0) * (a + b / 2.0) >= 0.0;
    assert b * b >= 0.0;
    assert s >= 0.0;
    assert b * b * b - a * a * a == d * s;
    assert d * s >= 0.0;
  }

  /** The curve never runs backwards: later moments are never closer to the start. */
  lemma Monotone(s: real, t: real)
    requires s <= t
    ensures EaseInOutCubic(s) <= EaseInOutCubic(t)
  {
    Branches(s);
    Branches(t);
    if t < 0.5 {
      CubeMonotone(s, t);
    } else if 0.5 <= s {
      CubeMonotone(s - 1.0, t - 1.0);
    } else {
      CubeMonotone(s, 0.5);
      CubeMonotone(-0.5, t - 1.0);
    }
  }

  /** On the animation's time range the curve stays between no progress and full progress. */
  lemma Range(t: real)
    requires 0.0 <= t <= 1.0
    ensures 0.0 <= EaseInOutCubic(t) <= 1.0
  {
    Monotone(0.0, t);
    Monotone(t, 1.0);
  }

  /** Odd symmetry about the midpoint: easing in mirrors easing out. */
  lemma Symmetric(t: real)
    ensures EaseInOutCubic(1.0 - t) == 1.0 - EaseInOutCubic(t)
  {
  }
}
