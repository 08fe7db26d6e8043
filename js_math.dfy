/** The two `Math` operations the library uses, over exact integers and reals. */
module JsMath {

  /** `Math.round`: the nearest integer, with halves rounded toward +infinity. */
  function Round(x: real): (n: int)
    ensures n as real - 0.5 <= x < n as real + 0.5
  {
    (x + 0.5).Floor
  }

  /** `Math.min` of two integers. */
  function Min(a: int, b: int): (m: int)
    ensures m <= a && m <= b
    ensures m == a || m == b
  {
    if a <= b then a else b
  }

  /** Rounding leaves an integer where it is. */
  lemma RoundInt(n: int)
    ensures Round(n as real) == n
  {
  }

  /** Rounding never reverses the order of two reals. */
  lemma RoundMonotone(x: real, y: real)
    requires x <= y
    ensures Round(x) <= Round(y)
  {
  }

  /** A real between two integers rounds to an integer between them. */
  lemma RoundBetween(lo: int, hi: int, x: real)
    requires lo as real <= x <= hi as real
    ensures lo <= Round(x) <= hi
  {
  }
}
