/** Kotlin's `Double.roundToInt()` and the rounding to two decimals that
    `Persona.calcularImc` builds on it, over `real` instead of IEEE doubles. */
module Redondeo {

  const INT_MIN: int := -0x8000_0000
  const INT_MAX: int := 0x7FFF_FFFF

  /** 100 * r is a whole number: r has at most two decimals. */
  predicate EsCentesimo(r: real)
  {
    (r * 100.0).Floor as real == r * 100.0
  }

  /** `roundToInt`: values beyond the range of a 32-bit `Int` saturate to its
      bounds; otherwise the nearest integer, ties going towards +infinity
      (`floor(x + 0.5)`). */
  function RedondearAEntero(x: real): (n: int)
    ensures INT_MIN <= n <= INT_MAX
    ensures INT_MIN as real <= x <= INT_MAX as real ==> x - 0.5 < n as real <= x + 0.5
    ensures x > INT_MAX as real ==> n == INT_MAX
    ensures x < INT_MIN as real ==> n == INT_MIN
  {
    if x > INT_MAX as real then INT_MAX
    else if x < INT_MIN as real then INT_MIN
    else (x + 0.5).Floor
  }

  /** The integer closest to x, ties upward, is unique: any n within
      (x - 1/2, x + 1/2] is the one `roundToInt` returns. */
  lemma RedondeoUnico(x: real, n: int)
    requires INT_MIN as real <= x <= INT_MAX as real
    requires x - 0.5 < n as real <= x + 0.5
    ensures RedondearAEntero(x) == n
  {
  }

  /** `(x * 100.0).roundToInt() / 100.0`. */
  function RedondearDosDecimales(x: real): (r: real)
    ensures EsCentesimo(r)
    ensures INT_MIN as real <= x * 100.0 <= INT_MAX as real ==> x - 0.005 < r <= x + 0.005
    ensures x >= 0.0 ==> r >= 0.0
  {
    var n := RedondearAEntero(x * 100.0);
    var r := n as real / 100.0;
    assert r * 100.0 == n as real;
    assert (n as real).Floor == n;
    r
  }

  /** Rounding to two decimals leaves a value that already has two decimals
      as it is (so it is idempotent). */
  lemma DosDecimalesFijaCentesimos(r: real)
    requires EsCentesimo(r)
    requires INT_MIN as real <= r * 100.0 <= INT_MAX as real
    ensures RedondearDosDecimales(r) == r
  {
    RedondeoUnico(r * 100.0, (r * 100.0).Floor);
  }

  /** Rounding to two decimals is monotone. */
  lemma DosDecimalesMonotono(x: real, y: real)
    requires x <= y
    ensures RedondearDosDecimales(x) <= RedondearDosDecimales(y)
  {
    var a, b := x * 100.0, y * 100.0;
    assert a <= b;
    if INT_MIN as real <= a && b <= INT_MAX as real {
      assert (a + 0.5).Floor <= (b + 0.5).Floor;
    }
  }
}
