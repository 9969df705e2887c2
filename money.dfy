/** PHP's `round($x, 2)` on exact decimals: the nearest multiple of 0.01,
    halves rounded away from zero. */
module Money {

  /** True when `x` is a whole number of cents. */
  predicate IsCents(x: real) {
    (x * 100.0).Floor as real == x * 100.0
  }

  function Round2(x: real): (r: real)
    ensures IsCents(r)
    ensures x >= 0.0 ==> r >= 0.0
    ensures x <= 0.0 ==> r <= 0.0
    ensures -0.005 <= r - x <= 0.005
    ensures x >= 0.0 ==> -0.005 < r - x
    ensures x < 0.0 ==> r - x < 0.005
  {
    if x >= 0.0 then
      var n := (x * 100.0 + 0.5).Floor;
      WholeCents(n);
      n as real / 100.0
    else
      var n := (-x * 100.0 + 0.5).Floor;
      WholeCents(-n);
      -(n as real / 100.0)
  }

  /** `n` hundredths make a whole number of cents. */
  lemma WholeCents(n: int)
    ensures IsCents(n as real / 100.0)
    ensures -(-n as real / 100.0) == n as real / 100.0
  {
    assert n as real / 100.0 * 100.0 == n as real;
  }

  /** Two whole numbers of cents less than a cent apart are equal. */
  lemma CentsAreClose(a: real, b: real)
    requires IsCents(a) && IsCents(b)
    requires -0.01 < a - b < 0.01
    ensures a == b
  {
    var m, n := (a * 100.0).Floor, (b * 100.0).Floor;
    assert a * 100.0 - b * 100.0 == (m - n) as real;
    assert -1.0 < (m - n) as real < 1.0;
  }

  /** A whole number of cents is left alone by rounding. */
  lemma CentsAreFixedPoints(x: real)
    requires IsCents(x)
    ensures Round2(x) == x
  {
    var n := (x * 100.0).Floor;
    assert x * 100.0 == n as real;
    if x >= 0.0 {
      assert (x * 100.0 + 0.5).Floor == n;
    } else {
      assert (-x * 100.0 + 0.5).Floor == -n;
    }
  }

  /** Rounding twice is rounding once. */
  lemma Round2Idempotent(x: real)
    ensures Round2(Round2(x)) == Round2(x)
  {
    CentsAreFixedPoints(Round2(x));
  }
}
