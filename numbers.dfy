/** Rounding to two decimal places, as numpy's `round(2)` does it
    (round half to even), on exact reals. */
module Numbers {

  /** `x` is a whole number of hundredths. */
  predicate IsCents(x: real) { (x * 100.0).Floor as real == x * 100.0 }

  /** `round(x, 2)`: the nearest multiple of 0.01; a tie goes to the even
      number of hundredths. */
  function Round2(x: real): (y: real)
    ensures IsCents(y)
    ensures x - 0.005 <= y <= x + 0.005
  {
    var scaled := x * 100.0;
    var whole := scaled.Floor;
    var frac := scaled - whole as real;
    var n := if frac < 0.5 then whole
             else if frac > 0.5 then whole + 1
             else if whole % 2 == 0 then whole else whole + 1;
    Cents(n, x);
    n as real / 100.0
  }

  /** The largest multiple of 0.01 that is not above `x`. */
  function FloorCents(x: real): (y: real)
    ensures IsCents(y)
    ensures y <= x < y + 0.01
  {
    var n := (x * 100.0).Floor;
    Cents(n, x);
    n as real / 100.0
  }

  /** The smallest multiple of 0.01 that is not below `x`. */
  function CeilCents(x: real): (y: real)
    ensures IsCents(y)
    ensures y - 0.01 < x <= y
  {
    var n := -((-x * 100.0).Floor);
    Cents(n, x);
    n as real / 100.0
  }

  /** `n` hundredths are a whole number of hundredths, and they lie as far from
      `x` as `n` lies from `x * 100`, scaled down a hundredfold. */
  lemma Cents(n: int, x: real)
    ensures IsCents(n as real / 100.0)
    ensures n as real / 100.0 - x == (n as real - x * 100.0) / 100.0
  {
    assert (n as real / 100.0) * 100.0 == n as real;
  }

  /** A value already in hundredths is left as it is by rounding. */
  lemma Round2OfCents(x: real)
    requires IsCents(x)
    ensures Round2(x) == x
  {
    var scaled := x * 100.0;
    assert scaled - scaled.Floor as real == 0.0;
  }
}
