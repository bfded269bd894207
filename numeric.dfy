/**
 * JavaScript's rounding helpers, specified over exact reals:
 * `Math.round`, `Math.floor` and `Number(x.toFixed(2))`.
 */
module Numeric {
  /** `Math.floor(x)`. */
  function Floor(x: real): (r: int)
    ensures r as real <= x < r as real + 1.0
  {
    x.Floor
  }

  /** `Math.round(x)`: the nearest integer, halves rounded towards +infinity. */
  function MathRound(x: real): (r: int)
    ensures x - 0.5 < r as real <= x + 0.5
  {
    (x + 0.5).Floor
  }

  /** `x` is a whole number of hundredths. */
  predicate IsCents(x: real)
  {
    (x * 100.0).Floor as real == x * 100.0
  }

  /** Magnitude from which `toFixed` gives back the number's own text. */
  const FixedLimit: real := 1000000000000000000000.0

  /** A non-negative number rounded to the nearest hundredth, a tie going up. */
  function RoundCents(y: real): (r: real)
    requires y >= 0.0
    ensures IsCents(r) && 0.0 <= r && -0.005 <= r - y <= 0.005
  {
    var n := (y * 100.0 + 0.5).Floor;
    var r := n as real / 100.0;
    assert r * 100.0 == n as real;
    r
  }

  lemma CentsNegate(m: real)
    requires IsCents(m)
    ensures IsCents(-m)
  {
    var n := (m * 100.0).Floor;
    assert (-m) * 100.0 == (-n) as real;
  }

  /**
   * `Number(x.toFixed(2))`: the nearest whole number of hundredths, a tie going
   * away from zero; numbers of magnitude 1e21 or more come back unchanged.
   */
  function ToFixed2(x: real): (r: real)
    ensures (x >= FixedLimit || x <= -FixedLimit) ==> r == x
    ensures -FixedLimit < x < FixedLimit ==> IsCents(r) && -0.005 <= r - x <= 0.005
    ensures 0.0 <= x ==> 0.0 <= r
    ensures x <= 0.0 ==> r <= 0.0
  {
    if x >= FixedLimit || x <= -FixedLimit then x
    else if x >= 0.0 then RoundCents(x)
    else
      var m := RoundCents(-x);
      CentsNegate(m);
      -m
  }

  /** A number already in hundredths is left as it is. */
  lemma {:induction false} ToFixed2OfCents(x: real)
    requires IsCents(x)
    ensures ToFixed2(x) == x
  {
    if -FixedLimit < x < FixedLimit {
      var n := (x * 100.0).Floor;
      assert n as real == x * 100.0;
      if x >= 0.0 {
        assert (x * 100.0 + 0.5).Floor == n;
        assert n as real / 100.0 == x;
      } else {
        assert (-x) * 100.0 == -(n as real);
        assert ((-x) * 100.0 + 0.5).Floor == -n;
        assert (-n) as real / 100.0 == -x;
      }
    }
  }

  /** Rounding to hundredths twice is rounding once. */
  lemma ToFixed2Idempotent(x: real)
    ensures ToFixed2(ToFixed2(x)) == ToFixed2(x)
  {
    if -FixedLimit < x < FixedLimit {
      ToFixed2OfCents(ToFixed2(x));
    }
  }
}
