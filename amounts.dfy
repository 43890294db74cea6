/**
 * Fee amounts: rounding to the denomination grid (`arredondarMulta`),
 * conversion to euro at the fixed rate, and the percentage badges
 * (`calcularPercentual`).
 */
module Amounts {

  /** Brazilian reais (BRL) to euro: the ratio of two reference amounts of the market table. */
  const BrlToEur: real := 96049800.0 / 576298800.0

  /** The ratio is exactly one sixth. */
  lemma RateIsOneSixth()
    ensures BrlToEur == 1.0 / 6.0
  {
  }

  /** `Math.round`: the nearest whole number, halves rounded towards +infinity. */
  function RoundHalfUp(x: real): (r: int)
    ensures (r as real) - 0.5 <= x < (r as real) + 0.5
  {
    (x + 0.5).Floor
  }

  /** Grid of a fee: 100 000 from 1 000 000 upwards, 1 000 below. */
  function GridStep(x: real): (step: int)
    ensures step == 100000 || step == 1000
    ensures step == 100000 <==> x >= 1000000.0
  {
    if x >= 1000000.0 then 100000 else 1000
  }

  /** `arredondarMulta`: `x` rounded to the nearest multiple of its grid step. */
  function RoundFee(x: real): (r: int)
    ensures r % GridStep(x) == 0
    ensures x >= 0.0 ==> r >= 0
  {
    if x >= 1000000.0 then RoundHalfUp(x / 100000.0) * 100000
    else RoundHalfUp(x / 1000.0) * 1000
  }

  /**
   * A rounded fee is a multiple of the grid step and lies within half a
   * step of `x`; an exact half goes upwards.
   */
  lemma RoundFeeOnGrid(x: real)
    ensures RoundFee(x) % GridStep(x) == 0
    ensures (RoundFee(x) as real) - (GridStep(x) as real) / 2.0 <= x < (RoundFee(x) as real) + (GridStep(x) as real) / 2.0
  {
    if x >= 1000000.0 {
      var k := RoundHalfUp(x / 100000.0);
      assert (k as real) - 0.5 <= x / 100000.0 < (k as real) + 0.5;
    } else {
      var k := RoundHalfUp(x / 1000.0);
      assert (k as real) - 0.5 <= x / 1000.0 < (k as real) + 0.5;
    }
  }

  lemma {:induction false} RoundHalfUpOfWhole(n: int)
    ensures RoundHalfUp(n as real) == n
  {
  }

  /** Rounding an already rounded fee changes nothing. */
  lemma {:induction false} RoundFeeIdempotent(x: real)
    ensures RoundFee(RoundFee(x) as real) == RoundFee(x)
  {
    var r := RoundFee(x);
    if x >= 1000000.0 {
      var k := RoundHalfUp(x / 100000.0);
      assert r == k * 100000;
      assert k >= 10;
      assert (r as real) / 100000.0 == k as real;
      RoundHalfUpOfWhole(k);
    } else {
      var k := RoundHalfUp(x / 1000.0);
      assert r == k * 1000;
      assert k <= 1000;
      if r >= 1000000 {
        assert k == 1000 && r == 1000000;
        assert (r as real) / 100000.0 == 10.0;
        RoundHalfUpOfWhole(10);
      } else {
        assert (r as real) / 1000.0 == k as real;
        RoundHalfUpOfWhole(k);
      }
    }
  }

  /** A larger amount never rounds to a smaller fee. */
  lemma {:induction false} RoundFeeMonotonic(x: real, y: real)
    requires x <= y
    ensures RoundFee(x) <= RoundFee(y)
  {
    RoundFeeOnGrid(x);
    RoundFeeOnGrid(y);
    if x >= 1000000.0 || y < 1000000.0 {
      var s := GridStep(x);
      assert GridStep(y) == s;
      assert x / s as real <= y / s as real;
    } else {
      assert RoundFee(x) <= 1000000;
      assert RoundFee(y) >= 1000000;
    }
  }

  /** A rounded fee in euro: converted at the fixed rate and rounded again on its own grid. */
  function ConvertFee(fee: int): (r: int)
    ensures r % GridStep(fee as real / 6.0) == 0
    ensures fee >= 0 ==> r >= 0
  {
    assert fee as real * BrlToEur == fee as real / 6.0;
    RoundFee(fee as real * BrlToEur)
  }

  /** The euro fee lies on its grid within half a step of a sixth of the fee. */
  lemma ConvertFeeOnGrid(fee: int)
    ensures var eur := fee as real / 6.0;
      && ConvertFee(fee) % GridStep(eur) == 0
      && (ConvertFee(fee) as real) - (GridStep(eur) as real) / 2.0 <= eur < (ConvertFee(fee) as real) + (GridStep(eur) as real) / 2.0
  {
    assert fee as real * BrlToEur == fee as real / 6.0;
    RoundFeeOnGrid(fee as real / 6.0);
  }

  /**
   * `calcularPercentual`: how far `offered` lies above or below `base`, in
   * percent of `base`; 0 against a zero base.
   */
  function Percent(offered: real, base: real): (r: real)
    ensures base == 0.0 ==> r == 0.0
    ensures base != 0.0 ==> offered == base + base * r / 100.0
    ensures base > 0.0 ==> (r > 0.0 <==> offered > base) && (r < 0.0 <==> offered < base)
  {
    if base == 0.0 then 0.0 else ((offered - base) / base) * 100.0
  }
}
