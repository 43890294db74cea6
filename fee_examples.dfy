/**
 * Two worked cases of `calcularMulta` with the standard profile, the
 * default years, base multiplier, satisfaction and divisor, no influences,
 * a market value of 10 000 000 and a salary baseline of 100 000 a month
 * with a yearly bonus of 200 000.
 */
module FeeExamples {
  import opened Wrappers
  import opened ReferenceData
  import opened Amounts
  import opened FeeEngine
  import opened FeeProperties

  const Market: seq<MarketRecord> := [MarketRecord("ATA", 25, 80, 10000000.0)]
  const Salaries: seq<SalaryRecord> := [SalaryRecord(80, 100000.0, 200000.0)]

  function Offer(monthly: real): FeeInput {
    FeeInput("ATA", 25, 80, None, None, monthly, 200000.0, None, None, None)
  }

  lemma Lookups(monthly: real)
    ensures Admissible(Offer(monthly), Market, Salaries)
    ensures FindMarketValue(Market, "ATA", 25, 80) == Some(10000000.0)
    ensures FindSalaryBaseline(Salaries, 80) == Some(SalaryBaseline(100000.0, 200000.0))
    ensures Evaluate(Offer(monthly), Market, Salaries, []).Success?
  {
    assert SameKey("ATA", 25, 80)(Market[0]);
    assert ExactOverall(80)(Salaries[0]);
  }

  /**
   * Offering 110 000 a month is a surplus: the maximum multiplier is 1.15
   * and the suggested one 1.06, so the fees are 11 500 000 and 10 600 000,
   * or 1 900 000 and 1 800 000 euro.
   */
  lemma SurplusExample()
    ensures var out := Evaluate(Offer(110000.0), Market, Salaries, []);
      && out.Success?
      && out.value.regime == Surplus
      && out.value.multipliers.maximum == 1.15 && out.value.multipliers.suggested == 1.06
      && out.value.maximumFee == 11500000 && out.value.suggestedFee == 10600000
      && out.value.maximumFeeEur == 1900000 && out.value.suggestedFeeEur == 1800000
  {
    var input := Offer(110000.0);
    Lookups(110000.0);
    var b, value := Found(input, Market, Salaries, []);
    PartsOf(input, b, value, []);
    FeesOf(input, b, value, []);
    var r := Appraise(input, b, value, []);
    assert r.vtcBase == 1400000.0 && r.vtcOffered == 1520000.0;
    assert r.deltaGlobal > 0.0;
    assert r.epsilon == 0.0;
    assert r.multipliers == SurplusMultipliers(1.1, 0.0, 0.1, 0.0, 0.0, Standard);
    assert Scaled(value, r.multipliers.maximum) == 11500000.0;
    assert Scaled(value, r.multipliers.suggested) == 10600000.0;
    assert RoundHalfUp(11500000.0 / 100000.0) == 115;
    assert RoundHalfUp(10600000.0 / 100000.0) == 106;
    assert RoundHalfUp(11500000.0 * BrlToEur / 100000.0) == 19;
    assert RoundHalfUp(10600000.0 * BrlToEur / 100000.0) == 18;
  }

  /**
   * Offering 50 000 a month is a deficit of three sevenths: the maximum
   * multiplier is 4/7 and the suggested one 5/14, so the fees are 5 700 000
   * and 3 600 000, or 950 000 and 600 000 euro.
   */
  lemma DeficitExample()
    ensures var out := Evaluate(Offer(50000.0), Market, Salaries, []);
      && out.Success?
      && out.value.regime == Deficit
      && out.value.deltaGlobal == -3.0 / 7.0
      && out.value.multipliers.maximum == 4.0 / 7.0 && out.value.multipliers.suggested == 5.0 / 14.0
      && out.value.maximumFee == 5700000 && out.value.suggestedFee == 3600000
      && out.value.maximumFeeEur == 950000 && out.value.suggestedFeeEur == 600000
  {
    var input := Offer(50000.0);
    Lookups(50000.0);
    var b, value := Found(input, Market, Salaries, []);
    PartsOf(input, b, value, []);
    FeesOf(input, b, value, []);
    var r := Appraise(input, b, value, []);
    assert r.vtcBase == 1400000.0 && r.vtcOffered == 800000.0;
    assert r.deltaGlobal == -3.0 / 7.0;
    assert r.epsilon == 0.0;
    assert r.multipliers == DeficitMultipliers(-3.0 / 7.0, 0.0, 0.0, Standard);
    assert r.multipliers.maximum == 4.0 / 7.0 && r.multipliers.suggested == 5.0 / 14.0;
    assert Scaled(value, 4.0 / 7.0) == 40000000.0 / 7.0;
    assert Scaled(value, 5.0 / 14.0) == 50000000.0 / 14.0;
    assert RoundHalfUp(40000000.0 / 7.0 / 100000.0) == 57;
    assert RoundHalfUp(50000000.0 / 14.0 / 100000.0) == 36;
    assert RoundHalfUp(5700000.0 * BrlToEur / 1000.0) == 950;
    assert RoundHalfUp(3600000.0 * BrlToEur / 1000.0) == 600;
  }
}
