/**
 * What `calcularMulta` promises about its result: the order of its checks,
 * the meaning of the relative difference and of the regime, the shape of the
 * multipliers in each regime, how the fees follow from them, and how the
 * result reacts to the offer and to the influences.
 */
module FeeProperties {
  import opened Wrappers
  import opened ReferenceData
  import opened Influences
  import opened Amounts
  import opened FeeEngine

  /** A successful result is the appraisal of the market value and the salary baseline that were found. */
  lemma Found(input: FeeInput, marketDb: seq<MarketRecord>, salaryDb: seq<SalaryRecord>, influences: seq<Influence>)
    returns (b: SalaryBaseline, value: real)
    requires Admissible(input, marketDb, salaryDb)
    requires Evaluate(input, marketDb, salaryDb, influences).Success?
    ensures FindMarketValue(marketDb, input.position, input.age, input.overall) == Some(value) && value != 0.0
    ensures FindSalaryBaseline(salaryDb, input.overall) == Some(b)
    ensures VtcBase(b, YearsOf(input)) > 0.0
    ensures Evaluate(input, marketDb, salaryDb, influences).value == Appraise(input, b, value, influences)
  {
    value := FindMarketValue(marketDb, input.position, input.age, input.overall).value;
    b := FindSalaryBaseline(salaryDb, input.overall).value;
    VtcBasePositive(input, marketDb, salaryDb);
  }

  /** The parts of an assessment, one by one. */
  lemma AssessParts(input: FeeInput, b: SalaryBaseline, influences: seq<Influence>)
    requires input.divisor.Some? ==> input.divisor.value != 0.0
    requires VtcBase(b, YearsOf(input)) > 0.0
    ensures var t := Assess(input, b, influences);
      var years := YearsOf(input);
      && t.0 == VtcBase(b, years)
      && t.1 == VtcOffered(input, years)
      && t.2 == RelativeDifference(t.1, t.0)
      && t.3 == Epsilon(influences, t.2 < 0.0)
      && t.4 == MultipliersFor(t.2, input.kBase.GetOr(DefaultKBase), SatisfactionTerm(input), t.3,
           ProfileOf(input.profileKey.GetOr(DefaultProfileKey)), b, input.offeredSalary, input.offeredBonus, years)
  {
  }

  /** The fees of a realisation follow its multipliers. */
  lemma RealiseParts(vtcBase: real, vtcOffered: real, delta: real, eps: real, m: Multipliers, value: real)
    ensures var r := Realise(vtcBase, vtcOffered, delta, eps, m, value);
      && r.regime == RegimeOf(delta) && r.vtcBase == vtcBase && r.vtcOffered == vtcOffered
      && r.deltaGlobal == delta && r.epsilon == eps && r.multipliers == m
      && r.suggestedFee == RoundFee(Scaled(value, m.suggested))
      && r.maximumFee == RoundFee(Scaled(value, m.maximum))
      && r.suggestedFeeEur == ConvertFee(r.suggestedFee)
      && r.maximumFeeEur == ConvertFee(r.maximumFee)
  {
  }

  /** An appraisal is the realisation of the assessment. */
  lemma AppraiseIsRealise(input: FeeInput, b: SalaryBaseline, value: real, influences: seq<Influence>)
    requires input.divisor.Some? ==> input.divisor.value != 0.0
    requires VtcBase(b, YearsOf(input)) > 0.0
    ensures var t := Assess(input, b, influences);
      Appraise(input, b, value, influences) == Realise(t.0, t.1, t.2, t.3, t.4, value)
  {
  }

  /** The totals, the difference and the regime of an appraisal. */
  lemma TotalsOf(input: FeeInput, b: SalaryBaseline, value: real, influences: seq<Influence>)
    requires input.divisor.Some? ==> input.divisor.value != 0.0
    requires VtcBase(b, YearsOf(input)) > 0.0
    ensures var r := Appraise(input, b, value, influences);
      && r.vtcBase == VtcBase(b, YearsOf(input))
      && r.deltaGlobal == RelativeDifference(r.vtcOffered, r.vtcBase)
      && r.regime == RegimeOf(r.deltaGlobal)
  {
    var t := Assess(input, b, influences);
    AppraiseIsRealise(input, b, value, influences);
    RealiseParts(t.0, t.1, t.2, t.3, t.4, value);
  }

  /** The totals, the difference, the regime, the influences and the multipliers of an appraisal. */
  lemma PartsOf(input: FeeInput, b: SalaryBaseline, value: real, influences: seq<Influence>)
    requires input.divisor.Some? ==> input.divisor.value != 0.0
    requires VtcBase(b, YearsOf(input)) > 0.0
    ensures var r := Appraise(input, b, value, influences);
      var years := YearsOf(input);
      && r.vtcBase == VtcBase(b, years)
      && r.vtcOffered == VtcOffered(input, years)
      && r.deltaGlobal == RelativeDifference(r.vtcOffered, r.vtcBase)
      && r.regime == RegimeOf(r.deltaGlobal)
      && r.epsilon == Epsilon(influences, r.deltaGlobal < 0.0)
      && r.multipliers == MultipliersFor(r.deltaGlobal, input.kBase.GetOr(DefaultKBase), SatisfactionTerm(input), r.epsilon,
           ProfileOf(input.profileKey.GetOr(DefaultProfileKey)), b, input.offeredSalary, input.offeredBonus, years)
  {
    var t := Assess(input, b, influences);
    AppraiseIsRealise(input, b, value, influences);
    AssessParts(input, b, influences);
  }

  /** The fees of an appraisal follow its multipliers. */
  lemma FeesOf(input: FeeInput, b: SalaryBaseline, value: real, influences: seq<Influence>)
    requires input.divisor.Some? ==> input.divisor.value != 0.0
    requires VtcBase(b, YearsOf(input)) > 0.0
    ensures var r := Appraise(input, b, value, influences);
      && r.suggestedFee == RoundFee(Scaled(value, r.multipliers.suggested))
      && r.maximumFee == RoundFee(Scaled(value, r.multipliers.maximum))
      && r.suggestedFeeEur == ConvertFee(r.suggestedFee)
      && r.maximumFeeEur == ConvertFee(r.maximumFee)
  {
    var t := Assess(input, b, influences);
    AppraiseIsRealise(input, b, value, influences);
    RealiseParts(t.0, t.1, t.2, t.3, t.4, value);
  }

  /**
   * The checks come in a fixed order: missing input first, then the market
   * value (absent or zero), then the salary baseline; only when all three
   * pass is there a result.
   */
  lemma ValidationOrder(input: FeeInput, marketDb: seq<MarketRecord>, salaryDb: seq<SalaryRecord>, influences: seq<Influence>)
    requires Admissible(input, marketDb, salaryDb)
    ensures var out := Evaluate(input, marketDb, salaryDb, influences);
      var value := FindMarketValue(marketDb, input.position, input.age, input.overall);
      var noMarket := forall i :: 0 <= i < |marketDb| ==> !SameKey(input.position, input.age, input.overall)(marketDb[i]);
      var noSalary := forall i :: 0 <= i < |salaryDb| ==> salaryDb[i].overall > input.overall;
      && (out == Failure(IncompleteInput) <==> Incomplete(input))
      && (out == Failure(MarketDataNotFound) <==> !Incomplete(input) && (noMarket || value == Some(0.0)))
      && (out == Failure(SalaryDataNotFound) <==> !Incomplete(input) && !noMarket && value != Some(0.0) && noSalary)
      && (out.Success? <==> !Incomplete(input) && !noMarket && value != Some(0.0) && !noSalary)
  {
  }

  /**
   * On success the base contract value is positive, the relative difference
   * carries the base to the offer, and the regime is the comparison of the
   * offer with the base.
   */
  lemma DeltaMeaning(input: FeeInput, marketDb: seq<MarketRecord>, salaryDb: seq<SalaryRecord>, influences: seq<Influence>)
    requires Admissible(input, marketDb, salaryDb)
    requires Evaluate(input, marketDb, salaryDb, influences).Success?
    ensures var r := Evaluate(input, marketDb, salaryDb, influences).value;
      && r.vtcBase > 0.0
      && Scaled(r.vtcBase, r.deltaGlobal) == r.vtcOffered - r.vtcBase
      && (r.regime == Deficit <==> r.vtcOffered < r.vtcBase)
      && (r.regime == Surplus <==> r.vtcOffered > r.vtcBase)
      && (r.regime == Neutral <==> r.vtcOffered == r.vtcBase)
  {
    var b, value := Found(input, marketDb, salaryDb, influences);
    TotalsOf(input, b, value, influences);
    DivisionMeaning(Evaluate(input, marketDb, salaryDb, influences).value.vtcOffered,
      Evaluate(input, marketDb, salaryDb, influences).value.vtcBase,
      Evaluate(input, marketDb, salaryDb, influences).value.deltaGlobal);
  }

  lemma DivisionMeaning(offered: real, base: real, d: real)
    requires base > 0.0 && d == RelativeDifference(offered, base)
    ensures Scaled(base, d) == offered - base
    ensures d < 0.0 <==> offered < base
    ensures d > 0.0 <==> offered > base
  {
    assert d * base == offered - base;
    if d < 0.0 {
      assert d * base < 0.0;
    } else if d > 0.0 {
      assert d * base > 0.0;
    }
  }

  /**
   * Both fees are the market value times the multiplier, rounded to the
   * nearest grid step, and the euro fees are the rounded fees at one sixth,
   * rounded again on their own grid.
   */
  lemma FeesFollowMultipliers(input: FeeInput, marketDb: seq<MarketRecord>, salaryDb: seq<SalaryRecord>, influences: seq<Influence>)
    requires Admissible(input, marketDb, salaryDb)
    requires Evaluate(input, marketDb, salaryDb, influences).Success?
    ensures var r := Evaluate(input, marketDb, salaryDb, influences).value;
      var value := FindMarketValue(marketDb, input.position, input.age, input.overall).value;
      var sug := Scaled(value, r.multipliers.suggested);
      var max := Scaled(value, r.multipliers.maximum);
      && r.suggestedFee % GridStep(sug) == 0
      && (r.suggestedFee as real) - (GridStep(sug) as real) / 2.0 <= sug < (r.suggestedFee as real) + (GridStep(sug) as real) / 2.0
      && r.maximumFee % GridStep(max) == 0
      && (r.maximumFee as real) - (GridStep(max) as real) / 2.0 <= max < (r.maximumFee as real) + (GridStep(max) as real) / 2.0
      && r.suggestedFeeEur % GridStep(r.suggestedFee as real / 6.0) == 0
      && r.maximumFeeEur % GridStep(r.maximumFee as real / 6.0) == 0
      && ((r.suggestedFeeEur as real) - (GridStep(r.suggestedFee as real / 6.0) as real) / 2.0
          <= r.suggestedFee as real / 6.0 <
          (r.suggestedFeeEur as real) + (GridStep(r.suggestedFee as real / 6.0) as real) / 2.0)
      && ((r.maximumFeeEur as real) - (GridStep(r.maximumFee as real / 6.0) as real) / 2.0
          <= r.maximumFee as real / 6.0 <
          (r.maximumFeeEur as real) + (GridStep(r.maximumFee as real / 6.0) as real) / 2.0)
  {
    var b, value := Found(input, marketDb, salaryDb, influences);
    FeesOf(input, b, value, influences);
    var r := Appraise(input, b, value, influences);
    RoundFeeOnGrid(Scaled(value, r.multipliers.suggested));
    RoundFeeOnGrid(Scaled(value, r.multipliers.maximum));
    ConvertFeeOnGrid(r.suggestedFee);
    ConvertFeeOnGrid(r.maximumFee);
  }

  /**
   * Deficit regime: only the negative influences count; the maximum is the
   * full penalty `1 + delta + epsilon` and the suggested multiplier adds
   * `delta * (1 - k factor)` to it before the floor, which is the same as
   * the breakdown sum with `detalheK` 1 and `detalheSal` `delta * (2 - k
   * factor)`; both are at least 0.1, the suggested one never exceeds the
   * maximum, and there is no bonus term.
   */
  lemma DeficitShape(input: FeeInput, marketDb: seq<MarketRecord>, salaryDb: seq<SalaryRecord>, influences: seq<Influence>)
    requires Admissible(input, marketDb, salaryDb)
    requires Evaluate(input, marketDb, salaryDb, influences).Success?
    requires Evaluate(input, marketDb, salaryDb, influences).value.regime == Deficit
    ensures var r := Evaluate(input, marketDb, salaryDb, influences).value;
      var m := r.multipliers;
      var p := ProfileOf(input.profileKey.GetOr(DefaultProfileKey));
      && r.epsilon == NegativePart(influences) && r.epsilon <= 0.0
      && m.maximum == AtLeastFloor(1.0 + r.deltaGlobal + r.epsilon)
      && m.suggested == AtLeastFloor(1.0 + r.deltaGlobal + r.epsilon + r.deltaGlobal * (1.0 - p.kFactor))
      && m.breakdown == Breakdown(1.0, SatisfactionTerm(input), r.deltaGlobal * (2.0 - p.kFactor), 0.0, r.epsilon)
      && m.suggested == AtLeastFloor(m.breakdown.k + m.breakdown.salary + m.breakdown.influence)
      && 0.1 <= m.suggested <= m.maximum
  {
    DeficitParts(input, marketDb, salaryDb, influences);
    DeficitResult(Evaluate(input, marketDb, salaryDb, influences).value, SatisfactionTerm(input),
      ProfileOf(input.profileKey.GetOr(DefaultProfileKey)), influences);
  }

  /** In a deficit the epsilon and the multipliers of a success are those of the deficit regime. */
  lemma DeficitParts(input: FeeInput, marketDb: seq<MarketRecord>, salaryDb: seq<SalaryRecord>, influences: seq<Influence>)
    requires Admissible(input, marketDb, salaryDb)
    requires Evaluate(input, marketDb, salaryDb, influences).Success?
    requires Evaluate(input, marketDb, salaryDb, influences).value.regime == Deficit
    ensures var r := Evaluate(input, marketDb, salaryDb, influences).value;
      && r.deltaGlobal < 0.0 && r.epsilon == Epsilon(influences, true)
      && r.multipliers == DeficitMultipliers(r.deltaGlobal, SatisfactionTerm(input), r.epsilon,
           ProfileOf(input.profileKey.GetOr(DefaultProfileKey)))
  {
    var b, value := Found(input, marketDb, salaryDb, influences);
    PartsOf(input, b, value, influences);
  }

  /** The deficit shape of any result whose parts are those of the deficit regime. */
  lemma DeficitResult(r: FeeResult, sat: real, p: Profile, influences: seq<Influence>)
    requires r.deltaGlobal < 0.0 && 0.0 <= p.kFactor <= 1.0
    requires r.epsilon == Epsilon(influences, true)
    requires r.multipliers == DeficitMultipliers(r.deltaGlobal, sat, r.epsilon, p)
    ensures var m := r.multipliers;
      && r.epsilon == NegativePart(influences) && r.epsilon <= 0.0
      && m.maximum == AtLeastFloor(1.0 + r.deltaGlobal + r.epsilon)
      && m.suggested == AtLeastFloor(1.0 + r.deltaGlobal + r.epsilon + r.deltaGlobal * (1.0 - p.kFactor))
      && m.breakdown == Breakdown(1.0, sat, r.deltaGlobal * (2.0 - p.kFactor), 0.0, r.epsilon)
      && m.suggested == AtLeastFloor(m.breakdown.k + m.breakdown.salary + m.breakdown.influence)
      && 0.1 <= m.suggested <= m.maximum
  {
    DeficitEpsilonIsNegativePart(influences);
    DeficitEpsilonNonPositive(influences);
    DeficitMultipliersShape(r.deltaGlobal, sat, r.epsilon, p);
  }

  lemma DeficitMultipliersShape(delta: real, sat: real, eps: real, p: Profile)
    requires delta < 0.0 && 0.0 <= p.kFactor <= 1.0
    ensures DeficitMultipliers(delta, sat, eps, p).maximum == AtLeastFloor(1.0 + delta + eps)
    ensures DeficitMultipliers(delta, sat, eps, p).suggested == AtLeastFloor(1.0 + delta + eps + delta * (1.0 - p.kFactor))
    ensures DeficitMultipliers(delta, sat, eps, p).breakdown == Breakdown(1.0, sat, delta * (2.0 - p.kFactor), 0.0, eps)
    ensures var m := DeficitMultipliers(delta, sat, eps, p);
      && m.suggested == AtLeastFloor(m.breakdown.k + m.breakdown.salary + m.breakdown.influence)
      && 0.1 <= m.suggested <= m.maximum
  {
    var maximum := 1.0 + delta + eps;
    NonPositiveProduct(delta, 1.0 - p.kFactor);
    assert maximum + delta * (1.0 - p.kFactor) == 1.0 + delta * (2.0 - p.kFactor) + eps;
  }

  /** A non-positive number times a non-negative one is not positive. */
  lemma NonPositiveProduct(a: real, b: real)
    requires a <= 0.0 && b >= 0.0
    ensures a * b <= 0.0
  {
    assert (-a) * b >= 0.0;
  }

  /**
   * Surplus and neutral regimes: every influence counts, and the maximum
   * multiplier is exactly the sum of the five breakdown terms.
   */
  lemma SurplusShape(input: FeeInput, marketDb: seq<MarketRecord>, salaryDb: seq<SalaryRecord>, influences: seq<Influence>)
    requires Admissible(input, marketDb, salaryDb)
    requires Evaluate(input, marketDb, salaryDb, influences).Success?
    requires Evaluate(input, marketDb, salaryDb, influences).value.regime != Deficit
    ensures var r := Evaluate(input, marketDb, salaryDb, influences).value;
      var d := r.multipliers.breakdown;
      && r.epsilon == SumValues(influences)
      && d.k == input.kBase.GetOr(DefaultKBase)
      && r.multipliers.maximum == d.k + d.satisfaction + d.salary + d.bonus + d.influence
  {
    var b, value := Found(input, marketDb, salaryDb, influences);
    PartsOf(input, b, value, influences);
    SurplusEpsilonIsTotal(influences);
  }

  /**
   * Surplus and neutral regimes, term by term: every influence counts; the
   * multipliers are the surplus multipliers of the asking multiplier, the
   * satisfaction term, the relative salary and bonus differences and that
   * sum, so the suggested one is 1 plus the profile's share of the premium
   * and of each term (SurplusResult writes it out); the breakdown holds the
   * full asking multiplier and the differences at the ceiling weights. A
   * baseline salary, or a baseline bonus over the period, that is not
   * positive contributes nothing.
   */
  lemma SurplusTerms(input: FeeInput, marketDb: seq<MarketRecord>, salaryDb: seq<SalaryRecord>, influences: seq<Influence>)
    requires Admissible(input, marketDb, salaryDb)
    requires Evaluate(input, marketDb, salaryDb, influences).Success?
    requires Evaluate(input, marketDb, salaryDb, influences).value.regime != Deficit
    ensures var r := Evaluate(input, marketDb, salaryDb, influences).value;
      var b := FindSalaryBaseline(salaryDb, input.overall).value;
      var kBase := input.kBase.GetOr(DefaultKBase);
      var p := ProfileOf(input.profileKey.GetOr(DefaultProfileKey));
      var propSal := Proportion(input.offeredSalary, b.salaryBase);
      var propBonus := Proportion(input.offeredBonus, BonusBaseTotal(b, YearsOf(input)));
      && r.epsilon == SumValues(influences)
      && r.multipliers == SurplusMultipliers(kBase, SatisfactionTerm(input), propSal, propBonus, r.epsilon, p)
      && r.multipliers.breakdown
         == Breakdown(kBase, SatisfactionTerm(input), propSal * MaxSalaryWeight, propBonus * MaxBonusWeight, SumValues(influences))
      && (b.salaryBase <= 0.0 ==> r.multipliers.breakdown.salary == 0.0)
      && (BonusBaseTotal(b, YearsOf(input)) <= 0.0 ==> r.multipliers.breakdown.bonus == 0.0)
  {
    var r := Evaluate(input, marketDb, salaryDb, influences).value;
    var b := FindSalaryBaseline(salaryDb, input.overall).value;
    var kBase := input.kBase.GetOr(DefaultKBase);
    var p := ProfileOf(input.profileKey.GetOr(DefaultProfileKey));
    SurplusParts(input, marketDb, salaryDb, influences);
    SurplusResult(r, kBase, SatisfactionTerm(input), p, b, input.offeredSalary, input.offeredBonus, YearsOf(input), influences);
  }

  /** Outside a deficit the epsilon and the multipliers of a success are those of the surplus regime. */
  lemma SurplusParts(input: FeeInput, marketDb: seq<MarketRecord>, salaryDb: seq<SalaryRecord>, influences: seq<Influence>)
    requires Admissible(input, marketDb, salaryDb)
    requires Evaluate(input, marketDb, salaryDb, influences).Success?
    requires Evaluate(input, marketDb, salaryDb, influences).value.regime != Deficit
    ensures var r := Evaluate(input, marketDb, salaryDb, influences).value;
      && r.deltaGlobal >= 0.0 && r.epsilon == Epsilon(influences, false)
      && r.multipliers == MultipliersFor(r.deltaGlobal, input.kBase.GetOr(DefaultKBase), SatisfactionTerm(input), r.epsilon,
           ProfileOf(input.profileKey.GetOr(DefaultProfileKey)), FindSalaryBaseline(salaryDb, input.overall).value,
           input.offeredSalary, input.offeredBonus, YearsOf(input))
  {
    var b, value := Found(input, marketDb, salaryDb, influences);
    PartsOf(input, b, value, influences);
  }

  /**
   * The surplus terms of any result whose parts are those of the surplus or
   * neutral regime, with the suggested multiplier written out.
   */
  lemma SurplusResult(r: FeeResult, kBase: real, sat: real, p: Profile,
                      b: SalaryBaseline, offeredSalary: real, offeredBonus: real, years: int, influences: seq<Influence>)
    requires r.deltaGlobal >= 0.0
    requires r.epsilon == Epsilon(influences, false)
    requires r.multipliers == MultipliersFor(r.deltaGlobal, kBase, sat, r.epsilon, p, b, offeredSalary, offeredBonus, years)
    ensures var propSal := Proportion(offeredSalary, b.salaryBase);
      var propBonus := Proportion(offeredBonus, BonusBaseTotal(b, years));
      && r.multipliers == SurplusMultipliers(kBase, sat, propSal, propBonus, r.epsilon, p)
      && r.multipliers.breakdown
         == Breakdown(kBase, sat, propSal * MaxSalaryWeight, propBonus * MaxBonusWeight, SumValues(influences))
      && r.epsilon == SumValues(influences)
      && r.multipliers.suggested
         == 1.0 + (kBase - 1.0) * p.kFactor + sat + propSal * p.salaryWeight + propBonus * p.bonusWeight
            + r.epsilon
      && (b.salaryBase <= 0.0 ==> r.multipliers.breakdown.salary == 0.0)
      && (BonusBaseTotal(b, years) <= 0.0 ==> r.multipliers.breakdown.bonus == 0.0)
  {
    SurplusEpsilonIsTotal(influences);
    SurplusMultipliersTerms(r.deltaGlobal, kBase, sat, r.epsilon, p, b, offeredSalary, offeredBonus, years);
  }

  /** The surplus multipliers term by term, including the guards against a baseline that is not positive. */
  lemma SurplusMultipliersTerms(delta: real, kBase: real, sat: real, eps: real, p: Profile,
                                b: SalaryBaseline, offeredSalary: real, offeredBonus: real, years: int)
    requires delta >= 0.0
    ensures MultipliersFor(delta, kBase, sat, eps, p, b, offeredSalary, offeredBonus, years).breakdown
      == Breakdown(kBase, sat, Proportion(offeredSalary, b.salaryBase) * MaxSalaryWeight,
           Proportion(offeredBonus, BonusBaseTotal(b, years)) * MaxBonusWeight, eps)
    ensures MultipliersFor(delta, kBase, sat, eps, p, b, offeredSalary, offeredBonus, years).suggested
      == 1.0 + (kBase - 1.0) * p.kFactor + sat + Proportion(offeredSalary, b.salaryBase) * p.salaryWeight
         + Proportion(offeredBonus, BonusBaseTotal(b, years)) * p.bonusWeight + eps
    ensures b.salaryBase <= 0.0 ==> MultipliersFor(delta, kBase, sat, eps, p, b, offeredSalary, offeredBonus, years).breakdown.salary == 0.0
    ensures BonusBaseTotal(b, years) <= 0.0 ==> MultipliersFor(delta, kBase, sat, eps, p, b, offeredSalary, offeredBonus, years).breakdown.bonus == 0.0
  {
  }

  /**
   * Outside a deficit, with a base multiplier of at least 1 and offers no
   * lower than the baseline, the suggested multiplier does not exceed the
   * maximum.
   */
  lemma SurplusSuggestedAtMostMaximum(input: FeeInput, marketDb: seq<MarketRecord>, salaryDb: seq<SalaryRecord>, influences: seq<Influence>)
    requires Admissible(input, marketDb, salaryDb)
    requires Evaluate(input, marketDb, salaryDb, influences).Success?
    requires Evaluate(input, marketDb, salaryDb, influences).value.regime != Deficit
    requires input.kBase.GetOr(DefaultKBase) >= 1.0
    requires var b := FindSalaryBaseline(salaryDb, input.overall).value;
      input.offeredSalary >= b.salaryBase && input.offeredBonus >= BonusBaseTotal(b, YearsOf(input))
    ensures var m := Evaluate(input, marketDb, salaryDb, influences).value.multipliers;
      m.suggested <= m.maximum
  {
    var b, value := Found(input, marketDb, salaryDb, influences);
    PartsOf(input, b, value, influences);
    var r := Appraise(input, b, value, influences);
    var p := ProfileOf(input.profileKey.GetOr(DefaultProfileKey));
    var propSal := Proportion(input.offeredSalary, b.salaryBase);
    var propBonus := Proportion(input.offeredBonus, BonusBaseTotal(b, YearsOf(input)));
    ProportionNonNegative(input.offeredSalary, b.salaryBase);
    ProportionNonNegative(input.offeredBonus, BonusBaseTotal(b, YearsOf(input)));
    SurplusGap(input.kBase.GetOr(DefaultKBase), SatisfactionTerm(input), propSal, propBonus, r.epsilon, p);
  }

  lemma ProportionNonNegative(offered: real, base: real)
    requires offered >= base
    ensures Proportion(offered, base) >= 0.0
  {
    if base > 0.0 {
      assert (offered - base) / base >= 0.0;
    }
  }

  lemma SurplusGap(kBase: real, sat: real, propSal: real, propBonus: real, eps: real, p: Profile)
    requires kBase >= 1.0 && propSal >= 0.0 && propBonus >= 0.0
    requires 0.0 <= p.kFactor <= 1.0 && p.salaryWeight <= MaxSalaryWeight && p.bonusWeight <= MaxBonusWeight
    ensures var m := SurplusMultipliers(kBase, sat, propSal, propBonus, eps, p);
      m.suggested <= m.maximum
  {
    var m := SurplusMultipliers(kBase, sat, propSal, propBonus, eps, p);
    var share := (kBase - 1.0) * p.kFactor;
    var salarySug, salaryMax := propSal * p.salaryWeight, propSal * MaxSalaryWeight;
    var bonusSug, bonusMax := propBonus * p.bonusWeight, propBonus * MaxBonusWeight;
    WeightedAtMost(kBase - 1.0, p.kFactor, 1.0);
    WeightedAtMost(propSal, p.salaryWeight, MaxSalaryWeight);
    WeightedAtMost(propBonus, p.bonusWeight, MaxBonusWeight);
    assert m.suggested == 1.0 + share + sat + salarySug + bonusSug + eps;
    assert m.maximum == kBase + sat + salaryMax + bonusMax + eps;
    LinearGap(m.suggested, m.maximum, 1.0 + sat + eps, share, kBase - 1.0, salarySug, salaryMax, bonusSug, bonusMax);
  }

  /** Three terms that are each no larger give a sum that is no larger. */
  lemma LinearGap(suggested: real, maximum: real, common: real, a1: real, a2: real, b1: real, b2: real, c1: real, c2: real)
    requires suggested == common + a1 + b1 + c1 && maximum == common + a2 + b2 + c2
    requires a1 <= a2 && b1 <= b2 && c1 <= c2
    ensures suggested <= maximum
  {
  }

  /** A non-negative amount weighs no more under a smaller weight. */
  lemma WeightedAtMost(x: real, w: real, ceiling: real)
    requires x >= 0.0 && w <= ceiling
    ensures x * w <= x * ceiling
  {
    assert x * ceiling - x * w == x * (ceiling - w);
  }

  /** The relative difference of a positive base grows with the offer. */
  lemma ProportionMonotonic(o1: real, o2: real, base: real)
    requires o1 <= o2
    ensures Proportion(o1, base) <= Proportion(o2, base)
  {
    if base > 0.0 {
      assert (o1 - base) / base <= (o2 - base) / base;
    }
  }

  /**
   * Outside a deficit, raising the offered monthly salary, all else equal,
   * raises neither multiplier less than nothing: both grow or stay.
   */
  lemma SurplusMonotoneInSalary(input: FeeInput, raised: real, marketDb: seq<MarketRecord>, salaryDb: seq<SalaryRecord>, influences: seq<Influence>)
    requires Admissible(input, marketDb, salaryDb)
    requires raised >= input.offeredSalary
    requires Evaluate(input, marketDb, salaryDb, influences).Success?
    requires Evaluate(input, marketDb, salaryDb, influences).value.regime != Deficit
    ensures var r1 := Evaluate(input, marketDb, salaryDb, influences).value;
      var r2 := Evaluate(input.(offeredSalary := raised), marketDb, salaryDb, influences);
      && r2.Success? && r2.value.regime != Deficit
      && r1.multipliers.suggested <= r2.value.multipliers.suggested
      && r1.multipliers.maximum <= r2.value.multipliers.maximum
  {
    var input2 := input.(offeredSalary := raised);
    var b, value := Found(input, marketDb, salaryDb, influences);
    assert Reaches(input, marketDb, salaryDb);
    assert Admissible(input2, marketDb, salaryDb);
    var b2, value2 := Found(input2, marketDb, salaryDb, influences);
    RaisedSalaryParts(input, raised, b, value, influences);
    var r1 := Appraise(input, b, value, influences);
    MultipliersMonotoneInSalary(r1.deltaGlobal, Appraise(input2, b, value, influences).deltaGlobal,
      input.kBase.GetOr(DefaultKBase), SatisfactionTerm(input), r1.epsilon,
      ProfileOf(input.profileKey.GetOr(DefaultProfileKey)), b, input.offeredSalary, raised, input.offeredBonus, YearsOf(input));
  }

  /** The parts of two appraisals outside a deficit that differ only in a raised offered salary. */
  lemma RaisedSalaryParts(input: FeeInput, raised: real, b: SalaryBaseline, value: real, influences: seq<Influence>)
    requires input.divisor.Some? ==> input.divisor.value != 0.0
    requires VtcBase(b, YearsOf(input)) > 0.0 && YearsOf(input) >= 1
    requires raised >= input.offeredSalary
    requires Appraise(input, b, value, influences).regime != Deficit
    ensures var r1 := Appraise(input, b, value, influences);
      var r2 := Appraise(input.(offeredSalary := raised), b, value, influences);
      var kBase := input.kBase.GetOr(DefaultKBase);
      var p := ProfileOf(input.profileKey.GetOr(DefaultProfileKey));
      && 0.0 <= r1.deltaGlobal <= r2.deltaGlobal && r2.regime != Deficit
      && r2.epsilon == r1.epsilon
      && r1.multipliers == MultipliersFor(r1.deltaGlobal, kBase, SatisfactionTerm(input), r1.epsilon, p, b,
           input.offeredSalary, input.offeredBonus, YearsOf(input))
      && r2.multipliers == MultipliersFor(r2.deltaGlobal, kBase, SatisfactionTerm(input), r1.epsilon, p, b,
           raised, input.offeredBonus, YearsOf(input))
  {
    var input2 := input.(offeredSalary := raised);
    var years := YearsOf(input);
    assert YearsOf(input2) == years && SatisfactionTerm(input2) == SatisfactionTerm(input);
    var r1 := Appraise(input, b, value, influences);
    var r2 := Appraise(input2, b, value, influences);
    assert 0.0 <= r1.deltaGlobal <= r2.deltaGlobal by {
      TotalsOf(input, b, value, influences);
      TotalsOf(input2, b, value, influences);
      OfferedMonotonic(input, raised, years);
      DeltaMonotonic(VtcOffered(input, years), VtcOffered(input2, years), VtcBase(b, years));
    }
    PartsOf(input, b, value, influences);
    PartsOf(input2, b, value, influences);
  }

  lemma MultipliersMonotoneInSalary(d1: real, d2: real, kBase: real, sat: real, eps: real, p: Profile,
                                    b: SalaryBaseline, s1: real, s2: real, offeredBonus: real, years: int)
    requires 0.0 <= d1 <= d2 && s1 <= s2 && 0.0 <= p.salaryWeight
    ensures MultipliersFor(d1, kBase, sat, eps, p, b, s1, offeredBonus, years).suggested
      <= MultipliersFor(d2, kBase, sat, eps, p, b, s2, offeredBonus, years).suggested
    ensures MultipliersFor(d1, kBase, sat, eps, p, b, s1, offeredBonus, years).maximum
      <= MultipliersFor(d2, kBase, sat, eps, p, b, s2, offeredBonus, years).maximum
  {
    var ps1 := Proportion(s1, b.salaryBase);
    var ps2 := Proportion(s2, b.salaryBase);
    var pb := Proportion(offeredBonus, BonusBaseTotal(b, years));
    var m1 := SurplusMultipliers(kBase, sat, ps1, pb, eps, p);
    var m2 := SurplusMultipliers(kBase, sat, ps2, pb, eps, p);
    assert MultipliersFor(d1, kBase, sat, eps, p, b, s1, offeredBonus, years) == m1;
    assert MultipliersFor(d2, kBase, sat, eps, p, b, s2, offeredBonus, years) == m2;
    ProportionMonotonic(s1, s2, b.salaryBase);
    ScaledMonotonic(ps1, ps2, p.salaryWeight);
    ScaledMonotonic(ps1, ps2, MaxSalaryWeight);
    var common := 1.0 + (kBase - 1.0) * p.kFactor + sat + pb * p.bonusWeight + eps;
    LinearGap(m1.suggested, m2.suggested, common, ps1 * p.salaryWeight, ps2 * p.salaryWeight, 0.0, 0.0, 0.0, 0.0);
    var commonMax := kBase + sat + pb * MaxBonusWeight + eps;
    LinearGap(m1.maximum, m2.maximum, commonMax, ps1 * MaxSalaryWeight, ps2 * MaxSalaryWeight, 0.0, 0.0, 0.0, 0.0);
  }

  /** A non-negative weight keeps the order of what it weighs. */
  lemma ScaledMonotonic(x1: real, x2: real, w: real)
    requires x1 <= x2 && w >= 0.0
    ensures x1 * w <= x2 * w
  {
    assert x2 * w - x1 * w == (x2 - x1) * w;
  }

  lemma OfferedMonotonic(input: FeeInput, raised: real, years: int)
    requires raised >= input.offeredSalary && years >= 1
    ensures VtcOffered(input, years) <= VtcOffered(input.(offeredSalary := raised), years)
  {
    assert input.offeredSalary * (12.0 * years as real) <= raised * (12.0 * years as real);
  }

  lemma DeltaMonotonic(o1: real, o2: real, base: real)
    requires base > 0.0 && o1 <= o2
    ensures RelativeDifference(o1, base) <= RelativeDifference(o2, base)
  {
    assert RelativeDifference(o2, base) - RelativeDifference(o1, base) == (o2 - o1) / base;
  }

  /**
   * In a deficit, an influence that is not negative changes nothing: adding
   * it to the list gives the same result.
   */
  lemma DeficitIgnoresNonNegativeInfluence(input: FeeInput, marketDb: seq<MarketRecord>, salaryDb: seq<SalaryRecord>,
                                           influences: seq<Influence>, e: Influence)
    requires Admissible(input, marketDb, salaryDb)
    requires e.value >= 0.0
    requires Evaluate(input, marketDb, salaryDb, influences).Success?
    requires Evaluate(input, marketDb, salaryDb, influences).value.regime == Deficit
    ensures Evaluate(input, marketDb, salaryDb, influences + [e]) == Evaluate(input, marketDb, salaryDb, influences)
  {
    var b, value := Found(input, marketDb, salaryDb, influences);
    var b2, value2 := Found(input, marketDb, salaryDb, influences + [e]);
    var years := YearsOf(input);
    assert RelativeDifference(VtcOffered(input, years), VtcBase(b, years)) < 0.0 by {
      TotalsOf(input, b, value, influences);
    }
    NonNegativeEntryContribution(influences, e);
    SameEpsilonSameAppraisal(input, b, value, influences + [e], influences);
  }

  /** The influences enter an appraisal only through `epsilon`: lists with the same `epsilon` give the same result. */
  lemma SameEpsilonSameAppraisal(input: FeeInput, b: SalaryBaseline, value: real, influences1: seq<Influence>, influences2: seq<Influence>)
    requires input.divisor.Some? ==> input.divisor.value != 0.0
    requires VtcBase(b, YearsOf(input)) > 0.0
    requires var years := YearsOf(input);
      var deficit := RelativeDifference(VtcOffered(input, years), VtcBase(b, years)) < 0.0;
      Epsilon(influences1, deficit) == Epsilon(influences2, deficit)
    ensures Appraise(input, b, value, influences1) == Appraise(input, b, value, influences2)
  {
    AssessParts(input, b, influences1);
    AssessParts(input, b, influences2);
    assert Assess(input, b, influences1) == Assess(input, b, influences2);
  }

  /**
   * Outside a deficit every influence adds its value to both multipliers.
   */
  lemma SurplusAddsInfluence(input: FeeInput, marketDb: seq<MarketRecord>, salaryDb: seq<SalaryRecord>,
                             influences: seq<Influence>, e: Influence)
    requires Admissible(input, marketDb, salaryDb)
    requires Evaluate(input, marketDb, salaryDb, influences).Success?
    requires Evaluate(input, marketDb, salaryDb, influences).value.regime != Deficit
    ensures var r1 := Evaluate(input, marketDb, salaryDb, influences).value;
      var r2 := Evaluate(input, marketDb, salaryDb, influences + [e]).value;
      && r2.epsilon == r1.epsilon + e.value
      && r2.multipliers.maximum == r1.multipliers.maximum + e.value
      && r2.multipliers.suggested == r1.multipliers.suggested + e.value
  {
    var b, value := Found(input, marketDb, salaryDb, influences);
    var b2, value2 := Found(input, marketDb, salaryDb, influences + [e]);
    PartsOf(input, b, value, influences);
    PartsOf(input, b, value, influences + [e]);
    SurplusShift(Evaluate(input, marketDb, salaryDb, influences).value, Evaluate(input, marketDb, salaryDb, influences + [e]).value,
      input.kBase.GetOr(DefaultKBase), SatisfactionTerm(input), ProfileOf(input.profileKey.GetOr(DefaultProfileKey)),
      b, input.offeredSalary, input.offeredBonus, YearsOf(input), influences, e);
  }

  /** Two results with the surplus parts that differ by one influence differ by its value in both multipliers. */
  lemma SurplusShift(r1: FeeResult, r2: FeeResult, kBase: real, sat: real, p: Profile,
                     b: SalaryBaseline, offeredSalary: real, offeredBonus: real, years: int, influences: seq<Influence>, e: Influence)
    requires r1.deltaGlobal >= 0.0 && r2.deltaGlobal == r1.deltaGlobal
    requires r1.epsilon == Epsilon(influences, false) && r2.epsilon == Epsilon(influences + [e], false)
    requires r1.multipliers == MultipliersFor(r1.deltaGlobal, kBase, sat, r1.epsilon, p, b, offeredSalary, offeredBonus, years)
    requires r2.multipliers == MultipliersFor(r2.deltaGlobal, kBase, sat, r2.epsilon, p, b, offeredSalary, offeredBonus, years)
    ensures r2.epsilon == r1.epsilon + e.value
    ensures r2.multipliers.maximum == r1.multipliers.maximum + e.value
    ensures r2.multipliers.suggested == r1.multipliers.suggested + e.value
  {
    SurplusEntryContribution(influences, e);
    MultipliersInfluenceShift(r1.deltaGlobal, kBase, sat, r1.epsilon, e.value, p, b, offeredSalary, offeredBonus, years);
  }

  /** Outside a deficit the multipliers are linear in the influences: adding `d` to them adds `d` to both. */
  lemma MultipliersInfluenceShift(delta: real, kBase: real, sat: real, eps: real, d: real, p: Profile,
                                  b: SalaryBaseline, offeredSalary: real, offeredBonus: real, years: int)
    requires delta >= 0.0
    ensures MultipliersFor(delta, kBase, sat, eps + d, p, b, offeredSalary, offeredBonus, years).maximum
      == MultipliersFor(delta, kBase, sat, eps, p, b, offeredSalary, offeredBonus, years).maximum + d
    ensures MultipliersFor(delta, kBase, sat, eps + d, p, b, offeredSalary, offeredBonus, years).suggested
      == MultipliersFor(delta, kBase, sat, eps, p, b, offeredSalary, offeredBonus, years).suggested + d
  {
    SurplusInfluenceShift(kBase, sat, Proportion(offeredSalary, b.salaryBase),
      Proportion(offeredBonus, BonusBaseTotal(b, years)), eps, d, p);
  }

  /** The surplus multipliers are linear in the influences: adding `d` to them adds `d` to both. */
  lemma SurplusInfluenceShift(kBase: real, sat: real, propSal: real, propBonus: real, eps: real, d: real, p: Profile)
    ensures SurplusMultipliers(kBase, sat, propSal, propBonus, eps + d, p).maximum
      == SurplusMultipliers(kBase, sat, propSal, propBonus, eps, p).maximum + d
    ensures SurplusMultipliers(kBase, sat, propSal, propBonus, eps + d, p).suggested
      == SurplusMultipliers(kBase, sat, propSal, propBonus, eps, p).suggested + d
  {
    var common := 1.0 + (kBase - 1.0) * p.kFactor + sat + propSal * p.salaryWeight + propBonus * p.bonusWeight;
    assert SurplusMultipliers(kBase, sat, propSal, propBonus, eps, p).suggested == common + eps;
    assert SurplusMultipliers(kBase, sat, propSal, propBonus, eps + d, p).suggested == common + (eps + d);
  }

  lemma OfferAtBaseline(input: FeeInput, b: SalaryBaseline, years: int)
    requires input.offeredSalary == b.salaryBase && input.offeredBonus == BonusBaseTotal(b, years)
    requires VtcBase(b, years) > 0.0
    ensures RelativeDifference(VtcOffered(input, years), VtcBase(b, years)) == 0.0
  {
    assert VtcOffered(input, years) == VtcBase(b, years);
  }

  /**
   * An offer equal to the baseline is neutral: the difference is 0 and the
   * multipliers are the base multiplier (in full, or its accepted share)
   * plus the satisfaction term and the influences.
   */
  lemma NeutralAtBaseline(input: FeeInput, marketDb: seq<MarketRecord>, salaryDb: seq<SalaryRecord>, influences: seq<Influence>)
    requires Admissible(input, marketDb, salaryDb)
    requires Evaluate(input, marketDb, salaryDb, influences).Success?
    requires var b := FindSalaryBaseline(salaryDb, input.overall).value;
      input.offeredSalary == b.salaryBase && input.offeredBonus == BonusBaseTotal(b, YearsOf(input))
    ensures var r := Evaluate(input, marketDb, salaryDb, influences).value;
      var kBase := input.kBase.GetOr(DefaultKBase);
      var p := ProfileOf(input.profileKey.GetOr(DefaultProfileKey));
      && r.regime == Neutral && r.deltaGlobal == 0.0
      && r.multipliers == SurplusMultipliers(kBase, SatisfactionTerm(input), 0.0, 0.0, SumValues(influences), p)
      && r.multipliers.maximum == kBase + SatisfactionTerm(input) + SumValues(influences)
  {
    NeutralParts(input, marketDb, salaryDb, influences);
    NeutralResult(Evaluate(input, marketDb, salaryDb, influences).value, input.kBase.GetOr(DefaultKBase), SatisfactionTerm(input),
      ProfileOf(input.profileKey.GetOr(DefaultProfileKey)), FindSalaryBaseline(salaryDb, input.overall).value,
      input.offeredSalary, input.offeredBonus, YearsOf(input), influences);
  }

  /** The difference, regime, influences and multipliers of a success for an offer at the baseline. */
  lemma NeutralParts(input: FeeInput, marketDb: seq<MarketRecord>, salaryDb: seq<SalaryRecord>, influences: seq<Influence>)
    requires Admissible(input, marketDb, salaryDb)
    requires Evaluate(input, marketDb, salaryDb, influences).Success?
    requires var b := FindSalaryBaseline(salaryDb, input.overall).value;
      input.offeredSalary == b.salaryBase && input.offeredBonus == BonusBaseTotal(b, YearsOf(input))
    ensures var r := Evaluate(input, marketDb, salaryDb, influences).value;
      && r.deltaGlobal == 0.0 && r.regime == RegimeOf(r.deltaGlobal)
      && r.epsilon == Epsilon(influences, r.deltaGlobal < 0.0)
      && r.multipliers == MultipliersFor(r.deltaGlobal, input.kBase.GetOr(DefaultKBase), SatisfactionTerm(input), r.epsilon,
           ProfileOf(input.profileKey.GetOr(DefaultProfileKey)), FindSalaryBaseline(salaryDb, input.overall).value,
           input.offeredSalary, input.offeredBonus, YearsOf(input))
  {
    var b, value := Found(input, marketDb, salaryDb, influences);
    PartsOf(input, b, value, influences);
    OfferAtBaseline(input, b, YearsOf(input));
  }

  /** The regime and the multipliers of any result with the parts of an offer at the baseline. */
  lemma NeutralResult(r: FeeResult, kBase: real, sat: real, p: Profile,
                      b: SalaryBaseline, offeredSalary: real, offeredBonus: real, years: int, influences: seq<Influence>)
    requires r.deltaGlobal == 0.0
    requires r.regime == RegimeOf(r.deltaGlobal)
    requires r.epsilon == Epsilon(influences, r.deltaGlobal < 0.0)
    requires r.multipliers == MultipliersFor(r.deltaGlobal, kBase, sat, r.epsilon, p, b, offeredSalary, offeredBonus, years)
    requires offeredSalary == b.salaryBase && offeredBonus == BonusBaseTotal(b, years)
    ensures r.regime == Neutral
    ensures r.multipliers == SurplusMultipliers(kBase, sat, 0.0, 0.0, SumValues(influences), p)
    ensures r.multipliers.maximum == kBase + sat + SumValues(influences)
    ensures r.multipliers.suggested == 1.0 + (kBase - 1.0) * p.kFactor + sat + SumValues(influences)
  {
    SurplusEpsilonIsTotal(influences);
    NeutralMultipliers(kBase, sat, r.epsilon, p, b, offeredSalary, offeredBonus, years);
  }

  lemma NeutralMultipliers(kBase: real, sat: real, eps: real, p: Profile,
                           b: SalaryBaseline, offeredSalary: real, offeredBonus: real, years: int)
    requires offeredSalary == b.salaryBase && offeredBonus == BonusBaseTotal(b, years)
    ensures MultipliersFor(0.0, kBase, sat, eps, p, b, offeredSalary, offeredBonus, years).maximum == kBase + sat + eps
    ensures MultipliersFor(0.0, kBase, sat, eps, p, b, offeredSalary, offeredBonus, years).suggested
      == 1.0 + (kBase - 1.0) * p.kFactor + sat + eps
  {
    assert Proportion(offeredSalary, b.salaryBase) == 0.0;
    assert Proportion(offeredBonus, BonusBaseTotal(b, years)) == 0.0;
  }
}
