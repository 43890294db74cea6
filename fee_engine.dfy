/**
 * The termination-fee calculation of `calcularMulta`: validation and
 * lookups, the total contract values and their relative difference, the
 * two multipliers (maximum and suggested) in the deficit and in the
 * surplus/neutral regime, and the rounded fees in both currencies.
 */
module FeeEngine {
  import opened Wrappers
  import opened ReferenceData
  import opened Influences
  import opened Amounts

  /** A negotiation profile of `PERFIS`: salary and bonus weights and the share `kFactor` of the premium it accepts. */
  datatype Profile = Profile(salaryWeight: real, bonusWeight: real, kFactor: real, title: string)

  /** Ceiling weights of the maximum track, declared inside `calcularMulta`. */
  const MaxSalaryWeight: real := 0.5
  const MaxBonusWeight: real := 0.2

  /** Values used when the page has no field for them. */
  const DefaultYears: int := 1
  const DefaultKBase: real := 1.1
  const DefaultSatisfaction: int := 50
  const DefaultDivisor: real := 500.0
  const DefaultProfileKey: string := "padrao"

  /** The standard profile `padrao`. */
  const Standard: Profile := Profile(0.1, 0.04, 0.5, "Padrão")

  /**
   * The profile table: every weight lies within the ceiling weights of the
   * maximum track and every accepted share within [0, 1]; a key outside the
   * table gets the standard profile.
   */
  function ProfileOf(key: string): (p: Profile)
    ensures 0.0 <= p.salaryWeight <= MaxSalaryWeight
    ensures 0.0 <= p.bonusWeight <= MaxBonusWeight
    ensures 0.0 <= p.kFactor <= 1.0
    ensures key !in {"mercenario", "fiel", "ambicioso"} <==> p == Standard
  {
    if key == "mercenario" then Profile(0.1, 0.15, 0.35, "Mercenário")
    else if key == "fiel" then Profile(0.35, 0.05, 0.9, "Fiel")
    else if key == "ambicioso" then Profile(0.25, 0.07, 0.25, "Ambicioso")
    else Standard
  }

  /**
   * What the form supplies. A required field that is empty or not a
   * number is 0; an optional field is None when the page does not show it.
   * The offered amounts are the values `parseMoney` read from the fields.
   */
  datatype FeeInput = FeeInput(
    position: string,
    age: int,
    overall: int,
    years: Option<int>,
    kBase: Option<real>,
    offeredSalary: real,
    offeredBonus: real,
    satisfaction: Option<int>,
    divisor: Option<real>,
    profileKey: Option<string>)

  datatype FeeError = IncompleteInput | MarketDataNotFound | SalaryDataNotFound

  datatype Regime = Deficit | Surplus | Neutral

  /** The five terms shown in the breakdown: base, satisfaction, salary, bonus, influences. */
  datatype Breakdown = Breakdown(k: real, satisfaction: real, salary: real, bonus: real, influence: real)

  datatype Multipliers = Multipliers(maximum: real, suggested: real, breakdown: Breakdown)

  datatype FeeResult = FeeResult(
    regime: Regime,
    vtcBase: real,
    vtcOffered: real,
    deltaGlobal: real,
    epsilon: real,
    multipliers: Multipliers,
    suggestedFee: int,
    maximumFee: int,
    suggestedFeeEur: int,
    maximumFeeEur: int)

  /** The missing-data check: position, age and overall are all required. */
  predicate Incomplete(input: FeeInput) {
    input.position == "" || input.age == 0 || input.overall == 0
  }

  /** The calculation gets past its three checks: complete input, a non-zero market value and a salary baseline. */
  predicate Reaches(input: FeeInput, marketDb: seq<MarketRecord>, salaryDb: seq<SalaryRecord>) {
    var value := FindMarketValue(marketDb, input.position, input.age, input.overall);
    && !Incomplete(input)
    && value.Some? && value.value != 0.0
    && FindSalaryBaseline(salaryDb, input.overall).Some?
  }

  /**
   * What the calculation needs from its caller once it gets past its checks:
   * a contract of at least one year, a non-zero satisfaction divisor and a
   * selected salary row whose yearly package is positive, so that the base
   * contract value it divides by is not 0.
   */
  predicate Admissible(input: FeeInput, marketDb: seq<MarketRecord>, salaryDb: seq<SalaryRecord>) {
    Reaches(input, marketDb, salaryDb) ==>
      var b := FindSalaryBaseline(salaryDb, input.overall).value;
      && (input.years.Some? ==> input.years.value >= 1)
      && (input.divisor.Some? ==> input.divisor.value != 0.0)
      && b.salaryBase * 12.0 + b.bonusBase > 0.0
  }

  function YearsOf(input: FeeInput): int {
    input.years.GetOr(DefaultYears)
  }

  /** Total base contract value: monthly salary over the years plus the yearly bonus over the years. */
  function VtcBase(b: SalaryBaseline, years: int): (r: real)
    ensures years == 1 ==> r == b.salaryBase * 12.0 + b.bonusBase
    ensures years == 0 ==> r == 0.0
  {
    b.salaryBase * 12.0 * years as real + b.bonusBase * years as real
  }

  /** The baseline bonus over the whole contract. */
  function BonusBaseTotal(b: SalaryBaseline, years: int): real {
    b.bonusBase * years as real
  }

  /** Total offered contract value: offered monthly salary over the years plus the whole offered bonus. */
  function VtcOffered(input: FeeInput, years: int): (r: real)
    ensures years >= 0 && input.offeredSalary >= 0.0 && input.offeredBonus >= 0.0 ==> r >= input.offeredBonus
    ensures years == 0 ==> r == input.offeredBonus
  {
    input.offeredSalary * 12.0 * years as real + input.offeredBonus
  }

  /** `deltaGlobal`: how far the offer lies above (positive) or below (negative) a base that is not 0, relative to it. */
  function RelativeDifference(offered: real, base: real): (r: real)
    requires base != 0.0
    ensures offered == base ==> r == 0.0
    ensures base > 0.0 && offered >= 0.0 ==> r >= -1.0
  {
    (offered - base) / base
  }

  /** `x` times `factor` as a named term: the market value times a multiplier is the fee before rounding. */
  function Scaled(x: real, factor: real): real {
    x * factor
  }

  function RegimeOf(delta: real): Regime {
    if delta < 0.0 then Deficit else if delta > 0.0 then Surplus else Neutral
  }

  /** `(satisfacao - 50) / fatorSatisfacao`. */
  function SatisfactionTerm(input: FeeInput): (r: real)
    requires input.divisor.Some? ==> input.divisor.value != 0.0
    ensures input.satisfaction.GetOr(DefaultSatisfaction) == 50 ==> r == 0.0
    ensures input.divisor.None? && 0 <= input.satisfaction.GetOr(DefaultSatisfaction) <= 100 ==> -0.1 <= r <= 0.1
  {
    (input.satisfaction.GetOr(DefaultSatisfaction) - 50) as real / input.divisor.GetOr(DefaultDivisor)
  }

  /** Relative difference between an offered amount and a positive base; nothing against a base that is not positive. */
  function Proportion(offered: real, base: real): real {
    if base > 0.0 then (offered - base) / base else 0.0
  }

  /** The minimum multiplier of the deficit regime. */
  function AtLeastFloor(m: real): (r: real)
    ensures r >= 0.1
    ensures m >= 0.1 ==> r == m
    ensures m < 0.1 ==> r == 0.1
  {
    if m < 0.1 then 0.1 else m
  }

  /**
   * Deficit regime: the maximum takes the full shortfall and the negative
   * influences; the suggested value takes the shortfall once more, scaled
   * by the share of the premium the profile does not accept; both are
   * floored at 0.1.
   */
  function DeficitMultipliers(delta: real, sat: real, eps: real, p: Profile): (r: Multipliers)
    ensures r.maximum >= 0.1 && r.suggested >= 0.1
    ensures r.breakdown.k == 1.0 && r.breakdown.bonus == 0.0
    ensures r.suggested == AtLeastFloor(r.breakdown.k + r.breakdown.salary + r.breakdown.influence)
  {
    var maximum := 1.0 + delta + eps;
    Multipliers(
      AtLeastFloor(maximum),
      AtLeastFloor(maximum + delta * (1.0 - p.kFactor)),
      Breakdown(1.0, sat, delta * (2.0 - p.kFactor), 0.0, eps))
  }

  /**
   * Surplus and neutral regimes: the full asking multiplier, or its share
   * accepted by the profile, plus the satisfaction term, the weighted salary
   * and bonus differences and the influences; no floor.
   */
  function SurplusMultipliers(kBase: real, sat: real, propSal: real, propBonus: real, eps: real, p: Profile): (r: Multipliers)
    ensures r.maximum == r.breakdown.k + r.breakdown.satisfaction + r.breakdown.salary + r.breakdown.bonus + r.breakdown.influence
    ensures r.breakdown.k == kBase && r.breakdown.influence == eps
  {
    Multipliers(
      kBase + sat + propSal * MaxSalaryWeight + propBonus * MaxBonusWeight + eps,
      1.0 + (kBase - 1.0) * p.kFactor + sat + propSal * p.salaryWeight + propBonus * p.bonusWeight + eps,
      Breakdown(kBase, sat, propSal * MaxSalaryWeight, propBonus * MaxBonusWeight, eps))
  }

  /** The regime that the sign of `delta` selects decides which multipliers apply. */
  function MultipliersFor(delta: real, kBase: real, sat: real, eps: real, p: Profile,
                          b: SalaryBaseline, offeredSalary: real, offeredBonus: real, years: int): (r: Multipliers)
    ensures delta < 0.0 ==> r.maximum >= 0.1 && r.suggested >= 0.1 && r.breakdown.bonus == 0.0
    ensures r.breakdown.influence == eps
  {
    if delta < 0.0 then DeficitMultipliers(delta, sat, eps, p)
    else SurplusMultipliers(kBase, sat, Proportion(offeredSalary, b.salaryBase),
      Proportion(offeredBonus, BonusBaseTotal(b, years)), eps, p)
  }

  /** The multipliers and totals for a found baseline. */
  function Assess(input: FeeInput, b: SalaryBaseline, influences: seq<Influence>): (r: (real, real, real, real, Multipliers))
    requires input.divisor.Some? ==> input.divisor.value != 0.0
    requires VtcBase(b, YearsOf(input)) != 0.0
  {
    var years := YearsOf(input);
    var vtcBase := VtcBase(b, years);
    var vtcOffered := VtcOffered(input, years);
    var delta := RelativeDifference(vtcOffered, vtcBase);
    var eps := Epsilon(influences, delta < 0.0);
    var p := ProfileOf(input.profileKey.GetOr(DefaultProfileKey));
    var sat := SatisfactionTerm(input);
    var m := MultipliersFor(delta, input.kBase.GetOr(DefaultKBase), sat, eps, p, b, input.offeredSalary, input.offeredBonus, years);
    (vtcBase, vtcOffered, delta, eps, m)
  }

  /** A positive yearly package over at least one year gives a positive base contract value. */
  lemma PositivePackage(b: SalaryBaseline, years: int)
    requires years >= 1 && b.salaryBase * 12.0 + b.bonusBase > 0.0
    ensures VtcBase(b, years) > 0.0
  {
    var y := years as real;
    var package := b.salaryBase * 12.0 + b.bonusBase;
    assert VtcBase(b, years) == y * package;
    assert y * package >= package;
  }

  /** Under the admissible inputs the baseline the lookup returns has a positive base contract value. */
  lemma VtcBasePositive(input: FeeInput, marketDb: seq<MarketRecord>, salaryDb: seq<SalaryRecord>)
    requires Admissible(input, marketDb, salaryDb)
    requires Reaches(input, marketDb, salaryDb)
    ensures VtcBase(FindSalaryBaseline(salaryDb, input.overall).value, YearsOf(input)) > 0.0
  {
    PositivePackage(FindSalaryBaseline(salaryDb, input.overall).value, YearsOf(input));
  }

  /** Fees from the multipliers: applied to the market value, rounded, converted and rounded again. */
  function Realise(vtcBase: real, vtcOffered: real, delta: real, eps: real, m: Multipliers, marketValue: real): FeeResult {
    var suggestedFee := RoundFee(Scaled(marketValue, m.suggested));
    var maximumFee := RoundFee(Scaled(marketValue, m.maximum));
    FeeResult(
      RegimeOf(delta), vtcBase, vtcOffered, delta, eps, m,
      suggestedFee, maximumFee, ConvertFee(suggestedFee), ConvertFee(maximumFee))
  }

  /** The result for a market value and a salary baseline that were found. */
  function Appraise(input: FeeInput, b: SalaryBaseline, marketValue: real, influences: seq<Influence>): FeeResult
    requires input.divisor.Some? ==> input.divisor.value != 0.0
    requires VtcBase(b, YearsOf(input)) > 0.0
  {
    var t := Assess(input, b, influences);
    Realise(t.0, t.1, t.2, t.3, t.4, marketValue)
  }

  /** The whole calculation as a function of its inputs: the reference the method is proved against. */
  function Evaluate(input: FeeInput, marketDb: seq<MarketRecord>, salaryDb: seq<SalaryRecord>, influences: seq<Influence>): (r: Result<FeeResult, FeeError>)
    requires Admissible(input, marketDb, salaryDb)
    ensures r.Success? <==> Reaches(input, marketDb, salaryDb)
    ensures Incomplete(input) ==> r == Failure(IncompleteInput)
  {
    if Incomplete(input) then Failure(IncompleteInput)
    else
      var value := FindMarketValue(marketDb, input.position, input.age, input.overall);
      if value.None? || value.value == 0.0 then Failure(MarketDataNotFound)
      else
        var baseline := FindSalaryBaseline(salaryDb, input.overall);
        if baseline.None? then Failure(SalaryDataNotFound)
        else
          VtcBasePositive(input, marketDb, salaryDb);
          Success(Appraise(input, baseline.value, value.value, influences))
  }

  /**
   * The multiplier block of `calcularMulta`: both multipliers built up term
   * by term in the regime that the sign of `deltaGlobal` selects.
   */
  method ComputeMultipliers(deltaGlobal: real, kBase: real, detailSat: real, epsilon: real, profile: Profile,
                            base: SalaryBaseline, offeredSalary: real, offeredBonus: real, years: int)
    returns (m: Multipliers)
    ensures m == MultipliersFor(deltaGlobal, kBase, detailSat, epsilon, profile, base, offeredSalary, offeredBonus, years)
  {
    if deltaGlobal < 0.0 {
      m := ComputeDeficit(deltaGlobal, detailSat, epsilon, profile);
    } else {
      m := ComputeSurplus(kBase, detailSat, epsilon, profile, base, offeredSalary, offeredBonus, years);
    }
  }

  /** Deficit branch: the shortfall and the negative influences lower both multipliers, then the floor applies. */
  method ComputeDeficit(deltaGlobal: real, detailSat: real, epsilon: real, profile: Profile) returns (m: Multipliers)
    ensures m == DeficitMultipliers(deltaGlobal, detailSat, epsilon, profile)
  {
    var maximum := 1.0 + deltaGlobal + epsilon;
    var reduction := 1.0 - profile.kFactor;
    var suggested := maximum + deltaGlobal * reduction;
    if maximum < 0.1 { maximum := 0.1; }
    if suggested < 0.1 { suggested := 0.1; }
    m := Multipliers(maximum, suggested, Breakdown(1.0, detailSat, deltaGlobal * (2.0 - profile.kFactor), 0.0, epsilon));
  }

  /** Surplus and neutral branch: base, satisfaction, salary, bonus and influences added in turn to both multipliers. */
  method ComputeSurplus(kBase: real, detailSat: real, epsilon: real, profile: Profile,
                        base: SalaryBaseline, offeredSalary: real, offeredBonus: real, years: int)
    returns (m: Multipliers)
    ensures m == SurplusMultipliers(kBase, detailSat, Proportion(offeredSalary, base.salaryBase),
      Proportion(offeredBonus, BonusBaseTotal(base, years)), epsilon, profile)
  {
    var kSuggested := 1.0 + (kBase - 1.0) * profile.kFactor;
    var maximum := kBase;
    var suggested := kSuggested;

    maximum := maximum + detailSat;
    suggested := suggested + detailSat;

    var salaryMax, salarySug := 0.0, 0.0;
    if base.salaryBase > 0.0 {
      var propSal := (offeredSalary - base.salaryBase) / base.salaryBase;
      salaryMax := propSal * MaxSalaryWeight;
      salarySug := propSal * profile.salaryWeight;
    }
    assert salaryMax == Proportion(offeredSalary, base.salaryBase) * MaxSalaryWeight;
    assert salarySug == Proportion(offeredSalary, base.salaryBase) * profile.salaryWeight;
    maximum := maximum + salaryMax;
    suggested := suggested + salarySug;

    var bonusBaseTotal := BonusBaseTotal(base, years);
    var bonusMax, bonusSug := 0.0, 0.0;
    if bonusBaseTotal > 0.0 {
      var propBonus := (offeredBonus - bonusBaseTotal) / bonusBaseTotal;
      bonusMax := propBonus * MaxBonusWeight;
      bonusSug := propBonus * profile.bonusWeight;
    }
    assert bonusMax == Proportion(offeredBonus, bonusBaseTotal) * MaxBonusWeight;
    assert bonusSug == Proportion(offeredBonus, bonusBaseTotal) * profile.bonusWeight;
    maximum := maximum + bonusMax;
    suggested := suggested + bonusSug;

    maximum := maximum + epsilon;
    suggested := suggested + epsilon;
    m := Multipliers(maximum, suggested, Breakdown(kBase, detailSat, salaryMax, bonusMax, epsilon));
  }

  /** The pieces `ComputeFee` computes one by one put together are `Assess`. */
  lemma AssessSteps(input: FeeInput, b: SalaryBaseline, influences: seq<Influence>,
                    years: int, delta: real, sat: real, eps: real, p: Profile, m: Multipliers)
    requires input.divisor.Some? ==> input.divisor.value != 0.0
    requires VtcBase(b, YearsOf(input)) > 0.0
    requires years == YearsOf(input)
    requires delta == RelativeDifference(VtcOffered(input, years), VtcBase(b, years))
    requires eps == Epsilon(influences, delta < 0.0)
    requires p == ProfileOf(input.profileKey.GetOr(DefaultProfileKey))
    requires sat == SatisfactionTerm(input)
    requires m == MultipliersFor(delta, input.kBase.GetOr(DefaultKBase), sat, eps, p, b, input.offeredSalary, input.offeredBonus, years)
    ensures Assess(input, b, influences) == (VtcBase(b, years), VtcOffered(input, years), delta, eps, m)
  {
    var r := Assess(input, b, influences);
    assert r.0 == VtcBase(b, years);
    assert r.1 == VtcOffered(input, years);
    assert r.2 == delta;
    assert r.3 == eps;
    assert r.4 == m;
  }

  /**
   * `calcularMulta` without its page output: reads the inputs with their
   * defaults, validates them, looks up both bases, builds the two
   * multipliers step by step and realises the fees.
   */
  method ComputeFee(input: FeeInput, marketDb: seq<MarketRecord>, salaryDb: seq<SalaryRecord>, influences: seq<Influence>)
    returns (out: Result<FeeResult, FeeError>)
    requires Admissible(input, marketDb, salaryDb)
    ensures out == Evaluate(input, marketDb, salaryDb, influences)
  {
    var years := input.years.GetOr(DefaultYears);
    var kBase := input.kBase.GetOr(DefaultKBase);
    var satisfaction := input.satisfaction.GetOr(DefaultSatisfaction);

    if input.position == "" || input.age == 0 || input.overall == 0 {
      return Failure(IncompleteInput);
    }

    var marketValue := FindMarketValue(marketDb, input.position, input.age, input.overall);
    if marketValue.None? || marketValue.value == 0.0 {
      return Failure(MarketDataNotFound);
    }

    var baseline := FindSalaryBaseline(salaryDb, input.overall);
    if baseline.None? {
      return Failure(SalaryDataNotFound);
    }
    var base := baseline.value;

    var vtcBase := VtcBase(base, years);
    var vtcOffered := VtcOffered(input, years);
    VtcBasePositive(input, marketDb, salaryDb);
    var deltaGlobal := RelativeDifference(vtcOffered, vtcBase);

    var divisor := input.divisor.GetOr(DefaultDivisor);
    var detailSat := (satisfaction - 50) as real / divisor;

    var epsilon := Epsilon(influences, deltaGlobal < 0.0);
    var profile := ProfileOf(input.profileKey.GetOr(DefaultProfileKey));
    var m := ComputeMultipliers(deltaGlobal, kBase, detailSat, epsilon, profile, base, input.offeredSalary, input.offeredBonus, years);
    AssessSteps(input, base, influences, years, deltaGlobal, detailSat, epsilon, profile, m);

    out := Success(Realise(vtcBase, vtcOffered, deltaGlobal, epsilon, m, marketValue.value));
    assert out.value == Appraise(input, base, marketValue.value, influences);
  }
}
