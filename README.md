# Termination-fee calculator (multa-draence), modelled in Dafny

The system computes a player's termination fee (*multa*) in a football
management setting. It looks up the player's market value by position, age
and overall. It then looks up a salary baseline by overall, with a fallback
to a lower overall. It compares the total value of the offered contract
with the baseline contract and picks a regime from the sign of the
relative difference (`deltaGlobal`):

- **deficit**: the offer is below the baseline. There is a full-penalty maximum multiplier, a suggested multiplier that the player profile softens, and a floor of 0.1 on both.
- **surplus / neutral**: the offer is at or above the baseline. There is an asking multiplier `kBase`, a satisfaction term, and salary and bonus differences. The maximum track weighs those differences with fixed ceiling weights, the suggested track with the profile's weights.

Manually entered external influences shift both multipliers. In a deficit
only the negative influences count. The fee is the market value times each
multiplier, rounded to a grid: steps of 100 000 from 1 000 000 upwards,
steps of 1 000 below that. It is converted to euro at an exact rate of 1/6
and rounded again.

Modules, one per part of `script.js`:

- `Wrappers`: `Option` and `Result`.
- `Seqs`: the `find` and `filter` array operations the source uses.
- `MoneyText`: `parseMoney` and `formatMoneyDisplay`, on text made of digits and thousands dots.
- `Limits`: the clamp of `enforceLimits` and the step-then-clamp of `ajustarValorMonetario`.
- `Amounts`: `arredondarMulta`, the euro rate and conversion, and `calcularPercentual`.
- `ReferenceData`: `buscarValorMercado` and `buscarDadosBaseSalarial`. The tables are parameters.
- `Influences`: the severity table, the `epsilon` filter/reduce, and the mutable ledger (`class Ledger`).
- `FeeEngine`: the profiles, the defaults, the specification function `Evaluate`, and the method `ComputeFee`. `ComputeFee` follows the body of `calcularMulta` step by step, building the multipliers with `+=` and clamping them by reassignment. It is proved equal to `Evaluate`.
- `FeeProperties`: what the result of the calculation means. This covers the order of the checks, the regimes, the shape of each branch, the rounding of the fees, and how the result reacts to the offer and to the influences.
- `FeeExamples`: two worked cases, one in surplus and one in deficit.

Choices the code makes that are easy to misread, and that the model follows:

- Profile weights are the values in the `PERFIS` table (`padrao` = 0.1 / 0.04 / 0.5).
- When the base-multiplier field is absent, `kBase` is 1.1. The value 1.2 is only what the form's reset writes into the field.
- The euro rate 96049800/576298800 is exactly 1/6. The comment beside it says about 0.1667.
- In a deficit the satisfaction term of the breakdown is still `(s - 50) / divisor`. It is computed before the branch and not zeroed.
- Resetting the form sets the influence counter back to 0, so ids can repeat after a reset.
- The maximum track uses the local ceiling weights 0.5 and 0.2. These shadow the module-level 0.35 and 0.12.

## Model

| member | source | states |
|---|---|---|
| Seqs.Find | script.js:259 | the index returned is the first whose element satisfies the predicate; none means no element does |
| Seqs.Filter | script.js:223 | the result is no longer than the input, holds only input elements that satisfy the predicate, and keeps every one that does |
| Seqs.FilterConcat | script.js:570-579 | filtering distributes over concatenation |
| Seqs.FilterAll | script.js:570-577 | a predicate that holds everywhere keeps the whole list |
| Seqs.LastOfFilter | script.js:439-442 | the last element of a filtered list is the last element of the input that satisfies the predicate |
| ReferenceData.FindMarketValue | script.js:426-433 | none exactly when no row matches position, age and overall; otherwise the value of the first matching row |
| ReferenceData.FindSalaryBaseline | script.js:435-449 | none exactly when every row's overall is above the request; otherwise the baseline of some row whose overall is at most the request |
| ReferenceData.SalaryExactMatch | script.js:436 | when row i is the first with exactly the requested overall, its baseline is returned |
| ReferenceData.SalaryFallback | script.js:438-443 | with no exact match, the row returned has a lower overall and is the last such row in table order |
| ReferenceData.SalaryGreatestLowerOnSortedTable | script.js:435-449 | on a table sorted by overall, the row returned has the greatest overall not above the request |
| ReferenceData.SalaryFallbackExample | script.js:438-443 | overall 77 against rows 75 and 80 falls back to the row of 75 |
| MoneyText.StripDots | script.js:40 | removing the dots leaves no dot, turns money text into pure digits and leaves pure digits alone |
| MoneyText.StripDotsConcat | script.js:40 | removing dots distributes over concatenation |
| MoneyText.DigitsOf | script.js:53-54 | the decimal text of a natural number is non-empty, has no leading zero and reads back as the number |
| MoneyText.Group | script.js:54 | inserting thousands dots gives money text whose digits, with the dots removed, are the original ones |
| MoneyText.GroupDots | script.js:54 | a character is a dot exactly when it and the characters after it number a multiple of four, so every group after the first has three digits; the first character of a non-empty grouping is never a dot |
| MoneyText.GroupLength | script.js:54 | one dot is inserted per full group of three digits after the first digit, and the first digit stays first |
| MoneyText.ParseMoney | script.js:35-44 | a whole non-negative amount; empty or dot-only text parses to 0; otherwise the value of the digits with the dots removed |
| MoneyText.FormatMoneyDisplay | script.js:50-55 | empty text exactly for 0; money text for every non-negative amount |
| MoneyText.FormatDots | script.js:50-55 | the formatted amount has a dot exactly at every fourth position from the right, and its digits are those of the whole part |
| MoneyText.FormatExample | script.js:48-55 | 1 200 000 is shown as "1.200.000" |
| MoneyText.FormatThenParse | script.js:35-55 | formatting a positive amount and parsing it back gives its whole part |
| MoneyText.FormatThenParseWhole | script.js:35-55 | for every natural n > 0, parsing the formatted n gives n |
| MoneyText.DigitsOfValue | script.js:53-54 | digits without a leading zero are the decimal text of their own value |
| MoneyText.ParseThenFormat | script.js:35-55 | grouped digits without a leading zero parse to their value, and formatting that value gives the same text back |
| Limits.LimitOr | script.js:130-131 | a limit attribute that is present and not 0 is the limit; an absent or zero one gives the fallback, so the limit is 0 only when the fallback is |
| Limits.EnforceLimits | script.js:134-139 | below the minimum gives the minimum, otherwise above the maximum gives the maximum, otherwise the value is unchanged; with consistent limits the result lies within them |
| Limits.BlurMoneyField | script.js:115-146 | a field whose amount already lies within its limits keeps its text; one below the minimum shows the minimum, formatted; one above the maximum (and not below the minimum) shows the maximum, formatted |
| Limits.BlurMoneyFieldWithinLimits | script.js:115-146 | with whole, consistent limits (0 and 999 999 999 when absent or 0), the field's text after it loses focus is money text that reads back within the limits |
| Limits.StepFor | script.js:478-483 | the button step is positive and is the rounding grid step of the current amount (100 000 from 1 000 000 up, 1 000 below), so a press always moves the amount before the limits apply |
| Limits.AdjustAmount | script.js:486-494 | with consistent limits, the stepped amount clamped into them, so below the minimum gives the minimum and above the maximum the maximum; with a minimum above the maximum, the maximum; it moves in the button's direction |
| Limits.AdjustMoneyField | script.js:471-498 | with non-negative, consistent limits the text after a button press is money text (its value is stated by AdjustMoneyFieldReadsBack) |
| Limits.AdjustMoneyFieldReadsBack | script.js:471-498 | the field text after a button press is money text that reads back as the stepped and limited amount |
| Amounts.RateIsOneSixth | script.js:25 | the exchange rate is exactly 1/6 |
| Amounts.RoundHalfUp | script.js:666 | the whole number nearest to the input, an exact half going up: the input lies at most half below it and less than half above it |
| Amounts.GridStep | script.js:664-670 | the grid step is 100 000 from 1 000 000 upwards and 1 000 below |
| Amounts.RoundFee | script.js:664-670 | the rounded fee is a multiple of its grid step, and not negative for a non-negative amount (RoundFeeOnGrid adds the half-step bound) |
| Amounts.RoundFeeOnGrid | script.js:664-670 | the rounded fee is a multiple of its grid step and within half a step of the input, an exact half going up |
| Amounts.RoundHalfUpOfWhole | script.js:666 | rounding a whole number gives the number |
| Amounts.RoundFeeIdempotent | script.js:664-670 | rounding a rounded fee changes nothing |
| Amounts.RoundFeeMonotonic | script.js:664-670 | rounding preserves order |
| Amounts.ConvertFee | script.js:675-680 | the euro fee is a multiple of the grid step of a sixth of the fee, and not negative for a non-negative fee |
| Amounts.ConvertFeeOnGrid | script.js:675-680 | the euro fee is on its grid within half a step of a sixth of the rounded fee |
| Amounts.Percent | script.js:392-395 | 0 for a zero base; otherwise the percentage that recovers the offer from the base, positive or negative exactly as the offer is above or below a positive base |
| Influences.SeverityValue | script.js:195-202 | a table value between -0.15 and 0.15; 0 exactly for a key outside the table; negative exactly for the three bad severities |
| Influences.Updated | script.js:258-268 | the id never changes; the label field changes only the label; the profile field sets the key and its table value and keeps the label |
| Influences.FilterKeepsIdsIncreasing | script.js:223 | filtering keeps ids strictly increasing |
| Influences.IdsIncreasingTail | script.js:211-220 | the tail of a list of increasing ids has increasing ids |
| Influences.IdsIncreasingCons | script.js:211-220 | an entry with a smaller id than all the rest can go in front |
| Influences.SumValues | script.js:579 | the sum of a list whose values are all non-negative is non-negative, and of one whose values are all non-positive is non-positive |
| Influences.Epsilon | script.js:570-579 | with only non-negative influences `epsilon` is not negative, and with only non-positive ones it is not positive, in either regime |
| Influences.SumValuesConcat | script.js:579 | the sum of the values distributes over concatenation |
| Influences.PartsSplitSum | script.js:570-579 | the sum of all values is the negative part plus the positive part; the first is at most 0, the second at least 0 |
| Influences.DeficitEpsilonIsNegativePart | script.js:570-579 | in a deficit `epsilon` is the sum of the negative values only |
| Influences.SurplusEpsilonIsTotal | script.js:570-579 | outside a deficit `epsilon` is the sum of all values |
| Influences.DeficitEpsilonNonPositive | script.js:570-579 | in a deficit `epsilon` is at most 0 |
| Influences.DeficitEpsilonAtMostSurplus | script.js:570-579 | the deficit `epsilon` never exceeds the surplus one |
| Influences.NonNegativeEntryContribution | script.js:570-579 | a new entry with non-negative value leaves the deficit `epsilon` alone and adds its value to the surplus one |
| Influences.SurplusEntryContribution | script.js:570-579 | outside a deficit a new entry of any sign adds its value to `epsilon` |
| Influences.EpsilonBounds | script.js:570-579 | with table values, `epsilon` lies within 0.15 per entry of 0 |
| Influences.Ledger.constructor | script.js:208-209 | an empty list and a counter at 0 |
| Influences.Ledger.Add | script.js:211-220 | the counter goes up by one and a blank entry with the new id is appended; the new id exceeds every old one |
| Influences.Ledger.Remove | script.js:222-225 | exactly the entries with that id go, the others stay in order, the counter stays |
| Influences.Ledger.Update | script.js:258-268 | the first entry with that id is replaced by its update, and an unknown id changes nothing |
| Influences.Ledger.Reset | script.js:863-864 | the list empties and the counter returns to 0 |
| FeeEngine.ProfileOf | script.js:181-186 | the weights lie within the ceiling weights and the k factor within [0, 1]; any key other than the three named profiles gives `padrao` |
| FeeEngine.AtLeastFloor | script.js:602-603 | exactly 0.1 below 0.1, and unchanged from 0.1 up |
| FeeEngine.VtcBase | script.js:544 | the base contract value is 0 over no years and one yearly package (twelve monthly salaries plus the yearly bonus) over one year; PositivePackage gives its sign |
| FeeEngine.VtcOffered | script.js:547 | the offered value over no years is the offered bonus alone; with non-negative offers it is never below the offered bonus |
| FeeEngine.RelativeDifference | script.js:550 | an offer equal to the base gives 0; a non-negative offer against a positive base is at most 100 % short (DivisionMeaning gives the sign and the gap) |
| FeeEngine.SatisfactionTerm | script.js:555-558 | a satisfaction of 50 gives 0; with the default divisor 500, a satisfaction in [0, 100] gives a term in [-0.1, 0.1] |
| FeeEngine.DeficitMultipliers | script.js:590-607 | both multipliers are at least 0.1; the breakdown has `detalheK` 1 and no bonus term, and the suggested multiplier is its floored sum (DeficitMultipliersShape states the rest) |
| FeeEngine.SurplusMultipliers | script.js:609-655 | the maximum is exactly the sum of the five breakdown terms, with `detalheK` equal to `kBase` and the influence term equal to `epsilon` (SurplusGap and SurplusInfluenceShift relate it to the suggested) |
| FeeEngine.MultipliersFor | script.js:590-655 | a negative difference gives multipliers of at least 0.1 with no bonus term; in either regime the influence term of the breakdown is `epsilon` |
| FeeEngine.Evaluate | script.js:512-680 | a result exactly when the input passes the three checks, and the missing-data error whenever position, age or overall is missing |
| FeeEngine.PositivePackage | script.js:542-544 | a baseline with a positive yearly package over at least one year has a positive total value |
| FeeEngine.VtcBasePositive | script.js:538-544 | for an admissible input that passes the checks, the baseline that was found has a positive total value |
| FeeEngine.ComputeDeficit | script.js:590-607 | the deficit branch computes the floored maximum `1 + delta + epsilon` and the suggested `maximum + delta * (1 - k factor)` with its breakdown |
| FeeEngine.ComputeSurplus | script.js:609-655 | the surplus branch's `+=` steps add up to the maximum and suggested multipliers, with the zero-baseline guards |
| FeeEngine.ComputeMultipliers | script.js:590-655 | the sign of `deltaGlobal` picks the branch |
| FeeEngine.ComputeFee | script.js:512-680 | the method's result is exactly the specification `Evaluate`: an error for each failed check, otherwise the totals, regime, multipliers and rounded fees in both currencies |
| FeeProperties.Found | script.js:533-540 | a success means both lookups found something, with a non-zero market value and a positive base value |
| FeeProperties.ValidationOrder | script.js:533-540 | missing data is reported first; then a missing or zero market value; then a missing salary baseline; success exactly when all three pass |
| FeeProperties.DeltaMeaning | script.js:542-550 | the base is positive, the difference times the base is the gap between offer and base, and the regime is deficit, surplus or neutral exactly as the offer is below, above or equal to the base |
| FeeProperties.DivisionMeaning | script.js:550 | the relative difference recovers the gap, and its sign is the sign of the gap |
| FeeProperties.FeesFollowMultipliers | script.js:659-680 | both fees are on their grid within half a step of market value times multiplier; the euro fees are on their grid, each within half a step of a sixth of its real fee |
| FeeProperties.DeficitShape | script.js:570-607 | in a deficit `epsilon` is the negative part; the maximum is the floored `1 + delta + epsilon`; the suggested is the floored `1 + delta + epsilon + delta * (1 - k factor)`; the breakdown is `detalheK` 1, the unzeroed satisfaction term, `detalheSal = delta * (2 - k factor)`, no bonus term and `epsilon`, and the suggested is its floored sum; 0.1 <= suggested <= maximum |
| FeeProperties.DeficitMultipliersShape | script.js:590-607 | for any difference, satisfaction, epsilon and profile, the deficit maximum is the floored `1 + delta + epsilon`, the suggested the floored `maximum + delta * (1 - k factor)` with that breakdown, and 0.1 <= suggested <= maximum |
| FeeProperties.SurplusShape | script.js:609-655 | outside a deficit `epsilon` is the sum of all influences, `detalheK` is `kBase`, and the maximum is exactly the sum of the five breakdown terms, with no floor |
| FeeProperties.SurplusTerms | script.js:609-655 | outside a deficit `epsilon` is the sum of every influence and the multipliers are the surplus multipliers of `kBase`, the satisfaction term, the relative salary and bonus differences and `epsilon`; each breakdown term is stated; a baseline salary or a baseline bonus over the period that is not positive contributes 0 |
| FeeProperties.SurplusResult | script.js:609-655 | for any result whose difference is not negative and whose multipliers are the surplus ones, the suggested multiplier is `1 + (kBase - 1) * k factor + satisfaction + salary difference * profile salary weight + bonus difference * profile bonus weight + epsilon`, and the breakdown and zero-baseline guards are as in SurplusTerms |
| FeeProperties.SurplusSuggestedAtMostMaximum | script.js:609-655 | with `kBase` at least 1 and offers at or above the baseline, suggested is at most maximum |
| FeeProperties.SurplusGap | script.js:609-655 | the surplus maximum exceeds the suggested by profile weights no larger than the ceiling weights |
| FeeProperties.ProportionNonNegative | script.js:630-644 | an offer at or above the baseline has a non-negative relative difference |
| FeeProperties.ProportionMonotonic | script.js:630-633 | the salary difference grows with the offer |
| FeeProperties.SurplusMonotoneInSalary | script.js:542-655 | raising the offered salary keeps the result out of a deficit and does not lower either multiplier |
| FeeProperties.MultipliersMonotoneInSalary | script.js:609-655 | surplus multipliers do not decrease with the difference and the offered salary |
| FeeProperties.OfferedMonotonic | script.js:547 | the offered total grows with the offered salary |
| FeeProperties.DeltaMonotonic | script.js:550 | the relative difference grows with the offer |
| FeeProperties.DeficitIgnoresNonNegativeInfluence | script.js:570-579 | in a deficit, adding a non-negative influence changes nothing in the result |
| FeeProperties.SameEpsilonSameAppraisal | script.js:570-680 | the influences reach the result only through `epsilon`: two lists with the same `epsilon` give the same result |
| FeeProperties.SurplusInfluenceShift | script.js:609-655 | the surplus multipliers are linear in `epsilon`: adding `d` to it adds `d` to both |
| FeeProperties.MultipliersInfluenceShift | script.js:590-655 | the same for the multipliers of a difference that is not negative |
| FeeProperties.SurplusShift | script.js:570-655 | two results with surplus parts whose influence lists differ by one entry differ by its value in `epsilon` and in both multipliers |
| FeeProperties.SurplusAddsInfluence | script.js:570-579 | outside a deficit, adding an influence of any sign adds its value to `epsilon` and to both multipliers |
| FeeProperties.OfferAtBaseline | script.js:542-550 | offering exactly the baseline salary and bonus gives a difference of 0 |
| FeeProperties.NeutralAtBaseline | script.js:542-655 | offering exactly the baseline gives the neutral regime, the surplus multipliers with salary and bonus differences of 0, and maximum `kBase + satisfaction + influences` |
| FeeProperties.NeutralResult | script.js:609-655 | for any result with the parts of an offer at the baseline, the regime is neutral, the maximum is `kBase + satisfaction + influences` and the suggested is `1 + (kBase - 1) * k factor + satisfaction + influences` |
| FeeProperties.NeutralMultipliers | script.js:609-655 | at a difference of 0 with baseline offers, the salary and bonus terms vanish |
| FeeExamples.Lookups | script.js:426-449 | the example tables yield the market value and the salary baseline |
| FeeExamples.SurplusExample | script.js:512-680 | 110 000 a month against a 100 000 baseline and a market value of 10 000 000: surplus, multipliers 1.15 and 1.06, fees 11 500 000 and 10 600 000, euro 1 900 000 and 1 800 000 |
| FeeExamples.DeficitExample | script.js:512-680 | 50 000 a month against the same baseline: a deficit of -3/7, multipliers 4/7 and 5/14, fees 5 700 000 and 3 600 000, euro 950 000 and 600 000 |

## Left out

- Reading and writing the page (`getElementById`, `textContent`, CSS classes, `innerHTML` in `renderizarInfluencias`, tooltips, explanation texts, the magnitude and percentage badges) is presentation, so it is not modelled. Values read from the page are fields of `FeeInput`, and an absent element is `None`, which selects the code's default.
- The cursor restoration in `formatMoneyInput`, the `setTimeout` feedback in `enforceLimits` and the event wiring are user-interface glue, so they are not modelled.
- `formatarBRL`, `formatarEUR`, `formatarDecimal` and `formatarSemMoeda` are thin wrappers over `Intl`, so they are not modelled.
- The hand-off to `proposta.html` is navigation, so it is not modelled.
- The contents of `DB_MERCADO` and `DB_SALARIO` are not shown. The model takes them as sequence parameters.
- Amounts are exact reals, not IEEE-754 doubles. NaN, Infinity and floating-point rounding error are not modelled.
- An age or overall that is missing or not a number is modelled as 0. It is falsy in the source as well.
- The page's other text-to-number reads (`parseInt`, `parseFloat`) are not modelled. The model takes those numbers directly.
- MoneyText.ParseMoney: this is `parseMoney` restricted to text of digits and dots. The source also accepts other text, where `parseFloat` reads a leading number, and passes numbers through unchanged.
- MoneyText.FormatMoneyDisplay: numbers of 10^21 and above, which JavaScript prints in exponent notation, are not distinguished.
- FeeEngine.Evaluate: once an input passes the three checks, it must have at least one contract year, a non-zero satisfaction divisor, and a selected salary row with a positive yearly package. Inputs that fail a check need nothing. The source guards neither the division at script.js:550 nor the one at script.js:558. Zero years, a zero yearly package or a zero divisor give NaN or Infinity there. Negative years or a negative package make the base value negative but not 0, and the source then computes a finite fee. Neither case is modelled.
- Influences.Updated: `atualizarInfluencia` can write any field name. The model covers the two fields the page edits, the label and the severity key.
- A severity key that names an inherited property of a JavaScript object (the `?.` lookup on `PERFIS_INFLUENCIA`, the `||` lookup on `PERFIS`) is treated like any other unknown key.
- FeeProperties.AssessParts, FeeProperties.RealiseParts, FeeProperties.AppraiseIsRealise, FeeProperties.TotalsOf, FeeProperties.PartsOf, FeeProperties.FeesOf, FeeProperties.DeficitParts, FeeProperties.SurplusParts, FeeProperties.NeutralParts, FeeProperties.RaisedSalaryParts and FeeEngine.AssessSteps unfold the specification for the proofs and are not listed above. MoneyText.MoneyTextConcat is a helper of the formatting proofs and models no line of the source.
- FeeEngine's definitions of `calcularMulta`'s steps carry no contract of their own. The lemmas that state their behaviour are listed above instead:
  - FeeEngine.Incomplete is the missing-data check at script.js:533-535. FeeProperties.ValidationOrder and FeeEngine.Evaluate state it.
  - FeeEngine.RegimeOf is the regime classification at script.js:738-744 (a negative, positive or zero `deltaGlobal`). FeeProperties.DeltaMeaning states it.
  - FeeEngine.Proportion is the relative salary and bonus difference at script.js:630-633 and 643-646. FeeProperties.ProportionNonNegative and FeeProperties.ProportionMonotonic state it.
  - FeeEngine.Assess is the computation at script.js:542-655. FeeProperties.DeltaMeaning, DeficitShape, SurplusShape and NeutralAtBaseline state it.
  - FeeEngine.Realise is the rounding and conversion at script.js:658-680. FeeProperties.FeesFollowMultipliers states it.
  - FeeEngine.Appraise combines Assess and Realise, so the lemmas for those two state it as well. FeeProperties.DeficitResult restates DeficitShape for any result with the deficit regime's parts, which keeps that proof small.
