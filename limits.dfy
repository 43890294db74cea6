/**
 * Input limits: the correction a field gets when it loses focus
 * (`enforceLimits`) and the +/- buttons of the money fields
 * (`ajustarValorMonetario`).
 */
module Limits {
  import opened Wrappers
  import opened MoneyText
  import opened Amounts

  /** Upper limit used when a field declares none. */
  const DefaultMax: real := 999999999.0

  /**
   * A limit attribute read as `Number(attribute) || fallback`: an absent
   * attribute, one that is not a number and one equal to 0 all fall back.
   */
  function LimitOr(attribute: Option<real>, fallback: real): (r: real)
    ensures r == fallback || attribute == Some(r)
    ensures r == 0.0 ==> r == fallback
    ensures attribute.Some? && attribute.value != 0.0 ==> r == attribute.value
  {
    match attribute
    case Some(v) => if v != 0.0 then v else fallback
    case None => fallback
  }

  /** The correction of `enforceLimits`: below the minimum takes the minimum, else above the maximum takes the maximum. */
  function EnforceLimits(v: real, min: real, max: real): (r: real)
    ensures min <= max ==> min <= r <= max
    ensures min <= v <= max ==> r == v
    ensures v < min ==> r == min
    ensures min <= v && max < v ==> r == max
  {
    if v < min then min else if v > max then max else v
  }

  /**
   * The text of a money field after it loses focus: unchanged when its
   * value is within the limits, otherwise the corrected value formatted.
   */
  function BlurMoneyField(text: string, minAttribute: Option<real>, maxAttribute: Option<real>): (r: string)
    requires IsMoneyText(text)
    ensures LimitOr(minAttribute, 0.0) <= ParseMoney(text) <= LimitOr(maxAttribute, DefaultMax) ==> r == text
    ensures ParseMoney(text) < LimitOr(minAttribute, 0.0) ==> r == FormatMoneyDisplay(LimitOr(minAttribute, 0.0))
    ensures LimitOr(minAttribute, 0.0) <= ParseMoney(text) && LimitOr(maxAttribute, DefaultMax) < ParseMoney(text)
      ==> r == FormatMoneyDisplay(LimitOr(maxAttribute, DefaultMax))
  {
    var v := ParseMoney(text);
    var corrected := EnforceLimits(v, LimitOr(minAttribute, 0.0), LimitOr(maxAttribute, DefaultMax));
    if corrected != v then FormatMoneyDisplay(corrected) else text
  }

  /**
   * With whole, non-negative, consistent limits a money field that has
   * lost focus always reads back as an amount within its limits.
   */
  lemma BlurMoneyFieldWithinLimits(text: string, minAttribute: Option<real>, maxAttribute: Option<real>)
    requires IsMoneyText(text)
    requires 0.0 <= LimitOr(minAttribute, 0.0) <= LimitOr(maxAttribute, DefaultMax)
    requires LimitOr(minAttribute, 0.0).Floor as real == LimitOr(minAttribute, 0.0)
    requires LimitOr(maxAttribute, DefaultMax).Floor as real == LimitOr(maxAttribute, DefaultMax)
    ensures IsMoneyText(BlurMoneyField(text, minAttribute, maxAttribute))
    ensures var r := ParseMoney(BlurMoneyField(text, minAttribute, maxAttribute));
      LimitOr(minAttribute, 0.0) <= r <= LimitOr(maxAttribute, DefaultMax)
  {
    var min, max := LimitOr(minAttribute, 0.0), LimitOr(maxAttribute, DefaultMax);
    var v := ParseMoney(text);
    var corrected := EnforceLimits(v, min, max);
    if corrected != v && corrected != 0.0 {
      FormatThenParse(corrected);
    }
  }

  /** The button step: 100 000 from 1 000 000 upwards, 1 000 below, the same grid the fees are rounded to. */
  function StepFor(v: real): (step: real)
    ensures step > 0.0
    ensures step == GridStep(v) as real
  {
    if v >= 1000000.0 then 100000.0 else 1000.0
  }

  /**
   * The amount `ajustarValorMonetario` writes back: one step up or down,
   * then raised to the minimum, then lowered to the maximum.
   */
  function AdjustAmount(v: real, increment: bool, min: real, max: real): (r: real)
    ensures r <= max
    ensures min <= max ==> min <= r
    ensures var stepped := if increment then v + StepFor(v) else v - StepFor(v);
      min <= stepped <= max ==> r == stepped
    ensures min <= max && min <= v <= max ==> (increment ==> v <= r) && (!increment ==> r <= v)
    ensures var stepped := if increment then v + StepFor(v) else v - StepFor(v);
      min <= max ==> r == EnforceLimits(stepped, min, max)
    ensures max < min ==> r == max
  {
    var stepped := if increment then v + StepFor(v) else v - StepFor(v);
    var raised := if stepped < min then min else stepped;
    if raised > max then max else raised
  }

  /** The text of a money field after one press of its + or - button. */
  function AdjustMoneyField(text: string, increment: bool, minAttribute: Option<real>, maxAttribute: Option<real>): (r: string)
    requires IsMoneyText(text)
    ensures 0.0 <= LimitOr(minAttribute, 0.0) <= LimitOr(maxAttribute, DefaultMax) ==> IsMoneyText(r)
  {
    FormatMoneyDisplay(AdjustAmount(ParseMoney(text), increment, LimitOr(minAttribute, 0.0), LimitOr(maxAttribute, DefaultMax)))
  }

  /**
   * With whole, non-negative, consistent limits the adjusted field reads
   * back exactly as the stepped and limited amount.
   */
  lemma AdjustMoneyFieldReadsBack(text: string, increment: bool, minAttribute: Option<real>, maxAttribute: Option<real>)
    requires IsMoneyText(text)
    requires 0.0 <= LimitOr(minAttribute, 0.0) <= LimitOr(maxAttribute, DefaultMax)
    requires LimitOr(minAttribute, 0.0).Floor as real == LimitOr(minAttribute, 0.0)
    requires LimitOr(maxAttribute, DefaultMax).Floor as real == LimitOr(maxAttribute, DefaultMax)
    ensures IsMoneyText(AdjustMoneyField(text, increment, minAttribute, maxAttribute))
    ensures ParseMoney(AdjustMoneyField(text, increment, minAttribute, maxAttribute))
      == AdjustAmount(ParseMoney(text), increment, LimitOr(minAttribute, 0.0), LimitOr(maxAttribute, DefaultMax))
  {
    var v := ParseMoney(text);
    var r := AdjustAmount(v, increment, LimitOr(minAttribute, 0.0), LimitOr(maxAttribute, DefaultMax));
    var k := v.Floor;
    var stepped := if increment then v + StepFor(v) else v - StepFor(v);
    assert stepped == (if increment then k + StepFor(v).Floor else k - StepFor(v).Floor) as real;
    assert r.Floor as real == r;
    if r != 0.0 {
      FormatThenParse(r);
    }
  }
}
