/**
 * Money fields as the page shows them: whole amounts written with a dot
 * as the thousands separator ("1.200.000"), read back by `parseMoney`
 * and written by `formatMoneyDisplay`.
 */
module MoneyText {

  predicate IsDigit(c: char) {
    '0' <= c <= '9'
  }

  predicate IsDigits(s: string) {
    forall i :: 0 <= i < |s| ==> IsDigit(s[i])
  }

  /** Text the money mask can hold: decimal digits and thousands dots. */
  predicate IsMoneyText(s: string) {
    forall i :: 0 <= i < |s| ==> IsDigit(s[i]) || s[i] == '.'
  }

  function DigitValue(c: char): (d: nat)
    requires IsDigit(c)
    ensures d < 10
  {
    c as int - '0' as int
  }

  function DigitChar(d: nat): (c: char)
    requires d < 10
    ensures IsDigit(c) && DigitValue(c) == d
  {
    ('0' as int + d) as char
  }

  /** The text with every dot removed (the global replace of "."). */
  function StripDots(s: string): (r: string)
    ensures |r| <= |s|
    ensures forall i :: 0 <= i < |r| ==> r[i] != '.'
    ensures IsMoneyText(s) ==> IsDigits(r)
    ensures IsDigits(s) ==> r == s
  {
    if s == [] then []
    else (if s[0] == '.' then [] else [s[0]]) + StripDots(s[1..])
  }

  lemma MoneyTextConcat(a: string, b: string)
    requires IsMoneyText(a) && IsMoneyText(b)
    ensures IsMoneyText(a + b)
  {
    forall i | 0 <= i < |a + b| ensures IsDigit((a + b)[i]) || (a + b)[i] == '.' {
      if i >= |a| {
        assert (a + b)[i] == b[i - |a|];
      }
    }
  }

  lemma {:induction false} StripDotsConcat(a: string, b: string)
    ensures StripDots(a + b) == StripDots(a) + StripDots(b)
  {
    if a == [] {
      assert a + b == b;
    } else {
      assert (a + b)[1..] == a[1..] + b;
      StripDotsConcat(a[1..], b);
    }
  }

  /** Decimal value of a digit string read left to right, as `parseFloat` reads it. */
  function DigitsValue(s: string): nat
    requires IsDigits(s)
  {
    if s == [] then 0 else DigitsValue(s[..|s| - 1]) * 10 + DigitValue(s[|s| - 1])
  }

  /** Decimal digits of `n`, most significant first, as `toString` writes a whole number. */
  function DigitsOf(n: nat): (r: string)
    ensures |r| > 0 && IsDigits(r)
    ensures n > 0 ==> r[0] != '0'
    ensures DigitsValue(r) == n
  {
    if n < 10 then [DigitChar(n)]
    else
      var r := DigitsOf(n / 10) + [DigitChar(n % 10)];
      assert r[..|r| - 1] == DigitsOf(n / 10);
      r
  }

  /**
   * A digit string with a dot before every complete group of three digits
   * counted from the right, never at the front: the replace of the pattern
   * "\B(?=(\d{3})+(?!\d))" by ".".
   */
  function Group(d: string): (r: string)
    requires IsDigits(d)
    ensures IsMoneyText(r)
    ensures StripDots(r) == d
  {
    if |d| <= 3 then d
    else
      var head, tail := d[..|d| - 3], d[|d| - 3..];
      SplitDigits(d, |d| - 3);
      GroupStep(Group(head), head, tail);
      Group(head) + "." + tail
  }

  lemma SplitDigits(d: string, k: nat)
    requires IsDigits(d) && k <= |d|
    ensures IsDigits(d[..k]) && IsDigits(d[k..])
    ensures d == d[..k] + d[k..]
  {
  }

  /** A grouped prefix, a dot and three more digits are still grouped text of the joined digits. */
  lemma GroupStep(g: string, head: string, tail: string)
    requires IsMoneyText(g) && StripDots(g) == head && IsDigits(tail)
    ensures IsMoneyText(g + "." + tail)
    ensures StripDots(g + "." + tail) == head + tail
  {
    var gd := g + ".";
    assert IsMoneyText(gd) by { MoneyTextConcat(g, "."); }
    assert IsMoneyText(gd + tail) by { MoneyTextConcat(gd, tail); }
    assert StripDots(gd) == head by {
      StripDotsConcat(g, ".");
      assert StripDots(".") == [];
    }
    assert StripDots(gd + tail) == head + tail by {
      StripDotsConcat(gd, tail);
      assert StripDots(tail) == tail;
    }
  }

  /**
   * Where the dots go: exactly at the positions followed by a multiple of
   * three digits, that is every fourth character counted from the right.
   */
  lemma {:induction false} GroupDots(d: string)
    requires IsDigits(d)
    ensures DotsEveryFourth(Group(d))
    ensures |d| > 0 ==> Group(d)[0] != '.'
  {
    if |d| > 0 {
      GroupLength(d);
      assert IsDigit(d[0]);
    }
    if |d| <= 3 {
      DigitsHaveNoDots(d);
    } else {
      var head, tail := d[..|d| - 3], d[|d| - 3..];
      assert IsDigits(head) && IsDigits(tail);
      GroupDots(head);
      DotsStep(Group(head), tail);
    }
  }

  /** Dots exactly at the positions followed by a multiple of three characters. */
  predicate DotsEveryFourth(r: string) {
    forall i :: 0 <= i < |r| ==> (r[i] == '.' <==> (|r| - i) % 4 == 0)
  }

  lemma DigitsHaveNoDots(d: string)
    requires IsDigits(d) && |d| <= 3
    ensures DotsEveryFourth(d)
  {
    forall i | 0 <= i < |d| ensures (d[i] == '.' <==> (|d| - i) % 4 == 0) {
      assert IsDigit(d[i]);
    }
  }

  lemma DotsStep(g: string, tail: string)
    requires DotsEveryFourth(g) && IsDigits(tail) && |tail| == 3
    ensures DotsEveryFourth(g + "." + tail)
  {
    var r := g + "." + tail;
    forall i | 0 <= i < |r| ensures (r[i] == '.' <==> (|r| - i) % 4 == 0) {
      if i < |g| {
        assert r[i] == g[i];
        assert |r| - i == (|g| - i) + 4;
      } else if i > |g| {
        assert r[i] == tail[i - |g| - 1];
        assert IsDigit(tail[i - |g| - 1]);
      }
    }
  }

  /** Grouping adds one dot per complete group of three digits after the first digit and keeps the leading digit in front. */
  lemma {:induction false} GroupLength(d: string)
    requires IsDigits(d) && |d| > 0
    ensures |Group(d)| == |d| + (|d| - 1) / 3
    ensures Group(d)[0] == d[0]
  {
    if |d| > 3 {
      GroupLength(d[..|d| - 3]);
    }
  }

  /**
   * `parseMoney` on text the money mask produced: the empty field reads as
   * 0, the dots are removed and the digits read as a decimal number; a
   * field of dots alone is not a number and reads as 0.
   */
  function ParseMoney(s: string): (r: real)
    requires IsMoneyText(s)
    ensures r >= 0.0 && r == r.Floor as real
    ensures StripDots(s) == [] ==> r == 0.0
    ensures StripDots(s) != [] ==> r == DigitsValue(StripDots(s)) as real
  {
    if s == [] then 0.0
    else
      var digits := StripDots(s);
      if digits == [] then 0.0 else DigitsValue(digits) as real
  }

  /**
   * `formatMoneyDisplay`: the empty text for 0, otherwise the integer part
   * (rounded down) with thousands dots and a leading minus when negative.
   */
  function FormatMoneyDisplay(v: real): (r: string)
    ensures r == [] <==> v == 0.0
    ensures v >= 0.0 ==> IsMoneyText(r)
  {
    if v == 0.0 then []
    else
      var n := v.Floor;
      if n < 0 then "-" + Group(DigitsOf(-n)) else Group(DigitsOf(n))
  }

  /**
   * A non-negative amount is shown as the digits of its integer part with a
   * dot before every complete group of three counted from the right.
   */
  lemma FormatDots(v: real)
    requires v >= 0.0
    ensures DotsEveryFourth(FormatMoneyDisplay(v))
    ensures v != 0.0 ==> StripDots(FormatMoneyDisplay(v)) == DigitsOf(v.Floor)
  {
    if v != 0.0 {
      GroupDots(DigitsOf(v.Floor));
    } else {
      assert FormatMoneyDisplay(v) == [];
    }
  }

  /** The page's own example: 1200000 is shown as "1.200.000". */
  lemma FormatExample()
    ensures FormatMoneyDisplay(1200000.0) == "1.200.000"
  {
    DigitsExample();
    GroupExample();
  }

  lemma DigitsExample()
    ensures DigitsOf(1200000) == "1200000"
  {
    assert DigitsOf(1) == "1";
    assert DigitsOf(12) == "12";
    assert DigitsOf(120) == "120";
    assert DigitsOf(1200) == "1200";
    assert DigitsOf(12000) == "12000";
    assert DigitsOf(120000) == "120000";
  }

  lemma GroupExample()
    ensures Group("1200000") == "1.200.000"
  {
    GroupThousands();
    assert "1200000"[..4] == "1200" && "1200000"[4..] == "000";
  }

  lemma GroupThousands()
    ensures Group("1200") == "1.200"
  {
    assert "1200"[..1] == "1" && "1200"[1..] == "200";
  }

  /** Reading back a formatted positive amount gives its integer part. */
  lemma {:induction false} FormatThenParse(v: real)
    requires v > 0.0
    ensures IsMoneyText(FormatMoneyDisplay(v))
    ensures ParseMoney(FormatMoneyDisplay(v)) == v.Floor as real
  {
    var d := DigitsOf(v.Floor);
    assert FormatMoneyDisplay(v) == Group(d);
    assert StripDots(Group(d)) == d;
  }

  /** In particular every positive whole amount survives the round trip: "1.200.000" is 1200000. */
  lemma FormatThenParseWhole(n: nat)
    requires n > 0
    ensures ParseMoney(FormatMoneyDisplay(n as real)) == n as real
  {
    FormatThenParse(n as real);
  }

  /** A digit string without a leading zero is what `toString` writes for its value. */
  lemma {:induction false} DigitsOfValue(d: string)
    requires IsDigits(d) && |d| > 0 && d[0] != '0'
    ensures DigitsOf(DigitsValue(d)) == d
  {
    var front := d[..|d| - 1];
    if |front| == 0 {
      assert d == [d[0]];
    } else {
      assert IsDigits(front) && front[0] == d[0];
      DigitsOfValue(front);
      var n := DigitsValue(d);
      assert DigitsValue(front) > 0;
      assert n / 10 == DigitsValue(front) && n % 10 == DigitValue(d[|d| - 1]);
      assert d == front + [d[|d| - 1]];
    }
  }

  /**
   * Conversely, text in the page's own format (digits grouped by dots, no
   * leading zero) is reproduced exactly by parsing and formatting it again.
   */
  lemma ParseThenFormat(d: string)
    requires IsDigits(d) && |d| > 0 && d[0] != '0'
    ensures ParseMoney(Group(d)) == DigitsValue(d) as real
    ensures FormatMoneyDisplay(ParseMoney(Group(d))) == Group(d)
  {
    DigitsOfValue(d);
    var n := DigitsValue(d);
    assert n > 0;
    assert (n as real).Floor == n;
  }
}
