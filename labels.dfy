/**
 * Display labels such as "100 ₽" or "150 ккал" carry their number as text.
 * The application reads the number back with the regular expression /(\d+)/
 * and parseInt: the value of the first maximal run of ASCII decimal digits,
 * or 0 when the label holds no digit. Numbers are written back into labels
 * in plain decimal (`${n} ₽`), which Decimal models.
 */
module Labels {

  predicate IsDigit(c: char) {
    '0' <= c <= '9'
  }

  predicate AllDigits(s: string) {
    forall i | 0 <= i < |s| :: IsDigit(s[i])
  }

  predicate NoDigits(s: string) {
    forall i | 0 <= i < |s| :: !IsDigit(s[i])
  }

  function DigitValue(c: char): (d: nat)
    requires IsDigit(c)
    ensures d < 10
  {
    c as int - '0' as int
  }

  function DigitChar(d: nat): (c: char)
    requires d < 10
    ensures IsDigit(c) && DigitValue(c) == d
  {
    ('0' as int + d) as char
  }

  /** The longest prefix of `s` made of digits only. */
  function LeadingDigits(s: string): (r: string)
    ensures |r| <= |s| && r == s[..|r|]
    ensures AllDigits(r)
    ensures |r| == |s| || !IsDigit(s[|r|])
  {
    if s == [] || !IsDigit(s[0]) then []
    else [s[0]] + LeadingDigits(s[1..])
  }

  /** The number a string of decimal digits denotes, leading zeros allowed (as parseInt reads it). */
  function DigitsValue(ds: string): nat
    requires AllDigits(ds)
  {
    if ds == [] then 0
    else 10 * DigitsValue(ds[..|ds| - 1]) + DigitValue(ds[|ds| - 1])
  }

  /** The numeric value of a label: its first maximal digit run, or 0 when it has none. */
  function LabelValue(text: string): nat {
    if text == [] then 0
    else if IsDigit(text[0]) then DigitsValue(LeadingDigits(text))
    else LabelValue(text[1..])
  }

  /** The decimal rendering of a number, without leading zeros. */
  function Decimal(n: nat): (r: string)
    ensures |r| > 0 && AllDigits(r)
    ensures |r| > 1 ==> r[0] != '0'
    decreases n
  {
    if n < 10 then [DigitChar(n)]
    else Decimal(n / 10) + [DigitChar(n % 10)]
  }

  lemma {:induction false} DecimalValue(n: nat)
    ensures DigitsValue(Decimal(n)) == n
    decreases n
  {
    if n >= 10 {
      var r := Decimal(n);
      assert r[..|r| - 1] == Decimal(n / 10);
      DecimalValue(n / 10);
    }
  }

  /**
   * Reference characterisation of LabelValue: whatever label is split into
   * a digit-free prefix, a non-empty digit run and a rest that does not
   * continue the run, the label's value is the value of that run.
   */
  lemma {:induction false} LabelValueOfSplit(pre: string, ds: string, rest: string)
    requires NoDigits(pre)
    requires ds != [] && AllDigits(ds)
    requires rest == [] || !IsDigit(rest[0])
    ensures LabelValue(pre + ds + rest) == DigitsValue(ds)
  {
    if pre == [] {
      assert pre + ds + rest == ds + rest;
      LeadingDigitsOfRun(ds, rest);
    } else {
      assert (pre + ds + rest)[1..] == pre[1..] + ds + rest;
      LabelValueOfSplit(pre[1..], ds, rest);
    }
  }

  lemma {:induction false} LeadingDigitsOfRun(ds: string, rest: string)
    requires AllDigits(ds)
    requires rest == [] || !IsDigit(rest[0])
    ensures LeadingDigits(ds + rest) == ds
  {
    if ds != [] {
      assert (ds + rest)[1..] == ds[1..] + rest;
      LeadingDigitsOfRun(ds[1..], rest);
    }
  }

  /** A label without any digit is worth 0 (the regular expression does not match). */
  lemma {:induction false} LabelValueNoDigits(text: string)
    requires NoDigits(text)
    ensures LabelValue(text) == 0
  {
    if text != [] {
      LabelValueNoDigits(text[1..]);
    }
  }

  /** Round trip: rendering a number and then reading the label back gives the number. */
  lemma LabelValueOfDecimal(n: nat, suffix: string)
    requires suffix == [] || !IsDigit(suffix[0])
    ensures LabelValue(Decimal(n) + suffix) == n
  {
    var ds := Decimal(n);
    assert (ds + suffix)[0] == ds[0];
    LeadingDigitsOfRun(ds, suffix);
    DecimalValue(n);
  }
}
