/** `parseFloat` of ECMAScript 2015 and later, section "parseFloat (string)":
    skip leading whitespace, then read the longest prefix that is a decimal
    literal (optional sign, `Infinity`, digits with an optional point and
    fraction, an optional exponent); no such prefix gives NaN. */
module JsNumber {
  import opened Common

  /** The longest prefix of `s` made of decimal digits. */
  function DigitRun(s: string): (r: string)
    ensures |r| <= |s| && AllDigits(r)
  {
    if s == [] || !IsDigit(s[0]) then [] else [s[0]] + DigitRun(s[1..])
  }

  /** The run is a prefix, and the character after it is not a digit. */
  lemma {:induction false} DigitRunShape(s: string)
    ensures var r := DigitRun(s); r == s[..|r|] && (|r| == |s| || !IsDigit(s[|r|]))
  {
    if s != [] && IsDigit(s[0]) {
      DigitRunShape(s[1..]);
    }
  }

  lemma {:induction false} DigitRunOfDigits(w: string, rest: string)
    requires AllDigits(w)
    requires rest == [] || !IsDigit(rest[0])
    ensures DigitRun(w + rest) == w
  {
    if w != [] {
      assert (w + rest)[1..] == w[1..] + rest;
      DigitRunOfDigits(w[1..], rest);
    } else {
      assert w + rest == rest;
    }
  }

  /** The exponent `e12`, `E-3`, `e+4` at the start of `s`, or 0 when there is none. */
  function ExponentPart(s: string): int
  {
    if |s| >= 2 && (s[0] == 'e' || s[0] == 'E') then
      var body := if s[1] == '-' || s[1] == '+' then s[2..] else s[1..];
      var d := DigitRun(body);
      if d == [] then 0 else if s[1] == '-' then -(DigitsValue(d) as int) else DigitsValue(d)
    else 0
  }

  /** `m * 10^e`. */
  function Scale(m: real, e: int): (r: real)
    ensures m >= 0.0 ==> r >= 0.0
  {
    if e >= 0 then m * Pow10(e) else m / Pow10(-e)
  }

  /** The unsigned text begins a decimal literal. */
  predicate BeginsNumber(u: string) {
    OccursAt(u, 0, "Infinity") || (u != [] && IsDigit(u[0]))
    || (|u| >= 2 && u[0] == '.' && IsDigit(u[1]))
  }

  /** The value of the longest unsigned decimal literal at the start of `u`. */
  function ParseUnsigned(u: string): (r: Number)
    ensures r.NaN? <==> !BeginsNumber(u)
    ensures r.PosInfinity? <==> OccursAt(u, 0, "Infinity")
    ensures !r.NegInfinity?
    ensures r.Finite? ==> r.value >= 0.0
  {
    if OccursAt(u, 0, "Infinity") then PosInfinity
    else
      var w := DigitRun(u);
      var rest := u[|w|..];
      var hasPoint := rest != [] && rest[0] == '.';
      var f := if hasPoint then DigitRun(rest[1..]) else [];
      if w == [] && f == [] then NaN
      else
        var after := if hasPoint then rest[1 + |f|..] else rest;
        Finite(Scale(DecimalValue(w, f), ExponentPart(after)))
  }

  /** Every character is a digit or a point: the text of `[\d.]+`. */
  predicate DigitsAndPoints(s: string) {
    forall i :: 0 <= i < |s| ==> IsDigit(s[i]) || s[i] == '.'
  }

  /** A character of the class `[\d.]`. */
  predicate IsDigitOrPoint(c: char) {
    IsDigit(c) || c == '.'
  }

  /** The longest prefix made of digits and points: `[\d.]+` read greedily. */
  function PointRun(s: string): (r: string)
    ensures |r| <= |s| && DigitsAndPoints(r)
  {
    if s == [] || !IsDigitOrPoint(s[0]) then [] else [s[0]] + PointRun(s[1..])
  }

  lemma {:induction false} PointRunShape(s: string)
    ensures var r := PointRun(s); r == s[..|r|] && (|r| == |s| || !IsDigitOrPoint(s[|r|]))
  {
    if s != [] && IsDigitOrPoint(s[0]) {
      PointRunShape(s[1..]);
    }
  }

  lemma {:induction false} PointRunOf(n: string, rest: string)
    requires DigitsAndPoints(n)
    requires rest == [] || !IsDigitOrPoint(rest[0])
    ensures PointRun(n + rest) == n
  {
    if n != [] {
      assert (n + rest)[1..] == n[1..] + rest;
      PointRunOf(n[1..], rest);
    } else {
      assert n + rest == rest;
    }
  }

  /** `parseFloat(s)`. */
  function ParseFloat(s: string): (r: Number)
    ensures var t := TrimStart(s);
      var u := if t != [] && (t[0] == '-' || t[0] == '+') then t[1..] else t;
      && (r.NaN? <==> !BeginsNumber(u))
      && (r.PosInfinity? <==> OccursAt(u, 0, "Infinity") && !(t != [] && t[0] == '-'))
      && (r.NegInfinity? <==> OccursAt(u, 0, "Infinity") && t != [] && t[0] == '-')
      && (r.Finite? && r.value < 0.0 ==> t != [] && t[0] == '-')
  {
    var t := TrimStart(s);
    if t != [] && t[0] == '-' then ParseUnsigned(t[1..]).Negate()
    else if t != [] && t[0] == '+' then ParseUnsigned(t[1..])
    else ParseUnsigned(t)
  }

  /** Text made of digits and points has no sign and no whitespace, so
      `parseFloat` reads it as a finite number that is not negative, or NaN. */
  lemma ParseFloatOfDigitsAndPoints(s: string)
    requires DigitsAndPoints(s)
    ensures ParseFloat(s) == ParseUnsigned(s)
    ensures ParseFloat(s).Finite? || ParseFloat(s).NaN?
    ensures ParseFloat(s).Finite? ==> ParseFloat(s).value >= 0.0
  {
    if s != [] {
      assert !IsJsSpace(s[0]) && s[0] != '-' && s[0] != '+';
    }
    assert TrimStart(s) == s;
  }

  /** `parseFloat` reads back the value of a plain decimal numeral, the
      text that JavaScript prints for such a number. */
  lemma ParseFloatOfDecimal(whole: string, frac: string)
    requires whole != [] && AllDigits(whole) && AllDigits(frac)
    ensures ParseFloat(DecimalText(whole, frac)) == Finite(DecimalValue(whole, frac))
  {
    var text := DecimalText(whole, frac);
    DecimalTextIsDigitsAndPoints(whole, frac);
    ParseFloatOfDigitsAndPoints(text);
    ParseUnsignedOfDecimal(whole, frac);
  }

  lemma DecimalTextIsDigitsAndPoints(whole: string, frac: string)
    requires AllDigits(whole) && AllDigits(frac)
    ensures DigitsAndPoints(DecimalText(whole, frac))
  {
    if frac != [] {
      var text := whole + "." + frac;
      forall i | 0 <= i < |text|
        ensures IsDigit(text[i]) || text[i] == '.'
      {
        if i < |whole| {
          assert text[i] == whole[i];
        } else if i > |whole| {
          assert text[i] == frac[i - |whole| - 1];
        }
      }
    }
  }

  lemma ParseUnsignedOfDecimal(whole: string, frac: string)
    requires whole != [] && AllDigits(whole) && AllDigits(frac)
    ensures ParseUnsigned(DecimalText(whole, frac)) == Finite(DecimalValue(whole, frac))
  {
    var text := DecimalText(whole, frac);
    assert text[0] == whole[0];
    assert text[0] != "Infinity"[0];
    assert !OccursAt(text, 0, "Infinity");
    if frac == [] {
      assert text == whole + [];
      DigitRunOfDigits(whole, []);
      assert text[|whole|..] == [];
    } else {
      var rest := "." + frac;
      assert text == whole + rest;
      DigitRunOfDigits(whole, rest);
      assert text[|whole|..] == rest;
      assert rest[1..] == frac + [];
      DigitRunOfDigits(frac, []);
      assert rest[1 + |frac|..] == [];
    }
    assert ExponentPart([]) == 0;
  }
}
