/** Shared vocabulary of the model: optional values, "all or one" filter
    choices, JavaScript number values, and the string operations the pages
    use (whitespace trimming, lower-casing, substring search, digit strings). */
module Common {

  datatype Option<T> = None | Some(value: T) {
    function GetOr(default: T): T {
      match this
      case Some(v) => v
      case None => default
    }
  }

  /** A select box whose first option is "all": either no restriction or one value. */
  datatype Choice<T> = All | Only(value: T)

  /** A JavaScript number as far as the pages observe it. NaN stands for the
      results that `isNaN` reports; floating-point rounding is not modelled. */
  datatype Number = Finite(value: real) | PosInfinity | NegInfinity | NaN {

    /** `x * -1` in JavaScript. */
    function Negate(): (r: Number)
      ensures r.NaN? <==> NaN?
      ensures Finite? ==> r == Finite(-value)
      ensures PosInfinity? <==> r.NegInfinity?
    {
      match this
      case Finite(v) => Finite(-v)
      case PosInfinity => NegInfinity
      case NegInfinity => PosInfinity
      case NaN => NaN
    }

    /** `x < c` for a finite constant `c`; every comparison with NaN is false. */
    predicate LessThan(c: real) {
      match this
      case Finite(v) => v < c
      case PosInfinity => false
      case NegInfinity => true
      case NaN => false
    }

    /** `x > c` for a finite constant `c`. */
    predicate GreaterThan(c: real) {
      match this
      case Finite(v) => v > c
      case PosInfinity => true
      case NegInfinity => false
      case NaN => false
    }
  }

  // ---------------------------------------------------------------------
  // Characters

  /** `\d` of a JavaScript regular expression without the `u` flag. */
  predicate IsDigit(c: char) {
    '0' <= c <= '9'
  }

  predicate AllDigits(s: string) {
    forall i :: 0 <= i < |s| ==> IsDigit(s[i])
  }

  /** The line terminators of ECMAScript: `.` in a regular expression does
      not match them. */
  predicate IsLineTerminator(c: char) {
    c == '\n' || c == '\r' || c == '\U{2028}' || c == '\U{2029}'
  }

  /** ECMAScript WhiteSpace and LineTerminator code points: the set matched
      by `\s` and removed by `String.prototype.trim` and by `parseFloat`. */
  predicate IsJsSpace(c: char) {
    c == '\t' || c == '\U{000B}' || c == '\U{000C}' || c == ' ' || c == '\U{00A0}'
    || c == '\U{FEFF}' || c == '\U{1680}' || ('\U{2000}' <= c <= '\U{200A}')
    || c == '\U{202F}' || c == '\U{205F}' || c == '\U{3000}'
    || IsLineTerminator(c)
  }

  predicate AllSpaces(s: string) {
    forall i :: 0 <= i < |s| ==> IsJsSpace(s[i])
  }

  /** Lower-casing of one character (letters A to Z only). */
  function LowerChar(c: char): (r: char)
    ensures 'A' <= c <= 'Z' ==> 'a' <= r <= 'z' && r as int - c as int == 32
    ensures !('A' <= c <= 'Z') ==> r == c
  {
    if 'A' <= c <= 'Z' then (c as int + 32) as char else c
  }

  /** `s.toLowerCase()`. */
  function Lower(s: string): (r: string)
    ensures |r| == |s|
    ensures forall i :: 0 <= i < |s| ==> r[i] == LowerChar(s[i])
  {
    seq(|s|, i requires 0 <= i < |s| => LowerChar(s[i]))
  }

  /** `s.toUpperCase() === 'S'` and friends: a case-insensitive letter test. */
  predicate SameLetterIgnoringCase(c: char, upper: char) {
    c == upper || c == LowerChar(upper)
  }

  // ---------------------------------------------------------------------
  // Trimming

  /** Drops the leading whitespace, as the start of `trim` and `parseFloat` do. */
  function TrimStart(s: string): string {
    if s == [] || !IsJsSpace(s[0]) then s else TrimStart(s[1..])
  }

  /** Drops the trailing whitespace. */
  function TrimEnd(s: string): string {
    if s == [] || !IsJsSpace(s[|s| - 1]) then s else TrimEnd(s[..|s| - 1])
  }

  /** `s.trim()`. */
  function Trim(s: string): string {
    TrimEnd(TrimStart(s))
  }

  /** `TrimStart` removes a run of whitespace from the front and stops at the
      first other character. */
  lemma {:induction false} TrimStartShape(s: string)
    ensures var r := TrimStart(s);
      |r| <= |s| && r == s[|s| - |r|..] && (r == [] || !IsJsSpace(r[0])) && AllSpaces(s[..|s| - |r|])
  {
    if s != [] && IsJsSpace(s[0]) {
      var tail := s[1..];
      TrimStartShape(tail);
      var r := TrimStart(tail);
      var k := |tail| - |r|;
      assert tail[k..] == s[k + 1..];
      assert forall i :: 0 <= i < k ==> tail[..k][i] == s[i + 1];
    }
  }

  /** `TrimEnd` removes a run of whitespace from the back and stops at the
      last other character. */
  lemma {:induction false} TrimEndShape(s: string)
    ensures var r := TrimEnd(s);
      |r| <= |s| && r == s[..|r|] && (r == [] || !IsJsSpace(r[|r| - 1])) && AllSpaces(s[|r|..])
  {
    if s != [] && IsJsSpace(s[|s| - 1]) {
      var init := s[..|s| - 1];
      TrimEndShape(init);
      var r := TrimEnd(s);
      assert init[..|r|] == s[..|r|];
      assert forall i :: |r| <= i < |s| - 1 ==> s[i] == init[i];
    }
  }

  /** What `trim` removes is whitespace on both sides, what it keeps is a
      contiguous part of the input, and that part starts and ends with a
      character that is not whitespace. */
  lemma TrimIsInfix(s: string)
    ensures |TrimStart(s)| <= |s| && |Trim(s)| <= |TrimStart(s)|
    ensures var k := |s| - |TrimStart(s)|; var r := Trim(s);
      k + |r| <= |s| && r == s[k..k + |r|] && AllSpaces(s[..k]) && AllSpaces(s[k + |r|..])
      && (r == [] || (!IsJsSpace(r[0]) && !IsJsSpace(r[|r| - 1])))
  {
    var t := TrimStart(s);
    TrimStartShape(s);
    var k := |s| - |t|;
    var u := TrimEnd(t);
    TrimEndShape(t);
    assert t == s[k..];
    assert s[k + |u|..] == t[|u|..];
    if u != [] {
      assert u[0] == t[0];
    }
  }

  /** A string that starts and ends with a non-space character is its own trim. */
  lemma TrimOfUnpadded(s: string)
    requires s != [] && !IsJsSpace(s[0]) && !IsJsSpace(s[|s| - 1])
    ensures Trim(s) == s
  {
  }

  /** `s.trim() !== ''` holds exactly when `s` has a non-space character. */
  lemma TrimEmptyIffAllSpaces(s: string)
    ensures Trim(s) == [] <==> AllSpaces(s)
  {
    var t := TrimStart(s);
    TrimStartShape(s);
    TrimEndShape(t);
    assert s[..|s|] == s;
    assert t[0..] == t;
    assert s == s[..|s| - |t|] + t;
  }

  /** The longest prefix of `s` made of whitespace: `\s*` followed by a
      character that is not whitespace. */
  function SpaceRun(s: string): (r: string)
    ensures |r| <= |s|
  {
    if s == [] || !IsJsSpace(s[0]) then [] else [s[0]] + SpaceRun(s[1..])
  }

  /** The run is a prefix made of whitespace, and the character after it is
      not whitespace. */
  lemma {:induction false} SpaceRunShape(s: string)
    ensures var r := SpaceRun(s);
      r == s[..|r|] && AllSpaces(r) && (|r| == |s| || !IsJsSpace(s[|r|]))
  {
    if s != [] && IsJsSpace(s[0]) {
      SpaceRunShape(s[1..]);
    }
  }

  lemma {:induction false} SpaceRunOf(g: string, rest: string)
    requires AllSpaces(g)
    requires rest == [] || !IsJsSpace(rest[0])
    ensures SpaceRun(g + rest) == g
  {
    if g != [] {
      assert (g + rest)[1..] == g[1..] + rest;
      SpaceRunOf(g[1..], rest);
    } else {
      assert g + rest == rest;
    }
  }

  /** `s` is the whitespace run `SpaceRun(s)` followed by the rest. */
  lemma SpaceRunSplit(s: string)
    ensures AllSpaces(SpaceRun(s)) && s == SpaceRun(s) + s[|SpaceRun(s)|..]
  {
    SpaceRunShape(s);
  }

  // ---------------------------------------------------------------------
  // Substrings

  /** `hay.includes(needle)`. */
  predicate Contains(hay: string, needle: string) {
    exists i :: 0 <= i <= |hay| - |needle| && OccursAt(hay, i, needle)
  }

  /** `s.startsWith(prefix)` at position `i`. */
  predicate OccursAt(s: string, i: nat, word: string) {
    i + |word| <= |s| && s[i..i + |word|] == word
  }

  // ---------------------------------------------------------------------
  // Decimal digit strings

  function DigitValue(c: char): (r: nat)
    requires IsDigit(c)
    ensures r < 10
  {
    c as int - '0' as int
  }

  /** The value of a string of decimal digits; the empty string is 0. */
  function DigitsValue(s: string): (r: nat)
    requires AllDigits(s)
  {
    if s == [] then 0 else DigitsValue(s[..|s| - 1]) * 10 + DigitValue(s[|s| - 1])
  }

  function Pow10(n: nat): (r: real)
    ensures r >= 1.0
  {
    if n == 0 then 1.0 else 10.0 * Pow10(n - 1)
  }

  /** The value of the decimal numeral `whole.frac` (an empty `frac` means no fraction). */
  function DecimalValue(whole: string, frac: string): (r: real)
    requires AllDigits(whole) && AllDigits(frac)
    ensures r >= 0.0
  {
    DigitsValue(whole) as real + DigitsValue(frac) as real / Pow10(|frac|)
  }

  /** The text `whole` or `whole.frac`: a numeral without sign or exponent. */
  function DecimalText(whole: string, frac: string): (r: string)
    ensures |r| >= |whole| && r[..|whole|] == whole
  {
    if frac == [] then whole else whole + "." + frac
  }

  /** The numeral `whole.frac` followed by more text, grouped from the right. */
  lemma DecimalTextThen(whole: string, frac: string, rest: string)
    requires frac != []
    ensures DecimalText(whole, frac) + rest == whole + ("." + (frac + rest))
  {
    assert (whole + "." + frac) + rest == (whole + ".") + (frac + rest);
    assert (whole + ".") + (frac + rest) == whole + ("." + (frac + rest));
  }

  // ---------------------------------------------------------------------
  // Sequences

  /** `xs` is `ys` with some elements left out, in the same order. */
  predicate IsSubsequence<T(==)>(xs: seq<T>, ys: seq<T>)
    decreases |ys|
  {
    xs == [] || (ys != [] && ((xs[0] == ys[0] && IsSubsequence(xs[1..], ys[1..])) || IsSubsequence(xs, ys[1..])))
  }

  /** `xs.filter(p)`. */
  function Filter<T(==)>(xs: seq<T>, p: T -> bool): (r: seq<T>)
    ensures |r| <= |xs|
    ensures forall i :: 0 <= i < |r| ==> r[i] in xs && p(r[i])
    ensures forall i :: 0 <= i < |xs| && p(xs[i]) ==> xs[i] in r
    ensures IsSubsequence(r, xs)
  {
    if xs == [] then []
    else if p(xs[0]) then [xs[0]] + Filter(xs[1..], p)
    else Filter(xs[1..], p)
  }

  /** A filter whose test holds of every element keeps the whole sequence. */
  lemma {:induction false} FilterKeepsAll<T>(xs: seq<T>, p: T -> bool)
    requires forall x :: x in xs ==> p(x)
    ensures Filter(xs, p) == xs
  {
    if xs != [] {
      FilterKeepsAll(xs[1..], p);
    }
  }

  /** Two tests that agree on every element select the same elements, in the same order. */
  lemma {:induction false} FilterAgrees<T>(xs: seq<T>, p: T -> bool, q: T -> bool)
    requires forall x :: x in xs ==> p(x) == q(x)
    ensures Filter(xs, p) == Filter(xs, q)
  {
    if xs != [] {
      FilterAgrees(xs[1..], p, q);
    }
  }
}
