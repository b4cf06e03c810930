/** The admin page that injects test events: the coordinate reader
    `parseDMS`, which finds /([\d.]+)\s*°?\s*([NS]),?\s*([\d.]+)\s*°?\s*([EW])/i
    anywhere in the trimmed text, and the two simulation forms. */
module Simulate {
  import opened Common
  import JsNumber
  import Locations

  // ---------------------------------------------------------------------
  // One half of the pattern: ([\d.]+)\s*°?\s*([NS]) or ([\d.]+)\s*°?\s*([EW])

  /** What is left after `\s*°?\s*`. */
  function SkipDegreeGap(s: string): (r: string)
    ensures |r| <= |s|
  {
    var r1 := s[|SpaceRun(s)|..];
    var r2 := if r1 != [] && r1[0] == Locations.Degree then r1[1..] else r1;
    r2[|SpaceRun(r2)|..]
  }

  /** The hemisphere letter the half needs, under the `i` flag. */
  predicate IsLetterOf(latitude: bool, c: char) {
    if latitude then Locations.IsNorthSouth(c) else Locations.IsEastWest(c)
  }

  /** A hemisphere letter is not whitespace, not the degree sign and not part of a numeral. */
  lemma LetterStandsApart(latitude: bool, c: char)
    requires IsLetterOf(latitude, c)
    ensures !IsJsSpace(c) && c != Locations.Degree && !JsNumber.IsDigitOrPoint(c)
  {
  }

  /** A half at the start of `s`: the numeral text, the letter, and what follows. */
  function MatchHalf(s: string, latitude: bool): Option<(string, char, string)> {
    var n := JsNumber.PointRun(s);
    if n == [] then None
    else
      var r := SkipDegreeGap(s[|n|..]);
      if r == [] || !IsLetterOf(latitude, r[0]) then None else Some((n, r[0], r[1..]))
  }

  /** The pieces of a half: the numeral, the whitespace before and after the
      optional degree sign, and the letter. */
  datatype Half = Half(text: string, gap1: string, degree: bool, gap2: string, letter: char)

  predicate HalfOk(h: Half, latitude: bool) {
    h.text != [] && JsNumber.DigitsAndPoints(h.text) && AllSpaces(h.gap1) && AllSpaces(h.gap2)
    && IsLetterOf(latitude, h.letter)
  }

  function DegreeText(degree: bool): string {
    if degree then [Locations.Degree] else []
  }

  /** `\s*°?\s*` and the letter, as text. */
  function GapText(h: Half): string {
    h.gap1 + (DegreeText(h.degree) + (h.gap2 + [h.letter]))
  }

  function HalfText(h: Half): string {
    h.text + GapText(h)
  }

  /** The text between the numeral and the letter is skipped whole. */
  lemma SkipDegreeGapOf(h: Half, rest: string)
    requires AllSpaces(h.gap1) && AllSpaces(h.gap2) && !IsJsSpace(h.letter) && h.letter != Locations.Degree
    ensures SkipDegreeGap(GapText(h) + rest) == [h.letter] + rest
  {
    var tail := [h.letter] + rest;
    var s := GapText(h) + rest;
    if h.degree {
      var after := h.gap2 + tail;
      assert s == h.gap1 + ([Locations.Degree] + after);
      SpaceRunOf(h.gap1, [Locations.Degree] + after);
      assert s[|h.gap1|..] == [Locations.Degree] + after;
      assert ([Locations.Degree] + after)[1..] == after;
      SpaceRunOf(h.gap2, tail);
      assert after[|h.gap2|..] == tail;
    } else {
      var g := h.gap1 + h.gap2;
      assert s == g + tail;
      assert AllSpaces(g) by {
        assert forall i :: 0 <= i < |g| ==> g[i] == if i < |h.gap1| then h.gap1[i] else h.gap2[i - |h.gap1|];
      }
      SpaceRunOf(g, tail);
      assert s[|g|..] == tail;
      SpaceRunOf([], tail);
      assert [] + tail == tail;
    }
  }

  /** The first character after the numeral cannot continue it. */
  lemma GapTextStart(h: Half, rest: string)
    requires AllSpaces(h.gap1) && AllSpaces(h.gap2) && !JsNumber.IsDigitOrPoint(h.letter)
    ensures var s := GapText(h) + rest; s != [] && !JsNumber.IsDigitOrPoint(s[0])
  {
    var s := GapText(h) + rest;
    if h.gap1 != [] {
      assert s[0] == h.gap1[0];
    } else if h.degree {
      assert s[0] == Locations.Degree;
    } else if h.gap2 != [] {
      assert s[0] == h.gap2[0];
    } else {
      assert s[0] == h.letter;
    }
  }

  /** Every text of a half is matched, with its own numeral and letter. */
  lemma MatchHalfOf(h: Half, latitude: bool, rest: string)
    requires HalfOk(h, latitude)
    ensures MatchHalf(HalfText(h) + rest, latitude) == Some((h.text, h.letter, rest))
  {
    var g := GapText(h) + rest;
    assert HalfText(h) + rest == h.text + g;
    LetterStandsApart(latitude, h.letter);
    GapTextStart(h, rest);
    JsNumber.PointRunOf(h.text, g);
    assert (h.text + g)[|h.text|..] == g;
    SkipDegreeGapOf(h, rest);
    assert ([h.letter] + rest)[1..] == rest;
  }

  /** What `SkipDegreeGap` skips is a gap of the form `\s*°?\s*`. */
  lemma SkipDegreeGapSound(s: string) returns (g1: string, degree: bool, g2: string)
    ensures AllSpaces(g1) && AllSpaces(g2)
    ensures s == g1 + (DegreeText(degree) + (g2 + SkipDegreeGap(s)))
  {
    g1 := SpaceRun(s);
    SpaceRunSplit(s);
    var r1 := s[|g1|..];
    degree := r1 != [] && r1[0] == Locations.Degree;
    var r2 := if degree then r1[1..] else r1;
    assert r1 == DegreeText(degree) + r2;
    g2 := SpaceRun(r2);
    SpaceRunSplit(r2);
  }

  /** Whatever `MatchHalf` matches is the text of a well-formed half. */
  lemma MatchHalfSound(s: string, latitude: bool) returns (h: Half)
    requires MatchHalf(s, latitude).Some?
    ensures var (n, l, rest) := MatchHalf(s, latitude).value;
      HalfOk(h, latitude) && h.text == n && h.letter == l && s == HalfText(h) + rest
  {
    var (n, l, rest) := MatchHalf(s, latitude).value;
    JsNumber.PointRunShape(s);
    var after := s[|n|..];
    assert s == n + after;
    var g1, degree, g2 := SkipDegreeGapSound(after);
    var r := SkipDegreeGap(after);
    assert r == [l] + rest;
    h := Half(n, g1, degree, g2, l);
    HalfJoin(h, after, rest);
  }

  lemma HalfJoin(h: Half, after: string, rest: string)
    requires after == h.gap1 + (DegreeText(h.degree) + (h.gap2 + ([h.letter] + rest)))
    ensures h.text + after == HalfText(h) + rest
  {
  }

  // ---------------------------------------------------------------------
  // The whole pattern

  /** The four groups of a match: `m[1]` to `m[4]`. */
  datatype DmsMatch = DmsMatch(latText: string, latLetter: char, lonText: string, lonLetter: char)

  /** What is left after `,?\s*`. */
  function SkipCommaGap(s: string): (r: string)
    ensures |r| <= |s|
  {
    var r1 := if s != [] && s[0] == ',' then s[1..] else s;
    r1[|SpaceRun(r1)|..]
  }

  /** The pattern tried at the start of `s`. A regular-expression engine that
      backtracks tries shorter runs of digits and whitespace too, but every
      such choice leaves a digit, a point or a space where the next piece needs
      a letter, a degree sign or a digit, so the greedy reading decides. */
  function MatchHere(s: string): Option<DmsMatch> {
    match MatchHalf(s, true)
    case None => None
    case Some((n1, l1, r)) =>
      match MatchHalf(SkipCommaGap(r), false)
      case None => None
      case Some((n2, l2, _)) => Some(DmsMatch(n1, l1, n2, l2))
  }

  /** The text of a match: a latitude half, the optional comma, whitespace,
      and a longitude half. */
  function DmsText(a: Half, comma: bool, gap: string, b: Half): string {
    HalfText(a) + (CommaText(comma) + (gap + HalfText(b)))
  }

  function CommaText(comma: bool): string {
    if comma then "," else ""
  }

  lemma SkipCommaGapOf(comma: bool, gap: string, rest: string)
    requires AllSpaces(gap) && rest != [] && !IsJsSpace(rest[0]) && rest[0] != ','
    ensures SkipCommaGap(CommaText(comma) + (gap + rest)) == rest
  {
    var s := CommaText(comma) + (gap + rest);
    var r1 := gap + rest;
    if comma {
      assert s[1..] == r1;
    } else {
      assert s == r1;
      if gap != [] {
        assert s[0] == gap[0];
      }
    }
    SpaceRunOf(gap, rest);
    assert r1[|gap|..] == rest;
  }

  /** Every text of the pattern is matched from its start, with its own groups,
      whatever follows it: the degree signs and the comma are optional. */
  lemma MatchHereOf(a: Half, comma: bool, gap: string, b: Half, junk: string)
    requires HalfOk(a, true) && HalfOk(b, false) && AllSpaces(gap)
    ensures MatchHere(DmsText(a, comma, gap, b) + junk) == Some(DmsMatch(a.text, a.letter, b.text, b.letter))
  {
    var sep := CommaText(comma);
    var tail := HalfText(b) + junk;
    var r := sep + (gap + tail);
    assert DmsText(a, comma, gap, b) + junk == HalfText(a) + r;
    MatchHalfOf(a, true, r);
    assert tail[0] == b.text[0];
    SkipCommaGapOf(comma, gap, tail);
    MatchHalfOf(b, false, junk);
  }

  lemma SkipCommaGapSound(s: string) returns (comma: bool, gap: string)
    ensures AllSpaces(gap) && s == CommaText(comma) + (gap + SkipCommaGap(s))
  {
    comma := s != [] && s[0] == ',';
    var r1 := if comma then s[1..] else s;
    assert s == CommaText(comma) + r1;
    gap := SpaceRun(r1);
    SpaceRunSplit(r1);
  }

  /** Whatever `MatchHere` matches is a text of the pattern followed by more. */
  lemma MatchHereSound(s: string) returns (a: Half, comma: bool, gap: string, b: Half, junk: string)
    requires MatchHere(s).Some?
    ensures HalfOk(a, true) && HalfOk(b, false) && AllSpaces(gap)
    ensures s == DmsText(a, comma, gap, b) + junk
    ensures MatchHere(s).value == DmsMatch(a.text, a.letter, b.text, b.letter)
  {
    var (n1, l1, r) := MatchHalf(s, true).value;
    a := MatchHalfSound(s, true);
    var r2 := SkipCommaGap(r);
    comma, gap := SkipCommaGapSound(r);
    var (n2, l2, j) := MatchHalf(r2, false).value;
    junk := j;
    b := MatchHalfSound(r2, false);
    DmsJoin(a, comma, gap, b, r, junk);
  }

  lemma DmsJoin(a: Half, comma: bool, gap: string, b: Half, r: string, junk: string)
    requires r == CommaText(comma) + (gap + (HalfText(b) + junk))
    ensures HalfText(a) + r == DmsText(a, comma, gap, b) + junk
  {
  }

  /** `str.match(pattern)` without the `g` flag: the first position, from
      `from` on, where the pattern matches, and its groups. */
  function FindFrom(s: string, from: nat): (r: Option<(nat, DmsMatch)>)
    decreases |s| + 1 - from
    ensures r.Some? ==> from <= r.value.0 <= |s| && MatchHere(s[r.value.0..]) == Some(r.value.1)
    ensures r.Some? ==> forall j {:trigger MatchHere(s[j..])} :: from <= j < r.value.0 ==> MatchHere(s[j..]).None?
    ensures r.None? ==> forall j {:trigger MatchHere(s[j..])} :: from <= j <= |s| ==> MatchHere(s[j..]).None?
  {
    if from > |s| then None
    else
      var here := MatchHere(s[from..]);
      if here.Some? then Some((from, here.value))
      else
        var r := FindFrom(s, from + 1);
        // Position `from` itself fails; every later one is covered by the
        // recursive call.
        assert r.Some? ==> forall j {:trigger MatchHere(s[j..])} :: from <= j < r.value.0 ==> MatchHere(s[j..]).None? by {
          if r.Some? {
            forall j | from <= j < r.value.0 ensures MatchHere(s[j..]).None? {
              if j > from {
              }
            }
          }
        }
        assert r.None? ==> forall j {:trigger MatchHere(s[j..])} :: from <= j <= |s| ==> MatchHere(s[j..]).None? by {
          if r.None? {
            forall j | from <= j <= |s| ensures MatchHere(s[j..]).None? {
              if j > from {
              }
            }
          }
        }
        r
  }

  // ---------------------------------------------------------------------
  // parseDMS

  /** `m[2].toUpperCase() === 'S'`. */
  predicate IsSouth(c: char) {
    c == 'S' || c == 's'
  }

  /** `m[4].toUpperCase() === 'W'`. */
  predicate IsWest(c: char) {
    c == 'W' || c == 'w'
  }

  /** `x * (negate ? -1 : 1)`: multiplying by 1 changes no number. */
  function Signed(x: Number, negate: bool): Number {
    if negate then x.Negate() else x
  }

  /** `parseDMS(str)`: the signed latitude and longitude, or null. */
  function ParseDMS(str: string): Option<(Number, Number)> {
    match FindFrom(Trim(str), 0)
    case None => None
    case Some((_, m)) =>
      SignedPair(JsNumber.ParseFloat(m.latText), IsSouth(m.latLetter),
        JsNumber.ParseFloat(m.lonText), IsWest(m.lonLetter))
  }

  /** The two parsed numbers with their signs applied; null when either is NaN. */
  function SignedPair(x: Number, south: bool, y: Number, west: bool): Option<(Number, Number)> {
    var lat := Signed(x, south);
    var lon := Signed(y, west);
    if lat.NaN? || lon.NaN? then None else Some((lat, lon))
  }

  lemma SignedPairOfFinite(x: real, south: bool, y: real, west: bool)
    ensures SignedPair(Finite(x), south, Finite(y), west)
      == Some((Finite(SignedValue(x, south)), Finite(SignedValue(y, west))))
  {
  }

  /** `lat` is `magnitude` with the sign `negate` asks for. */
  predicate SignedFrom(lat: Number, magnitude: Number, negate: bool) {
    lat.Finite? && magnitude == Finite(if negate then -lat.value else lat.value)
    && (negate ==> lat.value <= 0.0) && (!negate ==> lat.value >= 0.0)
  }

  /** Two readings that are NaN or not negative give, when neither is NaN,
      the values of their own magnitudes with the letters' signs. */
  lemma SignedPairReads(x: Number, south: bool, y: Number, west: bool)
    requires (x.Finite? || x.NaN?) && (x.Finite? ==> x.value >= 0.0)
    requires (y.Finite? || y.NaN?) && (y.Finite? ==> y.value >= 0.0)
    ensures SignedPair(x, south, y, west).Some? <==> x.Finite? && y.Finite?
    ensures SignedPair(x, south, y, west).Some? ==>
      SignedFrom(SignedPair(x, south, y, west).value.0, x, south)
      && SignedFrom(SignedPair(x, south, y, west).value.1, y, west)
  {
  }

  /** A text in which the pattern occurs nowhere gives null. */
  lemma NoMatchGivesNull(str: string)
    requires forall j :: 0 <= j <= |Trim(str)| ==> MatchHere(Trim(str)[j..]).None?
    ensures ParseDMS(str).None?
  {
  }

  /** A result comes from the leftmost match (`FindFrom` states that no earlier
      position matches): its first numeral and letter give the latitude (S, in
      either case, negates) and its second numeral and letter the longitude
      (W negates). Both are finite: the numerals have no sign and cannot spell
      `Infinity`. */
  lemma ParseDMSReadsLeftmost(str: string)
    requires ParseDMS(str).Some?
    ensures FindFrom(Trim(str), 0).Some?
    ensures var m := FindFrom(Trim(str), 0).value.1;
      SignedFrom(ParseDMS(str).value.0, JsNumber.ParseFloat(m.latText), IsSouth(m.latLetter))
      && SignedFrom(ParseDMS(str).value.1, JsNumber.ParseFloat(m.lonText), IsWest(m.lonLetter))
  {
    var t := Trim(str);
    var (i, m) := FindFrom(t, 0).value;
    MatchGroupsAreNumerals(t[i..]);
    var x := JsNumber.ParseFloat(m.latText);
    var y := JsNumber.ParseFloat(m.lonText);
    JsNumber.ParseFloatOfDigitsAndPoints(m.latText);
    JsNumber.ParseFloatOfDigitsAndPoints(m.lonText);
    assert ParseDMS(str) == SignedPair(x, IsSouth(m.latLetter), y, IsWest(m.lonLetter));
    SignedPairReads(x, IsSouth(m.latLetter), y, IsWest(m.lonLetter));
  }

  /** The numeral groups are made of digits and points. */
  lemma MatchGroupsAreNumerals(s: string)
    requires MatchHere(s).Some?
    ensures JsNumber.DigitsAndPoints(MatchHere(s).value.latText)
    ensures JsNumber.DigitsAndPoints(MatchHere(s).value.lonText)
  {
  }

  /** A numeral group that `parseFloat` cannot read, such as a lone point,
      makes the result null even though the pattern matched. */
  lemma UnreadableNumeralGivesNull(str: string)
    requires FindFrom(Trim(str), 0).Some?
    requires var m := FindFrom(Trim(str), 0).value.1;
      JsNumber.ParseFloat(m.latText).NaN? || JsNumber.ParseFloat(m.lonText).NaN?
    ensures ParseDMS(str).None?
  {
    var m := FindFrom(Trim(str), 0).value.1;
    var x := JsNumber.ParseFloat(m.latText);
    var y := JsNumber.ParseFloat(m.lonText);
    assert ParseDMS(str) == SignedPair(x, IsSouth(m.latLetter), y, IsWest(m.lonLetter));
  }

  // ---------------------------------------------------------------------
  // Agreement with the recogniser of the locations page

  /** The pieces of the anchored pattern as a match of this one: no space
      before the degree signs, which are present, and the comma present. */
  lemma AssembledIsDmsText(p: Locations.CoordParts)
    requires Locations.WellFormed(p)
    ensures var a := Half(DecimalText(p.latWhole, p.latFrac), [], true, p.latGap, p.latLetter);
      var b := Half(DecimalText(p.lonWhole, p.lonFrac), [], true, p.lonLetterGap, p.lonLetter);
      HalfOk(a, true) && HalfOk(b, false)
      && Locations.Assemble(p) == DmsText(a, true, p.lonGap, b)
  {
    var a := Half(DecimalText(p.latWhole, p.latFrac), [], true, p.latGap, p.latLetter);
    var b := Half(DecimalText(p.lonWhole, p.lonFrac), [], true, p.lonLetterGap, p.lonLetter);
    JsNumber.DecimalTextIsDigitsAndPoints(p.latWhole, p.latFrac);
    JsNumber.DecimalTextIsDigitsAndPoints(p.lonWhole, p.lonFrac);
    assert GapText(a) == [Locations.Degree] + (p.latGap + [p.latLetter]);
    assert GapText(b) == [Locations.Degree] + (p.lonLetterGap + [p.lonLetter]);
    assert HalfText(b) == Locations.LongitudeText(p);
    assert DmsText(a, true, p.lonGap, b) == HalfText(a) + ("," + (p.lonGap + HalfText(b)));
    assert HalfText(a) + ("," + (p.lonGap + HalfText(b)))
      == DecimalText(p.latWhole, p.latFrac) + ([Locations.Degree] + Locations.AfterLatitude(p));
  }

  /** `x * (negate ? -1 : 1)` on a finite value. */
  function SignedValue(x: real, negate: bool): real {
    if negate then -x else x
  }

  /** Every coordinate text the locations page accepts is read by `parseDMS`,
      with the numerals' values and the signs of the hemisphere letters. */
  lemma ValidatedCoordinatesParse(coord: string)
    requires Locations.ValidateCoordinates(coord)
    ensures var p := Locations.Scan(Trim(coord)).value;
      ParseDMS(coord) == Some((
        Finite(SignedValue(DecimalValue(p.latWhole, p.latFrac), IsSouth(p.latLetter))),
        Finite(SignedValue(DecimalValue(p.lonWhole, p.lonFrac), IsWest(p.lonLetter)))))
  {
    var t := Trim(coord);
    Locations.ScanSound(t);
    var p := Locations.Scan(t).value;
    AssembledIsFound(p);
    var latText := DecimalText(p.latWhole, p.latFrac);
    var lonText := DecimalText(p.lonWhole, p.lonFrac);
    JsNumber.ParseFloatOfDecimal(p.latWhole, p.latFrac);
    JsNumber.ParseFloatOfDecimal(p.lonWhole, p.lonFrac);
    ParseDMSOfFound(coord, 0, DmsMatch(latText, p.latLetter, lonText, p.lonLetter),
      DecimalValue(p.latWhole, p.latFrac), DecimalValue(p.lonWhole, p.lonFrac));
  }

  /** The value of a match whose numerals `parseFloat` reads as `x` and `y`. */
  lemma ParseDMSOfFound(str: string, i: nat, m: DmsMatch, x: real, y: real)
    requires FindFrom(Trim(str), 0) == Some((i, m))
    requires JsNumber.ParseFloat(m.latText) == Finite(x) && JsNumber.ParseFloat(m.lonText) == Finite(y)
    ensures ParseDMS(str) == Some((Finite(SignedValue(x, IsSouth(m.latLetter))), Finite(SignedValue(y, IsWest(m.lonLetter)))))
  {
    var a := JsNumber.ParseFloat(m.latText);
    var b := JsNumber.ParseFloat(m.lonText);
    assert ParseDMS(str) == SignedPair(a, IsSouth(m.latLetter), b, IsWest(m.lonLetter));
    SignedPairOfFinite(x, IsSouth(m.latLetter), y, IsWest(m.lonLetter));
  }

  /** The text of well-formed pieces matches at its first position. */
  lemma AssembledIsFound(p: Locations.CoordParts)
    requires Locations.WellFormed(p)
    ensures var m := DmsMatch(DecimalText(p.latWhole, p.latFrac), p.latLetter, DecimalText(p.lonWhole, p.lonFrac), p.lonLetter);
      FindFrom(Locations.Assemble(p), 0) == Some((0, m))
  {
    var t := Locations.Assemble(p);
    AssembledIsDmsText(p);
    var a := Half(DecimalText(p.latWhole, p.latFrac), [], true, p.latGap, p.latLetter);
    var b := Half(DecimalText(p.lonWhole, p.lonFrac), [], true, p.lonLetterGap, p.lonLetter);
    MatchHereOf(a, true, p.lonGap, b, []);
    assert DmsText(a, true, p.lonGap, b) + [] == t;
    assert t[0..] == t;
  }

  /** The letter the locations page prints, read back with its sign, gives
      the coordinate's own value. */
  lemma LetterSignsAgree(lat: Locations.Decimal, lon: Locations.Decimal)
    requires lat.Valid() && lon.Valid()
    ensures SignedValue(DecimalValue(lat.whole, lat.frac), IsSouth(Locations.LatitudeLetter(lat))) == lat.Value()
    ensures SignedValue(DecimalValue(lon.whole, lon.frac), IsWest(Locations.LongitudeLetter(lon))) == lon.Value()
  {
    Locations.NonNegativeIff(lat);
    Locations.NonNegativeIff(lon);
  }

  /** What the locations page shows for a stored location reads back, through
      `parseDMS`, as the stored latitude and longitude. */
  lemma FormatThenParse(lat: Locations.Decimal, lon: Locations.Decimal)
    requires lat.Valid() && lon.Valid()
    ensures ParseDMS(Locations.FormatCoordinates(lat, lon)) == Some((Finite(lat.Value()), Finite(lon.Value())))
  {
    var c := Locations.FormatCoordinates(lat, lon);
    Locations.FormatThenValidate(lat, lon);
    ValidatedCoordinatesParse(c);
    LetterSignsAgree(lat, lon);
  }

  // ---------------------------------------------------------------------
  // The page

  const MsgUseFormat: string := "Use format: 23.8041\U{00B0} N, 90.4152\U{00B0} E"
  const MsgEarthquakeFailed: string := "Earthquake simulation failed."
  const MsgWeatherFailed: string := "Weather simulation failed."

  /** The five inputs of the weather form. */
  datatype WeatherField = Temperature | RainSum | WindSpeed | Humidity | Aqi

  const AllWeatherFields: set<WeatherField> := {Temperature, RainSum, WindSpeed, Humidity, Aqi}

  /** `{ temperature: '', rain_sum: '', wind_speed: '', humidity: '', aqi: '' }`. */
  const BlankWeatherFields: map<WeatherField, string> :=
    map[Temperature := "", RainSum := "", WindSpeed := "", Humidity := "", Aqi := ""]

  lemma BlankWeatherFieldsAreBlank()
    ensures BlankWeatherFields.Keys == AllWeatherFields
    ensures forall k :: k in BlankWeatherFields ==> BlankWeatherFields[k] == ""
  {
  }

  /** The result notice; the text of a success notice is not modelled. */
  datatype Toast = Success | Failure(message: string)

  /** How a posted request ended: success, or a thrown error with its `message`. */
  datatype PostOutcome = Succeeded | Failed(message: Option<string>)

  /** `err?.message || fallback`. */
  function ErrorText(message: Option<string>, fallback: string): (r: string)
    ensures fallback != "" ==> r != ""
    ensures message.Some? && message.value != "" ==> r == message.value
    ensures message.None? || message.value == "" ==> r == fallback
  {
    if message.Some? && message.value != "" then message.value else fallback
  }

  /** The body of `POST /admin/simulate-earthquake`. */
  datatype EarthquakeRequest = EarthquakeRequest(latitude: Number, longitude: Number, magnitude: string)

  /** The body of `POST /admin/simulate-weather`: the location and the five fields. */
  datatype WeatherRequest = WeatherRequest(locationId: string, fields: map<WeatherField, string>)

  /** The early returns of `handleEarthquake`. */
  datatype EarthquakeGate = BadFormat | NoMagnitude | Send(request: EarthquakeRequest)

  function GateEarthquake(coords: string, magnitude: string): (g: EarthquakeGate)
    ensures g.BadFormat? <==> ParseDMS(coords).None?
    ensures g.NoMagnitude? <==> ParseDMS(coords).Some? && magnitude == ""
    ensures g.Send? ==>
      ParseDMS(coords).Some? && magnitude != ""
      && g.request.latitude == ParseDMS(coords).value.0
      && g.request.longitude == ParseDMS(coords).value.1
      && g.request.magnitude == magnitude
  {
    match ParseDMS(coords)
    case None => BadFormat
    case Some((lat, lon)) => if magnitude == "" then NoMagnitude else Send(EarthquakeRequest(lat, lon, magnitude))
  }

  /** Coordinates the locations page would accept, with a magnitude, are sent
      with the values of their numerals and the signs of their letters. */
  lemma ValidatedCoordinatesAreSent(coords: string, magnitude: string)
    requires Locations.ValidateCoordinates(coords) && magnitude != ""
    ensures var p := Locations.Scan(Trim(coords)).value;
      GateEarthquake(coords, magnitude) == Send(EarthquakeRequest(
        Finite(SignedValue(DecimalValue(p.latWhole, p.latFrac), IsSouth(p.latLetter))),
        Finite(SignedValue(DecimalValue(p.lonWhole, p.lonFrac), IsWest(p.lonLetter))),
        magnitude))
  {
    ValidatedCoordinatesParse(coords);
  }

  class SimulatePage {
    var eqCoords: string
    var eqCoordsError: string
    var eqMagnitude: string
    var wxLocationId: string
    var wxFields: map<WeatherField, string>
    var result: Option<Toast>

    /** The weather form always holds its five fields. */
    ghost predicate Valid()
      reads this
    {
      wxFields.Keys == AllWeatherFields
    }

    constructor ()
      ensures Valid()
      ensures eqCoords == "" && eqCoordsError == "" && eqMagnitude == ""
      ensures wxLocationId == "" && wxFields == BlankWeatherFields && result.None?
    {
      eqCoords := "";
      eqCoordsError := "";
      eqMagnitude := "";
      wxLocationId := "";
      wxFields := BlankWeatherFields;
      result := None;
    }

    /** Typing in the coordinates field also clears its error. */
    method CoordsChange(v: string)
      modifies this`eqCoords, this`eqCoordsError
      ensures eqCoords == v && eqCoordsError == ""
    {
      eqCoords := v;
      eqCoordsError := "";
    }

    method MagnitudeChange(v: string)
      modifies this`eqMagnitude
      ensures eqMagnitude == v
    {
      eqMagnitude := v;
    }

    method LocationChange(v: string)
      modifies this`wxLocationId
      ensures wxLocationId == v
    {
      wxLocationId := v;
    }

    /** `wxUpdate(key, val)`: the named field takes the value, the others keep theirs. */
    method UpdateWeatherField(key: WeatherField, val: string)
      requires Valid()
      modifies this`wxFields
      ensures Valid()
      ensures wxFields[key] == val
      ensures forall k :: k in wxFields && k != key ==> wxFields[k] == old(wxFields)[k]
    {
      wxFields := wxFields[key := val];
    }

    /** The notice's close button, and its five-second timer, remove it. */
    method CloseResult()
      modifies this`result
      ensures result.None?
    {
      result := None;
    }

    /** `handleEarthquake`: the request sent, if any, for the given outcome of
        the post. A bad coordinate text shows the format error and a missing
        magnitude sends nothing; a success clears both inputs. */
    method HandleEarthquake(outcome: PostOutcome) returns (req: Option<EarthquakeRequest>)
      modifies this`eqCoords, this`eqCoordsError, this`eqMagnitude, this`result
      ensures var g := old(GateEarthquake(eqCoords, eqMagnitude));
        && (g.BadFormat? ==> req.None? && eqCoordsError == MsgUseFormat)
        && (g.NoMagnitude? ==> req.None? && eqCoordsError == "")
        && (!g.Send? ==> eqCoords == old(eqCoords) && eqMagnitude == old(eqMagnitude) && result == old(result))
        && (g.Send? ==> req == Some(g.request) && eqCoordsError == "")
        && (g.Send? && outcome.Succeeded? ==> eqCoords == "" && eqMagnitude == "" && result == Some(Success))
        && (g.Send? && outcome.Failed? ==>
              eqCoords == old(eqCoords) && eqMagnitude == old(eqMagnitude)
              && result == Some(Failure(ErrorText(outcome.message, MsgEarthquakeFailed))))
    {
      eqCoordsError := "";
      var g := GateEarthquake(eqCoords, eqMagnitude);
      if g.BadFormat? {
        eqCoordsError := MsgUseFormat;
        req := None;
      } else if g.NoMagnitude? {
        req := None;
      } else {
        req := Some(g.request);
        if outcome.Succeeded? {
          result := Some(Success);
          eqCoords := "";
          eqMagnitude := "";
        } else {
          result := Some(Failure(ErrorText(outcome.message, MsgEarthquakeFailed)));
        }
      }
    }

    /** `handleWeather`: nothing is sent without a location; a success resets
        the five fields to blank. */
    method HandleWeather(outcome: PostOutcome) returns (req: Option<WeatherRequest>)
      requires Valid()
      modifies this`wxFields, this`result
      ensures Valid()
      ensures old(wxLocationId) == "" ==> req.None? && wxFields == old(wxFields) && result == old(result)
      ensures old(wxLocationId) != "" ==> req == Some(WeatherRequest(old(wxLocationId), old(wxFields)))
      ensures old(wxLocationId) != "" && outcome.Succeeded? ==> wxFields == BlankWeatherFields && result == Some(Success)
      ensures old(wxLocationId) != "" && outcome.Failed? ==>
        wxFields == old(wxFields) && result == Some(Failure(ErrorText(outcome.message, MsgWeatherFailed)))
    {
      if wxLocationId == "" {
        req := None;
      } else {
        req := Some(WeatherRequest(wxLocationId, wxFields));
        if outcome.Succeeded? {
          result := Some(Success);
          wxFields := BlankWeatherFields;
        } else {
          result := Some(Failure(ErrorText(outcome.message, MsgWeatherFailed)));
        }
      }
    }
  }
}
