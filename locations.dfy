/** The admin page for monitored locations: the coordinate text it shows
    (`formatCoordinates`), the recogniser it checks a typed coordinate with
    (`validateCoordinates`), the save gate, the form reset and pre-fill, and
    its pager. */
module Locations {
  import opened Common
  import JsNumber
  import Paging

  const Degree: char := '\U{00B0}'

  /** A coordinate as JavaScript prints it: a sign and the decimal numeral
      `whole` or `whole.frac` of its absolute value. */
  datatype Decimal = Decimal(negative: bool, whole: string, frac: string) {
    predicate Valid() {
      whole != [] && AllDigits(whole) && AllDigits(frac)
    }

    function Value(): (r: real)
      requires Valid()
      ensures negative ==> r <= 0.0
      ensures !negative ==> r >= 0.0
    {
      if negative then -DecimalValue(whole, frac) else DecimalValue(whole, frac)
    }

    /** `${Math.abs(x)}`: the numeral of the magnitude. */
    function AbsText(): (r: string)
      requires Valid()
      ensures r != [] && IsDigit(r[0]) && '-' !in r
    {
      assert whole[0] == DecimalText(whole, frac)[0];
      NoMinusInNumeral(whole, frac);
      DecimalText(whole, frac)
    }
  }

  /** `parseFloat` reads the magnitude back from its text. */
  lemma AbsTextReadsBack(d: Decimal)
    requires d.Valid()
    ensures JsNumber.ParseFloat(d.AbsText()) == Finite(if d.Value() < 0.0 then -d.Value() else d.Value())
  {
    JsNumber.ParseFloatOfDecimal(d.whole, d.frac);
  }

  lemma NoMinusInNumeral(w: string, f: string)
    requires AllDigits(w) && AllDigits(f)
    ensures '-' !in DecimalText(w, f)
  {
    assert '-' !in w && '-' !in f;
  }

  /** `x >= 0` read off the numeral: no minus sign, or a numeral of zeros
      (JavaScript's `-0 >= 0` holds). */
  predicate NonNegative(d: Decimal) {
    !d.negative || (AllZeros(d.whole) && AllZeros(d.frac))
  }

  predicate AllZeros(s: string) {
    forall i :: 0 <= i < |s| ==> s[i] == '0'
  }

  /** A digit string is worth 0 exactly when all its digits are 0. */
  lemma {:induction false} DigitsValueZeroIff(s: string)
    requires AllDigits(s)
    ensures DigitsValue(s) == 0 <==> AllZeros(s)
  {
    if s != [] {
      var init := s[..|s| - 1];
      DigitsValueZeroIff(init);
      assert AllZeros(s) <==> AllZeros(init) && s[|s| - 1] == '0';
    }
  }

  /** `NonNegative` is the sign test of the value. */
  lemma NonNegativeIff(d: Decimal)
    requires d.Valid()
    ensures NonNegative(d) <==> d.Value() >= 0.0
  {
    DigitsValueZeroIff(d.whole);
    DigitsValueZeroIff(d.frac);
    var p := Pow10(|d.frac|);
    var q := DigitsValue(d.frac) as real / p;
    assert q >= 0.0;
    assert q == 0.0 <==> DigitsValue(d.frac) == 0 by {
      assert q * p == DigitsValue(d.frac) as real;
    }
  }

  /** `lat >= 0 ? 'N' : 'S'`. */
  function LatitudeLetter(lat: Decimal): (c: char)
    ensures c == 'N' <==> NonNegative(lat)
    ensures c == 'S' <==> !NonNegative(lat)
  {
    if NonNegative(lat) then 'N' else 'S'
  }

  /** `lon >= 0 ? 'E' : 'W'`. */
  function LongitudeLetter(lon: Decimal): (c: char)
    ensures c == 'E' <==> NonNegative(lon)
    ensures c == 'W' <==> !NonNegative(lon)
  {
    if NonNegative(lon) then 'E' else 'W'
  }

  /** The letters are those of the signs of the values: N exactly when the
      latitude is at least 0, E exactly when the longitude is. */
  lemma LettersOfSigns(lat: Decimal, lon: Decimal)
    requires lat.Valid() && lon.Valid()
    ensures LatitudeLetter(lat) == (if lat.Value() >= 0.0 then 'N' else 'S')
    ensures LongitudeLetter(lon) == (if lon.Value() >= 0.0 then 'E' else 'W')
  {
    NonNegativeIff(lat);
    NonNegativeIff(lon);
  }

  /** `formatCoordinates(lat, lon)`: "23.8041° N, 90.4152° E". It writes the
      magnitudes, so no minus sign appears; the sign is in the letters. */
  function FormatCoordinates(lat: Decimal, lon: Decimal): (r: string)
    requires lat.Valid() && lon.Valid()
    ensures '-' !in r
  {
    lat.AbsText() + ([Degree] + (" " + ([LatitudeLetter(lat)] + (", "
      + (lon.AbsText() + ([Degree] + (" " + [LongitudeLetter(lon)])))))))
  }

  // ---------------------------------------------------------------------
  // The recogniser: /^(\d+(\.\d+)?)°\s*([NS]),\s*(\d+(\.\d+)?)°\s*([EW])$/i

  /** `[NS]` under the `i` flag. */
  predicate IsNorthSouth(c: char) {
    c == 'N' || c == 'S' || c == 'n' || c == 's'
  }

  /** `[EW]` under the `i` flag. */
  predicate IsEastWest(c: char) {
    c == 'E' || c == 'W' || c == 'e' || c == 'w'
  }

  /** The pieces of a string the pattern matches: the two numerals (a fraction
      is present exactly when `frac` is not empty), the three runs of optional
      whitespace, and the two hemisphere letters. */
  datatype CoordParts = CoordParts(
    latWhole: string, latFrac: string, latGap: string, latLetter: char,
    lonGap: string,
    lonWhole: string, lonFrac: string, lonLetterGap: string, lonLetter: char)

  predicate WellFormed(p: CoordParts) {
    p.latWhole != [] && AllDigits(p.latWhole) && AllDigits(p.latFrac)
    && p.lonWhole != [] && AllDigits(p.lonWhole) && AllDigits(p.lonFrac)
    && AllSpaces(p.latGap) && AllSpaces(p.lonGap) && AllSpaces(p.lonLetterGap)
    && IsNorthSouth(p.latLetter) && IsEastWest(p.lonLetter)
  }

  /** The text made of the pieces: the language of the pattern is the set of
      these texts for well-formed pieces. */
  function Assemble(p: CoordParts): string {
    DecimalText(p.latWhole, p.latFrac) + ([Degree] + AfterLatitude(p))
  }

  /** `\s*([NS]),\s*` and the longitude. */
  function AfterLatitude(p: CoordParts): string {
    p.latGap + ([p.latLetter] + ("," + (p.lonGap + LongitudeText(p))))
  }

  /** `(\d+(\.\d+)?)°\s*([EW])`. */
  function LongitudeText(p: CoordParts): string {
    DecimalText(p.lonWhole, p.lonFrac) + ([Degree] + (p.lonLetterGap + [p.lonLetter]))
  }

  // The scanner reads each piece as the longest run of its kind. That is the
  // only way the pattern can match: a shorter run of digits would leave a
  // digit where a point or the degree sign is needed, and a shorter run of
  // whitespace would leave a space where a letter is needed.

  /** `\d+(\.\d+)?` at the start of `s`, and what follows it. A point that is
      not followed by a digit cannot start the fraction, and the degree sign the
      pattern needs next cannot match it either, so the numeral fails then. */
  function ScanNumeral(s: string): Option<(string, string, string)> {
    var w := JsNumber.DigitRun(s);
    if w == [] then None
    else
      var after := s[|w|..];
      if after != [] && after[0] == '.' then
        var f := JsNumber.DigitRun(after[1..]);
        if f == [] then None else Some((w, f, after[1 + |f|..]))
      else Some((w, [], after))
  }

  lemma ScanNumeralSound(s: string)
    ensures ScanNumeral(s).Some? ==> var (w, f, rest) := ScanNumeral(s).value;
      w != [] && AllDigits(w) && AllDigits(f) && s == DecimalText(w, f) + rest
  {
    if ScanNumeral(s).Some? {
      var w := JsNumber.DigitRun(s);
      var after := s[|w|..];
      JsNumber.DigitRunShape(s);
      assert s == w + after;
      if after != [] && after[0] == '.' {
        var f := JsNumber.DigitRun(after[1..]);
        var rest := after[1 + |f|..];
        JsNumber.DigitRunShape(after[1..]);
        assert after[1..] == f + rest;
        assert after == "." + (f + rest);
        DecimalTextThen(w, f, rest);
      } else {
        assert DecimalText(w, []) == w;
      }
    }
  }

  /** A numeral followed by a character that cannot continue it is read whole. */
  lemma ScanNumeralOf(w: string, f: string, rest: string)
    requires w != [] && AllDigits(w) && AllDigits(f)
    requires rest == [] || (!IsDigit(rest[0]) && rest[0] != '.')
    ensures ScanNumeral(DecimalText(w, f) + rest) == Some((w, f, rest))
  {
    var s := DecimalText(w, f) + rest;
    if f == [] {
      assert s == w + rest;
      JsNumber.DigitRunOfDigits(w, rest);
      assert s[|w|..] == rest;
    } else {
      var after := "." + (f + rest);
      DecimalTextThen(w, f, rest);
      assert s == w + after;
      JsNumber.DigitRunOfDigits(w, after);
      assert s[|w|..] == after;
      assert after[1..] == f + rest;
      JsNumber.DigitRunOfDigits(f, rest);
      assert (f + rest)[|f|..] == rest;
    }
  }

  /** `\s*([EW])$`. */
  function ScanLastLetter(s: string): Option<(string, char)> {
    var g := SpaceRun(s);
    var last := s[|g|..];
    if |last| == 1 && IsEastWest(last[0]) then Some((g, last[0])) else None
  }

  lemma ScanLastLetterSound(s: string)
    ensures ScanLastLetter(s).Some? ==> var (g, l) := ScanLastLetter(s).value;
      AllSpaces(g) && IsEastWest(l) && s == g + [l]
  {
    var g := SpaceRun(s);
    var last := s[|g|..];
    SpaceRunSplit(s);
    if |last| == 1 {
      assert last == [last[0]];
    }
  }

  lemma ScanLastLetterOf(g: string, l: char, junk: string)
    requires AllSpaces(g) && IsEastWest(l)
    ensures ScanLastLetter(g + ([l] + junk)) == if junk == [] then Some((g, l)) else None
  {
    SpaceRunOf(g, [l] + junk);
    assert (g + ([l] + junk))[|g|..] == [l] + junk;
  }

  /** `(\d+(\.\d+)?)°\s*([EW])$`: the longitude and the end of the text. */
  function ScanLongitude(s: string): Option<(string, string, string, char)> {
    match ScanNumeral(s)
    case None => None
    case Some((w, f, rest)) =>
      if rest == [] || rest[0] != Degree then None
      else
        match ScanLastLetter(rest[1..])
        case None => None
        case Some((g, l)) => Some((w, f, g, l))
  }

  lemma ScanLongitudeSound(s: string)
    ensures ScanLongitude(s).Some? ==> var (w, f, g, l) := ScanLongitude(s).value;
      w != [] && AllDigits(w) && AllDigits(f) && AllSpaces(g) && IsEastWest(l)
      && s == DecimalText(w, f) + ([Degree] + (g + [l]))
  {
    if ScanLongitude(s).Some? {
      ScanNumeralSound(s);
      var (w, f, rest) := ScanNumeral(s).value;
      assert rest == [Degree] + rest[1..];
      ScanLastLetterSound(rest[1..]);
    }
  }

  lemma ScanLongitudeOf(w: string, f: string, g: string, l: char, junk: string)
    requires w != [] && AllDigits(w) && AllDigits(f) && AllSpaces(g) && IsEastWest(l)
    ensures ScanLongitude(DecimalText(w, f) + ([Degree] + (g + [l])) + junk) ==
      if junk == [] then Some((w, f, g, l)) else None
  {
    var tail := [Degree] + (g + ([l] + junk));
    assert DecimalText(w, f) + ([Degree] + (g + [l])) + junk == DecimalText(w, f) + tail;
    ScanNumeralOf(w, f, tail);
    assert tail[1..] == g + ([l] + junk);
    ScanLastLetterOf(g, l, junk);
  }

  /** `\s*([NS]),\s*` and the longitude: the part after the latitude's degree sign. */
  function ScanAfterLatitude(s: string): Option<(string, char, string, string, string, string, char)> {
    var g1 := SpaceRun(s);
    var r2 := s[|g1|..];
    if |r2| < 2 || !IsNorthSouth(r2[0]) || r2[1] != ',' then None
    else
      var g2 := SpaceRun(r2[2..]);
      match ScanLongitude(r2[2..][|g2|..])
      case None => None
      case Some((w, f, g3, l2)) => Some((g1, r2[0], g2, w, f, g3, l2))
  }

  lemma ScanAfterLatitudeSound(s: string)
    ensures ScanAfterLatitude(s).Some? ==> var (g1, l1, g2, w, f, g3, l2) := ScanAfterLatitude(s).value;
      AllSpaces(g1) && IsNorthSouth(l1) && AllSpaces(g2)
      && s == g1 + ([l1] + ("," + (g2 + ScanAfterLatitudeRest(s))))
      && ScanLongitude(ScanAfterLatitudeRest(s)) == Some((w, f, g3, l2))
  {
    if ScanAfterLatitude(s).Some? {
      var g1 := SpaceRun(s);
      var r2 := s[|g1|..];
      SpaceRunShape(s);
      SpaceRunShape(r2[2..]);
      AfterLatitudeShape(s);
    }
  }

  /** How `s` splits at the points where `ScanAfterLatitude` looks. */
  lemma AfterLatitudeShape(s: string)
    requires var r2 := s[|SpaceRun(s)|..]; |r2| >= 2 && r2[1] == ','
    ensures var g1 := SpaceRun(s); var r2 := s[|g1|..];
      s == g1 + ([r2[0]] + ("," + (SpaceRun(r2[2..]) + ScanAfterLatitudeRest(s))))
  {
    var g1 := SpaceRun(s);
    var r2 := s[|g1|..];
    var r3 := r2[2..];
    SpaceRunSplit(s);
    SplitAtComma(r2);
    SpaceRunSplit(r3);
  }

  lemma SplitAtComma(r: string)
    requires |r| >= 2 && r[1] == ','
    ensures r == [r[0]] + ("," + r[2..])
  {
    assert r[1..] == [r[1]] + r[2..];
    assert r == [r[0]] + r[1..];
  }

  /** What `ScanAfterLatitude` hands to the longitude. */
  function ScanAfterLatitudeRest(s: string): string {
    var g1 := SpaceRun(s);
    var r2 := s[|g1|..];
    if |r2| < 2 then [] else r2[2..][|SpaceRun(r2[2..])|..]
  }

  lemma ScanAfterLatitudeOf(g1: string, l1: char, g2: string, lon: string)
    requires AllSpaces(g1) && IsNorthSouth(l1) && AllSpaces(g2)
    requires lon != [] && IsDigit(lon[0])
    ensures var s := g1 + ([l1] + ("," + (g2 + lon)));
      ScanAfterLatitudeRest(s) == lon
      && ScanAfterLatitude(s) == match ScanLongitude(lon)
        case None => None
        case Some((w, f, g3, l2)) => Some((g1, l1, g2, w, f, g3, l2))
  {
    var r3 := g2 + lon;
    var c3 := "," + r3;
    var r2 := [l1] + c3;
    var s := g1 + r2;
    SpaceRunOf(g1, r2);
    assert s[|g1|..] == r2;
    assert r2[1..] == c3;
    assert r2[2..] == c3[1..] == r3;
    SpaceRunOf(g2, lon);
    assert r3[|g2|..] == lon;
  }

  /** The anchored match of the pattern on the whole of `s`. */
  function Scan(s: string): Option<CoordParts> {
    match ScanNumeral(s)
    case None => None
    case Some((w, f, rest)) =>
      if rest == [] || rest[0] != Degree then None
      else
        match ScanAfterLatitude(rest[1..])
        case None => None
        case Some((g1, l1, g2, w2, f2, g3, l2)) => Some(CoordParts(w, f, g1, l1, g2, w2, f2, g3, l2))
  }

  /** Whatever the scanner matches is made of well-formed pieces. */
  lemma ScanSound(s: string)
    ensures Scan(s).Some? ==> WellFormed(Scan(s).value) && Assemble(Scan(s).value) == s
  {
    if Scan(s).Some? {
      var p := Scan(s).value;
      var rest := ScanNumeralStep(s);
      var after := ScanDegreeSplit(rest);
      ScanAfterStep(s, rest, after);
      ScanNumeralSound(s);
      ScanAfterLatitudeSound(after);
      var lon := ScanAfterLatitudeRest(after);
      ScanLongitudeSound(lon);
      PiecesAssemble(p, s, rest, after, lon);
    }
  }

  /** A successful scan reads the latitude's numeral first, and a degree sign follows it. */
  lemma ScanNumeralStep(s: string) returns (rest: string)
    requires Scan(s).Some?
    ensures ScanNumeral(s) == Some((Scan(s).value.latWhole, Scan(s).value.latFrac, rest))
    ensures rest != [] && rest[0] == Degree
  {
    rest := ScanNumeral(s).value.2;
  }

  lemma ScanDegreeSplit(rest: string) returns (after: string)
    requires rest != [] && rest[0] == Degree
    ensures after == rest[1..] && rest == [Degree] + after
  {
    after := rest[1..];
    assert rest == [rest[0]] + after;
  }

  /** After the degree sign the scan reads the rest of the pieces of its result. */
  lemma ScanAfterStep(s: string, rest: string, after: string)
    requires Scan(s).Some? && ScanNumeral(s).Some? && ScanNumeral(s).value.2 == rest
    requires rest != [] && after == rest[1..]
    ensures var p := Scan(s).value;
      ScanAfterLatitude(after) == Some((p.latGap, p.latLetter, p.lonGap, p.lonWhole, p.lonFrac, p.lonLetterGap, p.lonLetter))
  {
  }

  /** The equations the three soundness lemmas give put the text together. */
  lemma PiecesAssemble(p: CoordParts, s: string, rest: string, after: string, lon: string)
    requires s == DecimalText(p.latWhole, p.latFrac) + rest && rest == [Degree] + after
    requires after == p.latGap + ([p.latLetter] + ("," + (p.lonGap + lon)))
    requires lon == DecimalText(p.lonWhole, p.lonFrac) + ([Degree] + (p.lonLetterGap + [p.lonLetter]))
    ensures Assemble(p) == s
  {
  }

  /** A latitude numeral and its degree sign are read whole, and the scan goes
      on with the rest. */
  lemma ScanAfterDegree(w: string, f: string, after: string)
    requires w != [] && AllDigits(w) && AllDigits(f)
    ensures Scan(DecimalText(w, f) + ([Degree] + after)) == match ScanAfterLatitude(after)
      case None => None
      case Some((g1, l1, g2, w2, f2, g3, l2)) => Some(CoordParts(w, f, g1, l1, g2, w2, f2, g3, l2))
  {
    var tail := [Degree] + after;
    ScanNumeralOf(w, f, tail);
    assert tail[1..] == after;
  }

  /** How `Assemble(p) + junk` nests, piece by piece. */
  lemma AssembledShape(p: CoordParts, junk: string)
    ensures Assemble(p) + junk == DecimalText(p.latWhole, p.latFrac) + ([Degree]
      + (p.latGap + ([p.latLetter] + ("," + (p.lonGap + (LongitudeText(p) + junk))))))
  {
  }

  /** Every text of the pattern's language is matched, with its own pieces,
      and nothing that extends such a text is: the pattern is anchored at the end. */
  lemma ScanAssembled(p: CoordParts, junk: string)
    requires WellFormed(p)
    ensures Scan(Assemble(p) + junk) == if junk == [] then Some(p) else None
  {
    var lon := LongitudeText(p) + junk;
    assert lon[0] == p.lonWhole[0];
    ScanLongitudeOf(p.lonWhole, p.lonFrac, p.lonLetterGap, p.lonLetter, junk);
    ScanAfterLatitudeOf(p.latGap, p.latLetter, p.lonGap, lon);
    AssembledShape(p, junk);
    ScanAfterDegree(p.latWhole, p.latFrac, p.latGap + ([p.latLetter] + ("," + (p.lonGap + lon))));
  }

  lemma ScanComplete(p: CoordParts)
    requires WellFormed(p)
    ensures Scan(Assemble(p)) == Some(p)
  {
    ScanAssembled(p, []);
    assert Assemble(p) + [] == Assemble(p);
  }

  /** `validateCoordinates(coord)`: the pattern tested on `coord.trim()`. */
  predicate ValidateCoordinates(coord: string) {
    Scan(Trim(coord)).Some?
  }

  /** The recogniser accepts exactly the texts that, once trimmed, are made of
      well-formed pieces. */
  lemma ValidateCoordinatesIff(coord: string)
    ensures ValidateCoordinates(coord) <==> exists p :: WellFormed(p) && Assemble(p) == Trim(coord)
  {
    var t := Trim(coord);
    ScanSound(t);
    if exists p :: WellFormed(p) && Assemble(p) == t {
      var p :| WellFormed(p) && Assemble(p) == t;
      ScanComplete(p);
    }
  }

  /** A text with no whitespace at either end is tested as it is. */
  lemma ValidateUnpadded(s: string)
    requires s != [] && !IsJsSpace(s[0]) && !IsJsSpace(s[|s| - 1])
    ensures ValidateCoordinates(s) == Scan(s).Some?
  {
    TrimOfUnpadded(s);
  }

  /** A text whose first character is not a digit does not match. */
  lemma ScanNeedsDigitFirst(t: string)
    requires t == [] || !IsDigit(t[0])
    ensures Scan(t).None?
  {
    assert JsNumber.DigitRun(t) == [];
  }

  /** A sign in front of the latitude is rejected. */
  lemma SignedLatitudeRejected(coord: string)
    requires Trim(coord) != [] && (Trim(coord)[0] == '-' || Trim(coord)[0] == '+')
    ensures !ValidateCoordinates(coord)
  {
    ScanNeedsDigitFirst(Trim(coord));
  }

  /** Whitespace between the latitude's numeral and its degree sign is rejected. */
  lemma SpaceBeforeDegreeRejected(w: string, f: string, rest: string)
    requires w != [] && AllDigits(w) && AllDigits(f)
    requires rest != [] && IsJsSpace(rest[0])
    ensures Scan(DecimalText(w, f) + rest).None?
  {
    ScanNumeralOf(w, f, rest);
  }

  /** Text after the final hemisphere letter, other than the whitespace that
      the trim removes, is rejected. */
  lemma TrailingJunkRejected(p: CoordParts, junk: string)
    requires WellFormed(p) && junk != [] && !IsJsSpace(junk[|junk| - 1])
    ensures !ValidateCoordinates(Assemble(p) + junk)
  {
    var s := Assemble(p) + junk;
    assert s[0] == Assemble(p)[0] == DecimalText(p.latWhole, p.latFrac)[0] == p.latWhole[0];
    ValidateUnpadded(s);
    ScanAssembled(p, junk);
  }

  /** Text before the latitude, other than whitespace, is rejected. */
  lemma LeadingJunkRejected(junk: string, p: CoordParts)
    requires WellFormed(p) && junk != [] && !IsJsSpace(junk[0]) && !IsDigit(junk[0])
    ensures !ValidateCoordinates(junk + Assemble(p))
  {
    var s := junk + Assemble(p);
    assert s[|s| - 1] == Assemble(p)[|Assemble(p)| - 1] == p.lonLetter;
    ValidateUnpadded(s);
    ScanNeedsDigitFirst(s);
  }

  /** The pieces `formatCoordinates` writes: one space in each gap and the
      hemisphere letters of the signs. */
  function FormatParts(lat: Decimal, lon: Decimal): (p: CoordParts)
    requires lat.Valid() && lon.Valid()
    ensures WellFormed(p)
  {
    CoordParts(lat.whole, lat.frac, " ", LatitudeLetter(lat), " ", lon.whole, lon.frac, " ", LongitudeLetter(lon))
  }

  /** What `formatCoordinates` writes is the text of those pieces. */
  lemma FormatIsAssembled(lat: Decimal, lon: Decimal)
    requires lat.Valid() && lon.Valid()
    ensures Assemble(FormatParts(lat, lon)) == FormatCoordinates(lat, lon)
  {
    var p := FormatParts(lat, lon);
    var lonText := lon.AbsText() + ([Degree] + (" " + [LongitudeLetter(lon)]));
    assert LongitudeText(p) == lonText;
    assert ", " + lonText == "," + (" " + lonText);
    assert AfterLatitude(p) == " " + ([LatitudeLetter(lat)] + (", " + lonText));
  }

  /** The pre-filled coordinates of an edit pass the recogniser, which reads
      back the numerals and the hemispheres of the signs. */
  lemma FormatThenValidate(lat: Decimal, lon: Decimal)
    requires lat.Valid() && lon.Valid()
    ensures ValidateCoordinates(FormatCoordinates(lat, lon))
    ensures Scan(FormatCoordinates(lat, lon)) == Some(FormatParts(lat, lon))
    ensures Trim(FormatCoordinates(lat, lon)) == FormatCoordinates(lat, lon)
  {
    FormatIsAssembled(lat, lon);
    AssembledValidates(FormatParts(lat, lon));
  }

  /** A text of the language passes the recogniser as it is: it has no
      whitespace at either end for the trim to remove. */
  lemma AssembledValidates(p: CoordParts)
    requires WellFormed(p)
    ensures ValidateCoordinates(Assemble(p)) && Scan(Assemble(p)) == Some(p)
    ensures Trim(Assemble(p)) == Assemble(p)
  {
    var s := Assemble(p);
    AssembledEnds(p);
    assert !IsJsSpace(s[0]) && !IsJsSpace(s[|s| - 1]);
    TrimOfUnpadded(s);
    ScanComplete(p);
  }

  /** A text of the language starts with a digit and ends with a letter. */
  lemma AssembledEnds(p: CoordParts)
    requires WellFormed(p)
    ensures var s := Assemble(p); s != [] && IsDigit(s[0]) && IsEastWest(s[|s| - 1])
  {
    var s := Assemble(p);
    assert s[0] == DecimalText(p.latWhole, p.latFrac)[0] == p.latWhole[0];
    var lon := LongitudeText(p);
    assert s[|s| - 1] == lon[|lon| - 1] == p.lonLetter;
  }

  // ---------------------------------------------------------------------
  // The page

  datatype Mode = Add | Edit

  /** A row of the locations table, with coordinates that print as plain decimals. */
  datatype Location = Location(id: int, name: string, latitude: Decimal, longitude: Decimal)

  /** The dialog's fields: `{ id, name, coordinates }`. */
  datatype LocationForm = LocationForm(id: Option<int>, name: string, coordinates: string)

  const EmptyLocationForm := LocationForm(None, "", "")

  const MsgInvalidFormat := "Invalid format. Please use: 23.8041\U{00B0} N, 90.4152\U{00B0} E"
  const MsgSaveFailed := "Failed to save location."

  /** The request a save sends: a POST of a new location or a PUT of the edited one. */
  datatype LocationRequest =
    | Create(name: string, coordinates: string)
    | Update(id: Option<int>, name: string, coordinates: string)

  /** How the request ends: stored, or refused with the server's `error` text if any. */
  datatype SaveOutcome = Saved | Failed(error: Option<string>)

  /** `e.response?.data?.error || 'Failed to save location.'`. */
  function FailureMessage(error: Option<string>): (m: string)
    ensures m != ""
    ensures error.Some? && error.value != "" ==> m == error.value
    ensures error.None? || error.value == "" ==> m == MsgSaveFailed
  {
    if error.Some? && error.value != "" then error.value else MsgSaveFailed
  }

  /** The form `openModal` shows: the row's values for an edit, else blank. */
  function OpenForm(mode: Mode, loc: Option<Location>): (f: LocationForm)
    requires loc.Some? ==> loc.value.latitude.Valid() && loc.value.longitude.Valid()
    ensures mode == Edit && loc.Some? ==>
      f.id == Some(loc.value.id) && f.name == loc.value.name
      && ValidateCoordinates(f.coordinates)
      && Scan(f.coordinates) == Some(FormatParts(loc.value.latitude, loc.value.longitude))
    ensures !(mode == Edit && loc.Some?) ==> f == EmptyLocationForm && !ValidateCoordinates(f.coordinates)
  {
    if mode == Edit && loc.Some? then
      FormatThenValidate(loc.value.latitude, loc.value.longitude);
      LocationForm(Some(loc.value.id), loc.value.name, FormatCoordinates(loc.value.latitude, loc.value.longitude))
    else
      ScanNeedsDigitFirst(Trim(""));
      EmptyLocationForm
  }

  /** The request `handleSave` sends for a form, if the coordinates pass. */
  function SaveRequest(f: LocationForm, mode: Mode): (r: Option<LocationRequest>)
    ensures r.Some? <==> ValidateCoordinates(f.coordinates)
    ensures r.Some? ==> r.value.name == f.name && r.value.coordinates == f.coordinates
    ensures r.Some? ==> (r.value.Create? <==> mode == Add)
    ensures r.Some? && r.value.Update? ==> r.value.id == f.id
  {
    if !ValidateCoordinates(f.coordinates) then None
    else if mode == Add then Some(Create(f.name, f.coordinates))
    else Some(Update(f.id, f.name, f.coordinates))
  }

  /** Editing a location and saving it unchanged sends its own id, name and
      printed coordinates: the pre-filled text always passes the check. */
  lemma EditThenSaveSends(loc: Location)
    requires loc.latitude.Valid() && loc.longitude.Valid()
    ensures SaveRequest(OpenForm(Edit, Some(loc)), Edit)
      == Some(Update(Some(loc.id), loc.name, FormatCoordinates(loc.latitude, loc.longitude)))
  {
  }

  /** The caption's first number as the page writes it: `(page - 1) * limit + 1`,
      with no case for an empty table. It agrees with the guarded start on
      every table that has rows and is never 0 on a page that exists. */
  function RangeStartAsWritten(page: int, limit: nat): (r: int)
    ensures page >= 1 ==> r >= 1
    ensures forall total: nat :: total > 0 ==> r == Paging.RangeStart(page, limit, total)
  {
    var r := (page - 1) * limit + 1;
    assert page >= 1 ==> r >= 1 by {
      if page >= 1 {
        Paging.PageBounds(page, limit);
      }
    }
    r
  }

  /** With no locations the caption reads "Showing 1 to 0 of 0". */
  lemma EmptyCaptionAsWritten()
    ensures RangeStartAsWritten(1, 10) == 1 && Paging.RangeEnd(1, 10, 0) == 0
    ensures Paging.RangeStart(1, 10, 0) == 0
  {
  }

  /** Next: disabled only when `page === totalPages`, otherwise `page + 1`. */
  function NextPageAsWritten(page: int, totalPages: int): (r: int)
    ensures page < totalPages ==> r == page + 1
    ensures page == totalPages ==> r == page
  {
    if page == totalPages then page else page + 1
  }

  /** The button keeps a page inside `[1, totalPages]` there, but a page past
      the last one (or a reported count of 0) is never stopped. */
  lemma NextPageAsWrittenRange(page: int, totalPages: int)
    ensures 1 <= page <= totalPages ==> 1 <= NextPageAsWritten(page, totalPages) <= totalPages
    ensures page > totalPages ==> NextPageAsWritten(page, totalPages) > totalPages
  {
  }

  class LocationsPage {
    var locations: seq<Location>
    var searchQuery: string
    var page: int
    var limit: Paging.Limit
    var totalPages: int
    var totalItems: nat
    var isModalOpen: bool
    var modalMode: Mode
    var formData: LocationForm
    var formError: string
    var isSaving: bool

    ghost predicate Valid()
      reads this
    {
      page >= 1
    }

    constructor ()
      ensures Valid()
      ensures locations == [] && searchQuery == "" && page == 1 && limit == Paging.PerPage(10)
      ensures totalPages == 1 && totalItems == 0
      ensures !isModalOpen && modalMode == Add && formData == EmptyLocationForm && formError == "" && !isSaving
    {
      locations := [];
      searchQuery := "";
      page := 1;
      limit := Paging.PerPage(10);
      totalPages := 1;
      totalItems := 0;
      isModalOpen := false;
      modalMode := Add;
      formData := EmptyLocationForm;
      formError := "";
      isSaving := false;
    }

    /** The answer of a list request, stored as it comes. */
    method ReceivePage(data: seq<Location>, pages: int, total: nat)
      modifies this`locations, this`totalPages, this`totalItems
      ensures locations == data && totalPages == pages && totalItems == total
    {
      locations := data;
      totalPages := pages;
      totalItems := total;
    }

    method SearchChange(q: string)
      modifies this`searchQuery, this`page
      ensures Valid()
      ensures searchQuery == q && page == 1
    {
      searchQuery := q;
      page := 1;
    }

    method LimitChange(l: Paging.Limit)
      modifies this`limit, this`page
      ensures Valid()
      ensures limit == l && page == 1
    {
      limit := l;
      page := 1;
    }

    /** `openModal(mode, location)`. */
    method OpenModal(mode: Mode, loc: Option<Location>)
      requires loc.Some? ==> loc.value.latitude.Valid() && loc.value.longitude.Valid()
      modifies this`modalMode, this`formError, this`formData, this`isModalOpen
      ensures modalMode == mode && formError == "" && isModalOpen
      ensures formData == OpenForm(mode, loc)
    {
      modalMode := mode;
      formError := "";
      formData := OpenForm(mode, loc);
      isModalOpen := true;
    }

    /** `handleSave`: coordinates that fail the check show the format message
        and send nothing; otherwise the request goes out and its outcome either
        closes the dialog or shows the server's error. */
    method HandleSave(outcome: SaveOutcome) returns (req: Option<LocationRequest>)
      modifies this`formError, this`isModalOpen, this`isSaving
      ensures req == old(SaveRequest(formData, modalMode))
      ensures req.None? ==>
        formError == MsgInvalidFormat && isModalOpen == old(isModalOpen) && isSaving == old(isSaving)
      ensures req.Some? ==> !isSaving
      ensures req.Some? && outcome.Saved? ==> !isModalOpen && formError == ""
      ensures req.Some? && outcome.Failed? ==>
        isModalOpen == old(isModalOpen) && formError == FailureMessage(outcome.error)
    {
      req := SaveRequest(formData, modalMode);
      if req.None? {
        formError := MsgInvalidFormat;
      } else {
        // isSaving is true while the request is out and false once it ends
        isSaving := false;
        match outcome
        case Saved =>
          formError := "";
          isModalOpen := false;
        case Failed(error) =>
          formError := FailureMessage(error);
      }
    }

    /** Previous: disabled on page 1, otherwise `page - 1`. */
    method PreviousPage()
      requires Valid()
      modifies this`page
      ensures Valid()
      ensures page == if old(page) == 1 then 1 else old(page) - 1
    {
      if page != 1 {
        page := page - 1;
      }
    }

    method NextPage()
      requires Valid()
      modifies this`page
      ensures Valid()
      ensures page == NextPageAsWritten(old(page), totalPages)
    {
      if page != totalPages {
        page := page + 1;
      }
    }

    /** The "Showing X to Y of N" caption, shown only for a numeric limit. */
    function Caption(): (c: Option<(int, int)>)
      reads this
      ensures c.None? <==> limit.AllRows?
      ensures c.Some? ==> c.value.0 == RangeStartAsWritten(page, limit.n)
      ensures c.Some? ==> c.value.1 == Paging.Min(page * limit.n, totalItems)
    {
      match limit
      case AllRows => None
      case PerPage(n) => Some((RangeStartAsWritten(page, n), Paging.RangeEnd(page, n, totalItems)))
    }
  }
}
