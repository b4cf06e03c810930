/** The magnitude badge of the earthquake-log page: `getMagnitudeColor`
    colours a magnitude by the first of the lower bounds 7, 5 and 3 it
    reaches. */
module EarthquakeLogs {

  datatype MagnitudeBand = Red | Orange | Amber | Slate

  /** The band of a magnitude; lower bounds are inclusive. */
  function BandOf(m: real): (b: MagnitudeBand)
    ensures b == Red <==> m >= 7.0
    ensures b == Orange <==> 5.0 <= m < 7.0
    ensures b == Amber <==> 3.0 <= m < 5.0
    ensures b == Slate <==> m < 3.0
  {
    if m >= 7.0 then Red
    else if m >= 5.0 then Orange
    else if m >= 3.0 then Amber
    else Slate
  }

  function BandClasses(b: MagnitudeBand): string {
    match b
    case Red => "bg-red-100 text-red-800 border-red-200"
    case Orange => "bg-orange-100 text-orange-800 border-orange-200"
    case Amber => "bg-amber-100 text-amber-800 border-amber-200"
    case Slate => "bg-slate-100 text-slate-700 border-slate-200"
  }

  /** `getMagnitudeColor(m)`: the classes of the magnitude's band. */
  function GetMagnitudeColor(m: real): string {
    BandClasses(BandOf(m))
  }

  /** How strong a band is: 0 for Slate up to 3 for Red. */
  function Strength(b: MagnitudeBand): nat {
    match b
    case Slate => 0
    case Amber => 1
    case Orange => 2
    case Red => 3
  }

  /** A stronger quake never gets a weaker colour. */
  lemma BandIsMonotone(a: real, b: real)
    requires a <= b
    ensures Strength(BandOf(a)) <= Strength(BandOf(b))
  {
  }
}
