/** The air-quality badge of the weather-log page: `getAqiLabel` puts a US
    AQI value into one of four bands. The bounds 50, 100 and 150 are those of
    the first three categories of the Air Quality Index of 40 CFR Part 58,
    Appendix G (Table 2); the page shows every value above 150 as one band. */
module WeatherLogs {
  import opened Common

  datatype AqiLabel = Good | Moderate | Sensitive | Unhealthy

  /** `getAqiLabel(aqi)`: null for a missing value, else the first band whose
      inclusive upper bound the value does not exceed. */
  function GetAqiLabel(aqi: Option<real>): (r: Option<AqiLabel>)
    ensures r.None? <==> aqi.None?
    ensures r == Some(Good) <==> aqi.Some? && aqi.value <= 50.0
    ensures r == Some(Moderate) <==> aqi.Some? && 50.0 < aqi.value <= 100.0
    ensures r == Some(Sensitive) <==> aqi.Some? && 100.0 < aqi.value <= 150.0
    ensures r == Some(Unhealthy) <==> aqi.Some? && aqi.value > 150.0
  {
    match aqi
    case None => None
    case Some(v) =>
      if v <= 50.0 then Some(Good)
      else if v <= 100.0 then Some(Moderate)
      else if v <= 150.0 then Some(Sensitive)
      else Some(Unhealthy)
  }

  /** The text and the colour classes of each badge. */
  function LabelText(l: AqiLabel): string {
    match l
    case Good => "Good"
    case Moderate => "Moderate"
    case Sensitive => "Sensitive"
    case Unhealthy => "Unhealthy"
  }

  function LabelColor(l: AqiLabel): string {
    match l
    case Good => "bg-emerald-100 text-emerald-700 border-emerald-200"
    case Moderate => "bg-amber-100 text-amber-700 border-amber-200"
    case Sensitive => "bg-orange-100 text-orange-700 border-orange-200"
    case Unhealthy => "bg-rose-100 text-rose-700 border-rose-200"
  }

  /** How bad a band is: 0 for Good up to 3 for Unhealthy. */
  function Severity(l: AqiLabel): nat {
    match l
    case Good => 0
    case Moderate => 1
    case Sensitive => 2
    case Unhealthy => 3
  }

  /** A higher value never gets a better band. */
  lemma LabelIsMonotone(a: real, b: real)
    requires a <= b
    ensures Severity(GetAqiLabel(Some(a)).value) <= Severity(GetAqiLabel(Some(b)).value)
  {
  }

  /** The six categories of the index, for its integer values. */
  datatype EpaCategory = EpaGood | EpaModerate | UnhealthyForSensitiveGroups | EpaUnhealthy
    | VeryUnhealthy | Hazardous

  /** The index ranges of Table 2 of 40 CFR Part 58, Appendix G: 0-50, 51-100,
      101-150, 151-200, 201-300, and 301 or higher. */
  function EpaCategoryOf(index: nat): EpaCategory {
    if index <= 50 then EpaGood
    else if index <= 100 then EpaModerate
    else if index <= 150 then UnhealthyForSensitiveGroups
    else if index <= 200 then EpaUnhealthy
    else if index <= 300 then VeryUnhealthy
    else Hazardous
  }

  /** On every index value the badge names the regulation's category, with
      the three worst categories shown as one. */
  lemma LabelFollowsEpa(index: nat)
    ensures var l := GetAqiLabel(Some(index as real)).value;
      var c := EpaCategoryOf(index);
      (l == Good <==> c == EpaGood)
      && (l == Moderate <==> c == EpaModerate)
      && (l == Sensitive <==> c == UnhealthyForSensitiveGroups)
      && (l == Unhealthy <==> c in {EpaUnhealthy, VeryUnhealthy, Hazardous})
  {
  }
}
