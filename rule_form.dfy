/** The admin page for alert rules: the ordered checks of the rule form, the
    payload it sends, the edit pre-fill, the status toggle of one rule in the
    list, and the page state of the table. */
module RuleForm {
  import opened Common
  import JsNumber
  import Paging

  /** One entry of `WEATHER_CONDITIONS`. */
  datatype Condition = Condition(value: string, title: string, unit: string)

  const WeatherConditions: seq<Condition> := [
    Condition("rain_sum", "Rain (mm)", "mm"),
    Condition("wind_speed", "Wind Speed (km/h)", "km/h"),
    Condition("temperature", "Temperature (°C)", "°C"),
    Condition("humidity", "Humidity (%)", "%"),
    Condition("aqi", "Air Quality Index (US AQI)", "AQI"),
    Condition("earthquake_magnitude", "Earthquake Magnitude (Richter)", "Mag")
  ]

  /** `WEATHER_CONDITIONS.find(c => c.value === value)?.label`. */
  function LabelIn(conditions: seq<Condition>, value: string): (r: Option<string>)
    ensures r.Some? <==> exists i :: 0 <= i < |conditions| && conditions[i].value == value
    ensures r.Some? ==> exists i :: 0 <= i < |conditions| && conditions[i].value == value && conditions[i].title == r.value
  {
    if conditions == [] then None
    else if conditions[0].value == value then Some(conditions[0].title)
    else LabelIn(conditions[1..], value)
  }

  /** The rule form; every control holds text. */
  datatype RuleForm = RuleForm(
    locationId: string,
    disasterId: string,
    weatherCondition: string,
    operator: string,
    thresholdValue: string,
    messageTemplate: string,
    severityLevel: string)

  const EmptyForm := RuleForm("", "", "rain_sum", ">", "", "", "Medium")

  const MsgRequired := "Please fill in all required fields."
  const MsgNotNumber := "Threshold must be a valid number."
  const MsgHumidity := "Humidity must be between 0 and 100%."
  const MsgAqi := "AQI value seems unusually high (max 5000). Please verify."
  const MsgMagnitude := "Earthquake magnitude seems unusually high (max 15.0). Please verify."
  const MsgSaveFailed := "Failed to save rule. Please try again."

  /** The negative-threshold message names the metric's label, or 'this metric'. */
  function MsgNegative(condition: string): string {
    "Threshold for " + LabelIn(WeatherConditions, condition).GetOr("this metric") + " cannot be negative."
  }

  datatype Verdict = Accepted(threshold: Number) | Rejected(message: string)

  /** The threshold as `parseFloat` reads it. */
  function Threshold(f: RuleForm): Number {
    JsNumber.ParseFloat(f.thresholdValue)
  }

  /** The checks of `handleSave`, in order, on the form and its parsed
      threshold `t`; the first one that fails returns its message. */
  function Judge(f: RuleForm, t: Number): (v: Verdict)
    ensures v.Accepted? ==> f.disasterId != "" && f.thresholdValue != "" && v.threshold == t && !t.NaN?
  {
    if f.disasterId == "" || f.thresholdValue == "" then Rejected(MsgRequired)
    else if t.NaN? then Rejected(MsgNotNumber)
    else if f.weatherCondition == "humidity" && (t.LessThan(0.0) || t.GreaterThan(100.0)) then Rejected(MsgHumidity)
    else if f.weatherCondition != "temperature" && t.LessThan(0.0) then Rejected(MsgNegative(f.weatherCondition))
    else if f.weatherCondition == "aqi" && t.GreaterThan(5000.0) then Rejected(MsgAqi)
    else if f.weatherCondition == "earthquake_magnitude" && t.GreaterThan(15.0) then Rejected(MsgMagnitude)
    else Accepted(t)
  }

  /** `handleSave`'s validation of the form. */
  function Validate(f: RuleForm): (v: Verdict)
    ensures v.Accepted? ==> f.disasterId != "" && f.thresholdValue != "" && v.threshold == Threshold(f) && !v.threshold.NaN?
  {
    Judge(f, Threshold(f))
  }

  // ---------------------------------------------------------------------
  // An independent statement of the chain: the list of checks, and the
  // first failure in it.

  /** Each check as the message it reports when it fails, on the form and its
      parsed threshold `t`. The number checks also run on text that does not
      parse, where every comparison with NaN is false. */
  function Checks(f: RuleForm, t: Number): seq<Option<string>> {
    [ if f.disasterId == "" || f.thresholdValue == "" then Some(MsgRequired) else None,
      if t.NaN? then Some(MsgNotNumber) else None,
      if f.weatherCondition == "humidity" && (t.LessThan(0.0) || t.GreaterThan(100.0)) then Some(MsgHumidity) else None,
      if f.weatherCondition != "temperature" && t.LessThan(0.0) then Some(MsgNegative(f.weatherCondition)) else None,
      if f.weatherCondition == "aqi" && t.GreaterThan(5000.0) then Some(MsgAqi) else None,
      if f.weatherCondition == "earthquake_magnitude" && t.GreaterThan(15.0) then Some(MsgMagnitude) else None ]
  }

  /** The message of the first failing check, if any. */
  function FirstFailure(checks: seq<Option<string>>): (r: Option<string>)
    ensures r.None? <==> forall k :: 0 <= k < |checks| ==> checks[k].None?
    ensures r.Some? ==> exists k :: 0 <= k < |checks| && checks[k] == r
                          && forall j :: 0 <= j < k ==> checks[j].None?
  {
    if checks == [] then None
    else if checks[0].Some? then checks[0]
    else FirstFailure(checks[1..])
  }

  /** The form is rejected with the message of the first failing check, and
      accepted, with the parsed threshold, exactly when no check fails. */
  lemma JudgeIsFirstFailure(f: RuleForm, t: Number)
    ensures Judge(f, t).Rejected? <==> FirstFailure(Checks(f, t)).Some?
    ensures Judge(f, t).Rejected? ==> Judge(f, t).message == FirstFailure(Checks(f, t)).value
    ensures Judge(f, t).Accepted? ==> Judge(f, t).threshold == t
  {
    var cs := Checks(f, t);
    FirstOfSix(cs);
    if f.disasterId == "" || f.thresholdValue == "" {
      assert cs[0] == Some(MsgRequired);
    } else if t.NaN? {
      assert cs[1] == Some(MsgNotNumber);
    } else if f.weatherCondition == "humidity" && (t.LessThan(0.0) || t.GreaterThan(100.0)) {
      assert cs[2] == Some(MsgHumidity);
    } else if f.weatherCondition != "temperature" && t.LessThan(0.0) {
      assert cs[3] == Some(MsgNegative(f.weatherCondition));
    } else if f.weatherCondition == "aqi" && t.GreaterThan(5000.0) {
      assert cs[4] == Some(MsgAqi);
    } else if f.weatherCondition == "earthquake_magnitude" && t.GreaterThan(15.0) {
      assert cs[5] == Some(MsgMagnitude);
    } else {
      assert cs[5].None?;
    }
  }

  /** On six checks the first failure is the first of them that fails. */
  lemma FirstOfSix(cs: seq<Option<string>>)
    requires |cs| == 6
    ensures FirstFailure(cs) == if cs[0].Some? then cs[0] else if cs[1].Some? then cs[1]
      else if cs[2].Some? then cs[2] else if cs[3].Some? then cs[3] else if cs[4].Some? then cs[4] else cs[5]
  {
    assert FirstFailure(cs[5..]) == cs[5];
    assert FirstFailure(cs[4..]) == if cs[4].Some? then cs[4] else FirstFailure(cs[5..]) by { assert cs[4..][1..] == cs[5..]; }
    assert FirstFailure(cs[3..]) == if cs[3].Some? then cs[3] else FirstFailure(cs[4..]) by { assert cs[3..][1..] == cs[4..]; }
    assert FirstFailure(cs[2..]) == if cs[2].Some? then cs[2] else FirstFailure(cs[3..]) by { assert cs[2..][1..] == cs[3..]; }
    assert FirstFailure(cs[1..]) == if cs[1].Some? then cs[1] else FirstFailure(cs[2..]) by { assert cs[1..][1..] == cs[2..]; }
  }

  /** A missing disaster or an empty threshold is reported first, whatever else is wrong. */
  lemma MissingFieldsRejected(f: RuleForm, t: Number)
    requires f.disasterId == "" || f.thresholdValue == ""
    ensures Judge(f, t) == Rejected(MsgRequired)
  {
  }

  predicate FieldsPresent(f: RuleForm) {
    f.disasterId != "" && f.thresholdValue != ""
  }

  /** A threshold that `parseFloat` cannot read is rejected. */
  lemma NonNumberRejected(f: RuleForm)
    requires FieldsPresent(f) && Threshold(f).NaN?
    ensures Validate(f) == Rejected(MsgNotNumber)
  {
  }

  /** The finite threshold lies in `[lo, hi]`. */
  predicate InRange(t: Number, lo: real, hi: real) {
    t.Finite? && lo <= t.value <= hi
  }

  /** Humidity: accepted exactly when the threshold is a number in [0, 100]. */
  lemma HumidityAcceptedIff(f: RuleForm, t: Number)
    requires f.weatherCondition == "humidity"
    ensures Judge(f, t).Accepted? <==> FieldsPresent(f) && InRange(t, 0.0, 100.0)
  {
  }

  /** Temperature: any number is accepted, negative ones and infinities included. */
  lemma TemperatureAcceptedIff(f: RuleForm, t: Number)
    requires f.weatherCondition == "temperature"
    ensures Judge(f, t).Accepted? <==> FieldsPresent(f) && !t.NaN?
  {
  }

  /** AQI: accepted exactly when the threshold is a number in [0, 5000]. */
  lemma AqiAcceptedIff(f: RuleForm, t: Number)
    requires f.weatherCondition == "aqi"
    ensures Judge(f, t).Accepted? <==> FieldsPresent(f) && InRange(t, 0.0, 5000.0)
  {
  }

  /** Earthquake magnitude: accepted exactly when the threshold is a number in [0, 15]. */
  lemma MagnitudeAcceptedIff(f: RuleForm, t: Number)
    requires f.weatherCondition == "earthquake_magnitude"
    ensures Judge(f, t).Accepted? <==> FieldsPresent(f) && InRange(t, 0.0, 15.0)
  {
  }

  /** Every other metric (rain, wind, or any other value): accepted exactly when
      the threshold is a number that is not negative; a negative one is reported
      with the metric's label. */
  lemma OtherMetricAcceptedIff(f: RuleForm, t: Number)
    requires f.weatherCondition != "humidity" && f.weatherCondition != "temperature"
    requires f.weatherCondition != "aqi" && f.weatherCondition != "earthquake_magnitude"
    ensures Judge(f, t).Accepted? <==> FieldsPresent(f) && !t.NaN? && !t.LessThan(0.0)
    ensures FieldsPresent(f) && t.LessThan(0.0) ==> Judge(f, t) == Rejected(MsgNegative(f.weatherCondition))
  {
  }

  /** A decimal threshold such as "50" or "12.5" is read as its value. */
  lemma DecimalThresholdRead(f: RuleForm, whole: string, frac: string)
    requires whole != [] && AllDigits(whole) && AllDigits(frac)
    requires f.thresholdValue == DecimalText(whole, frac)
    ensures Threshold(f) == Finite(DecimalValue(whole, frac))
  {
    JsNumber.ParseFloatOfDecimal(whole, frac);
  }

  // ---------------------------------------------------------------------
  // The payload and the stored rule

  /** The body sent by `executeSave`: the form with an empty location turned
      into null, which makes the rule global. */
  datatype RulePayload = RulePayload(
    locationId: Option<string>,
    disasterId: string,
    weatherCondition: string,
    operator: string,
    thresholdValue: string,
    messageTemplate: string,
    severityLevel: string)

  function Payload(f: RuleForm): (p: RulePayload)
    ensures p.locationId.None? <==> f.locationId == ""
    ensures p.locationId.Some? ==> p.locationId.value == f.locationId
  {
    RulePayload(if f.locationId == "" then None else Some(f.locationId),
                f.disasterId, f.weatherCondition, f.operator, f.thresholdValue,
                f.messageTemplate, f.severityLevel)
  }

  /** A rule as the list holds it. */
  datatype Rule = Rule(
    id: int,
    locationId: Option<string>,
    disasterId: string,
    weatherCondition: string,
    operator: string,
    thresholdValue: string,
    messageTemplate: Option<string>,
    severityLevel: Option<string>,
    isActive: bool)

  /** The rule stored from a payload (the store keeps the submitted texts). */
  function StoredRule(id: int, p: RulePayload, active: bool): Rule {
    Rule(id, p.locationId, p.disasterId, p.weatherCondition, p.operator, p.thresholdValue,
         Some(p.messageTemplate), Some(p.severityLevel), active)
  }

  /** `openModal('edit', rule)`: the form pre-filled from a rule;
      `location_id ?? ''`, `message_template || ''`, `severity_level || 'Medium'`. */
  function EditForm(r: Rule): (f: RuleForm)
    ensures f.locationId == "" <==> r.locationId.None? || r.locationId.value == ""
    ensures f.severityLevel != ""
  {
    RuleForm(r.locationId.GetOr(""), r.disasterId, r.weatherCondition, r.operator, r.thresholdValue,
             r.messageTemplate.GetOr(""), if r.severityLevel.GetOr("") == "" then "Medium" else r.severityLevel.value)
  }

  /** Saving a form and opening the stored rule for editing gives the same form
      back: a null location returns as the empty text of a global rule, and
      every other field is passed through unchanged. */
  lemma SaveThenEditRoundTrip(f: RuleForm, id: int, active: bool)
    requires f.severityLevel != ""
    ensures EditForm(StoredRule(id, Payload(f), active)) == f
  {
  }

  // ---------------------------------------------------------------------
  // The toggle

  /** `rules.map(r => r.id === id ? { ...r, is_active: !r.is_active } : r)`. */
  function ToggledRules(rules: seq<Rule>, id: int): (r: seq<Rule>)
    ensures |r| == |rules|
    ensures forall i :: 0 <= i < |rules| && rules[i].id != id ==> r[i] == rules[i]
    ensures forall i :: 0 <= i < |rules| && rules[i].id == id ==>
      r[i].isActive == !rules[i].isActive && r[i].(isActive := rules[i].isActive) == rules[i]
  {
    seq(|rules|, i requires 0 <= i < |rules| =>
      if rules[i].id == id then rules[i].(isActive := !rules[i].isActive) else rules[i])
  }

  /** Toggling the same rule twice restores the list. */
  lemma ToggleTwiceRestores(rules: seq<Rule>, id: int)
    ensures ToggledRules(ToggledRules(rules, id), id) == rules
  {
  }

  // ---------------------------------------------------------------------
  // The page

  datatype Mode = Add | Edit

  /** What `handleSave` leads to: an error shown, a POST at once, or a
      confirmation dialog whose confirm button sends the PUT. */
  datatype SaveDecision = Reject(message: string) | Post(payload: RulePayload) | ConfirmPut(id: Option<int>, payload: RulePayload)

  function Decide(f: RuleForm, mode: Mode, editingId: Option<int>): (d: SaveDecision)
    ensures d.Reject? <==> Validate(f).Rejected?
    ensures d.Reject? ==> d.message == Validate(f).message
    ensures d.Post? <==> Validate(f).Accepted? && mode == Add
    ensures d.ConfirmPut? ==> d.id == editingId
    ensures !d.Reject? ==> d.payload == Payload(f)
  {
    match Validate(f)
    case Rejected(m) => Reject(m)
    case Accepted(_) => if mode == Add then Post(Payload(f)) else ConfirmPut(editingId, Payload(f))
  }

  class RulesPage {
    var rules: seq<Rule>
    var page: int
    var limit: Paging.Limit
    var totalItems: nat
    var totalPages: int
    var searchQuery: string
    var filterLocation: string
    var filterDisaster: string
    var isModalOpen: bool
    var modalMode: Mode
    var editingId: Option<int>
    var formError: string
    var formData: RuleForm

    ghost predicate Valid()
      reads this
    {
      page >= 1 && totalPages >= 1
    }

    constructor ()
      ensures Valid()
      ensures rules == [] && page == 1 && limit == Paging.PerPage(10) && totalItems == 0 && totalPages == 1
      ensures searchQuery == "" && filterLocation == "" && filterDisaster == ""
      ensures !isModalOpen && modalMode == Add && editingId == None && formError == "" && formData == EmptyForm
    {
      rules := [];
      page := 1;
      limit := Paging.PerPage(10);
      totalItems := 0;
      totalPages := 1;
      searchQuery := "";
      filterLocation := "";
      filterDisaster := "";
      isModalOpen := false;
      modalMode := Add;
      editingId := None;
      formError := "";
      formData := EmptyForm;
    }

    /** The answer of a list request: `data.data || []`, `data.totalPages || 1`,
        `data.total || 0` (a zero page count reads as 1). */
    method ReceivePage(data: Option<seq<Rule>>, pages: Option<int>, total: Option<nat>)
      requires Valid()
      requires pages.Some? ==> pages.value >= 0
      modifies this`rules, this`totalPages, this`totalItems
      ensures Valid()
      ensures rules == data.GetOr([])
      ensures totalPages == if pages.GetOr(0) == 0 then 1 else pages.value
      ensures totalItems == total.GetOr(0)
    {
      rules := data.GetOr([]);
      totalPages := if pages.GetOr(0) == 0 then 1 else pages.value;
      totalItems := total.GetOr(0);
    }

    /** `openModal`: an edit of an existing rule pre-fills the form; anything
        else starts from the empty form. */
    method OpenModal(mode: Mode, rule: Option<Rule>)
      modifies this`modalMode, this`formError, this`formData, this`editingId, this`isModalOpen
      ensures modalMode == mode && formError == "" && isModalOpen
      ensures mode == Edit && rule.Some? ==> formData == EditForm(rule.value) && editingId == Some(rule.value.id)
      ensures !(mode == Edit && rule.Some?) ==> formData == EmptyForm && editingId == None
    {
      modalMode := mode;
      formError := "";
      if mode == Edit && rule.Some? {
        formData := EditForm(rule.value);
        editingId := Some(rule.value.id);
      } else {
        formData := EmptyForm;
        editingId := None;
      }
      isModalOpen := true;
    }

    /** `handleSave`: a failing check shows its message and sends nothing. */
    method HandleSave() returns (d: SaveDecision)
      modifies this`formError
      ensures d == Decide(formData, modalMode, editingId)
      ensures formError == if d.Reject? then d.message else ""
    {
      d := Decide(formData, modalMode, editingId);
      formError := if d.Reject? then d.message else "";
    }

    /** `executeSave` after its request: success closes the dialog, failure
        shows the save error. Returns the payload that was sent. */
    method ExecuteSave(succeeded: bool) returns (p: RulePayload)
      modifies this`isModalOpen, this`formError
      ensures p == Payload(formData)
      ensures succeeded ==> !isModalOpen && formError == old(formError)
      ensures !succeeded ==> isModalOpen == old(isModalOpen) && formError == MsgSaveFailed
    {
      p := Payload(formData);
      if succeeded {
        isModalOpen := false;
      } else {
        formError := MsgSaveFailed;
      }
    }

    /** The confirmed delete: removing the only rule shown on a page after the
        first steps back one page. */
    method DeleteConfirmed(succeeded: bool)
      requires Valid()
      modifies this`page
      ensures Valid()
      ensures page == if succeeded && |rules| == 1 && old(page) > 1 then old(page) - 1 else old(page)
    {
      if succeeded && |rules| == 1 && page > 1 {
        page := page - 1;
      }
    }

    /** `handleToggle`: once the request succeeds, flip that rule in the list. */
    method Toggle(id: int, succeeded: bool)
      modifies this`rules
      ensures rules == if succeeded then ToggledRules(old(rules), id) else old(rules)
    {
      if succeeded {
        rules := ToggledRules(rules, id);
      }
    }

    /** The search box: the new query, back to page 1. */
    method SearchChange(q: string)
      requires Valid()
      modifies this`searchQuery, this`page
      ensures Valid()
      ensures searchQuery == q && page == 1
    {
      searchQuery := q;
      page := 1;
    }

    /** The page-size select: the new limit, back to page 1. */
    method LimitChange(l: Paging.Limit)
      requires Valid()
      modifies this`limit, this`page
      ensures Valid()
      ensures limit == l && page == 1
    {
      limit := l;
      page := 1;
    }

    /** `clearFilters`. */
    method ClearFilters()
      requires Valid()
      modifies this`searchQuery, this`filterLocation, this`filterDisaster, this`page
      ensures Valid()
      ensures searchQuery == "" && filterLocation == "" && filterDisaster == "" && page == 1
      ensures !HasActiveFilters()
    {
      searchQuery := "";
      filterLocation := "";
      filterDisaster := "";
      page := 1;
    }

    /** `hasActiveFilters`. */
    predicate HasActiveFilters()
      reads this
    {
      searchQuery != "" || filterLocation != "" || filterDisaster != ""
    }

    /** Previous is disabled on page 1 and otherwise goes to `Math.max(1, p - 1)`. */
    method PreviousPage()
      requires Valid()
      modifies this`page
      ensures Valid()
      ensures page == Paging.Max(1, old(page) - 1)
    {
      if page != 1 {
        page := Paging.PrevPage(page);
      }
    }

    /** Next is disabled once `page >= totalPages` and otherwise goes to
        `Math.min(totalPages, p + 1)`. */
    method NextPage()
      requires Valid()
      modifies this`page
      ensures Valid()
      ensures old(page) < totalPages ==> page == old(page) + 1
      ensures old(page) >= totalPages ==> page == old(page)
    {
      if page < totalPages {
        page := Paging.NextPage(page, totalPages);
      }
    }

    /** The "Showing X to Y" caption, shown only for a numeric limit. */
    function Caption(): (c: Option<(int, int)>)
      reads this
      ensures c.None? <==> limit.AllRows?
      ensures c.Some? && totalItems == 0 ==> c.value.0 == 0
    {
      match limit
      case AllRows => None
      case PerPage(n) => Some((Paging.RangeStart(page, n, totalItems), Paging.RangeEnd(page, n, totalItems)))
    }
  }
}
