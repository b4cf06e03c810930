# Disaster alert system: verified model of the page and route logic

The disaster alert system polls weather and earthquake sources for a set of
monitored locations, evaluates admin-defined alert rules against them, and
publishes alerts. A public feed shows the alerts; admin pages manage locations,
rules and logs, and can run simulations. This project models the sequential
decision logic of that system's front end and of the `/api/weather/current`
route, and proves properties of it in Dafny:

- **The public alert feed** (`AlertFeed`, `Paging`). The feed has a
  five-way filter (location, disaster, effective severity, status, and a
  case-insensitive search) and a list of active alerts. It shows one page of
  cards at a time. It also keeps the state behind the emergency overlay and the
  siren: the announced alert ids and the dismissed, muted and enabled flags.
- **The rule form** (`RuleForm`). Its ordered validation chain reports the
  first failing check. It also covers:
  - the payload, where an empty location means a global rule;
  - the pre-fill an edit opens with;
  - the toggle of one rule in the list;
  - the delete step-back and the pager.
- **The coordinate text trio** (`Locations`, `Simulate`):
  - `formatCoordinates` prints a location as `23.8041° N, 90.4152° E`;
  - `validateCoordinates` is the anchored recogniser of the locations page;
  - `parseDMS` is the unanchored parser of the simulation page.

  Each regular expression is a hand-written scanner. The scanner is proved
  sound and complete against a grammar of pieces (`CoordParts`) or a
  leftmost-match specification (`FindFrom`). The trio is connected by
  round-trip lemmas.
- **The log pages** (`LogFilters`, `WeatherLogs`, `EarthquakeLogs`):
  - the filter bar, the pager and the caption, which the weather-log and
    earthquake-log pages share in the same code. The table cites the
    weather-log lines; the earthquake-log page has the same statements at
    frontend/src/app/admin/earthquake_logs/page.js lines 45-60, 144-162
    and 243-248;
  - the AQI badge, checked against the AQI categories of 40 CFR Part 58,
    Appendix G, Table 2;
  - the magnitude badge.
- **The current-conditions route** (`WeatherRoutes`). It is an ordered
  sequence of early returns (400, 404, 503, 500). It also includes the rule
  that an active earthquake alert wins over the live feed, and the two
  regular-expression decoders that recover magnitude and epicentre from an
  alert's description.

Shared pieces:

- `Common` holds characters, ECMAScript whitespace, `trim`, `toLowerCase`,
  substring tests, decimal numerals and order-preserving filtering.
- `JsNumber` models `parseFloat` as the ECMAScript "parseFloat (string)"
  operation gives it. Leading whitespace, sign, `Infinity`, digits with a
  point and an exponent are read; anything else gives NaN. The result is a
  JavaScript number: a real, either infinity, or NaN.
- React state is modelled in two ways:
  - A `useState` variable of a page becomes a field of a class for that page.
  - Each handler becomes a method. Its `ensures` gives the whole new state;
    the properties are proved about the functions it is specified by.
- Database answers, fetch results and thrown errors are parameters:
  - an `outcome` or `succeeded` argument for a request;
  - a `Step` value (either a result or a thrown message) for each awaited
    call of the route.

## Model

| member | source | states |
|---|---|---|
| AlertFeed.EffectiveSeverity | frontend/src/app/page.js:147 | the severity used is never empty: `severity_level` when that is non-empty; else `severity` when that is non-empty; else `'Alert'` |
| AlertFeed.Keep | frontend/src/app/page.js:138-164 | the five checks of the filter callback, in source order; with every select on 'all' and a blank or whitespace-only search every alert passes |
| AlertFeed.FilteredAlerts | frontend/src/app/page.js:138-164 | an order-preserving subsequence of the alerts whose every element passes the checks, holding every alert that passes them |
| AlertFeed.ActiveAlerts | frontend/src/app/page.js:167 | an order-preserving subsequence of the filtered alerts, all with `is_active === 1`, holding every filtered alert that has it |
| AlertFeed.FilteredIsOrderedSelection | frontend/src/app/page.js:138-164 | the filtered list is an order-preserving subsequence of the alerts, no longer than them; an alert is in it exactly when it is an alert and passes all five checks |
| AlertFeed.NeutralFiltersKeepAll | frontend/src/app/page.js:140-155 | with every select on 'all' and a blank or whitespace-only search, the filtered list is the whole list |
| AlertFeed.StatusFilterExact | frontend/src/app/page.js:151-152 | 'Active' keeps exactly the alerts with `is_active === 1` and 'Archived' exactly those with `is_active === 0`, in order |
| AlertFeed.SearchFilterExact | frontend/src/app/page.js:155-161 | with a non-blank search an alert is kept iff the lower-cased, untrimmed query occurs in its lower-cased title, disaster name or description, missing ones read as '' |
| AlertFeed.SeverityFilterExact | frontend/src/app/page.js:147-148 | a chosen severity keeps exactly the alerts whose effective severity equals it |
| AlertFeed.ActiveAlertsExact | frontend/src/app/page.js:167 | the active alerts are an ordered subsequence of the filtered ones, and exactly those with `is_active === 1` |
| AlertFeed.HomePage.constructor | frontend/src/app/page.js:8-38 | the initial state: no alerts, every filter 'all', page 1 of 12, nothing announced, siren enabled and not muted |
| AlertFeed.HomePage.OverlayShown | frontend/src/app/page.js:177-180 | the overlay is shown only when it is not dismissed, a location is chosen, and the list holds an active alert of that location |
| AlertFeed.HomePage.SirenPlays | frontend/src/app/page.js:199 | the siren plays only while the overlay is shown, the siren is enabled and not muted |
| AlertFeed.HomePage.LoadPreferences | frontend/src/app/page.js:41-54 | a stored siren toggle and a stored location are applied when present; location loading is finished; nothing else changes |
| AlertFeed.HomePage.ReceiveAlerts | frontend/src/app/page.js:112-113 | a poll replaces the alert list |
| AlertFeed.HomePage.ResetPageIfChanged | frontend/src/app/page.js:124-126 | the page goes back to 1 exactly when a filter value differs from before |
| AlertFeed.HomePage.ChangeLocation | frontend/src/app/page.js:56-62 | sets the location, empties the announced ids, unmutes, and returns to page 1 when the location changed; the rest is unchanged |
| AlertFeed.HomePage.ChangeFilters | frontend/src/app/page.js:568-603 | sets the other filters and returns to page 1 when any of them changed |
| AlertFeed.HomePage.SetItemsPerPage | frontend/src/app/page.js:652-655 | a new page size, and page 1 |
| AlertFeed.HomePage.PreviousPage | frontend/src/app/page.js:666 | goes to `max(1, p - 1)`, so the page stays at least 1 |
| AlertFeed.HomePage.NextPage | frontend/src/app/page.js:676 | goes to `min(totalPages, p + 1)`; from a page in range it stays within the page count |
| AlertFeed.HomePage.AnnounceNewest | frontend/src/app/page.js:184-195 | once loaded and with a location chosen, an unseen newest active id is added and clears dismissed and muted; a seen id, no active alert or no location changes nothing |
| AlertFeed.HomePage.ViewDetails | frontend/src/app/page.js:640 | the chosen alert's details are open |
| AlertFeed.HomePage.CloseModal | frontend/src/app/page.js:221-224 | closes the details and mutes, after which the siren does not play |
| AlertFeed.HomePage.DismissEmergency | frontend/src/app/page.js:226-229 | sets dismissed and muted, after which neither the overlay nor the siren is on |
| AlertFeed.HomePage.ToggleSiren | frontend/src/app/page.js:231-234 | flips the siren preference |
| Paging.TotalPages | frontend/src/app/page.js:170 | the page count is at least 1, holds every item, and is the smallest such count |
| Paging.PageItems | frontend/src/app/page.js:171-174 | a page has at most `perPage` items; its k-th item is item `(page-1)*perPage + k` of the list |
| Paging.ItemOnItsPage | frontend/src/app/page.js:171-174 | every item appears on page `i / perPage + 1`, which is one of the counted pages, at position `i % perPage` |
| Paging.PrevPage | frontend/src/app/page.js:666 | Previous never goes below 1, goes back one from any later page, and never moves forward |
| Paging.NextPage | frontend/src/app/page.js:676 | Next never passes the page count, advances one before the last page, and never moves back below the lower of page and count |
| Paging.PrevNextStayInRange | frontend/src/app/page.js:666-676 | both buttons keep a page of `[1, totalPages]` in that range |
| Paging.CaptionMatchesPage | frontend/src/app/admin/rules/page.js:430 | the guarded caption is 0 to 0 for no items; otherwise it runs from the page's first item to its last and counts exactly the page's items |
| RuleForm.LabelIn | frontend/src/app/admin/rules/page.js:166 | a label is found iff some condition has that value, and it is that condition's label |
| RuleForm.Judge | frontend/src/app/admin/rules/page.js:150-176 | an accepted form has a disaster and a threshold, and its threshold is the parsed number, never NaN |
| RuleForm.Validate | frontend/src/app/admin/rules/page.js:150-176 | an accepted form carries `parseFloat` of its threshold text, which is not NaN |
| RuleForm.FirstFailure | frontend/src/app/admin/rules/page.js:150-176 | no message iff every check passes; otherwise the message of a failing check with no failure before it |
| RuleForm.JudgeIsFirstFailure | frontend/src/app/admin/rules/page.js:150-176 | the chain rejects iff one of the six checks fails, and then with the message of the first failing one; otherwise it accepts with the parsed threshold |
| RuleForm.MissingFieldsRejected | frontend/src/app/admin/rules/page.js:150-153 | a missing disaster or empty threshold is reported as "Please fill in all required fields.", whatever else is wrong |
| RuleForm.NonNumberRejected | frontend/src/app/admin/rules/page.js:155-160 | a threshold `parseFloat` cannot read is rejected as not a valid number |
| RuleForm.HumidityAcceptedIff | frontend/src/app/admin/rules/page.js:161-164 | humidity is accepted exactly for a finite threshold in [0, 100] |
| RuleForm.TemperatureAcceptedIff | frontend/src/app/admin/rules/page.js:165-168 | temperature is accepted for any number, negatives and infinities included |
| RuleForm.AqiAcceptedIff | frontend/src/app/admin/rules/page.js:169-172 | AQI is accepted exactly for a finite threshold in [0, 5000] |
| RuleForm.MagnitudeAcceptedIff | frontend/src/app/admin/rules/page.js:173-176 | earthquake magnitude is accepted exactly for a finite threshold in [0, 15] |
| RuleForm.OtherMetricAcceptedIff | frontend/src/app/admin/rules/page.js:165-168 | rain, wind or any other metric is accepted exactly for a number that is not negative; a negative one is reported with the metric's label |
| RuleForm.DecimalThresholdRead | frontend/src/app/admin/rules/page.js:155 | a decimal threshold text is read as its own value |
| RuleForm.Payload | frontend/src/app/admin/rules/page.js:194-197 | the location becomes null exactly when it is empty, and is passed through otherwise |
| RuleForm.EditForm | frontend/src/app/admin/rules/page.js:127-135 | the pre-filled location is empty exactly for a global rule; severity is never empty (default 'Medium') |
| RuleForm.SaveThenEditRoundTrip | frontend/src/app/admin/rules/page.js:127-135 | saving a form and editing the stored rule gives back the same form |
| RuleForm.ToggledRules | frontend/src/app/admin/rules/page.js:230 | the same length; rules with another id are unchanged; the matching rule has only `is_active` flipped |
| RuleForm.ToggleTwiceRestores | frontend/src/app/admin/rules/page.js:230 | toggling the same id twice restores the list |
| RuleForm.Decide | frontend/src/app/admin/rules/page.js:178-189 | rejection exactly when validation fails, with its message; a POST exactly for an accepted add; an edit asks for confirmation of a PUT of the editing id; both carry the normalised payload |
| RuleForm.RulesPage.constructor | frontend/src/app/admin/rules/page.js:19-49 | page 1 of 10, no filters, dialog closed in add mode on the empty form |
| RuleForm.RulesPage.ReceivePage | frontend/src/app/admin/rules/page.js:83-85 | the rows or [], the page count or 1 when missing or 0, the total or 0 |
| RuleForm.RulesPage.OpenModal | frontend/src/app/admin/rules/page.js:123-142 | an edit of a rule pre-fills it and records its id; otherwise the empty form and no id; the error is cleared and the dialog open |
| RuleForm.RulesPage.HandleSave | frontend/src/app/admin/rules/page.js:146-176 | the decision of `Decide` on the form; the error shown is the rejection message, else none |
| RuleForm.RulesPage.ExecuteSave | frontend/src/app/admin/rules/page.js:192-208 | sends the normalised payload; success closes the dialog, failure shows the save error |
| RuleForm.RulesPage.DeleteConfirmed | frontend/src/app/admin/rules/page.js:220 | deleting the only rule of a page after the first steps back one page; otherwise the page stays |
| RuleForm.RulesPage.Toggle | frontend/src/app/admin/rules/page.js:227-232 | a successful toggle applies `ToggledRules`; a failed one leaves the list |
| RuleForm.RulesPage.SearchChange | frontend/src/app/admin/rules/page.js:90 | the new search and page 1 |
| RuleForm.RulesPage.LimitChange | frontend/src/app/admin/rules/page.js:91-94 | the new limit (a number or 'all') and page 1 |
| RuleForm.RulesPage.ClearFilters | frontend/src/app/admin/rules/page.js:96 | the three filters empty and page 1 |
| RuleForm.RulesPage.PreviousPage | frontend/src/app/admin/rules/page.js:433 | disabled on page 1, else `max(1, p - 1)` |
| RuleForm.RulesPage.NextPage | frontend/src/app/admin/rules/page.js:437 | one page on while before the last page; disabled from the last page on |
| RuleForm.RulesPage.HasActiveFilters | frontend/src/app/admin/rules/page.js:97 | the search or a select is set; `ClearFilters` always leaves it false |
| RuleForm.RulesPage.Caption | frontend/src/app/admin/rules/page.js:430 | no caption for 'all'; the start is 0 for an empty table |
| Locations.NonNegativeIff | frontend/src/app/admin/locations/page.js:45 | the sign test read off the printed numeral is `x >= 0` of its value, `-0` included |
| Locations.LatitudeLetter | frontend/src/app/admin/locations/page.js:45 | N exactly for a latitude that is not negative, S exactly otherwise |
| Locations.LongitudeLetter | frontend/src/app/admin/locations/page.js:46 | E exactly for a longitude that is not negative, W exactly otherwise |
| Locations.LettersOfSigns | frontend/src/app/admin/locations/page.js:45-46 | the letters are the signs of the values: N iff lat ≥ 0, E iff lon ≥ 0 |
| Locations.AbsTextReadsBack | frontend/src/app/admin/locations/page.js:45-46 | `parseFloat` reads the printed magnitude back as the absolute value |
| Locations.FormatCoordinates | frontend/src/app/admin/locations/page.js:44-48 | the printed text never contains a minus sign |
| Locations.FormatIsAssembled | frontend/src/app/admin/locations/page.js:44-48 | the printed text is the pattern text of its numerals, single spaces and the sign letters |
| Locations.Scan | frontend/src/app/admin/locations/page.js:89 | the anchored pattern read piece by piece, each piece the longest run of its kind; what it accepts is stated by `ScanSound` and `ScanComplete` |
| Locations.ScanSound | frontend/src/app/admin/locations/page.js:89 | whatever the recogniser matches is made of well-formed pieces that spell the whole text |
| Locations.ScanComplete | frontend/src/app/admin/locations/page.js:89 | every well-formed text is matched, with its own pieces |
| Locations.ValidateCoordinates | frontend/src/app/admin/locations/page.js:88-91 | the pattern tested on the trimmed text; `ValidateCoordinatesIff` says which texts pass |
| Locations.ValidateCoordinatesIff | frontend/src/app/admin/locations/page.js:88-91 | a coordinate passes iff its trimmed text is `digits[.digits]°`, spaces, N/S in either case, a comma, spaces, `digits[.digits]°`, spaces, E/W |
| Locations.SignedLatitudeRejected | frontend/src/app/admin/locations/page.js:89 | a leading `-` or `+` is rejected |
| Locations.SpaceBeforeDegreeRejected | frontend/src/app/admin/locations/page.js:89 | whitespace between a numeral and its degree sign is rejected |
| Locations.TrailingJunkRejected | frontend/src/app/admin/locations/page.js:89-90 | non-space text after the final letter is rejected |
| Locations.LeadingJunkRejected | frontend/src/app/admin/locations/page.js:89-90 | non-space text before the latitude is rejected |
| Locations.FormatThenValidate | frontend/src/app/admin/locations/page.js:78 | the pre-filled text of an edit passes the recogniser untrimmed, which reads back its numerals and sign letters |
| Locations.AssembledValidates | frontend/src/app/admin/locations/page.js:88-91 | a text of the pattern's language passes as it is; trimming leaves it unchanged |
| Locations.FailureMessage | frontend/src/app/admin/locations/page.js:112 | the server's non-empty error, else "Failed to save location." |
| Locations.OpenForm | frontend/src/app/admin/locations/page.js:71-84 | an edit pre-fills id, name and a coordinate text that passes the recogniser; add mode gives `{id: null, name: '', coordinates: ''}`, which does not pass |
| Locations.SaveRequest | frontend/src/app/admin/locations/page.js:97-108 | a request is sent iff the coordinates pass: a POST in add mode, else a PUT of the form's id; name and coordinates are those typed |
| Locations.EditThenSaveSends | frontend/src/app/admin/locations/page.js:97-107 | saving an unchanged edit sends the location's id, name and printed coordinates |
| Locations.RangeStartAsWritten | frontend/src/app/admin/locations/page.js:285 | the unguarded start is at least 1 on every page that exists, and equals the guarded start whenever the table has rows |
| Locations.EmptyCaptionAsWritten | frontend/src/app/admin/locations/page.js:285 | with no locations the caption reads "1 to 0", where the guarded caption reads "0 to 0" |
| Locations.NextPageAsWritten | frontend/src/app/admin/locations/page.js:298-300 | Next advances one page before `totalPages` and stays on it at `totalPages` |
| Locations.NextPageAsWrittenRange | frontend/src/app/admin/locations/page.js:298-300 | inside `[1, totalPages]` Next stays in range, but a page past the last one is never stopped |
| Locations.LocationsPage.constructor | frontend/src/app/admin/locations/page.js:8-24 | page 1 of 10, count 1, empty search and form, dialog closed in add mode |
| Locations.LocationsPage.ReceivePage | frontend/src/app/admin/locations/page.js:54-56 | the answer stored as it comes, with no fallback |
| Locations.LocationsPage.SearchChange | frontend/src/app/admin/locations/page.js:61-64 | the new search and page 1 |
| Locations.LocationsPage.LimitChange | frontend/src/app/admin/locations/page.js:66-69 | the new limit and page 1 |
| Locations.LocationsPage.OpenModal | frontend/src/app/admin/locations/page.js:71-84 | the form of `OpenForm`, the error cleared, the dialog open |
| Locations.LocationsPage.HandleSave | frontend/src/app/admin/locations/page.js:93-116 | invalid coordinates show the format error and send nothing; otherwise sends `SaveRequest`, and success closes the dialog while failure shows `FailureMessage` |
| Locations.LocationsPage.PreviousPage | frontend/src/app/admin/locations/page.js:288-290 | disabled on page 1, else `page - 1` |
| Locations.LocationsPage.NextPage | frontend/src/app/admin/locations/page.js:298-300 | moves as `NextPageAsWritten` |
| Locations.LocationsPage.Caption | frontend/src/app/admin/locations/page.js:285 | no caption for 'all'; otherwise the unguarded start and `min(page*limit, total)` |
| Simulate.FindFrom | frontend/src/app/admin/simulate/page.js:49 | the match is at the leftmost position where the pattern matches, none before; no result means no position matches |
| Simulate.MatchHere | frontend/src/app/admin/simulate/page.js:49 | the pattern tried at one position, read greedily; `MatchHereOf` and `MatchHereSound` state what it matches and with which groups |
| Simulate.MatchHalfOf | frontend/src/app/admin/simulate/page.js:49 | a numeral `[\d.]+`, optional spacing, an optional degree sign and a hemisphere letter in either case are matched, with their groups |
| Simulate.MatchHereOf | frontend/src/app/admin/simulate/page.js:49 | both halves with or without degree signs and with or without the comma are matched at their start, whatever follows |
| Simulate.MatchHereSound | frontend/src/app/admin/simulate/page.js:49 | every match is exactly such a text followed by anything |
| Simulate.MatchGroupsAreNumerals | frontend/src/app/admin/simulate/page.js:49 | both numeral groups are made of digits and points |
| Simulate.ParseDMS | frontend/src/app/admin/simulate/page.js:48-55 | `parseDMS`: null without a match; otherwise the signed numbers of the leftmost match, or null when one is NaN; `ParseDMSReadsLeftmost`, `NoMatchGivesNull` and `UnreadableNumeralGivesNull` prove these cases |
| Simulate.NoMatchGivesNull | frontend/src/app/admin/simulate/page.js:49-50 | a trimmed text in which the pattern occurs nowhere gives null |
| Simulate.ParseDMSReadsLeftmost | frontend/src/app/admin/simulate/page.js:49-52 | a result comes from the leftmost match; latitude is its first numeral, negated for S/s; longitude its second, negated for W/w; both finite |
| Simulate.SignedPairReads | frontend/src/app/admin/simulate/page.js:51-53 | for readings that are NaN or not negative, a pair is returned iff neither is NaN, each with the letter's sign applied |
| Simulate.UnreadableNumeralGivesNull | frontend/src/app/admin/simulate/page.js:53 | a matched numeral that `parseFloat` cannot read, such as a lone point, gives null |
| Simulate.ValidatedCoordinatesParse | frontend/src/app/admin/simulate/page.js:48-55 | every text the locations page accepts parses to its numerals' values with the signs of its letters |
| Simulate.FormatThenParse | frontend/src/app/admin/simulate/page.js:48-55 | the printed coordinates of a location parse back to its latitude and longitude |
| Simulate.LetterSignsAgree | frontend/src/app/admin/simulate/page.js:51-52 | the printed letter, read back with its sign, restores the value's sign |
| Simulate.ErrorText | frontend/src/app/admin/simulate/page.js:70 | the error's non-empty message, else the fallback |
| Simulate.GateEarthquake | frontend/src/app/admin/simulate/page.js:59-62 | format error iff parsing fails; nothing sent iff parsed but no magnitude; otherwise the parsed values and the magnitude are sent |
| Simulate.ValidatedCoordinatesAreSent | frontend/src/app/admin/simulate/page.js:57-65 | coordinates the locations page accepts, with a magnitude, are sent with their signed values |
| Simulate.BlankWeatherFieldsAreBlank | frontend/src/app/admin/simulate/page.js:81 | the reset holds exactly the five fields, all '' |
| Simulate.SimulatePage.constructor | frontend/src/app/admin/simulate/page.js:25-35 | all inputs empty, five blank fields, no notice |
| Simulate.SimulatePage.CoordsChange | frontend/src/app/admin/simulate/page.js:119 | the new text, and the coordinate error cleared |
| Simulate.SimulatePage.MagnitudeChange | frontend/src/app/admin/simulate/page.js:132 | the new magnitude text |
| Simulate.SimulatePage.LocationChange | frontend/src/app/admin/simulate/page.js:162 | the new location |
| Simulate.SimulatePage.UpdateWeatherField | frontend/src/app/admin/simulate/page.js:87 | the named field takes the value; every other field keeps its own |
| Simulate.SimulatePage.CloseResult | frontend/src/app/admin/simulate/page.js:42-45 | the notice is removed |
| Simulate.SimulatePage.HandleEarthquake | frontend/src/app/admin/simulate/page.js:57-72 | follows `GateEarthquake`: a format error, nothing sent, or the request; success clears coordinates and magnitude, failure shows the error text |
| Simulate.SimulatePage.HandleWeather | frontend/src/app/admin/simulate/page.js:74-85 | nothing sent without a location; otherwise the location and the five fields are sent; success resets them to blank, failure shows the error text |
| LogFilters.IfSet | frontend/src/app/admin/weather_logs/page.js:48-50 | a parameter is sent iff its value is non-empty, and then with that value |
| LogFilters.LogFilterPage.constructor | frontend/src/app/admin/weather_logs/page.js:14-20 | no filters, page 1 of 10, count 1, total 0 |
| LogFilters.LogFilterPage.Query | frontend/src/app/admin/weather_logs/page.js:47-50 | page and limit always; each filter present iff set |
| LogFilters.LogFilterPage.ReceivePage | frontend/src/app/admin/weather_logs/page.js:52-54 | the page count or 1 when missing or 0, and the total or 0 |
| LogFilters.LogFilterPage.LocationChange | frontend/src/app/admin/weather_logs/page.js:148 | the new location and page 1 |
| LogFilters.LogFilterPage.DateFromChange | frontend/src/app/admin/weather_logs/page.js:163 | the new start date and page 1 |
| LogFilters.LogFilterPage.DateToChange | frontend/src/app/admin/weather_logs/page.js:178 | the new end date and page 1 |
| LogFilters.LogFilterPage.LimitChange | frontend/src/app/admin/weather_logs/page.js:187 | one of the offered sizes, and page 1 |
| LogFilters.LogFilterPage.ClearFilters | frontend/src/app/admin/weather_logs/page.js:59-64 | the three filters empty and page 1; afterwards no filter is active and the request narrows nothing |
| LogFilters.LogFilterPage.DeleteAllConfirmed | frontend/src/app/admin/weather_logs/page.js:76-86 | success clears the filters; failure changes nothing |
| LogFilters.LogFilterPage.PreviousPage | frontend/src/app/admin/weather_logs/page.js:286-287 | disabled on page 1, and always `max(1, p - 1)` |
| LogFilters.LogFilterPage.NextPage | frontend/src/app/admin/weather_logs/page.js:294-295 | one page on while before the last page; disabled from the last page on |
| LogFilters.LogFilterPage.Caption | frontend/src/app/admin/weather_logs/page.js:282 | 0 to 0 for an empty table |
| LogFilters.LogFilterPage.HasActiveFilters | frontend/src/app/admin/weather_logs/page.js:66 | holds iff the request carries a location or a date filter |
| LogFilters.NarrowsIffActive | frontend/src/app/admin/weather_logs/page.js:66 | `hasActiveFilters` holds iff the request carries at least one filter |
| LogFilters.CaptionCountsPage | frontend/src/app/admin/weather_logs/page.js:282 | on a page in range, the caption counts exactly the rows of that page |
| WeatherLogs.GetAqiLabel | frontend/src/app/admin/weather_logs/page.js:95-101 | null iff the value is missing; otherwise exactly one band, with inclusive upper bounds: ≤50, ≤100, ≤150, else Unhealthy |
| WeatherLogs.LabelIsMonotone | frontend/src/app/admin/weather_logs/page.js:97-100 | a higher AQI never gets a better band |
| WeatherLogs.LabelFollowsEpa | frontend/src/app/admin/weather_logs/page.js:97-100 | every integer index gets the regulation's category, with the three worst categories shown as one |
| EarthquakeLogs.BandOf | frontend/src/app/admin/earthquake_logs/page.js:87-92 | exactly one band, with inclusive lower bounds: ≥7 red, ≥5 orange, ≥3 amber, else slate |
| EarthquakeLogs.BandIsMonotone | frontend/src/app/admin/earthquake_logs/page.js:87-92 | a stronger quake never gets a weaker colour |
| WeatherRoutes.FindMagnitude | backend/routes/weatherRoutes.js:39 | the leftmost position where "Magnitude " followed by a digit or point occurs, or none anywhere |
| WeatherRoutes.DecodeMagnitude | backend/routes/weatherRoutes.js:39-43 | 0 without a match; otherwise a number that is not negative, or NaN |
| WeatherRoutes.DecodeMagnitudeAfter | backend/routes/weatherRoutes.js:39-43 | whatever text comes before it, the first "Magnitude " followed by a run of `[\d.]` decodes to `parseFloat` of the whole run |
| WeatherRoutes.DecodeMagnitudeOf | backend/routes/weatherRoutes.js:39-43 | whatever text comes before it, the first "Magnitude " followed by a decimal numeral decodes to that numeral's value |
| WeatherRoutes.DecodeMagnitudeOfPoint | backend/routes/weatherRoutes.js:43 | a lone point after the first "Magnitude " decodes to NaN, not 0 |
| WeatherRoutes.LazyEnd | backend/routes/weatherRoutes.js:40 | `(.*?)\. Threshold` ends at the first ". Threshold", with no line terminator before it |
| WeatherRoutes.FindPlace | backend/routes/weatherRoutes.js:40 | the leftmost position where the epicentre pattern matches, or none anywhere |
| WeatherRoutes.DecodePlace | backend/routes/weatherRoutes.js:40-44 | "Unknown Location" without a match; otherwise the text after the leftmost match's "Epicenter: " up to the first ". Threshold" after it, with no line terminator in it |
| WeatherRoutes.DecodePlaceOf | backend/routes/weatherRoutes.js:40-44 | whatever text comes before it, a place with no line terminator and no ". Threshold" inside, between the first matching "Epicenter: " and ". Threshold", is read back |
| WeatherRoutes.Current | backend/routes/weatherRoutes.js:8-72 | the outcomes in order: 400 without `location_id`, 404 for an unknown location, 503 without weather, and 500 with the thrown message when the location query, the weather fetch, the active-alert query or the feed lookup throws. Success iff none applies. The feed is consulted iff there is no active earthquake alert. Weather fields are renamed one to one. An alert-derived earthquake has the decoded magnitude and place, the alert's `created_at` and distance null |
| JsNumber.ParseFloat | frontend/src/app/admin/rules/page.js:155 | NaN iff the text after leading whitespace and one sign does not begin a decimal literal; +Infinity iff it begins `Infinity` without a `-`, -Infinity iff with one; a negative finite value only after a `-` |
| JsNumber.ParseFloatOfDecimal | frontend/src/app/admin/rules/page.js:155 | a decimal numeral is read as its value |
| JsNumber.ParseFloatOfDigitsAndPoints | frontend/src/app/admin/simulate/page.js:51 | text of digits and points reads as a finite number that is not negative, or NaN |
| Common.TrimEmptyIffAllSpaces | frontend/src/app/page.js:155 | `trim()` gives '' exactly for text made only of whitespace |

## Left out

- I/O is left out: database queries, `fetch` and `api` calls, response
  parsing, `localStorage`, the 30-second poll, the 300 ms debounce, the
  5-second timer of the simulation notice, and audio `play()`/`pause()`.
  Their results are parameters of the handlers.
- The loading, saving and delete-all flags that only drive spinners and
  disabled buttons are left out. So are the confirmation dialogs' texts and
  the `alert()` messages.
- The backend engine behind the route is not part of this model; its calls
  appear only as results:
  - the weather service (`fetchWeatherData`);
  - the earthquake service (`fetchRecentEarthquakes`,
    `checkEarthquakesNearLocation`);
  - the scheduler, rule evaluator and alert writer.
- Locations.FormatCoordinates: JavaScript's number-to-string conversion
  is modelled only for coordinates that print as plain decimals (`Decimal`).
  Exponent forms such as `1e-7` are not produced.
- The success notices' texts are left out. They use `toFixed`, the list join
  of affected locations and the location name. `Toast.Success` carries no
  text.
- Unicode case mapping is left out. `toLowerCase` and `toUpperCase` are
  modelled on the letters A to Z only.
- AlertFeed.Keep: ids are compared as integers. The source compares
  `alert.location_id != selectedLocationId` loosely and the disaster id as a
  string. The model assumes the select values are the decimal texts of the
  ids.
- JsNumber.ParseFloat: numbers are exact reals. IEEE rounding, overflow
  and underflow are not modelled, which changes the rule checks at their
  edges:
  - JavaScript reads "100.00000000000000001" as 100, so a humidity rule
    with it is accepted; the model rejects it as above 100;
  - JavaScript reads "1e400" as Infinity; the model reads a finite value;
  - JavaScript reads "-1e-400" as -0, so a rain rule with it is accepted;
    the model rejects it as negative.
- RuleForm.ToggledRules: `is_active` is a truth value. The rows carry 0 or 1
  and `!r.is_active` turns 1 into `false`, so ToggleTwiceRestores holds only
  up to truthiness. The page reads `is_active` only as a truth value, so
  nothing observable is lost.
- Locations.FailureMessage: the request helper of
  frontend/src/lib/api.js:12-14 throws a plain `Error`, which has no
  `response`. So the dialog can only ever show the fallback text. The model
  keeps the general form, with the server's error as a parameter.
- WeatherLogs.GetAqiLabel and EarthquakeLogs.BandOf take a real. A NaN reading
  is not modelled; the badge then shows the last band.
- The colour class strings are data, with no property beyond their band:
  `LabelColor`, `BandClasses`, `GetMagnitudeColor`.
- The rules page's details dialog, its "delete all" and its dropdown loading
  are left out. Its delete-all reset is the same `clearFilters` as
  `RuleForm.RulesPage.ClearFilters`.
- The locations page's status toggle, single delete and delete-all are left
  out. Each is a request followed by a reload; the delete-all sets page 1.
- The public feed's weather and earthquake panel is left out (its fetch
  effect and display), as are the empty-state texts of every table.
- WeatherRoutes.Current: the alert's `description` is taken to be a string.
  A null description would throw inside the handler and give a 500.
- WeatherRoutes.Current: the location, weather and alert rows are typed
  records. The route's JSON serialisation is not modelled.

## Findings

| source | as written | input that shows it | evidently intended | confidence | as-written member | corrected member |
|---|---|---|---|---|---|---|
| frontend/src/app/admin/locations/page.js:285 | the caption starts at `((page - 1) * limit) + 1` with no case for an empty table | no locations: page 1, limit 10, total 0 shows "Showing 1 to 0 of 0" | start at 0 when the total is 0, as the rules and log pages do | not executed | Locations.RangeStartAsWritten, Locations.EmptyCaptionAsWritten | Paging.RangeStart, Paging.CaptionMatchesPage |
