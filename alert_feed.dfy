/** The public alert feed: the multi-criteria filter over the polled alert
    list, the active subset, the page of cards shown, and the state behind the
    emergency overlay and the siren. */
module AlertFeed {
  import opened Common
  import Paging

  /** One row of the alert list as the feed receives it. Fields that the
      list may omit or leave null are options. */
  datatype Alert = Alert(
    id: int,
    locationId: int,
    disasterId: Option<int>,
    severityLevel: Option<string>,
    severity: Option<string>,
    isActive: int,
    title: Option<string>,
    disasterName: Option<string>,
    description: Option<string>)

  /** The status select: 'all', 'Active' or 'Archived'. */
  datatype StatusChoice = AnyStatus | ActiveOnly | ArchivedOnly

  /** The five filter controls of the feed. */
  datatype Filters = Filters(
    location: Choice<int>,
    disaster: Choice<int>,
    severity: Choice<string>,
    status: StatusChoice,
    search: string)

  /** `a || b` on strings: a missing or empty `a` falls through to `b`. */
  function OrElse(a: Option<string>, b: string): string {
    if a.Some? && a.value != "" then a.value else b
  }

  /** `alert.severity_level || alert.severity || 'Alert'`. */
  function EffectiveSeverity(a: Alert): (r: string)
    ensures r != ""
    ensures a.severityLevel.GetOr("") != "" ==> r == a.severityLevel.value
    ensures a.severityLevel.GetOr("") == "" && a.severity.GetOr("") != "" ==> r == a.severity.value
    ensures a.severityLevel.GetOr("") == "" && a.severity.GetOr("") == "" ==> r == "Alert"
  {
    OrElse(a.severityLevel, OrElse(a.severity, "Alert"))
  }

  /** The search test: the lower-cased query, untrimmed, occurs in the
      lower-cased title, disaster name or description (missing ones read as ''). */
  predicate MatchesSearch(a: Alert, query: string) {
    var q := Lower(query);
    Contains(Lower(a.title.GetOr("")), q)
    || Contains(Lower(a.disasterName.GetOr("")), q)
    || Contains(Lower(a.description.GetOr("")), q)
  }

  /** The callback of `alerts.filter`: the five checks in source order. The
      location check compares the numeric `location_id` with the chosen id;
      the disaster check compares `disaster_id?.toString() || ''` with it, so
      an alert without a disaster never matches a chosen disaster. */
  predicate Keep(f: Filters, a: Alert)
    ensures f.location.All? && f.disaster.All? && f.severity.All? && f.status.AnyStatus? && AllSpaces(f.search)
      ==> Keep(f, a)
  {
    TrimEmptyIffAllSpaces(f.search);
    (f.location.All? || a.locationId == f.location.value)
    && (f.disaster.All? || (a.disasterId.Some? && a.disasterId.value == f.disaster.value))
    && (f.severity.All? || EffectiveSeverity(a) == f.severity.value)
    && (f.status.ActiveOnly? ==> a.isActive == 1)
    && (f.status.ArchivedOnly? ==> a.isActive == 0)
    && (Trim(f.search) == [] || MatchesSearch(a, f.search))
  }

  /** `filteredAlerts`: the alerts that pass every check, in their order. */
  function FilteredAlerts(alerts: seq<Alert>, f: Filters): (r: seq<Alert>)
    ensures IsSubsequence(r, alerts)
    ensures forall i :: 0 <= i < |r| ==> Keep(f, r[i])
    ensures forall i :: 0 <= i < |alerts| && Keep(f, alerts[i]) ==> alerts[i] in r
  {
    Filter(alerts, a => Keep(f, a))
  }

  /** `activeAlerts`: the filtered alerts whose `is_active === 1`, in their order. */
  function ActiveAlerts(filtered: seq<Alert>): (r: seq<Alert>)
    ensures IsSubsequence(r, filtered)
    ensures forall i :: 0 <= i < |r| ==> r[i].isActive == 1
    ensures forall i :: 0 <= i < |filtered| && filtered[i].isActive == 1 ==> filtered[i] in r
  {
    Filter(filtered, (a: Alert) => a.isActive == 1)
  }

  /** Filtering only removes alerts and keeps the order of the rest; an alert
      is kept exactly when it passes every check. */
  lemma FilteredIsOrderedSelection(alerts: seq<Alert>, f: Filters)
    ensures IsSubsequence(FilteredAlerts(alerts, f), alerts)
    ensures |FilteredAlerts(alerts, f)| <= |alerts|
    ensures forall a :: a in FilteredAlerts(alerts, f) <==> a in alerts && Keep(f, a)
  {
    var r := FilteredAlerts(alerts, f);
    forall a | a in alerts && Keep(f, a) ensures a in r {
      var i :| 0 <= i < |alerts| && alerts[i] == a;
    }
  }

  /** With every select on 'all' and a blank search box the feed shows every alert. */
  lemma NeutralFiltersKeepAll(alerts: seq<Alert>, search: string)
    requires AllSpaces(search)
    ensures FilteredAlerts(alerts, Filters(All, All, All, AnyStatus, search)) == alerts
  {
    TrimEmptyIffAllSpaces(search);
    FilterKeepsAll(alerts, a => Keep(Filters(All, All, All, AnyStatus, search), a));
  }

  /** With only the status filter set, 'Active' keeps exactly the alerts with
      `is_active === 1` and 'Archived' exactly those with `is_active === 0`,
      in their original order. */
  lemma StatusFilterExact(alerts: seq<Alert>, search: string)
    requires AllSpaces(search)
    ensures FilteredAlerts(alerts, Filters(All, All, All, ActiveOnly, search)) == Filter(alerts, (a: Alert) => a.isActive == 1)
    ensures FilteredAlerts(alerts, Filters(All, All, All, ArchivedOnly, search)) == Filter(alerts, (a: Alert) => a.isActive == 0)
  {
    TrimEmptyIffAllSpaces(search);
    FilterAgrees(alerts, a => Keep(Filters(All, All, All, ActiveOnly, search), a), (a: Alert) => a.isActive == 1);
    FilterAgrees(alerts, a => Keep(Filters(All, All, All, ArchivedOnly, search), a), (a: Alert) => a.isActive == 0);
  }

  /** With a non-blank search and every select on 'all', an alert is kept iff
      the lower-cased query occurs in one of its three texts. */
  lemma SearchFilterExact(alerts: seq<Alert>, search: string, a: Alert)
    requires !AllSpaces(search)
    ensures a in FilteredAlerts(alerts, Filters(All, All, All, AnyStatus, search)) <==>
      a in alerts && (Contains(Lower(a.title.GetOr("")), Lower(search))
                      || Contains(Lower(a.disasterName.GetOr("")), Lower(search))
                      || Contains(Lower(a.description.GetOr("")), Lower(search)))
  {
    TrimEmptyIffAllSpaces(search);
    FilteredIsOrderedSelection(alerts, Filters(All, All, All, AnyStatus, search));
  }

  /** The severity filter compares the effective severity: `severity_level`,
      else `severity`, else 'Alert'. */
  lemma SeverityFilterExact(alerts: seq<Alert>, level: string, a: Alert)
    ensures a in FilteredAlerts(alerts, Filters(All, All, Only(level), AnyStatus, "")) <==>
      a in alerts && EffectiveSeverity(a) == level
  {
    assert Trim("") == [];
    FilteredIsOrderedSelection(alerts, Filters(All, All, Only(level), AnyStatus, ""));
  }

  /** The active alerts are the filtered alerts with `is_active === 1`, in order. */
  lemma ActiveAlertsExact(filtered: seq<Alert>)
    ensures IsSubsequence(ActiveAlerts(filtered), filtered)
    ensures forall a :: a in ActiveAlerts(filtered) <==> a in filtered && a.isActive == 1
  {
    var r := ActiveAlerts(filtered);
    forall a | a in filtered && a.isActive == 1 ensures a in r {
      var i :| 0 <= i < |filtered| && filtered[i] == a;
    }
  }

  /** The state of the public page: the polled list, the filter controls, the
      pagination and the overlay/siren flags. React state updates are modelled
      as the field assignments of one handler or effect run. */
  class HomePage {
    var alerts: seq<Alert>
    var filters: Filters
    var currentPage: int
    var itemsPerPage: nat
    /** `processedAlertIds`: ids already announced. */
    var processedAlertIds: set<int>
    var emergencyDismissed: bool
    var sirenMuted: bool
    var sirenEnabled: bool
    var isLocationLoaded: bool
    var selectedAlert: Option<Alert>

    ghost predicate Valid()
      reads this
    {
      currentPage >= 1 && itemsPerPage > 0
    }

    /** The initial state: no alerts, every filter on 'all', page 1 of 12 cards, siren enabled. */
    constructor ()
      ensures Valid()
      ensures alerts == [] && filters == Filters(All, All, All, AnyStatus, "")
      ensures currentPage == 1 && itemsPerPage == 12
      ensures processedAlertIds == {} && !emergencyDismissed && !sirenMuted && sirenEnabled
      ensures !isLocationLoaded && selectedAlert == None
    {
      alerts := [];
      filters := Filters(All, All, All, AnyStatus, "");
      currentPage := 1;
      itemsPerPage := 12;
      processedAlertIds := {};
      emergencyDismissed := false;
      sirenMuted := false;
      sirenEnabled := true;
      isLocationLoaded := false;
      selectedAlert := None;
    }

    function Filtered(): seq<Alert>
      reads this
    {
      FilteredAlerts(alerts, filters)
    }

    function Active(): seq<Alert>
      reads this
    {
      ActiveAlerts(Filtered())
    }

    /** `hasActiveAlert`. */
    predicate HasActiveAlert()
      reads this
    {
      |Active()| > 0
    }

    function TotalPages(): nat
      reads this
      requires Valid()
    {
      Paging.TotalPages(|Filtered()|, itemsPerPage)
    }

    /** `paginatedAlerts`. */
    function Paginated(): seq<Alert>
      reads this
      requires Valid()
    {
      Paging.PageItems(Filtered(), currentPage, itemsPerPage)
    }

    /** The overlay and the danger theme: active alerts, not dismissed, and a
        specific location selected. */
    predicate OverlayShown()
      reads this
      ensures OverlayShown() ==> (!emergencyDismissed && filters.location.Only?
        && exists a :: a in alerts && a.isActive == 1 && a.locationId == filters.location.value)
    {
      if HasActiveAlert() && !emergencyDismissed && filters.location.Only? then
        var a := Active()[0];
        assert a in Filtered() && Keep(filters, a);
        assert a in alerts;
        true
      else false
    }

    /** The siren condition: it plays only while the overlay is shown, the
        siren is enabled and it is not muted. */
    predicate SirenPlays()
      reads this
      ensures SirenPlays() ==> OverlayShown() && sirenEnabled && !sirenMuted
    {
      HasActiveAlert() && sirenEnabled && !sirenMuted && !emergencyDismissed && filters.location.Only?
    }

    /** The mount effect: stored siren preference and stored location, if any. */
    method LoadPreferences(storedToggle: Option<bool>, storedLocation: Option<int>)
      modifies this
      ensures sirenEnabled == storedToggle.GetOr(old(sirenEnabled))
      ensures filters == if storedLocation.Some? then old(filters).(location := Only(storedLocation.value)) else old(filters)
      ensures isLocationLoaded
      ensures alerts == old(alerts) && processedAlertIds == old(processedAlertIds)
      ensures emergencyDismissed == old(emergencyDismissed) && sirenMuted == old(sirenMuted)
      ensures currentPage == old(currentPage) && itemsPerPage == old(itemsPerPage)
      ensures selectedAlert == old(selectedAlert)
    {
      if storedToggle.Some? {
        sirenEnabled := storedToggle.value;
      }
      if storedLocation.Some? {
        filters := filters.(location := Only(storedLocation.value));
      }
      isLocationLoaded := true;
    }

    /** A poll of the alert list replaces it. */
    method ReceiveAlerts(data: seq<Alert>)
      modifies this`alerts
      ensures alerts == data
    {
      alerts := data;
    }

    /** The reset-to-page-1 effect, which runs when a filter value has changed. */
    method ResetPageIfChanged(before: Filters)
      requires Valid()
      modifies this`currentPage
      ensures Valid()
      ensures currentPage == if filters != before then 1 else old(currentPage)
    {
      if filters != before {
        currentPage := 1;
      }
    }

    /** `handleLocationChange`: select the location, forget the announced
        ids and unmute; the filter effect then goes back to page 1. */
    method ChangeLocation(newId: Choice<int>)
      requires Valid()
      modifies this
      ensures Valid()
      ensures filters == old(filters).(location := newId)
      ensures processedAlertIds == {} && !sirenMuted
      ensures currentPage == if newId != old(filters).location then 1 else old(currentPage)
      ensures alerts == old(alerts) && emergencyDismissed == old(emergencyDismissed)
      ensures sirenEnabled == old(sirenEnabled) && itemsPerPage == old(itemsPerPage)
      ensures isLocationLoaded == old(isLocationLoaded) && selectedAlert == old(selectedAlert)
    {
      var before := filters;
      filters := filters.(location := newId);
      processedAlertIds := {};
      sirenMuted := false;
      ResetPageIfChanged(before);
    }

    /** Any of the other four filter controls: set it, then the filter effect. */
    method ChangeFilters(newFilters: Filters)
      requires Valid()
      requires newFilters.location == filters.location
      modifies this`filters, this`currentPage
      ensures Valid()
      ensures filters == newFilters
      ensures currentPage == if newFilters != old(filters) then 1 else old(currentPage)
    {
      var before := filters;
      filters := newFilters;
      ResetPageIfChanged(before);
    }

    /** The "Show" select: a new page size and page 1. */
    method SetItemsPerPage(n: nat)
      requires n > 0
      modifies this`itemsPerPage, this`currentPage
      ensures Valid()
      ensures itemsPerPage == n && currentPage == 1
    {
      itemsPerPage := n;
      currentPage := 1;
    }

    /** Previous: `Math.max(1, p - 1)`. */
    method PreviousPage()
      requires Valid()
      modifies this`currentPage
      ensures Valid()
      ensures currentPage == Paging.PrevPage(old(currentPage))
    {
      currentPage := Paging.PrevPage(currentPage);
    }

    /** Next: `Math.min(totalPages, p + 1)`; it never moves past the last page. */
    method NextPage()
      requires Valid()
      modifies this`currentPage
      ensures Valid()
      ensures currentPage == Paging.NextPage(old(currentPage), TotalPages())
      ensures old(currentPage) <= TotalPages() ==> currentPage <= TotalPages()
    {
      currentPage := Paging.NextPage(currentPage, TotalPages());
    }

    /** The announce effect: once the location preference is loaded and a
        specific location is selected, an unseen newest active alert is
        recorded and re-shows the overlay with the siren unmuted; a seen one
        changes nothing. */
    method AnnounceNewest()
      modifies this`processedAlertIds, this`emergencyDismissed, this`sirenMuted
      ensures var unseen := isLocationLoaded && filters.location.Only? && |Active()| > 0
                           && Active()[0].id !in old(processedAlertIds);
        if unseen then
          processedAlertIds == old(processedAlertIds) + {Active()[0].id}
          && !emergencyDismissed && !sirenMuted
        else
          processedAlertIds == old(processedAlertIds)
          && emergencyDismissed == old(emergencyDismissed) && sirenMuted == old(sirenMuted)
    {
      if !isLocationLoaded || filters.location.All? {
        return;
      }
      var active := Active();
      if |active| > 0 {
        var newest := active[0];
        if newest.id !in processedAlertIds {
          processedAlertIds := processedAlertIds + {newest.id};
          emergencyDismissed := false;
          sirenMuted := false;
        }
      }
    }

    /** Opening the details of one alert card. */
    method ViewDetails(a: Alert)
      modifies this`selectedAlert
      ensures selectedAlert == Some(a)
    {
      selectedAlert := Some(a);
    }

    /** `handleCloseModal`: close the details and mute the siren. */
    method CloseModal()
      modifies this`selectedAlert, this`sirenMuted
      ensures selectedAlert == None && sirenMuted
      ensures !SirenPlays()
    {
      selectedAlert := None;
      sirenMuted := true;
    }

    /** `handleDismissEmergency`: hide the overlay and mute; neither shows again
        until a new alert is announced. */
    method DismissEmergency()
      modifies this`emergencyDismissed, this`sirenMuted
      ensures emergencyDismissed && sirenMuted
      ensures !OverlayShown() && !SirenPlays()
    {
      emergencyDismissed := true;
      sirenMuted := true;
    }

    /** `toggleSiren`: flip the siren preference. */
    method ToggleSiren()
      modifies this`sirenEnabled
      ensures sirenEnabled == !old(sirenEnabled)
    {
      sirenEnabled := !sirenEnabled;
    }
  }
}
