/** The filter bar and pager that the weather-log and earthquake-log pages
    share: a location, a date range, a page and a page size, each change of
    which sends a new list request. */
module LogFilters {
  import opened Common
  import Paging

  /** The page sizes the per-page select offers. */
  const PageSizes: seq<nat> := [10, 20, 50, 100]

  /** The query of a list request: `page` and `limit` always, and each filter
      only when it is set. */
  datatype LogQuery = LogQuery(page: int, limit: nat,
    locationId: Option<string>, dateFrom: Option<string>, dateTo: Option<string>)

  /** `if (value) params.append(name, value)`. */
  function IfSet(value: string): (r: Option<string>)
    ensures r.Some? <==> value != ""
    ensures r.Some? ==> r.value == value
  {
    if value == "" then None else Some(value)
  }

  class LogFilterPage {
    var location: string
    var dateFrom: string
    var dateTo: string
    var page: int
    var limit: nat
    var totalItems: nat
    var totalPages: int

    ghost predicate Valid()
      reads this
    {
      page >= 1 && totalPages >= 1 && limit > 0
    }

    constructor ()
      ensures Valid()
      ensures location == "" && dateFrom == "" && dateTo == ""
      ensures page == 1 && limit == 10 && totalItems == 0 && totalPages == 1
    {
      location := "";
      dateFrom := "";
      dateTo := "";
      page := 1;
      limit := 10;
      totalItems := 0;
      totalPages := 1;
    }

    /** `hasActiveFilters`. */
    predicate HasActiveFilters()
      reads this
      ensures HasActiveFilters() <==> Query().locationId.Some? || Query().dateFrom.Some? || Query().dateTo.Some?
    {
      location != "" || dateFrom != "" || dateTo != ""
    }

    /** The parameters `fetchLogs` sends. */
    function Query(): (q: LogQuery)
      reads this
      ensures q.page == page && q.limit == limit
      ensures q.locationId.Some? <==> location != ""
      ensures q.dateFrom.Some? <==> dateFrom != ""
      ensures q.dateTo.Some? <==> dateTo != ""
    {
      LogQuery(page, limit, IfSet(location), IfSet(dateFrom), IfSet(dateTo))
    }

    /** The answer of a list request: `data.totalPages || 1` and `data.total || 0`. */
    method ReceivePage(pages: Option<int>, total: Option<nat>)
      requires Valid()
      requires pages.Some? ==> pages.value >= 0
      modifies this`totalPages, this`totalItems
      ensures Valid()
      ensures totalPages == if pages.GetOr(0) == 0 then 1 else pages.value
      ensures totalItems == total.GetOr(0)
    {
      totalPages := if pages.GetOr(0) == 0 then 1 else pages.value;
      totalItems := total.GetOr(0);
    }

    method LocationChange(v: string)
      requires Valid()
      modifies this`location, this`page
      ensures Valid()
      ensures location == v && page == 1
    {
      location := v;
      page := 1;
    }

    method DateFromChange(v: string)
      requires Valid()
      modifies this`dateFrom, this`page
      ensures Valid()
      ensures dateFrom == v && page == 1
    {
      dateFrom := v;
      page := 1;
    }

    method DateToChange(v: string)
      requires Valid()
      modifies this`dateTo, this`page
      ensures Valid()
      ensures dateTo == v && page == 1
    {
      dateTo := v;
      page := 1;
    }

    /** `setLimit(Number(e.target.value)); setPage(1)`, for one of the offered sizes. */
    method LimitChange(n: nat)
      requires Valid() && n in PageSizes
      modifies this`limit, this`page
      ensures Valid()
      ensures limit == n && page == 1
    {
      limit := n;
      page := 1;
    }

    /** `clearFilters`: afterwards no filter is active and the request
        narrows nothing. */
    method ClearFilters()
      requires Valid()
      modifies this`location, this`dateFrom, this`dateTo, this`page
      ensures Valid()
      ensures location == "" && dateFrom == "" && dateTo == "" && page == 1
      ensures !HasActiveFilters()
      ensures Query() == LogQuery(1, limit, None, None, None)
    {
      location := "";
      dateFrom := "";
      dateTo := "";
      page := 1;
    }

    /** The confirmed "delete all": on success the filters are cleared, on
        failure nothing changes (the alert text is not modelled). */
    method DeleteAllConfirmed(succeeded: bool)
      requires Valid()
      modifies this`location, this`dateFrom, this`dateTo, this`page
      ensures Valid()
      ensures succeeded ==> location == "" && dateFrom == "" && dateTo == "" && page == 1
      ensures !succeeded ==>
        location == old(location) && dateFrom == old(dateFrom) && dateTo == old(dateTo) && page == old(page)
    {
      if succeeded {
        ClearFilters();
      }
    }

    /** Previous is disabled on page 1 and otherwise goes to `Math.max(1, p - 1)`. */
    method PreviousPage()
      requires Valid()
      modifies this`page
      ensures Valid()
      ensures page == if old(page) == 1 then 1 else Paging.PrevPage(old(page))
      ensures page == Paging.Max(1, old(page) - 1)
    {
      if page != 1 {
        page := Paging.PrevPage(page);
      }
    }

    /** Next is disabled once `page >= totalPages` and otherwise goes to
        `Math.min(totalPages, p + 1)`. */
    method NextPage()
      requires Valid()
      modifies this`page
      ensures Valid()
      ensures old(page) < totalPages ==> page == old(page) + 1
      ensures old(page) >= totalPages ==> page == old(page)
    {
      if page < totalPages {
        page := Paging.NextPage(page, totalPages);
      }
    }

    /** The "Showing X to Y of N" caption, guarded for an empty table. */
    function Caption(): (c: (int, int))
      requires Valid()
      reads this
      ensures totalItems == 0 ==> c == (0, 0)
    {
      assert page * limit >= 0 by {
        Paging.MulMonotone(0, page, limit);
      }
      (Paging.RangeStart(page, limit, totalItems), Paging.RangeEnd(page, limit, totalItems))
    }
  }

  /** A request narrows the list exactly when a filter is active. */
  lemma NarrowsIffActive(p: LogFilterPage)
    ensures p.HasActiveFilters() <==>
      p.Query().locationId.Some? || p.Query().dateFrom.Some? || p.Query().dateTo.Some?
  {
  }

  /** When the page lies in the pager's range and the pager counts the rows,
      the caption names exactly the rows of that page. */
  lemma CaptionCountsPage<T>(p: LogFilterPage, rows: seq<T>)
    requires p.Valid() && p.totalItems == |rows|
    requires p.totalPages == Paging.TotalPages(|rows|, p.limit)
    requires p.page <= p.totalPages
    ensures |rows| > 0 ==>
      var (first, last) := p.Caption();
      1 <= first <= last <= |rows| && last - first + 1 == |Paging.PageItems(rows, p.page, p.limit)|
  {
    Paging.CaptionMatchesPage(rows, p.page, p.limit);
  }
}
