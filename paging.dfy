/** Page arithmetic shared by the public alert feed and the admin tables:
    the number of pages, the items of one page, the Previous/Next buttons and
    the "Showing X to Y of N" caption. */
module Paging {

  /** The per-page select of the admin tables: a number, or 'all' (which
      hides the pager). */
  datatype Limit = AllRows | PerPage(n: nat)

  function Min(a: int, b: int): int { if a <= b then a else b }

  function Max(a: int, b: int): int { if a >= b then a else b }

  /** `Math.max(1, Math.ceil(n / perPage))`: the smallest positive page count
      whose pages hold all `n` items. */
  function TotalPages(n: nat, perPage: nat): (r: nat)
    requires perPage > 0
    ensures r >= 1
    ensures n <= r * perPage
    ensures r == 1 || (r - 1) * perPage < n
  {
    if n == 0 then 1 else (n + perPage - 1) / perPage
  }

  /** `xs.slice((page - 1) * perPage, page * perPage)`: slice clamps both ends
      to the length, so a page past the end is empty. */
  function PageItems<T>(xs: seq<T>, page: int, perPage: nat): (r: seq<T>)
    requires page >= 1 && perPage > 0
    ensures |r| == Min(perPage, Max(0, |xs| - (page - 1) * perPage))
    ensures forall k :: 0 <= k < |r| ==> (page - 1) * perPage + k < |xs| && r[k] == xs[(page - 1) * perPage + k]
  {
    PageBounds(page, perPage);
    Slice(xs, (page - 1) * perPage, perPage)
  }

  /** A page starts at a position that is not negative and ends, at
      `page * perPage`, where the next one starts. */
  lemma PageBounds(page: int, perPage: nat)
    requires page >= 1
    ensures (page - 1) * perPage >= 0
    ensures page * perPage == (page - 1) * perPage + perPage
  {
  }

  /** `xs.slice(lo, lo + n)`, both ends clamped to the length. */
  function Slice<T>(xs: seq<T>, lo: nat, n: nat): (r: seq<T>)
    ensures |r| == Min(n, Max(0, |xs| - lo))
    ensures forall k :: 0 <= k < |r| ==> lo + k < |xs| && r[k] == xs[lo + k]
  {
    xs[Min(lo, |xs|)..Min(lo + n, |xs|)]
  }

  /** Every item is shown on exactly one page, `i / perPage + 1`, at position
      `i % perPage`, and that page is one of the pages counted. */
  lemma ItemOnItsPage<T>(xs: seq<T>, perPage: nat, i: nat)
    requires perPage > 0 && i < |xs|
    ensures var page := i / perPage + 1;
      page <= TotalPages(|xs|, perPage)
      && i % perPage < |PageItems(xs, page, perPage)|
      && PageItems(xs, page, perPage)[i % perPage] == xs[i]
  {
    var q, m := i / perPage, i % perPage;
    assert i == q * perPage + m && 0 <= m < perPage;
    var total := TotalPages(|xs|, perPage);
    if q + 1 > total {
      assert q * perPage >= total * perPage by {
        assert q >= total;
        MulMonotone(total, q, perPage);
      }
      assert false;
    }
    assert (q + 1 - 1) * perPage == q * perPage;
  }

  lemma MulMonotone(a: nat, b: nat, c: nat)
    requires a <= b
    ensures a * c <= b * c
  {
  }

  /** Previous: `Math.max(1, p - 1)`. */
  function PrevPage(page: int): (r: int)
    ensures r >= 1
    ensures page > 1 ==> r == page - 1
    ensures r <= Max(page, 1)
  {
    Max(1, page - 1)
  }

  /** Next: `Math.min(totalPages, p + 1)`. */
  function NextPage(page: int, totalPages: int): (r: int)
    ensures r <= totalPages
    ensures page < totalPages ==> r == page + 1
    ensures r >= Min(page, totalPages)
  {
    Min(totalPages, page + 1)
  }

  /** Both buttons keep a page that lies in `[1, totalPages]` inside that range. */
  lemma PrevNextStayInRange(page: int, totalPages: int)
    requires 1 <= page <= totalPages
    ensures 1 <= PrevPage(page) <= totalPages
    ensures 1 <= NextPage(page, totalPages) <= totalPages
  {
  }

  /** The first number of the caption, guarded: 0 when there is nothing to show. */
  function RangeStart(page: int, limit: nat, total: nat): int
  {
    if total == 0 then 0 else (page - 1) * limit + 1
  }

  /** The second number of the caption: `Math.min(page * limit, total)`. */
  function RangeEnd(page: int, limit: nat, total: nat): int
  {
    Min(page * limit, total)
  }

  /** On a page that exists, the caption counts exactly the items of that page:
      it starts at the page's first item and ends at its last one, and the whole
      caption is 0 to 0 when there is nothing. */
  lemma {:induction false} CaptionMatchesPage<T>(xs: seq<T>, page: int, limit: nat)
    requires limit > 0 && 1 <= page <= TotalPages(|xs|, limit)
    ensures |xs| == 0 ==> RangeStart(page, limit, |xs|) == 0 && RangeEnd(page, limit, |xs|) == 0
    ensures |xs| > 0 ==>
      1 <= RangeStart(page, limit, |xs|) <= RangeEnd(page, limit, |xs|) <= |xs|
      && RangeEnd(page, limit, |xs|) - RangeStart(page, limit, |xs|) + 1 == |PageItems(xs, page, limit)|
  {
    var total := TotalPages(|xs|, limit);
    if |xs| > 0 {
      if total > 1 {
        assert (page - 1) * limit <= (total - 1) * limit by {
          MulMonotone(page - 1, total - 1, limit);
        }
      } else {
        assert page == 1;
      }
    }
  }
}
