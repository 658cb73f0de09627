/**
 * The pagination bar under the idea lists: whether it shows, how many pages
 * there are, the "Showing a-b of n" text, the previous/next buttons and the
 * URL they lead to.
 */
module Pagination {
  import opened Wrappers
  import opened Text
  import opened Query

  /** Page metadata reported by the backend with a list of ideas. */
  datatype Meta = Meta(page: int, limit: int, total: int)

  /** What the bar shows when it is rendered. */
  datatype Bar = Bar(
    totalPages: int,
    rangeStart: int,
    rangeEnd: int,
    total: int,
    previous: Option<int>,  // the page the left button requests; None when disabled
    next: Option<int>       // the page the right button requests; None when disabled
  )

  /** The bar is rendered only when metadata is present and there is more than one page's worth. */
  predicate Visible(meta: Option<Meta>)
  {
    meta.Some? && meta.value.total > meta.value.limit
  }

  /** `Math.ceil(total / limit)` for a positive page size. */
  function TotalPages(total: int, limit: int): (pages: int)
    requires limit > 0
    ensures (pages - 1) * limit < total <= pages * limit
  {
    var q := (total + limit - 1) / limit;
    var r := (total + limit - 1) % limit;
    assert total + limit - 1 == q * limit + r && 0 <= r < limit;
    assert (q - 1) * limit == q * limit - limit;
    q
  }

  /** A bar that shows has at least two pages. */
  lemma VisibleHasTwoPages(total: int, limit: int)
    requires 0 < limit < total
    ensures TotalPages(total, limit) >= 2
  {
  }

  /** First item number of page `page`: `(page - 1) * limit + 1`. */
  function RangeStart(page: int, limit: int): int
  {
    (page - 1) * limit + 1
  }

  /** Last item number of page `page`: `Math.min(page * limit, total)`. */
  function RangeEnd(page: int, limit: int, total: int): (last: int)
    ensures last <= total
  {
    if page * limit < total then page * limit else total
  }

  /** On every existing page the range is non-empty, ends by the total and spans at most one page. */
  lemma RangeWithinTotal(page: int, limit: int, total: int)
    requires limit > 0
    requires 1 <= page <= TotalPages(total, limit)
    ensures 1 <= RangeStart(page, limit) <= RangeEnd(page, limit, total) <= total
    ensures RangeEnd(page, limit, total) - RangeStart(page, limit) < limit
  {
    var pages := TotalPages(total, limit);
    assert (page - 1) * limit <= (pages - 1) * limit by {
      assert (pages - page) * limit >= 0;
    }
    assert (page - 1) * limit >= 0;
    assert page * limit == (page - 1) * limit + limit;
  }

  /** The left button: disabled on the first page, otherwise one page back. */
  function PreviousPage(page: int): (target: Option<int>)
    ensures target.None? <==> page <= 1
    ensures target.Some? ==> target.value == page - 1
  {
    if page <= 1 then None else Some(page - 1)
  }

  /** The right button: disabled on the last page, otherwise one page on. */
  function NextPage(page: int, totalPages: int): (target: Option<int>)
    ensures target.None? <==> page >= totalPages
    ensures target.Some? ==> target.value == page + 1
  {
    if page >= totalPages then None else Some(page + 1)
  }

  /** The rendered bar, or None where the component returns `null`. */
  function Render(meta: Option<Meta>): (bar: Option<Bar>)
    requires meta.Some? ==> meta.value.limit > 0
    ensures bar.Some? <==> Visible(meta)
    ensures bar.Some? ==> bar.value.totalPages >= 2 && bar.value.total == meta.value.total
    ensures bar.Some? ==> bar.value.rangeEnd <= bar.value.total
  {
    if !Visible(meta) then None
    else
      var m := meta.value;
      var pages := TotalPages(m.total, m.limit);
      VisibleHasTwoPages(m.total, m.limit);
      Some(Bar(pages, RangeStart(m.page, m.limit), RangeEnd(m.page, m.limit, m.total), m.total,
               PreviousPage(m.page), NextPage(m.page, pages)))
  }

  /**
   * `updatePage(newPage)`: copy the current query and `set` its "page"
   * entry; the result is the query the router is sent to.
   */
  method UpdatePage(current: seq<Pair>, newPage: int) returns (target: seq<Pair>)
    ensures ValuesOf(target, "page") == [IntToString(newPage)]
    ensures forall name :: name != "page" ==> ValuesOf(target, name) == ValuesOf(current, name)
    ensures Without(target, "page") == Without(current, "page")
  {
    var params := new SearchParams(current);
    params.Set("page", IntToString(newPage));
    target := params.pairs;
    SetValueValues(current, "page", IntToString(newPage), "page");
    forall name | name != "page"
      ensures ValuesOf(target, name) == ValuesOf(current, name)
    {
      SetValueValues(current, "page", IntToString(newPage), name);
    }
    SetValueKeepsOthers(current, "page", IntToString(newPage));
  }
}
