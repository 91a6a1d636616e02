/**
 * The pagination controls under a table: the "Showing a to b of n" label,
 * the page-size selector, the first/previous/next/last buttons and the strip
 * of page numbers; and the compact previous/next variant. A render is the
 * value the view shows; a click is the page number it reports.
 */
module PaginationView {
  import opened Wrappers
  import opened Text
  import opened Pagination
  import opened Query

  /** A navigation button: the page it reports when clicked, and whether it can be clicked. */
  datatype NavButton = NavButton(target: int, enabled: bool)

  /** A button of the page strip; the current page is drawn highlighted. */
  datatype PageButton = PageButton(pageNum: int, highlighted: bool)

  /** The page-size selector: the current size and the choices, each as the text the select holds. */
  datatype SizeSelector = SizeSelector(value: string, choices: seq<string>)

  datatype Controls = Controls(
    startItem: int,
    endItem: int,
    total: int,
    sizeSelector: Option<SizeSelector>,
    first: NavButton,
    previous: NavButton,
    pages: seq<PageButton>,
    next: NavButton,
    last: NavButton)

  /** The choices of the page-size selector. */
  function SizeChoices(): (r: seq<string>)
    ensures |r| == |PageSizeOptions|
    ensures forall i :: 0 <= i < |r| ==> r[i] == IntToString(PageSizeOptions[i])
  {
    seq(|PageSizeOptions|, i requires 0 <= i < |PageSizeOptions| => IntToString(PageSizeOptions[i]))
  }

  /** The page size a choice of the selector reports: `parseInt` of its text. */
  function ChosenSize(choice: string): Option<int> {
    ParseInt(choice)
  }

  /** Picking a choice reports exactly the size it shows: 5, 10, 20 or 50. */
  lemma SizeChoicesReportTheirSize(i: int)
    requires 0 <= i < |SizeChoices()|
    ensures ChosenSize(SizeChoices()[i]) == Some(PageSizeOptions[i])
    ensures ChosenSize(SizeChoices()[i]).value in {5, 10, 20, 50}
  {
    var size := PageSizeOptions[i];
    assert SizeChoices()[i] == IntToString(size);
    ParseIntOfIntToString(size);
    assert size in {5, 10, 20, 50} by {
      assert i == 0 || i == 1 || i == 2 || i == 3;
    }
  }

  function PageStrip(meta: PaginationMeta): (r: seq<PageButton>)
    ensures |r| == |GeneratePageNumbers(meta.page, meta.totalPages, DefaultMaxVisible)|
    ensures forall i :: 0 <= i < |r| ==>
      r[i].pageNum == GeneratePageNumbers(meta.page, meta.totalPages, DefaultMaxVisible)[i] &&
      (r[i].highlighted <==> r[i].pageNum == meta.page)
  {
    var nums := GeneratePageNumbers(meta.page, meta.totalPages, DefaultMaxVisible);
    seq(|nums|, i requires 0 <= i < |nums| => PageButton(nums[i], nums[i] == meta.page))
  }

  /**
   * The full control; nothing when there is at most one page. The size
   * selector shows when it is enabled and a handler is given.
   */
  function Render(meta: PaginationMeta, showPageSizeSelector: bool, hasSizeHandler: bool): (c: Option<Controls>)
    ensures c.None? <==> meta.totalPages <= 1
    ensures c.Some? ==>
      && c.value.startItem == RangeStart(meta)
      && c.value.endItem == RangeEnd(meta)
      && c.value.total == meta.total
      && (c.value.sizeSelector.Some? <==> showPageSizeSelector && hasSizeHandler)
      && (c.value.sizeSelector.Some? ==>
            c.value.sizeSelector.value == SizeSelector(IntToString(meta.limit), SizeChoices()))
      && c.value.first == NavButton(1, meta.hasPreviousPage)
      && c.value.previous == NavButton(meta.page - 1, meta.hasPreviousPage)
      && c.value.next == NavButton(meta.page + 1, meta.hasNextPage)
      && c.value.last == NavButton(meta.totalPages, meta.hasNextPage)
      && c.value.pages == PageStrip(meta)
  {
    if meta.totalPages <= 1 then None
    else
      var selector := if showPageSizeSelector && hasSizeHandler
        then Some(SizeSelector(IntToString(meta.limit), SizeChoices())) else None;
      Some(Controls(
        RangeStart(meta),
        RangeEnd(meta),
        meta.total,
        selector,
        NavButton(1, meta.hasPreviousPage),
        NavButton(meta.page - 1, meta.hasPreviousPage),
        PageStrip(meta),
        NavButton(meta.page + 1, meta.hasNextPage),
        NavButton(meta.totalPages, meta.hasNextPage)))
  }

  /** A button leads to an existing page whenever it can be clicked. */
  predicate LeadsToPage(b: NavButton, totalPages: int) {
    b.enabled ==> 1 <= b.target <= totalPages
  }

  /**
   * For metadata of a listing, viewed on an existing page: every enabled
   * button and every strip button leads to an existing page, and exactly one
   * strip button, the current page's, is highlighted.
   */
  lemma ControlsStayInRange(page: int, limit: int, total: int)
    requires limit >= 1 && total >= 0
    requires 1 <= page <= CreatePaginationMeta(page, limit, total).totalPages
    ensures var meta := CreatePaginationMeta(page, limit, total);
      var c := Render(meta, true, true);
      c.Some? ==>
        && LeadsToPage(c.value.first, meta.totalPages)
        && LeadsToPage(c.value.previous, meta.totalPages)
        && LeadsToPage(c.value.next, meta.totalPages)
        && LeadsToPage(c.value.last, meta.totalPages)
        && (forall i :: 0 <= i < |c.value.pages| ==> 1 <= c.value.pages[i].pageNum <= meta.totalPages)
        && (exists i :: 0 <= i < |c.value.pages| && c.value.pages[i].highlighted)
        && (forall i, j :: 0 <= i < j < |c.value.pages| ==>
              !(c.value.pages[i].highlighted && c.value.pages[j].highlighted))
  {
    var meta := CreatePaginationMeta(page, limit, total);
    var nums := GeneratePageNumbers(page, meta.totalPages, DefaultMaxVisible);
    if meta.totalPages > 1 {
      var strip := PageStrip(meta);
      if meta.totalPages <= DefaultMaxVisible {
        PageStripShowsAllPages(page, meta.totalPages, DefaultMaxVisible);
        assert strip[page - 1].highlighted;
      } else {
        PageStripWindow(page, meta.totalPages, DefaultMaxVisible);
        var k :| 0 <= k < |nums| && nums[k] == page;
        assert strip[k].highlighted;
      }
    }
  }

  /** First row number of the "Showing x to y of n" label. */
  function RangeStart(meta: PaginationMeta): int
  {
    (meta.page - 1) * meta.limit + 1
  }

  /** Last row number of the label, capped at the total. */
  function RangeEnd(meta: PaginationMeta): int
  {
    Min(meta.page * meta.limit, meta.total)
  }

  /**
   * The label counts the rows the page holds: on an existing page of a
   * listing, the label starts at the row after the page's offset, and
   * `end - start + 1` is the size of the window the listing returns from
   * that offset.
   */
  lemma RangeLabelCountsPageRows<T>(listing: seq<T>, page: int, limit: int)
    requires limit >= 1
    requires 1 <= page <= CreatePaginationMeta(page, limit, |listing|).totalPages
    ensures var meta := CreatePaginationMeta(page, limit, |listing|);
      && RangeStart(meta) - 1 == (page - 1) * limit
      && RangeEnd(meta) - RangeStart(meta) + 1 == |Window(listing, RangeStart(meta) - 1, limit)|
  {
    var meta := CreatePaginationMeta(page, limit, |listing|);
    MulMonotone(0, page - 1, limit);
    PageRowCount(|listing|, page, limit, meta.totalPages);
  }

  /** Arithmetic of the range label: the page's first row exists, and the label spans the rows from it on, at most `limit`. */
  lemma PageRowCount(total: int, page: int, limit: int, totalPages: int)
    requires limit >= 1 && 1 <= page <= totalPages && (totalPages - 1) * limit < total
    ensures (page - 1) * limit < total
    ensures Min(page * limit, total) - (page - 1) * limit == Min(limit, total - (page - 1) * limit)
  {
    MulMonotone(page - 1, totalPages - 1, limit);
    assert page * limit == (page - 1) * limit + limit;
  }

  lemma MulMonotone(a: int, b: int, m: int)
    requires a <= b && m >= 0
    ensures a * m <= b * m
  {
    assert b * m - a * m == (b - a) * m;
  }

  // ---------------------------------------------------------------------------
  // SimplePagination
  // ---------------------------------------------------------------------------

  datatype SimpleControls = SimpleControls(previous: NavButton, page: int, totalPages: int, next: NavButton)

  function RenderSimple(meta: PaginationMeta): (c: Option<SimpleControls>)
    ensures c.None? <==> meta.totalPages <= 1
    ensures c.Some? ==>
      c.value == SimpleControls(NavButton(meta.page - 1, meta.hasPreviousPage), meta.page, meta.totalPages,
                                NavButton(meta.page + 1, meta.hasNextPage))
  {
    if meta.totalPages <= 1 then None
    else Some(SimpleControls(NavButton(meta.page - 1, meta.hasPreviousPage), meta.page, meta.totalPages,
                             NavButton(meta.page + 1, meta.hasNextPage)))
  }

  /** The compact control is the full control's previous and next buttons. */
  lemma SimpleIsPartOfFull(meta: PaginationMeta)
    ensures RenderSimple(meta).Some? == Render(meta, false, false).Some?
    ensures RenderSimple(meta).Some? ==>
      && RenderSimple(meta).value.previous == Render(meta, false, false).value.previous
      && RenderSimple(meta).value.next == Render(meta, false, false).value.next
  {
  }
}
