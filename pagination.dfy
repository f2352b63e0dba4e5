/** The pagination part of src/App.jsx: the `Pagination` component's window
    of page-number buttons and its four navigation buttons, and the page count
    `totalPages` the app derives from its search state. */
module Paging {
  import opened Basics

  /** How many page-number buttons the window shows at most. */
  const Visible := 5
  /** How far the window reaches on each side of the current page. */
  const Half := Visible / 2
  /** The page size the app requests and counts pages with. */
  const PerPage := 20

  /** The consecutive integers `lo..hi`, empty when `lo > hi`. */
  function Range(lo: int, hi: int): seq<int> {
    seq(Max(0, hi - lo + 1), i => lo + i)
  }

  function Clamp(x: int, lo: int, hi: int): (r: int)
    requires lo <= hi
    ensures lo <= r <= hi
  {
    if x < lo then lo else if x > hi then hi else x
  }

  /** The reference window: `min(Visible, totalPages)` consecutive pages
      inside `[1, totalPages]` whose first page is as close to
      `page - Half` as those bounds allow; nothing when there are no pages. */
  function CentredWindow(page: int, totalPages: int): seq<int> {
    if totalPages < 1 then []
    else
      var len := Min(Visible, totalPages);
      var first := Clamp(page - Half, 1, totalPages - len + 1);
      Range(first, first + len - 1)
  }

  /** The window is an ascending run of consecutive pages inside
      `[1, totalPages]`, of `min(Visible, totalPages)` pages, and it contains
      `page` exactly when `page` is a page that exists. */
  lemma WindowShape(page: int, totalPages: int)
    ensures var w := CentredWindow(page, totalPages);
      && (forall i :: 0 <= i < |w| ==> w[i] == w[0] + i)
      && (forall i :: 0 <= i < |w| ==> 1 <= w[i] <= totalPages)
      && |w| <= Visible
      && (totalPages >= 1 ==> |w| == Min(Visible, totalPages))
      && (totalPages < 1 ==> w == [])
      && (page in w <==> 1 <= page <= totalPages)
  {
    var w := CentredWindow(page, totalPages);
    if totalPages >= 1 && 1 <= page <= totalPages {
      var first := w[0];
      assert w[page - first] == page;
    }
  }

  /** The four worked examples: the first, last and a middle page of ten,
      and the only page of one. */
  lemma WindowExamples()
    ensures CentredWindow(1, 10) == [1, 2, 3, 4, 5]
    ensures CentredWindow(10, 10) == [6, 7, 8, 9, 10]
    ensures CentredWindow(5, 10) == [3, 4, 5, 6, 7]
    ensures CentredWindow(1, 1) == [1]
  {
    assert CentredWindow(1, 10) == Range(1, 5);
    assert CentredWindow(10, 10) == Range(6, 10);
    assert CentredWindow(5, 10) == Range(3, 7);
    assert CentredWindow(1, 1) == Range(1, 1);
  }

  /** The page numbers `Pagination` renders: centre on `page`, clip to
      `[1, totalPages]`, and when clipping left fewer than `Visible` pages,
      push the far end outwards; then list `start..end`. The list is the
      reference window. */
  method Pagination(page: int, totalPages: int) returns (pages: seq<int>)
    ensures pages == CentredWindow(page, totalPages)
  {
    var start := Max(1, page - Half);
    var end := Min(totalPages, page + Half);

    if end - start + 1 < Visible {
      if start == 1 {
        end := Min(totalPages, start + Visible - 1);
      } else if end == totalPages {
        start := Max(1, end - Visible + 1);
      }
    }

    pages := [];
    var p := start;
    while p <= end
      invariant start <= p <= Max(start, end + 1)
      invariant pages == Range(start, p - 1)
    {
      pages := pages + [p];
      p := p + 1;
    }
    assert pages == Range(start, end);
    if totalPages >= 1 {
      var len := Min(Visible, totalPages);
      assert start == Clamp(page - Half, 1, totalPages - len + 1);
      assert end == start + len - 1;
    }
  }

  /** Where the navigation buttons lead, and which are disabled: first page,
      previous page, next page, last page. */
  datatype NavTargets = NavTargets(
    first: int, prev: int, next: int, last: int,
    backDisabled: bool, forwardDisabled: bool)

  /** The buttons around the window. On any existing page every button leads
      to an existing page; an enabled previous or next button moves by one
      page; the back buttons are disabled on the first page and the forward
      buttons from the last page on, where they would not move. */
  function Nav(page: int, totalPages: int): (n: NavTargets)
    ensures 1 <= page <= totalPages ==>
      && 1 <= n.first <= totalPages && 1 <= n.prev <= totalPages
      && 1 <= n.next <= totalPages && 1 <= n.last <= totalPages
    ensures n.first == 1 && n.last == totalPages
    ensures n.backDisabled <==> page == 1
    ensures n.forwardDisabled <==> page >= totalPages
    ensures page >= 1 && !n.backDisabled ==> n.prev == page - 1 && n.first < page
    ensures page >= 1 && n.backDisabled ==> n.first == page && n.prev == page
    ensures !n.forwardDisabled ==> n.next == page + 1 && n.last > page
    ensures page == totalPages ==> n.next == page && n.last == page
  {
    NavTargets(
      first := 1,
      prev := Max(1, page - 1),
      next := Min(totalPages, page + 1),
      last := totalPages,
      backDisabled := page == 1,
      forwardDisabled := page >= totalPages)
  }

  /** `Math.max(1, Math.ceil((totalResults || books.length) / perPage))`:
      the reported total when it is non-zero, else the number of books held,
      counted in pages of `PerPage`; at least one page, and exactly enough
      pages to hold a positive count. */
  function TotalPages(totalResults: int, bookCount: nat): (r: int)
    ensures r >= 1
    ensures var n := if totalResults != 0 then totalResults else bookCount;
      && (n > 0 ==> (r - 1) * PerPage < n <= r * PerPage)
      && (n <= 0 ==> r == 1)
  {
    var n := if totalResults != 0 then totalResults else bookCount;
    // ceil(n / PerPage); Dafny's division by a positive divisor floors
    var pages := -((-n) / PerPage);
    Max(1, pages)
  }

  /** The count is `totalResults || books.length`, not the larger of the
      two: a non-zero total hides a longer list of books held. */
  lemma TotalPagesPrefersReportedTotal()
    ensures TotalPages(1, 40) == 1
    ensures TotalPages(0, 40) == 2
  {
  }
}
