/** Pagination of the search results (scripts/search.js `updateSearchResults` and
    `renderPagination`): ten products a page, the slice shown for a page, and the
    first/previous/next/last buttons with the page each one asks for. */
module Pagination {
  import opened Seqs
  import opened Urls
  import opened Search

  const ITEMS_PER_PAGE: nat := 10

  function Min(a: int, b: int): int {
    if a <= b then a else b
  }

  /** `Math.ceil(totalItems / ITEMS_PER_PAGE)`. */
  function TotalPages(n: nat): (t: nat)
    ensures t * ITEMS_PER_PAGE >= n
    ensures n > 0 ==> (t - 1) * ITEMS_PER_PAGE < n
    ensures t == 0 <==> n == 0
  {
    (n + ITEMS_PER_PAGE - 1) / ITEMS_PER_PAGE
  }

  /** Where page `page` starts, against the number of pages of `n` items. */
  lemma PageStart(n: nat, page: int)
    requires page >= 1
    ensures (page - 1) * ITEMS_PER_PAGE >= n <==> page > TotalPages(n)
    ensures page < TotalPages(n) ==> page * ITEMS_PER_PAGE < n
  {
    var t := TotalPages(n);
    if page > t {
      assert (page - 1) * ITEMS_PER_PAGE >= t * ITEMS_PER_PAGE;
    } else {
      assert (page - 1) * ITEMS_PER_PAGE <= (t - 1) * ITEMS_PER_PAGE;
    }
    if page < t {
      assert page * ITEMS_PER_PAGE <= (t - 1) * ITEMS_PER_PAGE;
    }
  }

  /** `filteredProducts.slice((page - 1) * ITEMS_PER_PAGE, (page - 1) * ITEMS_PER_PAGE + ITEMS_PER_PAGE)`;
      `slice` clamps both ends to the length. */
  function PageSlice<T>(items: seq<T>, page: int): (r: seq<T>)
    requires page >= 1
    ensures |r| <= ITEMS_PER_PAGE
    ensures forall i :: 0 <= i < |r| ==>
              (page - 1) * ITEMS_PER_PAGE + i < |items| && r[i] == items[(page - 1) * ITEMS_PER_PAGE + i]
    ensures r == [] <==> page > TotalPages(|items|)
    ensures page < TotalPages(|items|) ==> |r| == ITEMS_PER_PAGE
  {
    PageStart(|items|, page);
    var start := (page - 1) * ITEMS_PER_PAGE;
    items[Min(start, |items|)..Min(start + ITEMS_PER_PAGE, |items|)]
  }

  /** Pages `1..k` shown one after the other. */
  function Pages<T>(items: seq<T>, k: nat): seq<T> {
    if k == 0 then [] else Pages(items, k - 1) + PageSlice(items, k)
  }

  /** The first `k` pages are the first `10 k` items (or all of them). */
  lemma {:induction false} PagesArePrefix<T>(items: seq<T>, k: nat)
    ensures Pages(items, k) == items[..Min(k * ITEMS_PER_PAGE, |items|)]
  {
    if k > 0 {
      PagesArePrefix(items, k - 1);
      var a := Min((k - 1) * ITEMS_PER_PAGE, |items|);
      var b := Min(k * ITEMS_PER_PAGE, |items|);
      var page := PageSlice(items, k);
      assert page == items[a..b];
      assert items[..a] + items[a..b] == items[..b];
    }
  }

  /** Showing every page in turn shows the whole list, each product once and in order. */
  lemma AllPagesRebuildList<T>(items: seq<T>)
    ensures Pages(items, TotalPages(|items|)) == items
  {
    PagesArePrefix(items, TotalPages(|items|));
  }

  /** A pagination button: the page it asks for and whether it is disabled. */
  datatype Button = Button(target: int, disabled: bool)

  /** The four buttons `renderPagination` draws around "Page x of y". */
  datatype Controls = Controls(first: Button, prev: Button, next: Button, last: Button, totalPages: nat)

  /** `renderPagination`: nothing is drawn for a single page or none; otherwise first and
      previous are disabled on page 1, next and last on the last page. */
  function PaginationControls(totalItems: nat, currentPage: int): Option<Controls> {
    var totalPages := TotalPages(totalItems);
    if totalPages <= 1 then None
    else Some(Controls(
      Button(1, currentPage == 1),
      Button(currentPage - 1, currentPage == 1),
      Button(currentPage + 1, currentPage == totalPages),
      Button(totalPages, currentPage == totalPages),
      totalPages))
  }

  /** The buttons appear exactly when the results do not fit on one page. */
  lemma ControlsShownForSeveralPages(totalItems: nat, currentPage: int)
    ensures PaginationControls(totalItems, currentPage).Some? <==> totalItems > ITEMS_PER_PAGE
  {
  }

  predicate Leads(b: Button, currentPage: int, totalPages: nat) {
    1 <= b.target <= totalPages && b.target != currentPage
  }

  /** On a page in range, every enabled button leads to another page in range, and a
      button is disabled exactly when the page it would lead to is the current one or
      out of range. */
  lemma EnabledButtonsLeadElsewhere(totalItems: nat, currentPage: int)
    requires 1 <= currentPage <= TotalPages(totalItems)
    requires PaginationControls(totalItems, currentPage).Some?
    ensures var c := PaginationControls(totalItems, currentPage).value;
      && c.totalPages == TotalPages(totalItems)
      && (!c.first.disabled <==> Leads(c.first, currentPage, c.totalPages))
      && (!c.prev.disabled <==> Leads(c.prev, currentPage, c.totalPages))
      && (!c.next.disabled <==> Leads(c.next, currentPage, c.totalPages))
      && (!c.last.disabled <==> Leads(c.last, currentPage, c.totalPages))
  {
  }

  /** On a page in range, an enabled button leads to a page that shows some products. */
  lemma EnabledButtonsShowProducts<T>(items: seq<T>, currentPage: int, b: Button)
    requires 1 <= currentPage <= TotalPages(|items|)
    requires PaginationControls(|items|, currentPage).Some?
    requires var c := PaginationControls(|items|, currentPage).value;
      b == c.first || b == c.prev || b == c.next || b == c.last
    requires !b.disabled
    ensures b.target >= 1 && PageSlice(items, b.target) != []
  {
    EnabledButtonsLeadElsewhere(|items|, currentPage);
  }

  /** The click handler of an enabled button: `updateURLParams({ page: page })`. */
  method GoToPage(url: Url, page: int) returns (r: Url)
    ensures ReadPage(r) == Some(page)
    ensures forall k :: k != "page" ==> Untouched(url, r, k)
  {
    var ps := [("page", Number(page))];
    r := UpdateUrlParams(url, ps);
    forall k | k != "page" ensures Untouched(url, r, k) {
      assert !Mentions(ps, k);
    }
    assert Applied(r, ps[0].0, ps[0].1);
    PageReadsBack(r, page);
  }
}
