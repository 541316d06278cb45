/**
 * The pagination widget: the window of page numbers it shows and its
 * Prev/Next buttons.
 */
module Pagination {

  /** An entry of the page list: a page number or the "..." marker. */
  datatype PageItem = Page(number: int) | Ellipsis

  /** At most this many entries are shown. */
  const MaxEntries: nat := 5

  /** Numeric entries appear in strictly increasing order. */
  predicate NumbersIncreasing(pages: seq<PageItem>) {
    forall i, j :: 0 <= i < j < |pages| && pages[i].Page? && pages[j].Page? ==>
      pages[i].number < pages[j].number
  }

  /**
   * No page is hidden silently: two neighbouring numbers are consecutive
   * pages, and a "..." stands between two numbers that skip at least one page.
   */
  predicate GapsMarked(pages: seq<PageItem>) {
    && (forall k :: 0 <= k < |pages| - 1 && pages[k].Page? && pages[k + 1].Page? ==>
          pages[k + 1].number == pages[k].number + 1)
    && (forall k :: 0 <= k < |pages| && pages[k].Ellipsis? ==>
          0 < k < |pages| - 1 && pages[k - 1].Page? && pages[k + 1].Page?
          && pages[k + 1].number >= pages[k - 1].number + 2)
  }

  /** All pages `1..totalPages`, in order. */
  function AllPages(totalPages: int): (pages: seq<PageItem>)
    ensures |pages| == if totalPages > 0 then totalPages else 0
    ensures forall k :: 0 <= k < |pages| ==> pages[k] == Page(k + 1)
  {
    if totalPages <= 0 then [] else AllPages(totalPages - 1) + [Page(totalPages)]
  }

  /** The window `getPageNumbers` shows for the given current and total page counts. */
  function PageNumbers(currentPage: int, totalPages: int): (pages: seq<PageItem>)
    ensures |pages| <= MaxEntries
    ensures totalPages <= MaxEntries ==> forall k :: 0 <= k < |pages| ==> pages[k] == Page(k + 1)
    ensures totalPages > MaxEntries ==> |pages| == MaxEntries && Ellipsis in pages
    ensures totalPages <= 0 ==> pages == []
    ensures totalPages >= 1 ==> |pages| >= 1 && pages[0] == Page(1) && pages[|pages| - 1] == Page(totalPages)
    ensures 1 <= currentPage <= totalPages ==> Page(currentPage) in pages
    ensures forall k :: 0 <= k < |pages| && pages[k].Page? ==> 1 <= pages[k].number <= totalPages
  {
    if totalPages <= MaxEntries then
      var all := AllPages(totalPages);
      assert 1 <= currentPage <= totalPages ==> all[currentPage - 1] == Page(currentPage);
      all
    else if currentPage <= 3 then
      [Page(1), Page(2), Page(3), Ellipsis, Page(totalPages)]
    else if currentPage >= totalPages - 2 then
      [Page(1), Ellipsis, Page(totalPages - 2), Page(totalPages - 1), Page(totalPages)]
    else
      [Page(1), Ellipsis, Page(currentPage), Ellipsis, Page(totalPages)]
  }

  /** Numeric entries of the window are strictly increasing. */
  lemma PageNumbersIncreasing(currentPage: int, totalPages: int)
    ensures NumbersIncreasing(PageNumbers(currentPage, totalPages))
  {
    var pages := PageNumbers(currentPage, totalPages);
    if totalPages <= MaxEntries {
      assert forall k :: 0 <= k < |pages| ==> pages[k] == Page(k + 1);
    } else {
      forall i, j | 0 <= i < j < |pages| && pages[i].Page? && pages[j].Page?
        ensures pages[i].number < pages[j].number
      {
        assert i < 5 && j < 5;
      }
    }
  }

  /** Every page missing from the window sits behind a "..." marker. */
  lemma PageNumbersGapsMarked(currentPage: int, totalPages: int)
    ensures GapsMarked(PageNumbers(currentPage, totalPages))
  {
    var pages := PageNumbers(currentPage, totalPages);
    if totalPages <= MaxEntries {
      assert forall k :: 0 <= k < |pages| ==> pages[k] == Page(k + 1);
    }
  }

  /** `getPageNumbers`: pushes every page when there are at most five, else one of three fixed shapes. */
  method GetPageNumbers(currentPage: int, totalPages: int) returns (pages: seq<PageItem>)
    ensures pages == PageNumbers(currentPage, totalPages)
  {
    pages := [];
    if totalPages <= MaxEntries {
      var i := 1;
      while i <= totalPages
        invariant 1 <= i
        invariant totalPages >= 0 ==> i <= totalPages + 1
        invariant totalPages < 0 ==> i == 1
        invariant pages == AllPages(i - 1)
      {
        pages := pages + [Page(i)];
        i := i + 1;
      }
    } else {
      if currentPage <= 3 {
        pages := pages + [Page(1), Page(2), Page(3), Ellipsis, Page(totalPages)];
      } else if currentPage >= totalPages - 2 {
        pages := pages + [Page(1), Ellipsis, Page(totalPages - 2), Page(totalPages - 1), Page(totalPages)];
      } else {
        pages := pages + [Page(1), Ellipsis, Page(currentPage), Ellipsis, Page(totalPages)];
      }
    }
  }

  /** A Prev or Next button: whether it is disabled and the page it requests. */
  datatype NavButton = NavButton(disabled: bool, target: int)

  function PrevButton(currentPage: int): (b: NavButton)
    ensures b.disabled <==> currentPage == 1
    ensures b.target + 1 == currentPage
  {
    NavButton(currentPage == 1, currentPage - 1)
  }

  function NextButton(currentPage: int, totalPages: int): (b: NavButton)
    ensures b.disabled <==> currentPage == totalPages
    ensures b.target - 1 == currentPage
  {
    NavButton(currentPage == totalPages, currentPage + 1)
  }

  /** From a page in range, an enabled button always requests a page in range. */
  lemma NavigationStaysInRange(currentPage: int, totalPages: int)
    requires 1 <= currentPage <= totalPages
    ensures !PrevButton(currentPage).disabled ==> 1 <= PrevButton(currentPage).target <= totalPages
    ensures !NextButton(currentPage, totalPages).disabled ==>
      1 <= NextButton(currentPage, totalPages).target <= totalPages
  {
  }

  /** With no pages at all the Next button stays enabled on page 1 and requests page 2. */
  lemma NextEnabledWithoutPages()
    ensures !NextButton(1, 0).disabled && NextButton(1, 0).target == 2
    ensures PageNumbers(1, 0) == []
  {
  }
}
