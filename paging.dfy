/**
 * The integer arithmetic of Kohana_Paginate: input clean-up in page(),
 * the row offset of a page, the page count computed by execute(), and
 * the clamped previous/next page numbers.
 */
module Paging {

  /** A PHP argument as seen by is_numeric: an integer, or anything else. */
  datatype Numeric = Numeric(n: int) | NonNumeric

  /** Stored items-per-page: a numeric argument is kept as given, anything else becomes 0. */
  function SanitizeItemsPerPage(itemsPerPage: Numeric): (r: int)
    ensures itemsPerPage.Numeric? ==> r == itemsPerPage.n
    ensures itemsPerPage.NonNumeric? ==> r == 0
  {
    match itemsPerPage
    case Numeric(n) => n
    case NonNumeric => 0
  }

  /** Stored page number: a numeric page of at least 1 is kept, anything else becomes 1. */
  function SanitizePage(page: Numeric): (r: int)
    ensures r >= 1
    ensures page.Numeric? && page.n >= 1 ==> r == page.n
    ensures !(page.Numeric? && page.n >= 1) ==> r == 1
  {
    if page.NonNumeric? then 1
    else if page.n < 1 then 1
    else page.n
  }

  /** Sanitising an already sanitised page number changes nothing. */
  lemma SanitizePageIdempotent(page: Numeric)
    ensures SanitizePage(Numeric(SanitizePage(page))) == SanitizePage(page)
  {
  }

  /** Zero-based index of the first row shown on `page` when each page holds `itemsPerPage` rows. */
  function Offset(page: int, itemsPerPage: int): (r: int)
    ensures page == 1 ==> r == 0
    ensures itemsPerPage == 0 ==> r == 0
  {
    (page - 1) * itemsPerPage
  }

  /** Consecutive pages are adjacent windows: page p + 1 starts where page p ends. */
  lemma OffsetNextPage(page: int, itemsPerPage: int)
    ensures Offset(page + 1, itemsPerPage) == Offset(page, itemsPerPage) + itemsPerPage
  {
  }

  /** A sanitised page with a non-negative page size never starts before row 0. */
  lemma OffsetNonNegative(page: int, itemsPerPage: int)
    requires page >= 1 && itemsPerPage >= 0
    ensures Offset(page, itemsPerPage) >= 0
  {
  }

  /** Every row index i >= 0 lies on exactly page i / n + 1 when pages hold n >= 1 rows. */
  lemma RowOnPage(i: int, itemsPerPage: int)
    requires i >= 0 && itemsPerPage >= 1
    ensures var p := i / itemsPerPage + 1;
      p >= 1 && Offset(p, itemsPerPage) <= i < Offset(p, itemsPerPage) + itemsPerPage
  {
  }

  /**
   * Number of pages computed by execute(): the ceiling of total / itemsPerPage when
   * itemsPerPage is positive, and 0 otherwise. It is the least r with r * itemsPerPage >= total.
   */
  function PageCount(total: int, itemsPerPage: int): (r: int)
    ensures itemsPerPage <= 0 ==> r == 0
    ensures itemsPerPage > 0 ==> (r - 1) * itemsPerPage < total <= r * itemsPerPage
  {
    if itemsPerPage > 0 then
      (total + itemsPerPage - 1) / itemsPerPage
    else 0
  }

  /** The bounds of PageCount determine it: no other integer satisfies them. */
  lemma PageCountUnique(total: int, itemsPerPage: int, r: int)
    requires itemsPerPage > 0
    requires (r - 1) * itemsPerPage < total <= r * itemsPerPage
    ensures r == PageCount(total, itemsPerPage)
  {
  }

  /**
   * With at least one row and a positive page size, the last page holds the last row:
   * it starts before row total - 1 and its window reaches row total - 1.
   */
  lemma LastPageHoldsLastRow(total: int, itemsPerPage: int)
    requires total >= 1 && itemsPerPage >= 1
    ensures PageCount(total, itemsPerPage) >= 1
    ensures var last := PageCount(total, itemsPerPage);
      Offset(last, itemsPerPage) < total <= Offset(last, itemsPerPage) + itemsPerPage
  {
  }

  /** A page past the page count starts at or after row total: it shows no row. */
  lemma PagePastCountIsEmpty(total: int, itemsPerPage: int, page: int)
    requires itemsPerPage >= 1
    requires page > PageCount(total, itemsPerPage)
    ensures Offset(page, itemsPerPage) >= total
  {
  }

  /**
   * get_previous_page: page - 1, raised to 1 when below 1, otherwise lowered to
   * pages - 1 when it reaches pages (which yields -1 when pages is 0).
   */
  function PreviousPage(page: int, pages: int): (r: int)
    ensures page <= 1 ==> r == 1
    ensures 2 <= page <= pages ==> r == page - 1
    ensures page >= 2 && page > pages ==> r == pages - 1
    ensures r == 1 || r <= pages - 1
    ensures r < 1 <==> page >= 2 && pages <= 1
  {
    var val := page - 1;
    if val < 1 then 1
    else if val >= pages then pages - 1
    else val
  }

  /**
   * get_next_page: page + 1, lowered to pages when it exceeds pages.
   */
  function NextPage(page: int, pages: int): (r: int)
    ensures r <= pages
    ensures r <= page + 1
    ensures r == page + 1 <==> page < pages
    ensures page >= pages ==> r == pages
  {
    var val := page + 1;
    if val > pages then pages else val
  }

  /** Inside the page range, going back then forward returns to the same page. */
  lemma NextAfterPrevious(page: int, pages: int)
    requires 2 <= page <= pages
    ensures NextPage(PreviousPage(page, pages), pages) == page
  {
  }

  /** Inside the page range, going forward then back returns to the same page. */
  lemma PreviousAfterNext(page: int, pages: int)
    requires 1 <= page < pages
    ensures PreviousPage(NextPage(page, pages), pages) == page
  {
  }

  /**
   * With no pages (before execute, or items-per-page 0), page 1 still has previous
   * page 1, but every later page has previous page -1.
   */
  lemma PreviousPageWithoutPages(page: int)
    requires page >= 1
    ensures PreviousPage(page, 0) == if page == 1 then 1 else -1
  {
  }
}
