/**
 * The pagination arithmetic of fetchFilteredInvoices and
 * fetchInvoicesPages: pages of six rows, numbered from 1.
 */
module Pagination {

  const ITEMS_PER_PAGE := 6

  /** `Math.ceil(x)`: the least integer not below `x`. */
  function Ceil(x: real): (r: int)
    ensures x <= r as real < x + 1.0
  {
    -((-x).Floor)
  }

  /**
   * `Math.ceil(count / ITEMS_PER_PAGE)` in fetchInvoicesPages: the fewest
   * pages that hold `count` rows.
   */
  function TotalPages(count: nat): (r: nat)
    ensures r * ITEMS_PER_PAGE >= count
    ensures (r - 1) * ITEMS_PER_PAGE < count
  {
    var pages := Ceil(count as real / ITEMS_PER_PAGE as real);
    assert pages as real * 6.0 >= count as real;
    assert (pages - 1) as real * 6.0 < count as real;
    pages
  }

  /** `(currentPage - 1) * ITEMS_PER_PAGE` in fetchFilteredInvoices; no clamping. */
  function Offset(currentPage: int): (r: int)
    ensures r % ITEMS_PER_PAGE == 0 && r / ITEMS_PER_PAGE == currentPage - 1
  {
    (currentPage - 1) * ITEMS_PER_PAGE
  }

  /** Page 1 starts at row 0, each page starts six rows after the one before, pages below 1 start before row 0. */
  lemma OffsetShape(currentPage: int)
    ensures Offset(1) == 0
    ensures Offset(currentPage + 1) == Offset(currentPage) + ITEMS_PER_PAGE
    ensures currentPage <= 0 ==> Offset(currentPage) < 0
  {
  }

  /** No rows gives no pages; 13 rows give 3 pages. */
  lemma TotalPagesExamples()
    ensures TotalPages(0) == 0
    ensures TotalPages(13) == 3
  {
  }

  /**
   * The pages 1 .. TotalPages(count), each the window of ITEMS_PER_PAGE rows
   * from its offset, cover rows 0 .. count - 1: row `k` lies on page
   * k / 6 + 1 and on no other page.
   */
  lemma RowOnExactlyOnePage(count: nat, k: int)
    requires 0 <= k < count
    ensures var p := k / ITEMS_PER_PAGE + 1;
            && 1 <= p <= TotalPages(count)
            && Offset(p) <= k < Offset(p) + ITEMS_PER_PAGE
            && forall q :: Offset(q) <= k < Offset(q) + ITEMS_PER_PAGE ==> q == p
  {
  }

  /** The last page holds at least one row and the page after it holds none. */
  lemma LastPageNonEmpty(count: nat)
    requires count > 0
    ensures Offset(TotalPages(count)) < count <= Offset(TotalPages(count) + 1)
  {
  }
}
