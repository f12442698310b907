/**
 * The sales-history table: the sale rows it is given, shown 7 per page, with
 * a "next" that moves on only while there is a later page and a "previous"
 * that moves back only from page 2 onwards.
 */
module SalesHistoryPager {
  import opened Paging
  import opened ProductActions

  const PageSize: nat := 7

  class Pager {
    var sales: seq<SaleRow>
    var currentPage: int
    var loading: bool

    ghost predicate Valid()
      reads this
    {
      currentPage >= 1
    }

    /** The page counter lies within the pages of the current rows (page 1 when there are none). */
    ghost predicate InRange()
      reads this
    {
      1 <= currentPage <= Max(1, LastPage())
    }

    /** Mounting with the rows passed in: page 1, showing the loading line. */
    constructor(rows: seq<SaleRow>)
      ensures Valid() && InRange()
      ensures sales == rows && currentPage == 1 && loading
    {
      sales, currentPage, loading := rows, 1, true;
    }

    /** `Math.ceil(sales.length / 7)`, the number shown after "Page p /". */
    function LastPage(): (r: nat)
      reads this
      ensures r * PageSize >= |sales|
      ensures r == 0 || (r - 1) * PageSize < |sales|
      ensures r == 0 <==> sales == []
    {
      CeilDiv(|sales|, PageSize)
    }

    /** The rows drawn on the current page; when empty the table says that no sale is recorded. */
    function CurrentSales(): (r: seq<SaleRow>)
      reads this
      requires Valid()
      ensures |r| <= PageSize
      ensures r == sales[Min((currentPage - 1) * PageSize, |sales|)..Min(currentPage * PageSize, |sales|)]
      ensures r == [] <==> (currentPage - 1) * PageSize >= |sales|
    {
      PageNonEmptyIff(sales, currentPage, PageSize);
      PageSlice(sales, currentPage, PageSize)
    }

    /** A new `sales` prop: the loading line comes back, the page counter is kept. */
    method SetSales(rows: seq<SaleRow>)
      requires Valid()
      modifies this
      ensures Valid()
      ensures sales == rows && loading && currentPage == old(currentPage)
    {
      sales, loading := rows, true;
    }

    /** The 500 ms timer after a prop change has fired. */
    method FinishLoading()
      modifies `loading
      ensures !loading
    {
      loading := false;
    }

    /**
     * A click on "Suivant": the button is drawn only once loading is over, and
     * `nextPage` moves one page on while the current page is before the last one.
     */
    method NextPage()
      requires Valid()
      modifies `currentPage
      ensures Valid()
      ensures !loading && old(currentPage) < LastPage() ==> currentPage == old(currentPage) + 1
      ensures !(!loading && old(currentPage) < LastPage()) ==> currentPage == old(currentPage)
      ensures old(InRange()) ==> InRange()
      ensures old(InRange()) && sales != [] ==> CurrentSales() != []
    {
      if !loading && currentPage < LastPage() {
        currentPage := currentPage + 1;
      }
    }

    /**
     * A click on "Précédent": the button is drawn only once loading is over, and
     * `prevPage` moves one page back from page 2 onwards.
     */
    method PrevPage()
      requires Valid()
      modifies `currentPage
      ensures Valid()
      ensures !loading && old(currentPage) > 1 ==> currentPage == old(currentPage) - 1
      ensures !(!loading && old(currentPage) > 1) ==> currentPage == old(currentPage)
      ensures old(InRange()) ==> InRange()
    {
      if !loading && currentPage > 1 {
        currentPage := currentPage - 1;
      }
    }
  }

  /** Within range, a page of a non-empty history always has rows to show; with no rows only page 1 is reachable and it is empty. */
  lemma InRangePageHasRows(sales: seq<SaleRow>, page: int)
    requires 1 <= page <= Max(1, CeilDiv(|sales|, PageSize))
    ensures PageSlice(sales, page, PageSize) == [] <==> sales == []
    ensures sales == [] ==> page == 1
  {
    PageNonEmptyIff(sales, page, PageSize);
    var t := CeilDiv(|sales|, PageSize);
    if sales != [] {
      assert (page - 1) * PageSize <= (t - 1) * PageSize;
    }
  }

  /** Once the rows are shown, the counter stays in range whatever sequence of next and previous clicks is applied to a fixed list of rows. */
  method ClickThrough(rows: seq<SaleRow>, clicks: seq<bool>) returns (page: int, shown: seq<SaleRow>)
    ensures 1 <= page <= Max(1, CeilDiv(|rows|, PageSize))
    ensures shown == PageSlice(rows, page, PageSize)
    ensures shown == [] <==> rows == []
  {
    var pager := new Pager(rows);
    pager.FinishLoading();
    for i := 0 to |clicks|
      invariant pager.Valid() && pager.InRange() && pager.sales == rows
    {
      if clicks[i] {
        pager.NextPage();
      } else {
        pager.PrevPage();
      }
    }
    page, shown := pager.currentPage, pager.CurrentSales();
    InRangePageHasRows(rows, page);
  }
}
