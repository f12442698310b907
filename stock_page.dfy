/**
 * The stock page: the product cards fetched once on mount, the search box
 * that filters them, and a pager of 8 cards per page. Every search sends the
 * pager back to page 1, so the page shown is never past the filtered list.
 */
module StockPage {
  import opened Paging
  import opened ProductActions
  import opened ProductSearch

  const PageSize: nat := 8

  class Page {
    var products: seq<ProductRow>
    var filteredProducts: seq<ProductRow>
    var search: string
    var loading: bool
    var currentPage: int

    /**
     * The page counter is at least 1 and, past page 1, still has cards to show;
     * while the mount fetch is pending both lists are empty.
     */
    ghost predicate Valid()
      reads this
    {
      && currentPage >= 1
      && (currentPage == 1 || (currentPage - 1) * PageSize < |filteredProducts|)
      && (loading ==> products == [] && filteredProducts == [])
    }

    /** The state on mount, before the fetch has answered. */
    constructor()
      ensures Valid()
      ensures products == [] && filteredProducts == [] && search == ""
      ensures loading && currentPage == 1
    {
      products, filteredProducts, search := [], [], "";
      loading, currentPage := true, 1;
    }

    /** `Math.ceil(filteredProducts.length / 8)`. */
    function TotalPages(): (r: nat)
      reads this
      ensures r * PageSize >= |filteredProducts|
      ensures r == 0 || (r - 1) * PageSize < |filteredProducts|
      ensures r == 0 <==> filteredProducts == []
    {
      CeilDiv(|filteredProducts|, PageSize)
    }

    /** The pager is drawn only when there is more than one page, i.e. more than 8 filtered cards. */
    function PagerVisible(): (r: bool)
      reads this
      ensures r <==> |filteredProducts| > PageSize
    {
      MoreThanOnePage(|filteredProducts|, PageSize)
    }

    /** The cards drawn on the current page: never empty unless no product matches. */
    function CurrentProducts(): (r: seq<ProductRow>)
      reads this
      requires Valid()
      ensures |r| <= PageSize
      ensures r == filteredProducts[Min((currentPage - 1) * PageSize, |filteredProducts|)..Min(currentPage * PageSize, |filteredProducts|)]
      ensures r == [] <==> filteredProducts == []
    {
      PageNonEmptyIff(filteredProducts, currentPage, PageSize);
      PageSlice(filteredProducts, currentPage, PageSize)
    }

    /** The mount fetch: both lists become the store's listing. */
    method FetchProducts(data: seq<ProductRow>)
      requires Valid() && loading
      modifies this
      ensures Valid()
      ensures products == data && filteredProducts == data && !loading
      ensures search == old(search) && currentPage == 1
    {
      products, filteredProducts, loading := data, data, false;
    }

    /** A keystroke in the search box: filter the full list and go back to page 1. */
    method HandleSearch(query: string)
      requires Valid()
      modifies this
      ensures Valid()
      ensures search == query && filteredProducts == Search(products, query) && currentPage == 1
      ensures CurrentProducts() == filteredProducts[..Min(PageSize, |filteredProducts|)]
      ensures products == old(products) && loading == old(loading)
    {
      search := query;
      filteredProducts := Search(products, query);
      currentPage := 1;
    }

    /** "Précédent": drawn only with the pager, disabled on page 1, steps back but not below 1. */
    method Previous()
      requires Valid()
      modifies `currentPage
      ensures Valid()
      ensures old(PagerVisible()) && old(currentPage) != 1 ==> currentPage == Max(old(currentPage) - 1, 1)
      ensures !(old(PagerVisible()) && old(currentPage) != 1) ==> currentPage == old(currentPage)
    {
      if PagerVisible() && currentPage != 1 {
        currentPage := Max(currentPage - 1, 1);
      }
    }

    /** "Suivant": drawn only with the pager, disabled on the last page, steps on but not past the last page. */
    method Next()
      requires Valid()
      modifies `currentPage
      ensures Valid()
      ensures old(PagerVisible()) && old(currentPage) != old(TotalPages()) ==> currentPage == Min(old(currentPage) + 1, old(TotalPages()))
      ensures !(old(PagerVisible()) && old(currentPage) != old(TotalPages())) ==> currentPage == old(currentPage)
    {
      if PagerVisible() && currentPage != TotalPages() {
        currentPage := Min(currentPage + 1, TotalPages());
      }
    }
  }

  /** In any state the page keeps, the page number is between 1 and the page count (or 1 when nothing matches). */
  lemma PageWithinCount(currentPage: int, filtered: nat)
    requires currentPage >= 1
    requires currentPage == 1 || (currentPage - 1) * PageSize < filtered
    ensures currentPage <= Max(1, CeilDiv(filtered, PageSize))
  {
    var t := CeilDiv(filtered, PageSize);
    if currentPage > 1 {
      assert (currentPage - 1) * PageSize < t * PageSize;
    }
  }
}
