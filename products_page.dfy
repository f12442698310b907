/**
 * The product management page: the product list fetched from the store, the
 * search box that filters it, and a pager of 10 products per page whose page
 * counter a search does NOT reset.
 */
module ProductsPage {
  import opened Paging
  import opened ProductActions
  import opened ProductSearch
  import opened Common

  const PageSize: nat := 10

  class Page {
    var products: seq<ProductRow>
    var filteredProducts: seq<ProductRow>
    var search: string
    var loading: bool
    var currentPage: int

    ghost predicate Valid()
      reads this
    {
      currentPage >= 1
    }

    /** The state on mount, before the first fetch has answered. */
    constructor()
      ensures Valid()
      ensures products == [] && filteredProducts == [] && search == ""
      ensures loading && currentPage == 1
    {
      products, filteredProducts, search := [], [], "";
      loading, currentPage := true, 1;
    }

    /** `Math.ceil(filteredProducts.length / 10)`. */
    function TotalPages(): (r: nat)
      reads this
      ensures r * PageSize >= |filteredProducts|
      ensures r == 0 || (r - 1) * PageSize < |filteredProducts|
      ensures r == 0 <==> filteredProducts == []
    {
      CeilDiv(|filteredProducts|, PageSize)
    }

    /** The pager is drawn only when there is more than one page, i.e. more than 10 filtered products. */
    function PagerVisible(): (r: bool)
      reads this
      ensures r <==> |filteredProducts| > PageSize
    {
      MoreThanOnePage(|filteredProducts|, PageSize)
    }

    /** The products drawn on the current page. */
    function CurrentProducts(): (r: seq<ProductRow>)
      reads this
      requires Valid()
      ensures |r| <= PageSize
      ensures r == filteredProducts[Min((currentPage - 1) * PageSize, |filteredProducts|)..Min(currentPage * PageSize, |filteredProducts|)]
      ensures r == [] <==> (currentPage - 1) * PageSize >= |filteredProducts|
    {
      PageNonEmptyIff(filteredProducts, currentPage, PageSize);
      PageSlice(filteredProducts, currentPage, PageSize)
    }

    /** The fetch: both lists become the store's listing; the search text and the page are kept. */
    method FetchProducts(data: seq<ProductRow>)
      requires Valid()
      modifies this
      ensures Valid()
      ensures products == data && filteredProducts == data && !loading
      ensures search == old(search) && currentPage == old(currentPage)
    {
      products, filteredProducts, loading := data, data, false;
    }

    /** A keystroke in the search box: filter the full list, keep the page. */
    method HandleSearch(query: string)
      requires Valid()
      modifies this
      ensures Valid()
      ensures search == query && filteredProducts == Search(products, query)
      ensures products == old(products) && loading == old(loading) && currentPage == old(currentPage)
    {
      search := query;
      filteredProducts := Search(products, query);
    }

    /** "Précédent": drawn only with the pager, disabled on page 1, steps back but not below 1. */
    method Previous()
      requires Valid()
      modifies `currentPage
      ensures Valid()
      ensures old(PagerVisible()) && old(currentPage) != 1 ==> currentPage == Max(old(currentPage) - 1, 1)
      ensures !(old(PagerVisible()) && old(currentPage) != 1) ==> currentPage == old(currentPage)
    {
      if PagerVisible() && currentPage != 1 {
        currentPage := Max(currentPage - 1, 1);
      }
    }

    /** "Suivant": drawn only with the pager, disabled on the last page, steps on but not past the last page. */
    method Next()
      requires Valid()
      modifies `currentPage
      ensures Valid()
      ensures old(PagerVisible()) && old(currentPage) != old(TotalPages()) ==> currentPage == Min(old(currentPage) + 1, old(TotalPages()))
      ensures !(old(PagerVisible()) && old(currentPage) != old(TotalPages())) ==> currentPage == old(currentPage)
      ensures old(PagerVisible()) ==> currentPage <= TotalPages() && CurrentProducts() != []
    {
      if PagerVisible() && currentPage != TotalPages() {
        currentPage := Min(currentPage + 1, TotalPages());
      }
    }

    /** Deleting from the page: once confirmed, delete in the store and fetch the listing again. */
    method HandleDeleteProduct(store: Store, id: ProductId, confirmed: bool)
      requires Valid() && store.Valid()
      modifies this, store
      ensures Valid() && store.Valid()
      ensures !confirmed ==> store.products == old(store.products) && products == old(products) && filteredProducts == old(filteredProducts)
      ensures confirmed ==> store.products == old(store.products) - {id} && id !in store.products
      ensures confirmed ==> |products| == |store.products| && filteredProducts == products
      ensures confirmed ==> forall row :: row in products ==> row.id in store.products && row.product == store.products[row.id]
      ensures confirmed ==> forall k :: k in store.products ==> exists row :: row in products && row.id == k
      ensures confirmed ==> forall i, j :: 0 <= i < j < |products| ==> products[i].id != products[j].id
      ensures confirmed ==> !loading
      ensures !confirmed ==> loading == old(loading)
      ensures store.sales == old(store.sales) && store.nextId == old(store.nextId)
      ensures currentPage == old(currentPage) && search == old(search)
    {
      if confirmed {
        var _ := store.DeleteProduct(id);
        var rows := store.GetAllProducts();
        FetchProducts(rows);
        forall k | k in store.products ensures exists row :: row in products && row.id == k {
          var i :| 0 <= i < |rows| && rows[i].id == k;
          assert rows[i] in products;
        }
      }
    }
  }

  /** A product whose code and name are the same one-letter string. */
  function Item(id: ProductId, letter: string): ProductRow
  {
    ProductRow(id, Product(letter, letter, 1, 2, 1, "2030-01-01", None))
  }

  /** No product of a list matches the query, so nothing is kept. */
  lemma NoMatchKeepsNothing(products: seq<ProductRow>, query: string)
    requires forall x :: x in products ==> !Matches(x, query)
    ensures Search(products, query) == []
  {
  }

  /**
   * A search that narrows the list strands the pager: with eleven products, after
   * moving to page 2 and searching for the one product named "a", one product
   * matches but page 2 shows nothing and the pager is gone.
   */
  method StrandedPageAfterSearch() returns (shown: seq<ProductRow>, matches: seq<ProductRow>, page: int)
    ensures matches != [] && shown == [] && page == 2
  {
    var b := Item(1, "b");
    var a := Item(0, "a");
    var others := seq(10, _ => b);
    var page0 := new Page();
    page0.FetchProducts([a] + others);
    assert page0.PagerVisible();
    page0.Next();
    assert ToLower("a") == "a" && ToLower("b") == "b";
    assert OccursAt("a", "a", 0);
    assert Matches(a, "a");
    assert !Contains("b", "a");
    assert !Matches(b, "a");
    NoMatchKeepsNothing(others, "a");
    SearchConcat([a], others, "a");
    page0.HandleSearch("a");
    assert page0.filteredProducts == [a];
    shown, matches, page := page0.CurrentProducts(), page0.filteredProducts, page0.currentPage;
  }
}
