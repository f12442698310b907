/**
 * The invoice history page: the invoices fetched once on mount, shown 5 per
 * page, with a "previous" clamped at page 1 and a "next" that moves on only
 * while invoices remain past the current page.
 */
module InvoicesPage {
  import opened Paging

  /** One line of an invoice: the product sold, how many, and the line total. */
  datatype InvoiceLine = InvoiceLine(productName: string, quantity: int, totalPrice: int)

  datatype Invoice = Invoice(id: string, totalAmount: int, purchaseTotal: int, createdAt: string, sales: seq<InvoiceLine>)

  const PageSize: nat := 5

  class Page {
    var invoices: seq<Invoice>
    var currentPage: int
    var isLoading: bool

    /** Past page 1 the page always has invoices to show; while loading nothing has arrived. */
    ghost predicate Valid()
      reads this
    {
      && currentPage >= 1
      && (currentPage == 1 || (currentPage - 1) * PageSize < |invoices|)
      && (isLoading ==> invoices == [] && currentPage == 1)
    }

    /** The state on mount, before the history has been fetched. */
    constructor()
      ensures Valid()
      ensures invoices == [] && currentPage == 1 && isLoading
    {
      invoices, currentPage, isLoading := [], 1, true;
    }

    /** The invoices drawn on the current page. */
    function CurrentInvoices(): (r: seq<Invoice>)
      reads this
      requires Valid()
      ensures |r| <= PageSize
      ensures r == invoices[Min((currentPage - 1) * PageSize, |invoices|)..Min(currentPage * PageSize, |invoices|)]
      ensures r == [] <==> invoices == []
    {
      PageNonEmptyIff(invoices, currentPage, PageSize);
      PageSlice(invoices, currentPage, PageSize)
    }

    /** "Suivant" is disabled exactly when the current page reaches the end of the list. */
    function NextDisabled(): (r: bool)
      reads this
      requires Valid()
      ensures invoices != [] ==> (r <==> currentPage == CeilDiv(|invoices|, PageSize))
      ensures invoices == [] ==> r
    {
      if invoices != [] then
        LastPageIsWhereNextStops(|invoices|, currentPage);
        currentPage * PageSize >= |invoices|
      else
        currentPage * PageSize >= |invoices|
    }

    /** The mount fetch has answered with the invoice history. */
    method Load(data: seq<Invoice>)
      requires Valid() && isLoading
      modifies this
      ensures Valid()
      ensures invoices == data && currentPage == 1 && !isLoading
    {
      invoices, isLoading := data, false;
    }

    /** The pager is drawn only once the history has arrived and is not empty. */
    predicate PagerDrawn()
      reads this
    {
      !isLoading && invoices != []
    }

    /** "Précédent": drawn with the list, disabled on page 1, one page back but never below page 1. */
    method Previous()
      requires Valid()
      modifies `currentPage
      ensures Valid()
      ensures PagerDrawn() && old(currentPage) != 1 ==> currentPage == Max(old(currentPage) - 1, 1)
      ensures !(PagerDrawn() && old(currentPage) != 1) ==> currentPage == old(currentPage)
    {
      if PagerDrawn() && currentPage != 1 {
        currentPage := Max(currentPage - 1, 1);
      }
    }

    /** "Suivant": drawn with the list, one page on while invoices remain after this page, otherwise nothing. */
    method Next()
      requires Valid()
      modifies `currentPage
      ensures Valid()
      ensures PagerDrawn() && old(currentPage) * PageSize < |invoices| ==> currentPage == old(currentPage) + 1
      ensures !(PagerDrawn() && old(currentPage) * PageSize < |invoices|) ==> currentPage == old(currentPage)
      ensures invoices != [] ==> currentPage <= CeilDiv(|invoices|, PageSize)
    {
      if PagerDrawn() && currentPage * PageSize < |invoices| {
        currentPage := currentPage + 1;
      }
      if invoices != [] {
        LastPageIsWhereNextStops(|invoices|, currentPage);
      }
    }
  }

  /**
   * For a page that still has invoices to show, the guard `page * 5 >= length`
   * holds exactly on the last page, `ceil(length / 5)`.
   */
  lemma LastPageIsWhereNextStops(n: nat, page: int)
    requires n > 0 && page >= 1
    requires page == 1 || (page - 1) * PageSize < n
    ensures page * PageSize >= n <==> page == CeilDiv(n, PageSize)
    ensures page <= CeilDiv(n, PageSize)
  {
    var t := CeilDiv(n, PageSize);
    assert (page - 1) * PageSize < n;
    assert (page - 1) * PageSize < t * PageSize;
    if page * PageSize >= n {
      assert (t - 1) * PageSize < page * PageSize;
    } else {
      assert page * PageSize < t * PageSize;
    }
  }

  /** Pages 1 to `ceil(length / 5)`, read one after the other, are the invoice list itself. */
  lemma InvoicePagesCoverHistory(invoices: seq<Invoice>)
    ensures Pages(invoices, PageSize, CeilDiv(|invoices|, PageSize)) == invoices
    ensures forall p :: 1 <= p <= CeilDiv(|invoices|, PageSize) ==> PageSlice(invoices, p, PageSize) != []
  {
    AllPagesCoverList(invoices, PageSize);
    forall p | 1 <= p <= CeilDiv(|invoices|, PageSize)
      ensures PageSlice(invoices, p, PageSize) != []
    {
      PageNonEmptyIff(invoices, p, PageSize);
      assert (p - 1) * PageSize <= (CeilDiv(|invoices|, PageSize) - 1) * PageSize;
    }
  }
}
