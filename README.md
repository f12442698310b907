# Stock and sales app: the product store, the sale ledger and the list pages

This project models the core of a small stock-management web app, in Dafny.
The app keeps a product table and a ledger of sales.

- **The store** (`ProductActions`, `actions.dfy`) holds the server actions as one `Store` object, with the products as a map from id to product and the sales as a sequence in the order they were written:
  - adding, updating and deleting products, under the unique product code;
  - selling from stock: the stock check, the two price snapshots and the decrement;
  - the dashboard figures;
  - the sales history, which joins each sale with its product's name.
- **The per-day summary** (`SalesHistoryDay`, `sales_history_day.dfy`) groups the history by calendar day, with a running total per day and an overall total.
- **The search box** (`ProductSearch`, `search.dfy`) of the products and stock pages is a case-insensitive substring filter over code and name.
- **The list pages** (`ProductsPage`, `StockPage`, `SalesHistoryPager`, `InvoicesPage`) are modelled as objects whose fields are the page's state variables, with methods for the event handlers. Each has its own page size and its own way of moving between pages:
  - the products page: 10 per page, and a search keeps the page;
  - the stock page: 8 per page, and a search goes back to page 1;
  - the sales-history table: 7 per page, with guarded next and previous;
  - the invoice history: 5 per page, with a clamped previous and a next guarded by the list length.
- **Shared arithmetic** (`Paging`, `paging.dfy`) covers `Array.prototype.slice`, the page window and `Math.ceil(n / size)`. `Common` (`common.dfy`) holds `Option`, `Result` and a summation over sequences.

The main results proved:

- **Store:** every action's error cases come in the code's order and leave the store unchanged. Product codes stay unique, and a successful sale never drives stock negative.
- **Dashboard and history:** the dashboard profit is the sum of per-sale margins. The history reports the same grand total as the dashboard, and editing a product never changes the amounts of past sales.
- **Per-day summary:** the day groups partition the sales. Their totals add up to the overall total, and the days are listed in the order first seen.
- **Search:** it keeps exactly the matching products, in order. It ignores the query's case, is idempotent, and keeps everything for an empty query.
- **Paging:**
  - the pages of a list, read in order, are the list itself;
  - on the stock and invoice pages the page shown is never past the end of the list;
  - on the products page a narrowing search can leave the counter on a page that shows nothing, while products do match.

Invoices with several sale lines, as shown on the invoice page, are written by code in `app/utils/actions`, which is not part of this model. The action code modelled sells one product at a time with `addSale`.

Representation choices:
- Product ids are natural numbers issued by a counter and never reused, standing for the database's generated ids.
- Amounts are integers in minor units.
- The time a sale is written is a parameter `now`.
- The calendar day of a timestamp, as `toLocaleDateString` prints it, is a parameter function `dayOf`, because it depends on the locale and the time zone.
- A button that is not drawn, or is disabled, does nothing when clicked. The page methods therefore test the same condition the page uses to draw or disable that button.

## Model

| member | source | states |
|---|---|---|
| ProductActions.Store.GetAllProducts | app/products/actions.tsx:8-26 | lists every product exactly once with its id and current fields, and nothing else |
| ProductActions.Store.AddProduct | app/products/actions.tsx:29-72 | refuses a code already in use, then a sale price not above the purchase price, then a negative quantity, each if and only if its condition holds in that order, changing nothing; otherwise inserts exactly the new product under a fresh id, keeping codes unique and the ledger unchanged |
| ProductActions.Store.UpdateProduct | app/products/actions.tsx:75-104 | succeeds if and only if the id exists and no other product has the new code; it then overwrites every field of that product only, with no price or quantity check; on failure nothing changes |
| ProductActions.Store.DeleteProduct | app/products/actions.tsx:107-117 | succeeds if and only if the id exists; the product is gone afterwards and the ledger is untouched |
| ProductActions.Store.GetProductById | app/products/actions.tsx:120-150 | returns the stored product when the id exists, and the not-found error exactly when it does not |
| ProductActions.Store.AddSale | app/products/actions.tsx:213-251 | unknown product and insufficient stock are refused, each exactly when its condition holds, changing nothing; otherwise appends one sale priced as price_v·q and price_a·q from the product as read, decrements that product's stock by q and changes no other product; the new stock is never negative |
| ProductActions.MessageIdentifiesError | app/products/actions.tsx:43-53 | no two error cases carry the same message, so the message tells which check refused the action |
| ProductActions.Dashboard | app/products/actions.tsx:178-210 | product count and order count are the sizes of the tables; total sales is the sum of sale totals; profit is the sum of per-sale margins (total less purchase); all zero with no sales |
| ProductActions.SaleMovesDashboard | app/products/actions.tsx:227-244 | one successful sale of q units adds price_v·q to total sales, (price_v − price_a)·q to profit and one order, and leaves the product count alone |
| ProductActions.SalesHistory | app/products/actions.tsx:254-273 | one row per sale when every sale's product exists; the empty list when a sale's product is missing |
| ProductActions.HistoryShape | app/products/actions.tsx:256-268 | row j of the history is the j-th newest sale, with its own quantity, amounts and time and its product's current name |
| ProductActions.HistoryTotalMatchesDashboard | app/products/actions.tsx:261-268 | the history's totals add up to the dashboard's total sales |
| ProductActions.HistoryKeepsSnapshots | app/products/actions.tsx:261-268 | editing products never changes the quantity, amounts or time of any history row; only the joined name can change |
| ProductSearch.LowerChar | app/products/page.tsx:68 | an upper-case letter becomes its lower-case partner (code point + 32), and any other character is unchanged; the result is never upper case |
| ProductSearch.ToLower | app/products/page.tsx:68 | lower-cases character by character and keeps the length |
| ProductSearch.Contains | app/products/page.tsx:68-69 | true exactly when the needle occurs at some position of the haystack |
| ProductSearch.Search | app/products/page.tsx:67-70 | keeps exactly the products whose lower-cased code or name contains the lower-cased query, and never more than the input |
| ProductSearch.SearchConcat | app/products/page.tsx:67-70 | filtering keeps the input's order: the filter of a concatenation is the concatenation of the filters |
| ProductSearch.EmptyQueryKeepsAll | app/products/page.tsx:67-70 | the empty query keeps the whole list |
| ProductSearch.SearchIgnoresQueryCase | app/products/page.tsx:67-70 | a query and its lower-case form select the same list |
| ProductSearch.SearchIdempotent | app/products/page.tsx:67-70 | filtering the filtered list again with the same query changes nothing |
| Paging.SliceIndex | app/products/page.tsx:77 | a slice index is clamped into [0, length], counting back from the end when negative |
| Paging.JsSlice | app/products/page.tsx:77 | for 0 ≤ start ≤ end the slice is the elements between the two clamped indices |
| Paging.PageSlice | app/products/page.tsx:75-77 | page p holds at most size items, exactly those at positions (p−1)·size to p·size, and none when (p−1)·size is past the end |
| Paging.CeilDiv | app/products/page.tsx:78 | the smallest number of pages that holds n items; zero exactly for no items |
| Paging.MoreThanOnePage | app/products/page.tsx:148 | `ceil(n / size) > 1` holds exactly when n is more than one page's worth of items |
| Paging.PagesCoverPrefix | app/commandes/page.tsx:38-40 | pages 1 to k, read in order, are exactly the first k·size items |
| Paging.AllPagesCoverList | app/commandes/page.tsx:38-40 | all ceil(n/size) pages, read in order, are the whole list: no gap, no overlap |
| Paging.PageNonEmptyIff | app/components/SelesHostory.tsx:63-80 | page p shows something exactly when (p−1)·size is before the end of the list |
| SalesHistoryDay.GroupSalesByDay | app/components/SalesHistoryDay.tsx:28-39 | one group per day seen, keyed in first-seen order; each group holds exactly that day's sales in input order and their sum as its total |
| SalesHistoryDay.GroupingStep | app/components/SalesHistoryDay.tsx:30-37 | handling one more sale, creating its day's group if needed, then appending and adding, keeps the grouping exact |
| SalesHistoryDay.TotalSalesByMonth | app/components/SalesHistoryDay.tsx:42-44 | the left fold of sale totals from 0 equals the sum of all sale totals |
| SalesHistoryDay.OnDayMembers | app/components/SalesHistoryDay.tsx:31-35 | a sale is in a day's list exactly when it is an input sale made that day |
| SalesHistoryDay.FirstSeenDays | app/components/SalesHistoryDay.tsx:72 | the days listed are distinct and are exactly the days on which some sale was made |
| SalesHistoryDay.SaleInItsDayGroup | app/components/SalesHistoryDay.tsx:30-37 | every input sale is in the group of its own day |
| SalesHistoryDay.GroupHoldsOnlyItsDay | app/components/SalesHistoryDay.tsx:30-37 | a group holds only input sales of its own day |
| SalesHistoryDay.GroupKeysAreSaleDays | app/components/SalesHistoryDay.tsx:29-37 | a day has a group exactly when some sale was made that day, and no group is empty |
| SalesHistoryDay.GroupsPartitionSales | app/components/SalesHistoryDay.tsx:30-37 | summing any per-sale weight group by group, in key order, gives its sum over all sales |
| SalesHistoryDay.GroupTotalsMatchOverallTotal | app/components/SalesHistoryDay.tsx:72-84 | the per-day totals in the table add up to the overall total printed under it |
| SalesHistoryDay.GroupSizesAddUp | app/components/SalesHistoryDay.tsx:30-37 | the groups together hold as many sales as the input: none dropped or doubled |
| SalesHistoryDay.EmptyHistory | app/components/SalesHistoryDay.tsx:28-44 | with no sales there are no groups and the overall total is 0 |
| ProductsPage.Page.constructor | app/products/page.tsx:22-26 | on mount: empty lists, empty search, loading, page 1 |
| ProductsPage.Page.TotalPages | app/products/page.tsx:78 | the fewest pages of 10 that hold the filtered list; zero exactly when nothing is filtered in |
| ProductsPage.Page.PagerVisible | app/products/page.tsx:148 | the pager is drawn exactly when more than 10 products are filtered in |
| ProductsPage.Page.CurrentProducts | app/products/page.tsx:75-77 | at most 10 products, those at positions (p−1)·10 to p·10 of the filtered list; empty exactly when the page starts past the end |
| ProductsPage.Page.FetchProducts | app/products/page.tsx:34-44 | both lists become the fetched listing, loading ends, the search text and the page are kept |
| ProductsPage.Page.HandleSearch | app/products/page.tsx:65-72 | the filtered list becomes the search of the full list, and the page number is NOT reset |
| ProductsPage.Page.Previous | app/products/page.tsx:150-156 | with the pager drawn and not on page 1, moves to max(p−1, 1); otherwise nothing changes |
| ProductsPage.Page.Next | app/products/page.tsx:158-164 | with the pager drawn and not on the last page, moves to min(p+1, last); otherwise nothing changes; after a click with the pager drawn the page is at most the last one and shows products |
| ProductsPage.Page.HandleDeleteProduct | app/products/page.tsx:46-63 | once confirmed, the product is deleted from the store, and both lists become the store's new listing: every remaining product exactly once with its current fields, loading over, page and search text kept; when not confirmed nothing changes |
| ProductsPage.StrandedPageAfterSearch | app/products/page.tsx:65-78 | eleven products, one click on next, then a search matching one product: page 2 is kept, and it shows nothing although a product matches |
| StockPage.Page.constructor | app/stock/page.tsx:19-23 | on mount: empty lists, empty search, loading, page 1 |
| StockPage.Page.TotalPages | app/stock/page.tsx:56 | the fewest pages of 8 that hold the filtered list; zero exactly when nothing is filtered in |
| StockPage.Page.PagerVisible | app/stock/page.tsx:100 | the pager is drawn exactly when more than 8 products are filtered in |
| StockPage.Page.CurrentProducts | app/stock/page.tsx:53-55 | at most 8 products, those at positions (p−1)·8 to p·8 of the filtered list; empty only when nothing is filtered in |
| StockPage.Page.FetchProducts | app/stock/page.tsx:30-40 | both lists become the fetched listing, loading ends, page 1 |
| StockPage.Page.HandleSearch | app/stock/page.tsx:42-50 | the filtered list becomes the search of the full list, the page goes back to 1, and the first 8 matches are shown |
| StockPage.Page.Previous | app/stock/page.tsx:102-108 | with the pager drawn and not on page 1, moves to max(p−1, 1); otherwise nothing changes; the page never goes past the list |
| StockPage.Page.Next | app/stock/page.tsx:110-116 | with the pager drawn and not on the last page, moves to min(p+1, last); otherwise nothing changes; the page never goes past the list |
| StockPage.PageWithinCount | app/stock/page.tsx:104-112 | a page that is 1 or still has cards lies between 1 and max(1, number of pages) |
| SalesHistoryPager.Pager.constructor | app/components/SelesHostory.tsx:15-18 | on mount with the given rows: page 1, loading line shown |
| SalesHistoryPager.Pager.LastPage | app/components/SelesHostory.tsx:34 | the fewest pages of 7 that hold the rows; zero exactly when there are none |
| SalesHistoryPager.Pager.CurrentSales | app/components/SelesHostory.tsx:28-30 | at most 7 rows, those at positions (p−1)·7 to p·7; empty exactly when the page starts past the end |
| SalesHistoryPager.Pager.SetSales | app/components/SelesHostory.tsx:20-25 | a new list of rows shows the loading line again and keeps the page number |
| SalesHistoryPager.Pager.FinishLoading | app/components/SelesHostory.tsx:22-24 | the loading line goes away |
| SalesHistoryPager.Pager.NextPage | app/components/SelesHostory.tsx:33-37 | with the buttons drawn (loading over), moves one page on exactly when the page is before ceil(n/7), otherwise changes nothing; keeps 1 ≤ p ≤ max(1, ceil(n/7)); within range, a non-empty history then shows rows |
| SalesHistoryPager.Pager.PrevPage | app/components/SelesHostory.tsx:39-43 | with the buttons drawn (loading over), moves one page back exactly when the page is above 1, otherwise changes nothing; keeps 1 ≤ p ≤ max(1, ceil(n/7)) |
| SalesHistoryPager.InRangePageHasRows | app/components/SelesHostory.tsx:28-43 | within range, the page is empty exactly when there are no rows, and with no rows only page 1 is reachable |
| SalesHistoryPager.ClickThrough | app/components/SelesHostory.tsx:33-43 | once loading is over, for a fixed list of rows, any sequence of next and previous clicks ends within 1..max(1, ceil(n/7)), on a page that shows rows unless there are none |
| InvoicesPage.Page.constructor | app/commandes/page.tsx:22-25 | on mount: no invoices, page 1, loading |
| InvoicesPage.Page.CurrentInvoices | app/commandes/page.tsx:38-40 | at most 5 invoices, those at positions (p−1)·5 to p·5; empty only when there are no invoices |
| InvoicesPage.Page.NextDisabled | app/commandes/page.tsx:92 | "next" is disabled exactly on page ceil(n/5) when there are invoices, and always when there are none |
| InvoicesPage.Page.Load | app/commandes/page.tsx:27-35 | the fetched history replaces the empty list, loading ends, page 1 |
| InvoicesPage.Page.Previous | app/commandes/page.tsx:79 | with the list drawn (loaded and not empty) and not on page 1, moves to max(p−1, 1); otherwise nothing changes |
| InvoicesPage.Page.Next | app/commandes/page.tsx:91 | with the list drawn, moves one page on exactly when p·5 is before the end, otherwise changes nothing; with invoices the page never exceeds ceil(n/5) |
| InvoicesPage.LastPageIsWhereNextStops | app/commandes/page.tsx:91-92 | for a page that still has invoices, the guard p·5 ≥ n holds exactly on page ceil(n/5) |
| InvoicesPage.InvoicePagesCoverHistory | app/commandes/page.tsx:38-40 | pages 1 to ceil(n/5), read in order, are the invoice list, and none of them is empty |

## Left out

- Persistence: the database, its generated ids, and the failures that make every action answer with its generic error message. The store is an in-memory object, and an action fails only for the reasons the model states.
- Concurrency: server actions run one at a time here. The race between two concurrent sales of the same product is not modelled.
- ProductActions.Store.AddSale: the sale insert and the stock write are two separate writes. A failure between them, which would leave a sale without its decrement, is not modelled.
- Floating-point prices: amounts are exact integers in minor units, so `totalSales || 0` (which only matters for NaN) has no counterpart.
- Dates: the expiration date is kept as text. The conversion to ISO strings (`toISOString().split("T")[0]`), `toLocaleString` and the month caption are left out. The calendar day of a sale is the parameter `dayOf`.
- ProductActions.Store.GetAllProducts: the database returns products in no stated order, so the contract fixes the contents and leaves the order open.
- ProductActions.SalesHistory: `orderBy createdAt desc` is modelled as reverse ledger order. This assumes sales are written in time order, and it leaves out equal timestamps.
- ProductActions.Store.DeleteProduct: the schema's rule for a sale whose product is deleted is not part of this model. The model lets the delete succeed and keeps the product's sales, which then make the history answer with the empty list. Under a restricting foreign key (Prisma's default for a required relation) such a delete would instead fail with the delete error and leave the store unchanged; under a cascading one the product's sales would be deleted with it.
- ProductActions.Store.UpdateProduct: the unknown-id and duplicate-code failures are both reported as the same update error, as the action does.
- ProductActions.Store.AddProduct: the form on the add page calls it without an image, so the image is optional here.
- `getLatestProducts` (the five newest products) is left out: products carry no creation time in this model.
- ProductSearch.ToLower: lower-casing covers ASCII and the Latin-1 capitals only. Other Unicode case mappings, including those that change length, are not modelled.
- The form guards of the add, edit and sale pages, the confirmation dialog (modelled as a `confirmed` flag), toasts, routing and rendering.
- SalesHistoryPager.Pager.FinishLoading: the 500 ms timer is modelled as a method called whenever it fires. Timer cancellation on a quick second prop change is not modelled.
- ProductsPage.Page.FetchProducts: the loading interval while the fetch is pending is one step here, and the fetch answer is a parameter.
- The invoice commit and `getInvoiceHistory` in `app/utils/actions` are not part of this model. The invoice page takes the fetched history as a parameter.
