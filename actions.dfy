/**
 * The server actions over the product table and the sale ledger.
 * The two database tables become the fields of one `Store` object: a map from
 * product id to product, and the sequence of sales in the order they were written.
 */
module ProductActions {
  import opened Common

  /** Product ids are issued by the store and never reused. */
  type ProductId = nat
  /** Amounts in minor units of the single currency (MRU). */
  type Money = int
  /** Creation time of a sale, as supplied by the clock. */
  type Timestamp = nat

  /** A product record; `priceV` is the sale price (price_v), `priceA` the purchase price (price_a). */
  datatype Product = Product(
    code: string,
    name: string,
    quantity: int,
    priceV: Money,
    priceA: Money,
    expirationDate: string,
    imageUrl: Option<string>)

  /** A ledger row: the two amounts are snapshots taken when the sale was written. */
  datatype Sale = Sale(
    productId: ProductId,
    quantity: int,
    totalPrice: Money,
    purchasePrice: Money,
    createdAt: Timestamp)

  /** A product as listed by `getAllProducts`: its id together with its fields. */
  datatype ProductRow = ProductRow(id: ProductId, product: Product)

  /** A sale as reported by `getSalesHistory`, joined with the current name of its product. */
  datatype SaleRow = SaleRow(
    id: nat,
    productName: string,
    quantity: int,
    totalPrice: Money,
    purchasePrice: Money,
    createdAt: Timestamp)

  datatype DashboardStats = DashboardStats(
    totalProducts: nat,
    totalSales: Money,
    totalProfit: Money,
    totalOrders: nat)

  /** The error cases the actions report. */
  datatype ActionError =
    | DuplicateCode
    | PriceNotAboveCost
    | NegativeQuantity
    | UpdateFailed
    | DeleteFailed
    | ProductNotFound
    | UnknownProduct
    | InsufficientStock

  /** The message each error carries back to the page. */
  function Message(e: ActionError): string
  {
    match e
    case DuplicateCode => "Ce code de produit existe déjà !"
    case PriceNotAboveCost => "Le prix de vente doit être supérieur au prix d'achat !"
    case NegativeQuantity => "La quantité ne peut pas être négative !"
    case UpdateFailed => "Erreur lors de la modification du produit"
    case DeleteFailed => "Erreur lors de la suppression du produit"
    case ProductNotFound => "Produit non trouvé"
    case UnknownProduct => "Produit introuvable"
    case InsufficientStock => "Stock insuffisant"
  }

  /** No two errors carry the same message (their lengths already differ), so the page can tell from the message which check failed. */
  lemma MessageIdentifiesError(e1: ActionError, e2: ActionError)
    requires Message(e1) == Message(e2)
    ensures e1 == e2
  {
    var m := Message(e1);
    match e1
    case DuplicateCode => assert |m| == 32;
    case PriceNotAboveCost => assert |m| == 54;
    case NegativeQuantity => assert |m| == 39;
    case UpdateFailed => assert |m| == 41;
    case DeleteFailed => assert |m| == 40;
    case ProductNotFound => assert |m| == 18;
    case UnknownProduct => assert |m| == 19;
    case InsufficientStock => assert |m| == 17;
  }

  /** What a write action returns: `{ success: true }` or `{ error }`. */
  datatype Status = Success | Error(error: ActionError)

  /** Some product already carries `code`. */
  predicate CodeTaken(products: map<ProductId, Product>, code: string)
  {
    exists id | id in products :: products[id].code == code
  }

  /** Some product other than `self` carries `code`. */
  predicate CodeTakenByOther(products: map<ProductId, Product>, code: string, self: ProductId)
  {
    exists id | id in products :: id != self && products[id].code == code
  }

  /** The unique constraint on `code`: no two products share one. */
  ghost predicate CodesUnique(products: map<ProductId, Product>)
  {
    forall i, j :: i in products && j in products && i != j ==> products[i].code != products[j].code
  }

  function SaleTotal(s: Sale): int { s.totalPrice }

  function SaleCost(s: Sale): int { s.purchasePrice }

  function SaleMargin(s: Sale): int { s.totalPrice - s.purchasePrice }

  /** The sale `addSale` writes for `quantity` units of `p`, priced from `p` as read. */
  function SaleOf(id: ProductId, p: Product, quantity: int, now: Timestamp): Sale
  {
    Sale(id, quantity, p.priceV * quantity, p.priceA * quantity, now)
  }

  class Store {
    var products: map<ProductId, Product>
    var sales: seq<Sale>
    var nextId: ProductId

    /** Ids below `nextId` have been issued; codes are unique; every sale names an issued id. */
    ghost predicate Valid()
      reads this
    {
      && (forall id :: id in products ==> id < nextId)
      && CodesUnique(products)
      && (forall i :: 0 <= i < |sales| ==> sales[i].productId < nextId)
    }

    constructor ()
      ensures Valid()
      ensures products == map[] && sales == []
    {
      products, sales, nextId := map[], [], 0;
    }

    /**
     * `getAllProducts`: every product exactly once, with its id. The database
     * gives no order, so the order here is left open.
     */
    method GetAllProducts() returns (rows: seq<ProductRow>)
      requires Valid()
      ensures |rows| == |products|
      ensures forall i :: 0 <= i < |rows| ==> rows[i].id in products && rows[i].product == products[rows[i].id]
      ensures forall id :: id in products ==> exists i :: 0 <= i < |rows| && rows[i].id == id
      ensures forall i, j :: 0 <= i < j < |rows| ==> rows[i].id != rows[j].id
    {
      var remaining := products.Keys;
      rows := [];
      while remaining != {}
        invariant remaining <= products.Keys
        invariant forall i :: 0 <= i < |rows| ==> rows[i].id in products && rows[i].id !in remaining
        invariant forall i :: 0 <= i < |rows| ==> rows[i].product == products[rows[i].id]
        invariant (set i | 0 <= i < |rows| :: rows[i].id) == products.Keys - remaining
        invariant forall i, j :: 0 <= i < j < |rows| ==> rows[i].id != rows[j].id
        invariant |rows| + |remaining| == |products.Keys|
        decreases remaining
      {
        var id :| id in remaining;
        ghost var before := rows;
        rows := rows + [ProductRow(id, products[id])];
        remaining := remaining - {id};
        assert (set i | 0 <= i < |rows| :: rows[i].id) == (set i | 0 <= i < |before| :: before[i].id) + {id} by {
          assert rows[|before|].id == id;
          assert forall i :: 0 <= i < |before| ==> rows[i] == before[i];
        }
      }
      forall id | id in products ensures exists i :: 0 <= i < |rows| && rows[i].id == id {
        assert id in products.Keys - remaining;
        assert id in (set i | 0 <= i < |rows| :: rows[i].id);
      }
    }

    /**
     * `addProduct`: refuse a code already in use, then a sale price not above
     * the purchase price, then a negative quantity; otherwise insert one product.
     */
    method AddProduct(code: string, name: string, quantity: int, priceV: Money, priceA: Money,
                      expirationDate: string, imageUrl: Option<string>) returns (r: Status)
      requires Valid()
      modifies this
      ensures Valid()
      ensures r == Error(DuplicateCode) <==> CodeTaken(old(products), code)
      ensures r == Error(PriceNotAboveCost) <==> !CodeTaken(old(products), code) && priceV <= priceA
      ensures r == Error(NegativeQuantity) <==> !CodeTaken(old(products), code) && priceV > priceA && quantity < 0
      ensures r == Success <==> !CodeTaken(old(products), code) && priceV > priceA && quantity >= 0
      ensures r.Error? ==> products == old(products) && nextId == old(nextId)
      ensures r.Success? ==>
        && old(nextId) !in old(products)
        && products == old(products)[old(nextId) := Product(code, name, quantity, priceV, priceA, expirationDate, imageUrl)]
      ensures sales == old(sales)
    {
      if CodeTaken(products, code) {
        return Error(DuplicateCode);
      }
      if priceV <= priceA {
        return Error(PriceNotAboveCost);
      }
      if quantity < 0 {
        return Error(NegativeQuantity);
      }
      products := products[nextId := Product(code, name, quantity, priceV, priceA, expirationDate, imageUrl)];
      nextId := nextId + 1;
      r := Success;
    }

    /**
     * `updateProduct`: overwrite every field of product `id`. No price or
     * quantity check; the update fails when `id` is unknown or when another
     * product already has `code` (the unique constraint).
     */
    method UpdateProduct(id: ProductId, code: string, name: string, quantity: int, priceV: Money, priceA: Money,
                         expirationDate: string, imageUrl: string) returns (r: Status)
      requires Valid()
      modifies this
      ensures Valid()
      ensures r.Error? ==> r.error == UpdateFailed
      ensures r == Success <==> id in old(products) && !CodeTakenByOther(old(products), code, id)
      ensures r.Success? ==>
        products == old(products)[id := Product(code, name, quantity, priceV, priceA, expirationDate, Some(imageUrl))]
      ensures r.Error? ==> products == old(products)
      ensures sales == old(sales) && nextId == old(nextId)
    {
      if id !in products || CodeTakenByOther(products, code, id) {
        return Error(UpdateFailed);
      }
      products := products[id := Product(code, name, quantity, priceV, priceA, expirationDate, Some(imageUrl))];
      r := Success;
    }

    /** `deleteProduct`: remove product `id`; the ledger is not consulted and stays as it is (no foreign-key rule is modelled). */
    method DeleteProduct(id: ProductId) returns (r: Status)
      requires Valid()
      modifies this
      ensures Valid()
      ensures r == Success <==> id in old(products)
      ensures r.Error? ==> r.error == DeleteFailed
      ensures products == old(products) - {id}
      ensures sales == old(sales) && nextId == old(nextId)
    {
      if id !in products {
        return Error(DeleteFailed);
      }
      products := products - {id};
      r := Success;
    }

    /** `getProductById`: the product with that id, or the not-found error. */
    function GetProductById(id: ProductId): (r: Result<Product, ActionError>)
      reads this
      ensures r.Ok? <==> id in products
      ensures r.Ok? ==> r.value == products[id]
      ensures r.Err? ==> r.error == ProductNotFound
    {
      if id in products then Ok(products[id]) else Err(ProductNotFound)
    }

    /**
     * `addSale`: read the product once, refuse an unknown id or a quantity above
     * the stock, then append the sale priced from that read and write the
     * decremented stock. The quantity itself is not checked for sign.
     */
    method AddSale(productId: ProductId, quantity: int, now: Timestamp) returns (r: Status)
      requires Valid()
      modifies this
      ensures Valid()
      ensures r == Error(UnknownProduct) <==> productId !in old(products)
      ensures r == Error(InsufficientStock) <==>
        productId in old(products) && old(products)[productId].quantity < quantity
      ensures r == Success <==> productId in old(products) && quantity <= old(products)[productId].quantity
      ensures r.Error? ==> products == old(products) && sales == old(sales)
      ensures r.Success? ==>
        var p := old(products)[productId];
        && sales == old(sales) + [SaleOf(productId, p, quantity, now)]
        && products == old(products)[productId := p.(quantity := p.quantity - quantity)]
      ensures r.Success? ==> products[productId].quantity >= 0
      ensures nextId == old(nextId)
    {
      if productId !in products {
        return Error(UnknownProduct);
      }
      var product := products[productId];
      if product.quantity < quantity {
        return Error(InsufficientStock);
      }
      var totalPrice := product.priceV * quantity;
      var purchasePrice := product.priceA * quantity;
      sales := sales + [Sale(productId, quantity, totalPrice, purchasePrice, now)];
      products := products[productId := products[productId].(quantity := product.quantity - quantity)];
      r := Success;
    }
  }

  /**
   * `getDashboardStats`: the number of products, the sum of sale totals, that
   * sum less the sum of purchase amounts, and the number of sales.
   */
  function Dashboard(products: map<ProductId, Product>, sales: seq<Sale>): (s: DashboardStats)
    ensures s.totalProducts == |products| && s.totalOrders == |sales|
    ensures s.totalSales == Sum(sales, SaleTotal)
    ensures s.totalProfit == Sum(sales, SaleMargin)
    ensures sales == [] ==> s.totalSales == 0 && s.totalProfit == 0
  {
    var totalSales := Sum(sales, SaleTotal);
    var totalPurchaseCost := Sum(sales, SaleCost);
    SumDifference(sales, SaleTotal, SaleCost, SaleMargin);
    DashboardStats(|products|, totalSales, totalSales - totalPurchaseCost, |sales|)
  }

  /** One more sale of `q` units of product `id` adds its two amounts to the dashboard and one order. */
  lemma SaleMovesDashboard(products: map<ProductId, Product>, sales: seq<Sale>, id: ProductId, q: int, now: Timestamp)
    requires id in products
    ensures var p := products[id];
            var after := Dashboard(products[id := p.(quantity := p.quantity - q)], sales + [SaleOf(id, p, q, now)]);
            var before := Dashboard(products, sales);
            && after.totalProducts == before.totalProducts
            && after.totalOrders == before.totalOrders + 1
            && after.totalSales == before.totalSales + p.priceV * q
            && after.totalProfit == before.totalProfit + (p.priceV - p.priceA) * q
  {
    var p := products[id];
    var s := SaleOf(id, p, q, now);
    assert (sales + [s])[..|sales|] == sales;
    assert p.priceV * q - p.priceA * q == (p.priceV - p.priceA) * q;
  }

  /** The joined row `getSalesHistory` reports for ledger entry `i`. */
  function RowOf(products: map<ProductId, Product>, i: nat, s: Sale): SaleRow
    requires s.productId in products
  {
    SaleRow(i, products[s.productId].name, s.quantity, s.totalPrice, s.purchasePrice, s.createdAt)
  }

  /** Every sale names a product that still exists. */
  predicate JoinComplete(products: map<ProductId, Product>, sales: seq<Sale>)
  {
    forall i | 0 <= i < |sales| :: sales[i].productId in products
  }

  function NewestFirst(products: map<ProductId, Product>, sales: seq<Sale>): seq<SaleRow>
    requires JoinComplete(products, sales)
  {
    if sales == [] then []
    else [RowOf(products, |sales| - 1, sales[|sales| - 1])] + NewestFirst(products, sales[..|sales| - 1])
  }

  /**
   * `getSalesHistory`: the ledger newest first, each sale joined with its
   * product's name. A sale whose product has been deleted makes the join
   * fail, and the action then answers with the empty list.
   */
  function SalesHistory(products: map<ProductId, Product>, sales: seq<Sale>): (rows: seq<SaleRow>)
    ensures !JoinComplete(products, sales) ==> rows == []
    ensures JoinComplete(products, sales) ==> |rows| == |sales|
  {
    if JoinComplete(products, sales) then
      HistoryShape(products, sales);
      NewestFirst(products, sales)
    else []
  }

  /** Row `j` of the history is ledger entry `|sales| - 1 - j`, with the product's current name. */
  lemma {:induction false} HistoryShape(products: map<ProductId, Product>, sales: seq<Sale>)
    requires JoinComplete(products, sales)
    ensures |NewestFirst(products, sales)| == |sales|
    ensures forall j :: 0 <= j < |sales| ==>
      NewestFirst(products, sales)[j] == RowOf(products, |sales| - 1 - j, sales[|sales| - 1 - j])
  {
    if sales != [] {
      var n := |sales|;
      var prefix := sales[..n - 1];
      assert JoinComplete(products, prefix) by {
        forall i | 0 <= i < |prefix| ensures prefix[i].productId in products {
          assert prefix[i] == sales[i];
        }
      }
      HistoryShape(products, prefix);
      forall j | 0 <= j < n
        ensures NewestFirst(products, sales)[j] == RowOf(products, n - 1 - j, sales[n - 1 - j])
      {
        if j > 0 {
          assert NewestFirst(products, sales)[j] == NewestFirst(products, prefix)[j - 1];
          assert prefix[n - 2 - (j - 1)] == sales[n - 1 - j];
        }
      }
    }
  }

  function RowTotal(r: SaleRow): int { r.totalPrice }

  /** The history reports the same grand total as the dashboard: both read the stored snapshots. */
  lemma HistoryTotalMatchesDashboard(products: map<ProductId, Product>, sales: seq<Sale>)
    requires JoinComplete(products, sales)
    ensures Sum(SalesHistory(products, sales), RowTotal) == Dashboard(products, sales).totalSales
  {
    HistoryShape(products, sales);
    SumReversed(sales, SaleTotal, SalesHistory(products, sales), RowTotal);
  }

  /**
   * Sales keep their snapshots: editing products (same ids, any new fields)
   * changes no amount in the history, only the joined names.
   */
  lemma HistoryKeepsSnapshots(before: map<ProductId, Product>, after: map<ProductId, Product>, sales: seq<Sale>)
    requires before.Keys == after.Keys
    requires JoinComplete(before, sales)
    ensures JoinComplete(after, sales)
    ensures forall j :: 0 <= j < |sales| ==>
      var a, b := SalesHistory(after, sales)[j], SalesHistory(before, sales)[j];
      a.id == b.id && a.quantity == b.quantity && a.totalPrice == b.totalPrice
      && a.purchasePrice == b.purchasePrice && a.createdAt == b.createdAt
  {
    HistoryShape(before, sales);
    HistoryShape(after, sales);
  }
}
