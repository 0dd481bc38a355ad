/**
 * The inventory page: which products it flags as low on stock, how it reads and
 * labels a warehouse's stock, and the transfer form's guard and submission.
 */
module InventoryPage {
  import opened Stock
  import opened InventoryService
  import opened InventoryHook

  /** A product is low on stock when some warehouse holds less than its minimum. */
  predicate IsLowStock(p: Product) {
    || Level(p, Main) < MinLevel(p)
    || Level(p, Secondary1) < MinLevel(p)
    || Level(p, Secondary2) < MinLevel(p)
    || Level(p, Secondary3) < MinLevel(p)
  }

  /** Low stock means exactly that one of the four warehouses is below the minimum. */
  lemma LowStockIffSomeWarehouseBelow(p: Product)
    ensures IsLowStock(p) <==> exists w :: Level(p, w) < MinLevel(p)
  {
    if IsLowStock(p) {
      var w :| w in [Main, Secondary1, Secondary2, Secondary3] && Level(p, w) < MinLevel(p);
    }
  }

  /** `lowStockProducts`: the loaded products flagged low on stock, in list order. */
  function LowStockProducts(products: seq<Product>): (r: seq<Product>)
    ensures forall p :: p in r <==> p in products && IsLowStock(p)
    ensures |r| <= |products|
  {
    if products == [] then []
    else (if IsLowStock(products[0]) then [products[0]] else []) + LowStockProducts(products[1..])
  }

  /** Each low-stock product is kept exactly as often as the list holds it; no other one is. */
  lemma {:induction false} LowStockCounts(products: seq<Product>, p: Product)
    ensures multiset(LowStockProducts(products))[p] == if IsLowStock(p) then multiset(products)[p] else 0
  {
    if products != [] {
      assert products == [products[0]] + products[1..];
      LowStockCounts(products[1..], p);
    }
  }

  /** `filter` keeps list order: filtering two runs of products is filtering each in turn. */
  lemma {:induction false} LowStockKeepsOrder(a: seq<Product>, b: seq<Product>)
    ensures LowStockProducts(a + b) == LowStockProducts(a) + LowStockProducts(b)
  {
    if a != [] {
      assert (a + b)[0] == a[0];
      assert (a + b)[1..] == a[1..] + b;
      LowStockKeepsOrder(a[1..], b);
    } else {
      assert a + b == b;
    }
  }

  /** `getWarehouseStock`: the stock a warehouse id selects, 0 for an id that is none of the four. */
  function GetWarehouseStock(p: Product, warehouseId: string): (r: int)
    ensures forall w :: ParseWarehouse(warehouseId) == Some(w) ==> r == Level(p, w)
    ensures ParseWarehouse(warehouseId) == None ==> r == 0
  {
    if warehouseId == "main" then p.stock.GetOr(0)
    else if warehouseId == "1" then p.stock1.GetOr(0)
    else if warehouseId == "2" then p.stock2.GetOr(0)
    else if warehouseId == "3" then p.stock3.GetOr(0)
    else 0
  }

  /** The three labels `renderStockStatus` shows: 'Sin Stock', 'Bajo Stock' and 'OK'. */
  datatype StockStatus = SinStock | BajoStock | StockOk

  /** `renderStockStatus`: nothing in stock, below the minimum, or fine, checked in that order. */
  function RenderStockStatus(stock: int, minStock: int): (r: StockStatus)
    ensures r == SinStock <==> stock <= 0
    ensures r == BajoStock <==> 0 < stock < minStock
    ensures r == StockOk <==> 0 < stock && minStock <= stock
  {
    if stock <= 0 then SinStock
    else if stock < minStock then BajoStock
    else StockOk
  }

  /**
   * The status the low-stock card shows for the main warehouse agrees with the low-stock
   * flag: 'Bajo Stock' there means the product is flagged, and a product that is not
   * flagged shows 'OK' unless its main warehouse is empty.
   */
  lemma MainStatusAgreesWithLowStock(p: Product)
    ensures RenderStockStatus(Level(p, Main), MinLevel(p)) == BajoStock ==> IsLowStock(p)
    ensures !IsLowStock(p) && Level(p, Main) > 0 ==> RenderStockStatus(Level(p, Main), MinLevel(p)) == StockOk
    ensures RenderStockStatus(Level(p, Main), MinLevel(p)) == SinStock && MinLevel(p) > 0 ==> IsLowStock(p)
  {
  }

  /**
   * The transfer form's fields. The warehouse selects offer only the four warehouses;
   * an empty select is None.
   */
  datatype TransferRequest = TransferRequest(
    productId: string,
    quantity: int,
    source: Option<WarehouseId>,
    destination: Option<WarehouseId>,
    notes: string)

  /** The form as it starts and as it is reset. */
  const EmptyTransferRequest := TransferRequest("", 0, None, None, "")

  /** Why the form refuses to submit. */
  datatype Rejection = Incomplete | SameWarehouse

  /** The guard `handleTransferSubmit` runs before calling the service. */
  function CheckTransferRequest(t: TransferRequest): (r: Option<Rejection>)
    ensures r == Some(Incomplete) <==>
              t.productId == "" || t.source.None? || t.destination.None? || t.quantity <= 0
    ensures r == Some(SameWarehouse) <==>
              t.productId != "" && t.source.Some? && t.destination.Some? && t.quantity > 0 && t.source == t.destination
    ensures r == None ==>
              t.productId != "" && t.source.Some? && t.destination.Some? && t.quantity > 0
              && t.source.value != t.destination.value
  {
    if t.productId == "" || t.source.None? || t.destination.None? || t.quantity <= 0 then Some(Incomplete)
    else if t.source == t.destination then Some(SameWarehouse)
    else None
  }

  /**
   * A transfer the form lets through and the service performs conserves the product's
   * total stock and leaves the source non-negative: the form never sends equal warehouses.
   */
  lemma FormTransferConserves(t: TransferRequest, rows: seq<Product>, faults: Faults)
    requires CheckTransferRequest(t) == None
    requires TransferOutcome(rows, t.productId, t.source.value, t.destination.value, t.quantity, faults).Some?
    ensures var after := TransferOutcome(rows, t.productId, t.source.value, t.destination.value, t.quantity, faults).value;
            && FetchProduct(rows, t.productId).Some?
            && FetchProduct(after, t.productId).Some?
            && TotalStock(FetchProduct(after, t.productId).value) == TotalStock(FetchProduct(rows, t.productId).value)
            && Level(FetchProduct(after, t.productId).value, t.source.value) >= 0
  {
    TransferOutcomeEffect(rows, t.productId, t.source.value, t.destination.value, t.quantity, faults);
  }

  /** What the user sees after submitting: a refusal toast, or the service's answer. */
  datatype SubmitOutcome = Rejected(reason: Rejection) | Submitted(ok: bool)

  class InventoryPage {
    /** The inventory hook the page uses. */
    const hook: InventoryHook
    /** The transfer form's state. */
    var transferRequest: TransferRequest

    constructor (hook: InventoryHook)
      ensures this.hook == hook && transferRequest == EmptyTransferRequest
    {
      this.hook := hook;
      transferRequest := EmptyTransferRequest;
    }

    /**
     * `handleTransferSubmit`: refuse an incomplete form or equal warehouses without calling
     * the service; otherwise transfer, and on success reset the form and reload products
     * (the hook has reloaded them once already; `reloadFails` is the page's own reload).
     */
    method HandleTransferSubmit(faults: Faults, reloadFails: bool) returns (outcome: SubmitOutcome)
      modifies this, hook, hook.store
      ensures CheckTransferRequest(old(transferRequest)).Some? ==>
                && outcome == Rejected(CheckTransferRequest(old(transferRequest)).value)
                && transferRequest == old(transferRequest)
                && unchanged(hook) && unchanged(hook.store)
      ensures CheckTransferRequest(old(transferRequest)).None? ==>
                var t := old(transferRequest);
                var out := TransferOutcome(old(hook.store.products), t.productId, t.source.value, t.destination.value,
                                           t.quantity, faults);
                && outcome == Submitted(out.Some?)
                && hook.store.products == out.GetOr(old(hook.store.products))
                && hook.store.movements == old(hook.store.movements)
                   + Logged(out.Some?, faults.log, Movement(t.productId, t.source.value, t.destination, t.quantity, Transfer))
                && hook.products == (if out.Some? then Reloaded(hook.store.products, reloadFails) else old(hook.products))
                && hook.movements == old(hook.movements)
                && transferRequest == (if out.Some? then EmptyTransferRequest else t)
    {
      var t := transferRequest;
      if t.productId == "" || t.source.None? || t.destination.None? || t.quantity <= 0 {
        return Rejected(Incomplete);
      }
      if t.source == t.destination {
        return Rejected(SameWarehouse);
      }
      var ok := hook.HandleTransferInventory(t.productId, t.source.value, t.destination.value, t.quantity, faults);
      if ok {
        transferRequest := EmptyTransferRequest;
        hook.LoadProducts(reloadFails);
      }
      outcome := Submitted(ok);
    }
  }
}
