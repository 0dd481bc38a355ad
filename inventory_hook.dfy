/**
 * The inventory hook: the state a page holds (loaded products and movements)
 * over the inventory service, the fixed warehouse list, and the dispatch of a
 * movement request ('entrada', 'salida', 'transferencia') to a stock operation.
 */
module InventoryHook {
  import opened Stock
  import opened InventoryService

  /** A warehouse as the hook lists it. */
  datatype Warehouse = Warehouse(id: WarehouseId, name: string, kind: string, address: string, capacity: nat, status: string)

  /** The hook's fixed warehouse list. */
  const Warehouses: seq<Warehouse> := [
    Warehouse(Main, "Principal", "main", "Sede Central", 1000, "active"),
    Warehouse(Secondary1, "Almacén 1", "secondary", "Sede Norte", 500, "active"),
    Warehouse(Secondary2, "Almacén 2", "secondary", "Sede Sur", 500, "active"),
    Warehouse(Secondary3, "Almacén 3", "secondary", "Sede Este", 300, "active")
  ]

  /** The list names the four warehouses, each once, as 'main', '1', '2', '3' in that order. */
  lemma WarehouseListFixed()
    ensures |Warehouses| == 4
    ensures Warehouses[0].id == Main && Warehouses[1].id == Secondary1
    ensures Warehouses[2].id == Secondary2 && Warehouses[3].id == Secondary3
    ensures IdOf(Warehouses[0].id) == "main" && IdOf(Warehouses[1].id) == "1"
    ensures IdOf(Warehouses[2].id) == "2" && IdOf(Warehouses[3].id) == "3"
    ensures forall i, j :: 0 <= i < j < |Warehouses| ==> Warehouses[i].id != Warehouses[j].id
  {
  }

  /** The argument `addMovement` receives. */
  datatype MovementRequest = MovementRequest(
    kind: string,
    productId: string,
    warehouse: WarehouseId,
    destination: Option<WarehouseId>,
    quantity: int)

  /** The stock operation a movement request is turned into. */
  datatype StockCall =
    | AddCall(productId: string, warehouse: WarehouseId, delta: int)
    | TransferCall(productId: string, source: WarehouseId, dest: WarehouseId, quantity: int)
    | NoCall

  /**
   * 'entrada' adds the quantity, 'salida' adds its negation, 'transferencia' with a
   * destination transfers it; anything else performs no stock operation.
   */
  function Dispatch(m: MovementRequest): (c: StockCall)
    ensures m.kind == "entrada" ==> c == AddCall(m.productId, m.warehouse, m.quantity)
    ensures m.kind == "salida" ==> c == AddCall(m.productId, m.warehouse, -m.quantity)
    ensures m.kind == "transferencia" && m.destination.Some? ==>
              c == TransferCall(m.productId, m.warehouse, m.destination.value, m.quantity)
    ensures c == NoCall <==>
              m.kind != "entrada" && m.kind != "salida" && !(m.kind == "transferencia" && m.destination.Some?)
  {
    if m.kind == "entrada" then AddCall(m.productId, m.warehouse, m.quantity)
    else if m.kind == "salida" then AddCall(m.productId, m.warehouse, -m.quantity)
    else if m.kind == "transferencia" && m.destination.Some? then
      TransferCall(m.productId, m.warehouse, m.destination.value, m.quantity)
    else NoCall
  }

  /** The products table after a dispatched call, or None when it reports failure or there is no call. */
  function CallOutcome(rows: seq<Product>, c: StockCall, faults: Faults): Option<seq<Product>> {
    match c
    case AddCall(id, w, delta) => AddOutcome(rows, id, w, delta, faults)
    case TransferCall(id, s, d, q) => TransferOutcome(rows, id, s, d, q, faults)
    case NoCall => None
  }

  /** The movement a dispatched call records when it succeeds. */
  function CallMovement(c: StockCall): Movement
    requires c != NoCall
  {
    match c
    case AddCall(id, w, delta) => Movement(id, w, None, delta, Add)
    case TransferCall(id, s, d, q) => Movement(id, s, Some(d), q, Transfer)
  }

  /** The movements appended by a dispatched call. */
  function CallLog(c: StockCall, ok: bool, logFails: bool): seq<Movement> {
    if c == NoCall then [] else Logged(ok, logFails, CallMovement(c))
  }

  /** What a reload leaves in the hook's state: the rows read, or none when the read fails. */
  function Reloaded<T>(rows: seq<T>, fails: bool): seq<T> {
    if fails then [] else rows
  }

  /**
   * An 'entrada' followed by a 'salida' of the same quantity, both succeeding, leaves the
   * product's stock in that warehouse as it was, and every other field and product as it was.
   */
  lemma EntradaThenSalidaRestores(entrada: MovementRequest, salida: MovementRequest,
                                  rows: seq<Product>, mid: seq<Product>, after: seq<Product>, first: Faults, second: Faults)
    requires entrada.kind == "entrada" && salida == entrada.(kind := "salida")
    requires CallOutcome(rows, Dispatch(entrada), first) == Some(mid)
    requires CallOutcome(mid, Dispatch(salida), second) == Some(after)
    ensures FetchProduct(rows, entrada.productId).Some? && FetchProduct(after, entrada.productId).Some?
    ensures Level(FetchProduct(after, entrada.productId).value, entrada.warehouse)
            == Level(FetchProduct(rows, entrada.productId).value, entrada.warehouse)
    ensures SameExcept(FetchProduct(rows, entrada.productId).value, FetchProduct(after, entrada.productId).value,
                       {entrada.warehouse})
    ensures forall other :: other != entrada.productId ==> Matches(after, other) == Matches(rows, other)
  {
    EntradaIsAdd(entrada, rows, first);
    SalidaIsSubtract(salida, mid, second);
    AddTwiceRestores(rows, mid, after, entrada.productId, entrada.warehouse, entrada.quantity,
                     Dispatch(salida).delta, first, second);
  }

  /** An 'entrada' is addInventory of the quantity. */
  lemma EntradaIsAdd(m: MovementRequest, rows: seq<Product>, faults: Faults)
    requires m.kind == "entrada"
    ensures CallOutcome(rows, Dispatch(m), faults) == AddOutcome(rows, m.productId, m.warehouse, m.quantity, faults)
  {
    assert Dispatch(m) == AddCall(m.productId, m.warehouse, m.quantity);
  }

  /** A 'salida' is addInventory of the negated quantity. */
  lemma SalidaIsSubtract(m: MovementRequest, rows: seq<Product>, faults: Faults)
    requires m.kind == "salida"
    ensures Dispatch(m).AddCall? && Dispatch(m).productId == m.productId && Dispatch(m).warehouse == m.warehouse
    ensures Dispatch(m).delta + m.quantity == 0
    ensures CallOutcome(rows, Dispatch(m), faults) == AddOutcome(rows, m.productId, m.warehouse, Dispatch(m).delta, faults)
  {
    // "salida" and "entrada" differ in their first letter, so the first branch is not taken.
    assert m.kind[0] != "entrada"[0];
    assert Dispatch(m) == AddCall(m.productId, m.warehouse, -m.quantity);
  }

  class InventoryHook {
    /** The service the hook calls. */
    const store: InventoryStore
    /** The products the hook last loaded. */
    var products: seq<Product>
    /** The movements the hook last loaded. */
    var movements: seq<Movement>

    constructor (store: InventoryStore)
      ensures this.store == store && products == [] && movements == []
    {
      this.store := store;
      products := [];
      movements := [];
    }

    /** `loadProducts`: replace the loaded products by the table's rows (none when the read fails). */
    method LoadProducts(fails: bool)
      modifies this
      ensures products == Reloaded(store.products, fails)
      ensures movements == old(movements)
    {
      products := store.GetProducts(fails);
    }

    /** `loadMovements`: replace the loaded movements by the product's movements (all for an empty id). */
    method LoadMovements(productId: string, fails: bool)
      modifies this
      ensures movements == Reloaded(MovementsFor(store.movements, productId), fails)
      ensures products == old(products)
    {
      movements := store.GetInventoryMovements(productId, fails);
    }

    /** `handleAddInventory`: call addInventory; reload the products only when it succeeds. */
    method HandleAddInventory(productId: string, warehouse: WarehouseId, quantity: int, faults: Faults) returns (ok: bool)
      modifies this, store
      ensures ok <==> AddOutcome(old(store.products), productId, warehouse, quantity, faults).Some?
      ensures store.products == AddOutcome(old(store.products), productId, warehouse, quantity, faults).GetOr(old(store.products))
      ensures store.movements == old(store.movements) + Logged(ok, faults.log, Movement(productId, warehouse, None, quantity, Add))
      ensures products == if ok then Reloaded(store.products, faults.reload) else old(products)
      ensures movements == old(movements)
    {
      ok := store.AddInventory(productId, warehouse, quantity, faults);
      if ok {
        LoadProducts(faults.reload);
      }
    }

    /** `handleUpdateInventory`: call updateInventory; reload the products only when it succeeds. */
    method HandleUpdateInventory(productId: string, warehouse: WarehouseId, quantity: int, faults: Faults) returns (ok: bool)
      modifies this, store
      ensures ok <==> SetOutcome(old(store.products), productId, warehouse, quantity, faults).Some?
      ensures store.products == SetOutcome(old(store.products), productId, warehouse, quantity, faults).GetOr(old(store.products))
      ensures store.movements == old(store.movements) + Logged(ok, faults.log, Movement(productId, warehouse, None, quantity, Update))
      ensures products == if ok then Reloaded(store.products, faults.reload) else old(products)
      ensures movements == old(movements)
    {
      ok := store.UpdateInventory(productId, warehouse, quantity, faults);
      if ok {
        LoadProducts(faults.reload);
      }
    }

    /** `handleTransferInventory`: call transferInventory; true and a reload exactly when it succeeds. */
    method HandleTransferInventory(productId: string, source: WarehouseId, dest: WarehouseId, quantity: int, faults: Faults)
      returns (ok: bool)
      modifies this, store
      ensures ok <==> TransferOutcome(old(store.products), productId, source, dest, quantity, faults).Some?
      ensures store.products == TransferOutcome(old(store.products), productId, source, dest, quantity, faults).GetOr(old(store.products))
      ensures store.movements == old(store.movements) + Logged(ok, faults.log, Movement(productId, source, Some(dest), quantity, Transfer))
      ensures products == if ok then Reloaded(store.products, faults.reload) else old(products)
      ensures movements == old(movements)
    {
      ok := store.TransferInventory(productId, source, dest, quantity, faults);
      if ok {
        LoadProducts(faults.reload);
      }
    }

    /**
     * `addMovement`: perform the stock operation the request's type selects, then reload
     * all movements. It reports true whether or not the stock operation succeeded.
     */
    method AddMovement(m: MovementRequest, faults: Faults, historyFails: bool) returns (ok: bool)
      modifies this, store
      ensures ok
      ensures var out := CallOutcome(old(store.products), Dispatch(m), faults);
              && store.products == out.GetOr(old(store.products))
              && store.movements == old(store.movements) + CallLog(Dispatch(m), out.Some?, faults.log)
              && products == if out.Some? then Reloaded(store.products, faults.reload) else old(products)
      ensures movements == Reloaded(store.movements, historyFails)
    {
      if m.kind == "entrada" {
        assert Dispatch(m) == AddCall(m.productId, m.warehouse, m.quantity);
        var _ := HandleAddInventory(m.productId, m.warehouse, m.quantity, faults);
      } else if m.kind == "salida" {
        SalidaIsSubtract(m, old(store.products), faults);
        // The dispatched delta is -m.quantity (SalidaIsSubtract).
        var _ := HandleAddInventory(m.productId, m.warehouse, Dispatch(m).delta, faults);
      } else if m.kind == "transferencia" && m.destination.Some? {
        assert Dispatch(m) == TransferCall(m.productId, m.warehouse, m.destination.value, m.quantity);
        var _ := HandleTransferInventory(m.productId, m.warehouse, m.destination.value, m.quantity, faults);
      } else {
        assert Dispatch(m) == NoCall;
      }
      LoadMovements("", historyFails);
      ok := true;
    }
  }
}
