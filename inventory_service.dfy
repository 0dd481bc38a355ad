/**
 * The inventory service: the products and inventory_movements tables and the
 * three read-modify-write stock operations (add, set, transfer) over them.
 * Each remote call is one atomic step; its failure is an input (`Faults`).
 */
module InventoryService {
  import opened Stock

  /** The `movement_type` of a movement record: 'add', 'update' or 'transfer'. */
  datatype MovementKind = Add | Update | Transfer

  /** A row of the inventory_movements table (its timestamp is not modelled). */
  datatype Movement = Movement(
    productId: string,
    warehouse: WarehouseId,
    destination: Option<WarehouseId>,
    quantity: int,
    kind: MovementKind)

  /**
   * Which remote calls of one operation report an error: the product fetch,
   * the product update, the movement insert, and the products reload that
   * the caller performs after a success.
   */
  datatype Faults = Faults(fetch: bool, write: bool, log: bool, reload: bool)

  // ---------------------------------------------------------------------------
  // Table primitives

  /** The rows of `rows` whose id is `id`, in table order (`.eq('id', id)`). */
  function Matches(rows: seq<Product>, id: string): (r: seq<Product>)
    ensures forall p :: p in r <==> p in rows && p.id == id
    ensures |r| <= |rows|
  {
    if rows == [] then []
    else (if rows[0].id == id then [rows[0]] else []) + Matches(rows[1..], id)
  }

  /** Each row with the id is selected exactly as often as the table holds it; no other row is. */
  lemma {:induction false} MatchesCounts(rows: seq<Product>, id: string, p: Product)
    ensures multiset(Matches(rows, id))[p] == if p.id == id then multiset(rows)[p] else 0
  {
    if rows != [] {
      assert rows == [rows[0]] + rows[1..];
      MatchesCounts(rows[1..], id, p);
    }
  }

  /** The selection keeps table order: selecting from two runs of rows is selecting from each in turn. */
  lemma {:induction false} MatchesKeepsOrder(a: seq<Product>, b: seq<Product>, id: string)
    ensures Matches(a + b, id) == Matches(a, id) + Matches(b, id)
  {
    if a != [] {
      assert (a + b)[0] == a[0];
      assert (a + b)[1..] == a[1..] + b;
      MatchesKeepsOrder(a[1..], b, id);
    } else {
      assert a + b == b;
    }
  }

  /** `.eq('id', id).single()`: the row with that id when exactly one row has it, else an error. */
  function FetchProduct(rows: seq<Product>, id: string): (r: Option<Product>)
    ensures r.Some? <==> |Matches(rows, id)| == 1
    ensures r.Some? ==> r.value in rows && r.value.id == id
    ensures r.Some? ==> forall p :: p in rows && p.id == id ==> p == r.value
  {
    var m := Matches(rows, id);
    if |m| == 1 then Some(m[0]) else None
  }

  /** `.update(u).eq('id', id)`: every row with that id gets the update, other rows stay. */
  function UpdateRows(rows: seq<Product>, id: string, u: StockUpdate): (r: seq<Product>)
    ensures |r| == |rows|
    ensures forall i :: 0 <= i < |rows| && rows[i].id != id ==> r[i] == rows[i]
    ensures forall i :: 0 <= i < |rows| && rows[i].id == id ==> r[i] == ApplyUpdate(rows[i], u)
  {
    if rows == [] then []
    else [if rows[0].id == id then ApplyUpdate(rows[0], u) else rows[0]] + UpdateRows(rows[1..], id, u)
  }

  /** Updating by id changes nothing that another id selects. */
  lemma {:induction false} OtherMatchesAfterUpdate(rows: seq<Product>, id: string, u: StockUpdate, other: string)
    requires other != id
    ensures Matches(UpdateRows(rows, id, u), other) == Matches(rows, other)
  {
    if rows != [] {
      OtherMatchesAfterUpdate(rows[1..], id, u, other);
      var after := UpdateRows(rows, id, u);
      assert after == [after[0]] + UpdateRows(rows[1..], id, u);
      assert after[0].id == rows[0].id;
      assert rows[0].id == other ==> after[0] == rows[0];
    }
  }

  /** Each row of `ps` with the update applied, in order. */
  function ApplyAll(ps: seq<Product>, u: StockUpdate): (r: seq<Product>)
    ensures |r| == |ps|
  {
    if ps == [] then [] else [ApplyUpdate(ps[0], u)] + ApplyAll(ps[1..], u)
  }

  /** The rows an id selects after an update by that id are the rows it selected before, each updated. */
  lemma {:induction false} OwnMatchesAfterUpdate(rows: seq<Product>, id: string, u: StockUpdate)
    ensures Matches(UpdateRows(rows, id, u), id) == ApplyAll(Matches(rows, id), u)
  {
    if rows != [] {
      OwnMatchesAfterUpdate(rows[1..], id, u);
      var after := UpdateRows(rows, id, u);
      assert after[1..] == UpdateRows(rows[1..], id, u);
      var rest := Matches(rows[1..], id);
      var updated := ApplyAll(rest, u);
      assert Matches(after[1..], id) == updated;
      if rows[0].id == id {
        assert after[0] == ApplyUpdate(rows[0], u);
        assert Matches(after, id) == [ApplyUpdate(rows[0], u)] + updated;
        assert Matches(rows, id) == [rows[0]] + rest;
        assert ([rows[0]] + rest)[1..] == rest;
        assert ApplyAll([rows[0]] + rest, u) == [ApplyUpdate(rows[0], u)] + updated;
      } else {
        assert after[0] == rows[0];
        assert Matches(after, id) == updated;
        assert Matches(rows, id) == rest;
      }
    }
  }

  /** After an update by id, fetching that id yields the fetched row with the update applied. */
  lemma FetchAfterUpdate(rows: seq<Product>, id: string, u: StockUpdate)
    requires FetchProduct(rows, id).Some?
    ensures FetchProduct(UpdateRows(rows, id, u), id) == Some(ApplyUpdate(FetchProduct(rows, id).value, u))
  {
    OwnMatchesAfterUpdate(rows, id, u);
    var m := Matches(rows, id);
    assert m[0] in m;
    assert ApplyAll(m, u) == [ApplyUpdate(m[0], u)] + ApplyAll(m[1..], u);
  }

  /** An update by an id no row has leaves the table as it is. */
  lemma {:induction false} UpdateMissingRow(rows: seq<Product>, id: string, u: StockUpdate)
    requires forall p :: p in rows ==> p.id != id
    ensures UpdateRows(rows, id, u) == rows
  {
    if rows != [] {
      assert forall p :: p in rows[1..] ==> p in rows;
      UpdateMissingRow(rows[1..], id, u);
    }
  }

  /** Running the same update twice leaves the table as running it once. */
  lemma UpdateRowsIdempotent(rows: seq<Product>, id: string, u: StockUpdate)
    ensures UpdateRows(UpdateRows(rows, id, u), id, u) == UpdateRows(rows, id, u)
  {
    var once := UpdateRows(rows, id, u);
    var twice := UpdateRows(once, id, u);
    forall i | 0 <= i < |rows| && rows[i].id == id
      ensures twice[i] == once[i]
    {
      ApplyUpdateIdempotent(rows[i], u);
    }
  }

  // ---------------------------------------------------------------------------
  // The update records the three operations build

  /** The record addInventory writes for product `p`: the old stock of `w` plus `quantity`. */
  function AddData(p: Product, w: WarehouseId, quantity: int): StockUpdate {
    map[w := Level(p, w) + quantity]
  }

  /** The record updateInventory writes: the stock of `w` set to `newQuantity`. */
  function SetData(w: WarehouseId, newQuantity: int): StockUpdate {
    map[w := newQuantity]
  }

  /**
   * The record transferInventory writes for product `p`, or None when the source would go
   * below zero. The destination entry is assigned last, so it wins when source == destination.
   */
  function TransferData(p: Product, source: WarehouseId, dest: WarehouseId, quantity: int): (r: Option<StockUpdate>)
    ensures r.None? <==> Level(p, source) - quantity < 0
    ensures r.Some? ==> r.value.Keys == {source, dest} && r.value[dest] == Level(p, dest) + quantity
    ensures r.Some? && source != dest ==> r.value[source] == Level(p, source) - quantity
  {
    var sourceQuantity := Level(p, source) - quantity;
    var destQuantity := Level(p, dest) + quantity;
    if sourceQuantity < 0 then None else Some(map[source := sourceQuantity][dest := destQuantity])
  }

  /** addInventory changes exactly one stock column, by `quantity`, with no lower bound. */
  lemma AddChangesOneSlot(p: Product, w: WarehouseId, quantity: int)
    ensures Level(ApplyUpdate(p, AddData(p, w, quantity)), w) == Level(p, w) + quantity
    ensures SameExcept(p, ApplyUpdate(p, AddData(p, w, quantity)), {w})
  {
  }

  /** An add of `quantity` followed by an add of `-quantity` restores the warehouse's stock. */
  lemma AddThenSubtractRestores(p: Product, w: WarehouseId, quantity: int, undo: int)
    requires quantity + undo == 0
    ensures var once := ApplyUpdate(p, AddData(p, w, quantity));
            var back := ApplyUpdate(once, AddData(once, w, undo));
            Level(back, w) == Level(p, w) && SameExcept(p, back, {w})
            && (Slot(p, w).Some? ==> back == p)
  {
    var once := ApplyUpdate(p, AddData(p, w, quantity));
    var back := ApplyUpdate(once, AddData(once, w, undo));
    if Slot(p, w).Some? {
      assert Slot(back, Main) == Slot(p, Main);
      assert Slot(back, Secondary1) == Slot(p, Secondary1);
      assert Slot(back, Secondary2) == Slot(p, Secondary2);
      assert Slot(back, Secondary3) == Slot(p, Secondary3);
    }
  }

  /** updateInventory sets one column whatever it held, and setting it again changes nothing. */
  lemma SetIsIdempotent(p: Product, w: WarehouseId, newQuantity: int)
    ensures Slot(ApplyUpdate(p, SetData(w, newQuantity)), w) == Some(newQuantity)
    ensures SameExcept(p, ApplyUpdate(p, SetData(w, newQuantity)), {w})
    ensures ApplyUpdate(ApplyUpdate(p, SetData(w, newQuantity)), SetData(w, newQuantity))
            == ApplyUpdate(p, SetData(w, newQuantity))
  {
    ApplyUpdateIdempotent(p, SetData(w, newQuantity));
  }

  /**
   * A transfer between two different warehouses moves `quantity` from the source to the
   * destination, leaves the other two columns alone and conserves the total stock.
   */
  lemma TransferConserves(p: Product, source: WarehouseId, dest: WarehouseId, quantity: int)
    requires source != dest
    requires TransferData(p, source, dest, quantity).Some?
    ensures var r := ApplyUpdate(p, TransferData(p, source, dest, quantity).value);
            && Level(r, source) == Level(p, source) - quantity >= 0
            && Level(r, dest) == Level(p, dest) + quantity
            && SameExcept(p, r, {source, dest})
            && TotalStock(r) == TotalStock(p)
  {
    var r := ApplyUpdate(p, TransferData(p, source, dest, quantity).value);
    assert forall w :: w != source && w != dest ==> Level(r, w) == Level(p, w);
  }

  /**
   * With source == destination the destination assignment overwrites the source one:
   * the warehouse gains `quantity` and the total rises by `quantity`.
   */
  lemma TransferToSelfGains(p: Product, w: WarehouseId, quantity: int)
    requires TransferData(p, w, w, quantity).Some?
    ensures var r := ApplyUpdate(p, TransferData(p, w, w, quantity).value);
            && Level(r, w) == Level(p, w) + quantity
            && SameExcept(p, r, {w})
            && TotalStock(r) == TotalStock(p) + quantity
  {
    var r := ApplyUpdate(p, TransferData(p, w, w, quantity).value);
    assert forall u :: u != w ==> Level(r, u) == Level(p, u);
  }

  // ---------------------------------------------------------------------------
  // Outcomes of the three operations on the products table

  /** The products table after addInventory, or None when it returns false. */
  function AddOutcome(rows: seq<Product>, id: string, w: WarehouseId, quantity: int, faults: Faults): Option<seq<Product>> {
    if faults.fetch then None
    else match FetchProduct(rows, id)
      case None => None
      case Some(p) => if faults.write then None else Some(UpdateRows(rows, id, AddData(p, w, quantity)))
  }

  /** The products table after updateInventory, or None when it returns false. */
  function SetOutcome(rows: seq<Product>, id: string, w: WarehouseId, newQuantity: int, faults: Faults): Option<seq<Product>> {
    if faults.write then None else Some(UpdateRows(rows, id, SetData(w, newQuantity)))
  }

  /** The products table after transferInventory, or None when it returns false. */
  function TransferOutcome(rows: seq<Product>, id: string, source: WarehouseId, dest: WarehouseId, quantity: int, faults: Faults): Option<seq<Product>> {
    if faults.fetch then None
    else match FetchProduct(rows, id)
      case None => None
      case Some(p) =>
        match TransferData(p, source, dest, quantity)
        case None => None
        case Some(u) => if faults.write then None else Some(UpdateRows(rows, id, u))
  }

  /** The transfer is refused when the fetched row's source stock is short. */
  lemma TransferRefused(rows: seq<Product>, id: string, source: WarehouseId, dest: WarehouseId, quantity: int, faults: Faults)
    requires FetchProduct(rows, id).Some? && Level(FetchProduct(rows, id).value, source) - quantity < 0
    ensures TransferOutcome(rows, id, source, dest, quantity, faults) == None
  {
  }

  /** A transfer whose reads and write succeed writes the record built from the fetched row. */
  lemma TransferWrites(rows: seq<Product>, id: string, source: WarehouseId, dest: WarehouseId, quantity: int,
                       faults: Faults, u: StockUpdate)
    requires !faults.fetch && !faults.write && FetchProduct(rows, id).Some?
    requires var p := FetchProduct(rows, id).value;
             Level(p, source) - quantity >= 0
             && u == map[source := Level(p, source) - quantity][dest := Level(p, dest) + quantity]
    ensures TransferOutcome(rows, id, source, dest, quantity, faults) == Some(UpdateRows(rows, id, u))
  {
    var p := FetchProduct(rows, id).value;
    assert TransferData(p, source, dest, quantity) == Some(u);
  }

  /** The movements appended by one operation: one record on success unless its insert fails. */
  function Logged(ok: bool, logFails: bool, m: Movement): seq<Movement> {
    if ok && !logFails then [m] else []
  }

  /**
   * addInventory succeeds exactly when the fetch and the update succeed (no bound on the
   * new stock); then the product's row is the fetched row with one column raised by
   * `quantity`, and every other id selects the same rows as before.
   */
  lemma AddOutcomeEffect(rows: seq<Product>, id: string, w: WarehouseId, quantity: int, faults: Faults)
    ensures AddOutcome(rows, id, w, quantity, faults).Some?
            <==> !faults.fetch && FetchProduct(rows, id).Some? && !faults.write
    ensures AddOutcome(rows, id, w, quantity, faults).Some? ==>
              var p := FetchProduct(rows, id).value;
              var after := AddOutcome(rows, id, w, quantity, faults).value;
              && FetchProduct(after, id) == Some(ApplyUpdate(p, AddData(p, w, quantity)))
              && Level(FetchProduct(after, id).value, w) == Level(p, w) + quantity
              && SameExcept(p, FetchProduct(after, id).value, {w})
              && forall other :: other != id ==> Matches(after, other) == Matches(rows, other)
  {
    if AddOutcome(rows, id, w, quantity, faults).Some? {
      var p := FetchProduct(rows, id).value;
      FetchAfterUpdate(rows, id, AddData(p, w, quantity));
      forall other | other != id
        ensures Matches(UpdateRows(rows, id, AddData(p, w, quantity)), other) == Matches(rows, other)
      {
        OtherMatchesAfterUpdate(rows, id, AddData(p, w, quantity), other);
      }
    }
  }

  /**
   * An add of `quantity` followed by an add of `-quantity` on the same product and warehouse,
   * both succeeding, restores that stock and leaves everything else as it was.
   */
  lemma AddTwiceRestores(rows: seq<Product>, mid: seq<Product>, after: seq<Product>,
                         id: string, w: WarehouseId, quantity: int, undo: int, first: Faults, second: Faults)
    requires quantity + undo == 0
    requires AddOutcome(rows, id, w, quantity, first) == Some(mid)
    requires AddOutcome(mid, id, w, undo, second) == Some(after)
    ensures FetchProduct(rows, id).Some? && FetchProduct(after, id).Some?
    ensures Level(FetchProduct(after, id).value, w) == Level(FetchProduct(rows, id).value, w)
    ensures SameExcept(FetchProduct(rows, id).value, FetchProduct(after, id).value, {w})
    ensures forall other :: other != id ==> Matches(after, other) == Matches(rows, other)
  {
    var p := FetchProduct(rows, id).value;
    assert mid == UpdateRows(rows, id, AddData(p, w, quantity));
    FetchAfterUpdate(rows, id, AddData(p, w, quantity));
    var p1 := ApplyUpdate(p, AddData(p, w, quantity));
    assert FetchProduct(mid, id) == Some(p1);
    assert after == UpdateRows(mid, id, AddData(p1, w, undo));
    FetchAfterUpdate(mid, id, AddData(p1, w, undo));
    AddThenSubtractRestores(p, w, quantity, undo);
    forall other | other != id
      ensures Matches(after, other) == Matches(rows, other)
    {
      OtherMatchesAfterUpdate(rows, id, AddData(p, w, quantity), other);
      OtherMatchesAfterUpdate(mid, id, AddData(p1, w, undo), other);
    }
  }

  /**
   * updateInventory succeeds exactly when the update succeeds. The product's row then holds
   * `newQuantity` in the chosen column; a missing product leaves the table unchanged; and
   * running it a second time changes nothing more.
   */
  lemma SetOutcomeEffect(rows: seq<Product>, id: string, w: WarehouseId, newQuantity: int, faults: Faults)
    ensures SetOutcome(rows, id, w, newQuantity, faults).Some? <==> !faults.write
    ensures SetOutcome(rows, id, w, newQuantity, faults).Some? ==>
              var after := SetOutcome(rows, id, w, newQuantity, faults).value;
              && SetOutcome(after, id, w, newQuantity, faults) == Some(after)
              && (FetchProduct(rows, id).Some? ==>
                    FetchProduct(after, id) == Some(ApplyUpdate(FetchProduct(rows, id).value, SetData(w, newQuantity)))
                    && Slot(FetchProduct(after, id).value, w) == Some(newQuantity))
              && ((forall p :: p in rows ==> p.id != id) ==> after == rows)
              && forall other :: other != id ==> Matches(after, other) == Matches(rows, other)
  {
    if !faults.write {
      var u := SetData(w, newQuantity);
      UpdateRowsIdempotent(rows, id, u);
      if FetchProduct(rows, id).Some? {
        FetchAfterUpdate(rows, id, u);
      }
      if forall p :: p in rows ==> p.id != id {
        UpdateMissingRow(rows, id, u);
      }
      forall other | other != id
        ensures Matches(UpdateRows(rows, id, u), other) == Matches(rows, other)
      {
        OtherMatchesAfterUpdate(rows, id, u, other);
      }
    }
  }

  /**
   * transferInventory fails, writing nothing, when the source would go below zero.
   * When it succeeds between two different warehouses the source drops and the destination
   * rises by `quantity`, the product's total stock is conserved, the other two columns
   * and every other product are unchanged.
   */
  lemma TransferOutcomeEffect(rows: seq<Product>, id: string, source: WarehouseId, dest: WarehouseId, quantity: int, faults: Faults)
    ensures FetchProduct(rows, id).Some? && Level(FetchProduct(rows, id).value, source) - quantity < 0
            ==> TransferOutcome(rows, id, source, dest, quantity, faults).None?
    ensures TransferOutcome(rows, id, source, dest, quantity, faults).Some?
            <==> !faults.fetch && FetchProduct(rows, id).Some? && !faults.write
                 && Level(FetchProduct(rows, id).value, source) >= quantity
    ensures TransferOutcome(rows, id, source, dest, quantity, faults).Some? && source != dest ==>
              var p := FetchProduct(rows, id).value;
              var after := TransferOutcome(rows, id, source, dest, quantity, faults).value;
              && FetchProduct(after, id).Some?
              && Level(FetchProduct(after, id).value, source) == Level(p, source) - quantity >= 0
              && Level(FetchProduct(after, id).value, dest) == Level(p, dest) + quantity
              && TotalStock(FetchProduct(after, id).value) == TotalStock(p)
              && SameExcept(p, FetchProduct(after, id).value, {source, dest})
              && forall other :: other != id ==> Matches(after, other) == Matches(rows, other)
  {
    if TransferOutcome(rows, id, source, dest, quantity, faults).Some? {
      var p := FetchProduct(rows, id).value;
      var u := TransferData(p, source, dest, quantity).value;
      FetchAfterUpdate(rows, id, u);
      if source != dest {
        TransferConserves(p, source, dest, quantity);
      }
      forall other | other != id
        ensures Matches(UpdateRows(rows, id, u), other) == Matches(rows, other)
      {
        OtherMatchesAfterUpdate(rows, id, u, other);
      }
    }
  }

  // ---------------------------------------------------------------------------
  // Reading the movements table

  /** `getInventoryMovements(productId)`: the movements of one product, or all when the id is empty. */
  function MovementsFor(log: seq<Movement>, productId: string): (r: seq<Movement>)
    ensures productId == "" ==> r == log
    ensures productId != "" ==> forall m :: m in r <==> m in log && m.productId == productId
    ensures |r| <= |log|
  {
    if log == [] then []
    else if productId == "" || log[0].productId == productId then [log[0]] + MovementsFor(log[1..], productId)
    else MovementsFor(log[1..], productId)
  }

  /** Each matching movement is returned exactly as often as the log holds it; no other one is. */
  lemma {:induction false} MovementsForCounts(log: seq<Movement>, productId: string, m: Movement)
    ensures multiset(MovementsFor(log, productId))[m]
            == if productId == "" || m.productId == productId then multiset(log)[m] else 0
  {
    if log != [] {
      assert log == [log[0]] + log[1..];
      MovementsForCounts(log[1..], productId, m);
    }
  }

  /** The selection keeps table order: selecting from two runs of rows is selecting from each in turn. */
  lemma {:induction false} MovementsForKeepsOrder(a: seq<Movement>, b: seq<Movement>, productId: string)
    ensures MovementsFor(a + b, productId) == MovementsFor(a, productId) + MovementsFor(b, productId)
  {
    if a != [] {
      assert (a + b)[0] == a[0];
      assert (a + b)[1..] == a[1..] + b;
      MovementsForKeepsOrder(a[1..], b, productId);
    } else {
      assert a + b == b;
    }
  }

  // ---------------------------------------------------------------------------
  // The service over in-memory tables

  class InventoryStore {
    /** The products table, in table order. */
    var products: seq<Product>
    /** The inventory_movements table, in insertion order. */
    var movements: seq<Movement>

    constructor (products: seq<Product>, movements: seq<Movement>)
      ensures this.products == products && this.movements == movements
    {
      this.products := products;
      this.movements := movements;
    }

    /** `getProducts`: every row, or no rows when the query fails. */
    method GetProducts(fails: bool) returns (rows: seq<Product>)
      ensures fails ==> rows == []
      ensures !fails ==> rows == products
    {
      if fails {
        return [];
      }
      rows := products;
    }

    /** `addInventory`: raise (or, with a negative delta, lower) one stock column of a product. */
    method AddInventory(productId: string, warehouse: WarehouseId, quantity: int, faults: Faults) returns (ok: bool)
      modifies this
      ensures ok <==> AddOutcome(old(products), productId, warehouse, quantity, faults).Some?
      ensures products == AddOutcome(old(products), productId, warehouse, quantity, faults).GetOr(old(products))
      ensures movements == old(movements) + Logged(ok, faults.log, Movement(productId, warehouse, None, quantity, Add))
    {
      if faults.fetch {
        return false;
      }
      var fetched := FetchProduct(products, productId);
      if fetched.None? {
        return false;
      }
      var product := fetched.value;
      var updateData: StockUpdate := map[];
      updateData := updateData[warehouse := Level(product, warehouse) + quantity];
      assert updateData == AddData(product, warehouse, quantity);
      if faults.write {
        return false;
      }
      products := UpdateRows(products, productId, updateData);
      if !faults.log {
        movements := movements + [Movement(productId, warehouse, None, quantity, Add)];
      }
      ok := true;
    }

    /** `updateInventory`: set one stock column of a product to an absolute value, without reading it. */
    method UpdateInventory(productId: string, warehouse: WarehouseId, newQuantity: int, faults: Faults) returns (ok: bool)
      modifies this
      ensures ok <==> SetOutcome(old(products), productId, warehouse, newQuantity, faults).Some?
      ensures products == SetOutcome(old(products), productId, warehouse, newQuantity, faults).GetOr(old(products))
      ensures movements == old(movements) + Logged(ok, faults.log, Movement(productId, warehouse, None, newQuantity, Update))
    {
      var updateData: StockUpdate := map[];
      updateData := updateData[warehouse := newQuantity];
      if faults.write {
        return false;
      }
      products := UpdateRows(products, productId, updateData);
      if !faults.log {
        movements := movements + [Movement(productId, warehouse, None, newQuantity, Update)];
      }
      ok := true;
    }

    /** `transferInventory`: move `quantity` from one warehouse column to another, refusing an overdraw. */
    method TransferInventory(productId: string, source: WarehouseId, dest: WarehouseId, quantity: int, faults: Faults)
      returns (ok: bool)
      modifies this
      ensures ok <==> TransferOutcome(old(products), productId, source, dest, quantity, faults).Some?
      ensures products == TransferOutcome(old(products), productId, source, dest, quantity, faults).GetOr(old(products))
      ensures movements == old(movements) + Logged(ok, faults.log, Movement(productId, source, Some(dest), quantity, Transfer))
    {
      if faults.fetch {
        return false;
      }
      var fetched := FetchProduct(products, productId);
      if fetched.None? {
        return false;
      }
      var product := fetched.value;
      var sourceQuantity := Level(product, source) - quantity;
      var destQuantity := Level(product, dest) + quantity;
      if sourceQuantity < 0 {
        TransferRefused(products, productId, source, dest, quantity, faults);
        return false;
      }
      var updateData: StockUpdate := map[];
      updateData := updateData[source := sourceQuantity];
      updateData := updateData[dest := destQuantity];
      if faults.write {
        return false;
      }
      TransferWrites(products, productId, source, dest, quantity, faults, updateData);
      products := UpdateRows(products, productId, updateData);
      if !faults.log {
        movements := movements + [Movement(productId, source, Some(dest), quantity, Transfer)];
      }
      ok := true;
    }

    /** `getInventoryMovements`: the movements of one product (all when the id is empty), none on error. */
    method GetInventoryMovements(productId: string, fails: bool) returns (r: seq<Movement>)
      ensures fails ==> r == []
      ensures !fails ==> r == MovementsFor(movements, productId)
    {
      if fails {
        return [];
      }
      r := MovementsFor(movements, productId);
    }
  }
}
