/** Warehouses and the per-warehouse stock columns of a product row. */
module Stock {

  /** A nullable value: a column that may be missing from a row. */
  datatype Option<+T> = None | Some(value: T) {
    /** The value, or `default` when it is missing. */
    function GetOr(default: T): T {
      match this
      case Some(v) => v
      case None => default
    }
  }

  /** The four warehouses a product row keeps a stock column for. */
  datatype WarehouseId = Main | Secondary1 | Secondary2 | Secondary3

  /** The string id the application uses for a warehouse. */
  function IdOf(w: WarehouseId): string {
    match w
    case Main => "main"
    case Secondary1 => "1"
    case Secondary2 => "2"
    case Secondary3 => "3"
  }

  /** The warehouse a string id denotes, if it is one of the four. */
  function ParseWarehouse(s: string): (r: Option<WarehouseId>)
    ensures forall w :: r == Some(w) <==> IdOf(w) == s
  {
    if s == "main" then Some(Main)
    else if s == "1" then Some(Secondary1)
    else if s == "2" then Some(Secondary2)
    else if s == "3" then Some(Secondary3)
    else None
  }

  /**
   * A row of the products table, restricted to the fields the stock logic reads:
   * `stock` (main warehouse), `stock_1`, `stock_2`, `stock_3` and `min_stock`.
   */
  datatype Product = Product(
    id: string,
    name: string,
    stock: Option<int>,
    stock1: Option<int>,
    stock2: Option<int>,
    stock3: Option<int>,
    minStock: Option<int>)

  /** The column that holds the stock of warehouse `w`. */
  function Slot(p: Product, w: WarehouseId): Option<int> {
    match w
    case Main => p.stock
    case Secondary1 => p.stock1
    case Secondary2 => p.stock2
    case Secondary3 => p.stock3
  }

  /** The stock of `w`, a missing column counting as 0. */
  function Level(p: Product, w: WarehouseId): int {
    Slot(p, w).GetOr(0)
  }

  /** The minimum-stock threshold, a missing column counting as 0. */
  function MinLevel(p: Product): int {
    p.minStock.GetOr(0)
  }

  /** The stock of a product summed over the four warehouses. */
  function TotalStock(p: Product): int {
    Level(p, Main) + Level(p, Secondary1) + Level(p, Secondary2) + Level(p, Secondary3)
  }

  /** An update record over stock columns: the columns it writes and their new values. */
  type StockUpdate = map<WarehouseId, int>

  /** `r` and `p` agree on every field except possibly the stock of the warehouses in `ws`. */
  predicate SameExcept(p: Product, r: Product, ws: set<WarehouseId>) {
    && r.id == p.id
    && r.name == p.name
    && r.minStock == p.minStock
    && forall u :: u !in ws ==> Slot(r, u) == Slot(p, u)
  }

  /** The row after an update: the columns named in `u` get their new values, nothing else changes. */
  function ApplyUpdate(p: Product, u: StockUpdate): (r: Product)
    ensures forall w :: Slot(r, w) == if w in u then Some(u[w]) else Slot(p, w)
    ensures SameExcept(p, r, u.Keys)
  {
    p.(stock := if Main in u then Some(u[Main]) else p.stock,
       stock1 := if Secondary1 in u then Some(u[Secondary1]) else p.stock1,
       stock2 := if Secondary2 in u then Some(u[Secondary2]) else p.stock2,
       stock3 := if Secondary3 in u then Some(u[Secondary3]) else p.stock3)
  }

  /** Writing the same columns with the same values twice is the same as writing them once. */
  lemma ApplyUpdateIdempotent(p: Product, u: StockUpdate)
    ensures ApplyUpdate(ApplyUpdate(p, u), u) == ApplyUpdate(p, u)
  {
    var once := ApplyUpdate(p, u);
    var twice := ApplyUpdate(once, u);
    assert Slot(twice, Main) == Slot(once, Main);
    assert Slot(twice, Secondary1) == Slot(once, Secondary1);
    assert Slot(twice, Secondary2) == Slot(once, Secondary2);
    assert Slot(twice, Secondary3) == Slot(once, Secondary3);
  }
}
