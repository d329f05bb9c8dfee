/** backend/models/Product.js: the product record, its schema bounds and the
    two document methods `isLowStock` and `updateStock`. */
module Products {
  import opened Common

  datatype Unit = Piece | Kg | Gram | Liter | Ml | Meter | Dozen | Box | Packet | OtherUnit

  datatype ProductStats = ProductStats(totalSold: int, revenue: int, views: int)

  /** A stored product, as far as the core reads or writes it. */
  datatype ProductRecord = ProductRecord(
    id: Id,
    shopId: Id,
    name: string,
    price: int,
    stock: int,
    unit: Unit,
    stats: ProductStats,
    lastRestocked: Option<Time>)

  /** The numeric schema bounds: `price >= 0` and `stock >= 0`. */
  predicate InBounds(r: ProductRecord) {
    r.price >= 0 && r.stock >= 0
  }

  /** A product as `Product.create` stores it when only the required fields are
      given: stock 0, unit 'piece', zero stats, never restocked. */
  function NewProduct(id: Id, shopId: Id, name: string, price: int, stock: Option<int>): (r: ProductRecord)
    ensures r.stock == (if stock.Some? then stock.value else 0)
    ensures r.unit == Piece && r.stats == ProductStats(0, 0, 0) && r.lastRestocked == None
    ensures price >= 0 && r.stock >= 0 ==> InBounds(r)
  {
    ProductRecord(id, shopId, name, price, stock.GetOr(0), Piece, ProductStats(0, 0, 0), None)
  }

  /** `isLowStock(threshold = 10)` */
  predicate LowStock(stock: int, threshold: Option<int>) {
    stock <= threshold.GetOr(10)
  }

  /** The record after `updateStock(quantity, operation = 'subtract')` at instant `now`. */
  function StockUpdated(r: ProductRecord, quantity: int, operation: Option<string>, now: Time): (u: ProductRecord)
    ensures operation.GetOr("subtract") == "subtract" ==>
              u.stock >= 0 && (quantity <= r.stock ==> u.stock == r.stock - quantity)
              && (quantity > r.stock ==> u.stock == 0) && u.lastRestocked == r.lastRestocked
    ensures operation == Some("add") ==> u.stock == r.stock + quantity && u.lastRestocked == Some(now)
    ensures operation.GetOr("subtract") !in {"subtract", "add"} ==> u == r
    ensures u == r.(stock := u.stock, lastRestocked := u.lastRestocked)
  {
    var op := operation.GetOr("subtract");
    if op == "subtract" then r.(stock := Max(0, r.stock - quantity))
    else if op == "add" then r.(stock := r.stock + quantity, lastRestocked := Some(now))
    else r
  }

  /** Restocking and then selling the same quantity gives the stock back. */
  lemma AddThenSubtract(r: ProductRecord, q: int, t1: Time, t2: Time)
    requires r.stock >= 0 && q >= 0
    ensures StockUpdated(StockUpdated(r, q, Some("add"), t1), q, Some("subtract"), t2).stock == r.stock
  {
  }

  /** The clamp loses stock: selling more than there is and restocking the same
      quantity does not give the stock back. */
  lemma SubtractThenAddLoses(r: ProductRecord, q: int, t1: Time, t2: Time)
    requires r.stock >= 0 && q > r.stock
    ensures StockUpdated(StockUpdated(r, q, None, t1), q, Some("add"), t2).stock == q
    ensures StockUpdated(StockUpdated(r, q, None, t1), q, Some("add"), t2).stock != r.stock
  {
  }

  /** `updateStock` keeps the schema bounds for every subtraction and for every
      non-negative addition. */
  lemma StockUpdatedInBounds(r: ProductRecord, q: int, op: Option<string>, now: Time)
    requires InBounds(r)
    requires op == Some("add") ==> q >= 0
    ensures InBounds(StockUpdated(r, q, op, now))
  {
  }

  /** A product that is low on stock stays low after a sale, and a higher
      threshold flags at least the products a lower one does. */
  lemma LowStockMonotone(r: ProductRecord, q: int, t: Option<int>, t2: int, now: Time)
    requires r.stock >= 0 && LowStock(r.stock, t) && q >= 0
    requires t2 >= t.GetOr(10)
    ensures LowStock(StockUpdated(r, q, None, now).stock, t)
    ensures LowStock(r.stock, Some(t2))
  {
  }

  /** A loaded product document. */
  class Product {
    var id: Id
    var shopId: Id
    var name: string
    var price: int
    var stock: int
    var unit: Unit
    var stats: ProductStats
    var lastRestocked: Option<Time>

    function Record(): ProductRecord
      reads this
    {
      ProductRecord(id, shopId, name, price, stock, unit, stats, lastRestocked)
    }

    constructor Load(r: ProductRecord)
      ensures Record() == r
    {
      id, shopId, name, price := r.id, r.shopId, r.name, r.price;
      stock, unit, stats, lastRestocked := r.stock, r.unit, r.stats, r.lastRestocked;
    }

    /** `isLowStock(threshold)` */
    predicate IsLowStock(threshold: Option<int>)
      reads this
    {
      LowStock(stock, threshold)
    }

    /** `updateStock(quantity, operation)` */
    method UpdateStock(quantity: int, operation: Option<string>, now: Time)
      modifies this
      ensures Record() == StockUpdated(old(Record()), quantity, operation, now)
    {
      var op := operation.GetOr("subtract");
      if op == "subtract" {
        stock := Max(0, stock - quantity);
      } else if op == "add" {
        stock := stock + quantity;
        lastRestocked := Some(now);
      }
    }
  }
}
