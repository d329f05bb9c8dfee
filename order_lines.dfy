/** The stock loop of the order-creation handler (backend/routes/orders.js):
    each requested line is looked up, stock-checked and snapshotted, and the
    product's stock and sales stats are saved before the next line is read. */
module OrderLines {
  import opened Common
  import opened Products
  import Orders

  /** One entry of `req.body.items`. */
  datatype ItemRequest = ItemRequest(productId: Id, quantity: int)

  /** Why a line stopped the loop: 404 for an unknown product, 400 when the
      stock is short. */
  datatype LineFailure =
    | ProductNotFound(productId: Id)
    | InsufficientStock(name: string, available: int)

  /** Where the loop ends: every line processed, or stopped at a line with the
      products as that line found them. */
  datatype Lines =
    | Applied(products: map<Id, ProductRecord>, lines: seq<Orders.LineItem>)
    | Stopped(products: map<Id, ProductRecord>, failure: LineFailure)

  /** The line pushed into `processedItems`. */
  function Snapshot(productId: Id, p: ProductRecord, quantity: int): (l: Orders.LineItem)
    ensures l.productId == productId && l.quantity == quantity && l.subtotal == p.price * quantity
    ensures l.name == p.name && l.price == p.price && l.unit == p.unit
  {
    Orders.LineItem(productId, p.name, p.price, quantity, p.unit, p.price * quantity)
  }

  /** The product saved after a line: `updateStock(quantity, 'subtract')`, then
      `totalSold += quantity` and `revenue += price * quantity`. */
  function Sold(p: ProductRecord, quantity: int, now: Time): ProductRecord {
    var u := StockUpdated(p, quantity, Some("subtract"), now);
    u.(stats := u.stats.(totalSold := u.stats.totalSold + quantity, revenue := u.stats.revenue + u.price * quantity))
  }

  /** One iteration of the loop, from the products and lines so far. */
  function Step(products: map<Id, ProductRecord>, lines: seq<Orders.LineItem>, item: ItemRequest, now: Time): Lines {
    if item.productId !in products then Stopped(products, ProductNotFound(item.productId))
    else
      var p := products[item.productId];
      if p.stock < item.quantity then Stopped(products, InsufficientStock(p.name, p.stock))
      else Applied(products[item.productId := Sold(p, item.quantity, now)],
                   lines + [Snapshot(item.productId, p, item.quantity)])
  }

  /** The loop over `items`, in order; the first failing line ends it. */
  function ApplyLines(products: map<Id, ProductRecord>, items: seq<ItemRequest>, now: Time): Lines
    decreases |items|
  {
    if items == [] then Applied(products, [])
    else
      var prev := ApplyLines(products, items[..|items| - 1], now);
      if prev.Stopped? then prev
      else Step(prev.products, prev.lines, items[|items| - 1], now)
  }

  /** The loop is not atomic: when it stops at line k, lines 0..k-1 have been
      applied and saved, line k failed on what they left behind, and no line
      after k was looked at. */
  lemma {:induction false} StoppedAfterPrefix(products: map<Id, ProductRecord>, items: seq<ItemRequest>, now: Time)
    requires ApplyLines(products, items, now).Stopped?
    ensures exists k :: 0 <= k < |items| && ApplyLines(products, items[..k], now).Applied?
              && Step(ApplyLines(products, items[..k], now).products, ApplyLines(products, items[..k], now).lines,
                      items[k], now) == ApplyLines(products, items, now)
  {
    var n := |items|;
    var prev := ApplyLines(products, items[..n - 1], now);
    if prev.Stopped? {
      StoppedAfterPrefix(products, items[..n - 1], now);
      var k :| 0 <= k < n - 1 && ApplyLines(products, items[..n - 1][..k], now).Applied?
               && Step(ApplyLines(products, items[..n - 1][..k], now).products,
                       ApplyLines(products, items[..n - 1][..k], now).lines,
                       items[..n - 1][k], now) == prev;
      assert items[..n - 1][..k] == items[..k];
    } else {
      assert items[..n - 1] == items[..n - 1];
    }
  }

  /** Once a prefix of the items stops the loop, the whole run stops there. */
  lemma {:induction false} StoppedPersists(products: map<Id, ProductRecord>, items: seq<ItemRequest>, k: nat, now: Time)
    requires k <= |items| && ApplyLines(products, items[..k], now).Stopped?
    ensures ApplyLines(products, items, now) == ApplyLines(products, items[..k], now)
    decreases |items|
  {
    if k < |items| {
      var n := |items|;
      assert items[..n - 1][..k] == items[..k];
      StoppedPersists(products, items[..n - 1], k, now);
    } else {
      assert items[..k] == items;
    }
  }

  /** Total quantity the items request of product `pid`. */
  function SumQty(items: seq<ItemRequest>, pid: Id): int
    decreases |items|
  {
    if items == [] then 0
    else SumQty(items[..|items| - 1], pid) + (if items[|items| - 1].productId == pid then items[|items| - 1].quantity else 0)
  }

  /** A product after `q` units of it have been sold by the loop, the clamp
      never firing: stock down by exactly `q`, totalSold up by `q`, revenue up
      by `price * q`, everything else as it was. */
  function After(p: ProductRecord, q: int): ProductRecord {
    p.(stock := p.stock - q,
       stats := p.stats.(totalSold := p.stats.totalSold + q, revenue := p.stats.revenue + p.price * q))
  }

  lemma AfterAfter(p: ProductRecord, a: int, b: int)
    ensures After(After(p, a), b) == After(p, a + b)
  {
    assert p.price * a + p.price * b == p.price * (a + b);
  }

  /** On success every line's product existed, each product's stock fell by
      exactly the quantity the items ask of it (so the `max(0, ...)` clamp
      never fired), its `totalSold` and `revenue` rose by that quantity and
      its value, and no product was added or removed. */
  lemma {:induction false} AppliedAccounting(products: map<Id, ProductRecord>, items: seq<ItemRequest>, now: Time)
    requires ApplyLines(products, items, now).Applied?
    ensures var r := ApplyLines(products, items, now);
            && r.products.Keys == products.Keys
            && (forall i :: 0 <= i < |items| ==> items[i].productId in products)
            && (forall pid :: pid in products ==> r.products[pid] == After(products[pid], SumQty(items, pid)))
            && (forall pid :: pid in products && SumQty(items, pid) != 0 ==> r.products[pid].stock >= 0)
  {
    var n := |items|;
    if n > 0 {
      var prefix := items[..n - 1];
      var prev := ApplyLines(products, prefix, now);
      AppliedAccounting(products, prefix, now);
      var it := items[n - 1];
      var p := prev.products[it.productId];
      assert p.stock >= it.quantity;
      forall pid | pid in products
        ensures ApplyLines(products, items, now).products[pid] == After(products[pid], SumQty(items, pid))
      {
        if pid == it.productId {
          AfterAfter(products[pid], SumQty(prefix, pid), it.quantity);
        }
      }
      forall i | 0 <= i < n
        ensures items[i].productId in products
      {
        if i < n - 1 {
          assert items[i] == prefix[i];
        }
      }
    }
  }

  /** Each processed line is the snapshot of its product as stored before the
      order: the loop changes stock and stats only, never name, price or unit. */
  lemma {:induction false} AppliedSnapshots(products: map<Id, ProductRecord>, items: seq<ItemRequest>, now: Time)
    requires ApplyLines(products, items, now).Applied?
    ensures var r := ApplyLines(products, items, now);
            && |r.lines| == |items|
            && forall i :: 0 <= i < |items| ==>
                 items[i].productId in products
                 && r.lines[i] == Snapshot(items[i].productId, products[items[i].productId], items[i].quantity)
  {
    var n := |items|;
    if n > 0 {
      var prefix := items[..n - 1];
      var prev := ApplyLines(products, prefix, now);
      AppliedSnapshots(products, prefix, now);
      AppliedAccounting(products, prefix, now);
      AppliedAccounting(products, items, now);
      var r := ApplyLines(products, items, now);
      forall i | 0 <= i < n
        ensures r.lines[i] == Snapshot(items[i].productId, products[items[i].productId], items[i].quantity)
      {
        if i < n - 1 {
          assert items[i] == prefix[i];
          assert r.lines[i] == prev.lines[i];
        }
      }
    }
  }
}
