/**
 * The baskets of the two services' unit tests, and three edge cases the
 * code lets through, as consequences of the general properties. Prices are
 * in cents; every table holds one product stored under id 1.
 */
module OrderScenarios {
  import opened Entities
  import opened OrderPlacement
  import opened OrderProperties

  const ProductId: Guid := 1

  /** A one-product table. */
  function Stocked(name: string, price: Cents, stock: Int32): (rows: Rows)
    ensures Keyed(rows) && rows.Keys == {ProductId}
    ensures rows[ProductId].stockQuantity == stock && rows[ProductId].price == price && rows[ProductId].name == name
  {
    map[ProductId := Product(ProductId, name, None, price, stock, [])]
  }

  /** A single-line basket that the table can fill is placed on the first attempt, and takes its stock. */
  lemma {:induction false} OneLinePlaced(v: Variant, name: string, price: Cents, stock: Int32, qty: Int32,
                                         stamps: Stamps, calls: seq<Event>)
    requires qty <= stock
    ensures var r := Run(v, Stocked(name, price, stock), [Line(ProductId, qty)], [], stamps, calls);
      && r.result.Placed? && r.attempts == 1
      && r.result.order.items == [OrderItem(stamps(1).itemId(0), ProductId, qty, price)]
      && r.result.order.total == price * qty
      && r.rows == Stocked(name, price, Wrap32(stock - qty))
  {
    var rows, items := Stocked(name, price, stock), [Line(ProductId, qty)];
    assert Fillable(rows, items);
    RunFillable(v, rows, items, [], stamps, calls);
    RunPlaced(v, rows, items, [], stamps, calls);
    var r := Run(v, rows, items, [], stamps, calls);
    OneLineOrder(rows, qty, stamps(1), r.result.order);
    OneLineTaken(name, price, stock, qty, r.rows);
  }

  lemma {:induction false} OneLineOrder(rows: Rows, qty: Int32, stamp: Stamp, order: Order)
    requires ProductId in rows && |order.items| == 1
    requires order.items[0] == OrderItem(stamp.itemId(0), ProductId, qty, rows[ProductId].price)
    requires order.total == ItemsTotal(rows, [Line(ProductId, qty)])
    ensures order.items == [OrderItem(stamp.itemId(0), ProductId, qty, rows[ProductId].price)]
    ensures order.total == rows[ProductId].price * qty
  {
    assert ItemsTotal(rows, [Line(ProductId, qty)]) == rows[ProductId].price * qty + ItemsTotal(rows, []);
  }

  lemma {:induction false} OneLineTaken(name: string, price: Cents, stock: Int32, qty: Int32, after: Rows)
    requires StockTaken(Stocked(name, price, stock), after, [Line(ProductId, qty)])
    ensures after == Stocked(name, price, Wrap32(stock - qty))
  {
    var items := [Line(ProductId, qty)];
    assert QtyFor(items, 1, ProductId) == QtyFor(items, 0, ProductId) + qty;
    assert after[ProductId] == Stocked(name, price, Wrap32(stock - qty))[ProductId];
  }

  /** A set of ids that holds only `id`, listed once, is `[id]`. */
  lemma {:induction false} OnlyOnce(missing: seq<Guid>, id: Guid)
    requires forall x :: x in missing <==> x == id
    requires NoDuplicates(missing)
    ensures missing == [id]
  {
    assert id in missing;
    if |missing| > 1 {
      FirstTwo(missing);
      assert false;
    }
  }

  lemma {:induction false} FirstTwo(s: seq<Guid>)
    requires |s| > 1
    ensures s[0] in s && s[1] in s
  {
  }

  /** Two laptops at 1000.00 out of ten: one item, a total of 2000.00, eight left. */
  lemma {:induction false} LaptopOrder(v: Variant, stamps: Stamps, calls: seq<Event>)
    ensures var r := Run(v, Stocked("Laptop", 100000, 10), [Line(ProductId, 2)], [], stamps, calls);
      && r.result.Placed? && |r.result.order.items| == 1
      && r.result.order.total == 200000
      && ProductId in r.rows && r.rows[ProductId].stockQuantity == 8
  {
    OneLinePlaced(v, "Laptop", 100000, 10, 2, stamps, calls);
  }

  /** A basket naming a product the table does not hold fails with exactly that id missing. */
  lemma {:induction false} UnknownProduct(v: Variant, stamps: Stamps, calls: seq<Event>)
    ensures var r := Run(v, Stocked("Laptop", 100000, 10), [Line(2, 1)], [], stamps, calls);
      && r.result == Failed(ProductsNotFound([2]))
      && r.rows == Stocked("Laptop", 100000, 10) && r.attempts == 1
  {
    var rows, items := Stocked("Laptop", 100000, 10), [Line(2, 1)];
    assert ProductIds(items) == [2];
    assert !AllFound(rows, items) by {
      assert items[0].productId !in rows;
    }
    RunNotFound(v, rows, items, [], stamps, calls);
    var missing := Run(v, rows, items, [], stamps, calls).result.error.missing;
    assert forall x :: x in missing <==> x == 2 by {
      forall x ensures x in missing <==> x == 2 {
        assert x in ProductIds(items) <==> x == 2;
      }
    }
    OnlyOnce(missing, 2);
  }

  /** Five phones asked of one: insufficient stock, quoting 5 requested and 1 available; nothing changes. */
  lemma {:induction false} PhoneShort(v: Variant, stamps: Stamps, calls: seq<Event>)
    ensures var r := Run(v, Stocked("Phone", 50000, 1), [Line(ProductId, 5)], [], stamps, calls);
      && r.result == Failed(InsufficientStock(ProductId, "Phone", 5, 1))
      && r.rows == Stocked("Phone", 50000, 1) && r.attempts == 1
  {
    var rows, items := Stocked("Phone", 50000, 1), [Line(ProductId, 5)];
    assert AllFound(rows, items) && !Fillable(rows, items) by {
      assert items[0].qty > rows[items[0].productId].stockQuantity;
    }
    RunShort(v, rows, items, [], stamps, calls);
  }

  /** Three keyboards out of five: two left, and the calls of one committed attempt. */
  lemma {:induction false} KeyboardCalls(v: Variant, stamps: Stamps, calls: seq<Event>)
    ensures var r := Run(v, Stocked("Keyboard", 10000, 5), [Line(ProductId, 3)], [], stamps, calls);
      && r.result.Placed?
      && ProductId in r.rows && r.rows[ProductId].stockQuantity == 2
      && r.trace == calls + [Begin, Read([ProductId]), Update(ProductId), AddOrder(r.result.order), Save(Saved), Commit]
  {
    var rows, items := Stocked("Keyboard", 10000, 5), [Line(ProductId, 3)];
    OneLinePlaced(v, "Keyboard", 10000, 5, 3, stamps, calls);
    RunFillable(v, rows, items, [], stamps, calls);
    var r := Run(v, rows, items, [], stamps, calls);
    assert ProductIds(items) == [ProductId];
    OneItemCalls(calls, r.result.order);
  }

  lemma {:induction false} OneItemCalls(calls: seq<Event>, order: Order)
    requires |order.items| == 1 && order.items[0].productId == ProductId
    ensures calls + [Begin] + ([Read([ProductId])] + SaveCalls(order, Saved))
         == calls + [Begin, Read([ProductId]), Update(ProductId), AddOrder(order), Save(Saved), Commit]
  {
    OneItemSaving(order);
    var saving := [Update(ProductId), AddOrder(order), Save(Saved), Commit];
    assert [Read([ProductId])] + saving == [Read([ProductId]), Update(ProductId), AddOrder(order), Save(Saved), Commit];
    assert [Begin] + ([Read([ProductId])] + saving) == [Begin, Read([ProductId]), Update(ProductId), AddOrder(order), Save(Saved), Commit];
  }

  lemma {:induction false} OneItemSaving(order: Order)
    requires |order.items| == 1 && order.items[0].productId == ProductId
    ensures SaveCalls(order, Saved) == [Update(ProductId), AddOrder(order), Save(Saved), Commit]
  {
    UpdatesOne(order.items);
  }

  lemma {:induction false} UpdatesOne(lines: seq<OrderItem>)
    requires |lines| == 1 && lines[0].productId == ProductId
    ensures Updates(lines) == [Update(ProductId)]
  {
    assert lines[..0] == [];
  }

  /**
   * A monitor order whose first save meets `DbUpdateConcurrencyException`:
   * the EF-context service retries and places it on the second attempt; the
   * unit-of-work service, whose retry clause catches only the domain
   * exception, fails on the first.
   */
  lemma {:induction false} MonitorConflictOnce(stamps: Stamps, calls: seq<Event>)
    ensures var r := Run(EfContext, Stocked("Monitor", 15000, 10), [Line(ProductId, 2)],
                         [Conflict(DbUpdateConcurrency)], stamps, calls);
      && r.result.Placed? && r.attempts == 2 && r.rows == Stocked("Monitor", 15000, 8)
      && r.result.order.createdAt == stamps(2).createdAt
      && r.result.order.items == [OrderItem(stamps(2).itemId(0), ProductId, 2, 15000)]
      && r.result.order.total == 30000
    ensures var r := Run(UnitOfWork, Stocked("Monitor", 15000, 10), [Line(ProductId, 2)],
                         [Conflict(DbUpdateConcurrency)], stamps, calls);
      && r.result == Failed(ConcurrencyFailure(DbUpdateConcurrency))
      && r.attempts == 1 && r.rows == Stocked("Monitor", 15000, 10)
  {
    var rows, items, outcomes := Stocked("Monitor", 15000, 10), [Line(ProductId, 2)], [Conflict(DbUpdateConcurrency)];
    assert Fillable(rows, items);
    assert outcomes[1..] == [];
    RunConflictOnce(EfContext, rows, items, outcomes, stamps, calls, DbUpdateConcurrency);
    OneLinePlaced(EfContext, "Monitor", 15000, 10, 2, stamps, calls);
    UnitOfWorkSurfacesDbConflict(rows, items, outcomes, stamps, calls);
  }

  /** A tablet order whose five saves all conflict fails after five attempts and changes nothing. */
  lemma {:induction false} TabletAlwaysConflicts(stamps: Stamps, calls: seq<Event>)
    ensures var outcomes := seq(MaxRetries, _ => Conflict(DbUpdateConcurrency));
      var r := Run(EfContext, Stocked("Tablet", 30000, 5), [Line(ProductId, 1)], outcomes, stamps, calls);
      && r.result == Failed(ConcurrencyFailure(DbUpdateConcurrency))
      && r.attempts == 5 && r.rows == Stocked("Tablet", 30000, 5)
  {
    var rows, items := Stocked("Tablet", 30000, 5), [Line(ProductId, 1)];
    assert Fillable(rows, items);
    RunConflictEveryAttempt(EfContext, rows, items, seq(MaxRetries, _ => Conflict(DbUpdateConcurrency)),
                            stamps, calls, DbUpdateConcurrency);
  }

  /**
   * Two lines of three for one product with five in stock: each line passes
   * the check against the stock as read, both deductions apply, and the
   * stock ends at -1.
   */
  lemma {:induction false} DuplicateLinesOverdraw(v: Variant, stamps: Stamps, calls: seq<Event>)
    ensures var r := Run(v, Stocked("Mouse", 2500, 5), [Line(ProductId, 3), Line(ProductId, 3)], [], stamps, calls);
      && r.result.Placed? && ProductId in r.rows && r.rows[ProductId].stockQuantity == -1
  {
    var rows, items := Stocked("Mouse", 2500, 5), [Line(ProductId, 3), Line(ProductId, 3)];
    assert Fillable(rows, items);
    RunFillable(v, rows, items, [], stamps, calls);
    RunPlaced(v, rows, items, [], stamps, calls);
    TwiceTaken(Run(v, rows, items, [], stamps, calls).rows);
  }

  lemma {:induction false} TwiceTaken(after: Rows)
    requires StockTaken(Stocked("Mouse", 2500, 5), after, [Line(ProductId, 3), Line(ProductId, 3)])
    ensures after[ProductId].stockQuantity == -1
  {
    var items := [Line(ProductId, 3), Line(ProductId, 3)];
    assert QtyFor(items, 1, ProductId) == 3;
    assert QtyFor(items, 2, ProductId) == 6;
  }

  /** A negative quantity passes the stock check and adds to the stock. */
  lemma {:induction false} NegativeQuantityRestocks(v: Variant, stamps: Stamps, calls: seq<Event>)
    ensures var r := Run(v, Stocked("Cable", 500, 5), [Line(ProductId, -2)], [], stamps, calls);
      && r.result.Placed? && r.result.order.total == -1000 && ProductId in r.rows && r.rows[ProductId].stockQuantity == 7
  {
    OneLinePlaced(v, "Cable", 500, 5, -2, stamps, calls);
  }

  /** Taking -1 from a stock of `int.MaxValue` wraps around to `int.MinValue`. */
  lemma {:induction false} StockWrapsAround(v: Variant, stamps: Stamps, calls: seq<Event>)
    ensures var r := Run(v, Stocked("Bulk", 100, Int32Max), [Line(ProductId, -1)], [], stamps, calls);
      && r.result.Placed? && ProductId in r.rows && r.rows[ProductId].stockQuantity == Int32Min
  {
    OneLinePlaced(v, "Bulk", 100, Int32Max, -1, stamps, calls);
    assert Wrap32(Int32Max + 1) == Int32Min;
  }
}
