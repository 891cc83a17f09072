/**
 * `XProducts.Infrastructure.Services.OrderService`: order placement directly
 * on the EF Core context, retrying on `DbUpdateConcurrencyException`. The
 * context (its `Products` and `Orders` sets, its `Database` transaction and
 * `SaveChangesAsync`) is the `Store` here; the injected product repository is
 * never used by `PlaceOrderAsync` and is left out.
 */
module InfrastructureServices {
  import opened Entities
  import opened OrderPlacement
  import opened Persistence

  class OrderService {
    const store: Store

    constructor (store: Store)
      ensures this.store == store
    {
      this.store := store;
    }

    /**
     * `PlaceOrderAsync`: attempts until one commits, one fails for a reason
     * the retry clause does not catch, or the fifth attempt fails. The
     * "basic validations" placeholder at its top does nothing.
     * Attempt k builds a new order and draws its `CreatedAt` and item
     * `Id`s from `stamps(k)`.
     */
    method PlaceOrder(items: seq<Line>, stamps: Stamps) returns (result: PlaceResult)
      requires !store.inTransaction && store.tracked == map[] && store.added == []
      modifies store
      ensures !store.inTransaction && store.tracked == map[] && store.added == []
      ensures var run := Run(EfContext, old(store.rows), items, old(store.outcomes), stamps, old(store.trace));
        && result == run.result
        && store.rows == run.rows
        && store.outcomes == run.outcomesLeft
        && store.trace == run.trace
      ensures store.orders == if result.Placed? then old(store.orders) + [result.order] else old(store.orders)
    {
      ghost var rows, outcomes, trace := store.rows, store.outcomes, store.trace;
      ghost var preps := Preparations(rows, items, stamps);
      ghost var run := Retry(EfContext, rows, items, preps, outcomes, 1, trace);
      var attempt := 0;
      while true
        invariant 0 <= attempt < MaxRetries
        invariant !store.inTransaction && store.tracked == map[] && store.added == []
        invariant store.rows == rows && store.orders == old(store.orders)
        invariant run == Retry(EfContext, rows, items, preps, store.outcomes, attempt + 1, store.trace)
        decreases MaxRetries - attempt
      {
        attempt := attempt + 1;
        store.BeginTransaction();
        ghost var prep := preps[attempt - 1];
        PreparationsAt(rows, items, stamps, attempt);
        var outcome := TryPlace(items, stamps(attempt), prep);
        match outcome {
          case Returned(order) =>
            return Placed(order);
          case Threw(e) =>
            store.Rollback();
            return Failed(e);
          case SaveThrew(raised) =>
            store.Rollback();
            if raised.Conflict? && raised.kind == DbUpdateConcurrency && attempt < MaxRetries {
              store.Wait(BackoffStepMs * attempt);
            } else {
              return Failed(Surfaced(raised));
            }
        }
      }
    }

    /**
     * The `try` block of one attempt: read, existence check, stock check,
     * then a pass that deducts stock, a pass that builds the order, add,
     * save, commit.
     */
    method TryPlace(items: seq<Line>, stamp: Stamp, ghost prep: Prepared) returns (outcome: TryOutcome)
      requires prep == Prepare(store.rows, items, stamp)
      requires store.inTransaction && store.tracked == map[] && store.added == []
      modifies store`rows, store`orders, store`tracked, store`added, store`outcomes, store`trace, store`inTransaction
      ensures var save := NextOutcome(old(store.outcomes));
        && outcome == TryResult(prep, save)
        && store.trace == old(store.trace) + TryCalls(items, prep, save)
        && store.outcomes == (if prep.Ready? then AfterSave(old(store.outcomes)) else old(store.outcomes))
      ensures store.inTransaction == !outcome.Returned?
      ensures outcome.Returned? ==>
        store.rows == prep.rows
        && store.orders == old(store.orders) + [outcome.order]
        && store.tracked == map[] && store.added == []
      ensures !outcome.Returned? ==> store.rows == old(store.rows) && store.orders == old(store.orders)
    {
      ghost var rows := store.rows;
      var productIds := ProductIds(items);
      var products := store.GetByIds(productIds);

      var missing := Except(productIds, products.Keys);
      if missing != [] {
        PrepareMissing(rows, items, stamp);
        return Threw(ProductsNotFound(missing));
      }
      assert AllFound(products, items) by {
        ExceptSpec(productIds, products.Keys);
        forall k | 0 <= k < |items| ensures items[k].productId in products {
          assert productIds[k] !in missing;
        }
      }

      var short := FindShortLine(products, items);
      if short.Some? {
        var k := short.value;
        var product := products[items[k].productId];
        PrepareShort(rows, items, stamp, k);
        return Threw(InsufficientStock(items[k].productId, product.name, items[k].qty, product.stockQuantity));
      }
      PrepareReady(rows, items, stamp);
      ReadyCalls(old(store.trace), items, prep.order, prep.rows, NextOutcome(store.outcomes));
      outcome := Fulfil(products, items, stamp);
    }

    /**
     * The rest of the `try` block once both checks passed: deduct the stock,
     * build the order, add it, save, and commit if the save went through.
     */
    method Fulfil(found: Rows, items: seq<Line>, stamp: Stamp) returns (outcome: TryOutcome)
      requires AllFound(found, items)
      requires store.inTransaction && store.tracked == map[] && store.added == []
      modifies store`rows, store`orders, store`tracked, store`added, store`outcomes, store`trace, store`inTransaction
      ensures var save := NextOutcome(old(store.outcomes));
        && outcome == TryResult(Ready(Built(found, items, stamp), old(store.rows) + Touched(found, items, |items|)), save)
        && store.trace == old(store.trace) + SaveCalls(Built(found, items, stamp), save)
        && store.outcomes == AfterSave(old(store.outcomes))
      ensures store.inTransaction == !outcome.Returned?
      ensures outcome.Returned? ==>
        store.rows == old(store.rows) + Touched(found, items, |items|)
        && store.orders == old(store.orders) + [outcome.order]
        && store.tracked == map[] && store.added == []
      ensures !outcome.Returned? ==> store.rows == old(store.rows) && store.orders == old(store.orders)
    {
      ghost var calls := store.trace;
      var products := DeductStock(found, items);
      LineUpdatesAreUpdates(found, items, |items|, stamp.itemId);
      var order := BuildOrder(products, found, items, stamp);
      store.AddOrder(order);
      var saved := store.SaveChanges();
      SavingCalls(calls, order, saved);
      if saved != Saved {
        return SaveThrew(saved);
      }
      store.Commit();
      return Returned(order);
    }

    /** The stock check: the first line asking for more than its product's stock as read. */
    method FindShortLine(products: Rows, items: seq<Line>) returns (short: Option<nat>)
      requires AllFound(products, items)
      ensures short == FirstShort(products, items, 0)
    {
      var i := 0;
      while i < |items|
        invariant 0 <= i <= |items|
        invariant FirstShort(products, items, 0) == FirstShort(products, items, i)
      {
        var product := products[items[i].productId];
        if product.stockQuantity < items[i].qty {
          return Some(i);
        }
        i := i + 1;
      }
      return None;
    }

    /**
     * The deduction pass: per line, `StockQuantity -= qty` on the loaded
     * entity and `Update` it, so the `Update` calls name the entities in
     * line order.
     */
    method DeductStock(found: Rows, items: seq<Line>) returns (products: Rows)
      requires AllFound(found, items) && store.tracked == map[]
      modifies store`tracked, store`trace
      ensures products == Deduct(found, items, |items|)
      ensures store.tracked == Touched(found, items, |items|)
      ensures store.trace == old(store.trace) + LineUpdates(found, items, |items|)
    {
      ghost var calls := store.trace;
      products := found;
      var i := 0;
      while i < |items|
        invariant 0 <= i <= |items|
        invariant products == Deduct(found, items, i)
        invariant store.tracked == Touched(found, items, i)
        invariant store.trace == calls + LineUpdates(found, items, i)
      {
        var productId, qty := items[i].productId, items[i].qty;
        var product := products[productId];
        product := product.(stockQuantity := Wrap32(product.stockQuantity - qty));
        DeductPassStep(found, items, i, product);
        products := products[productId := product];
        store.Update(product);
        i := i + 1;
      }
    }

    /**
     * The order pass, over the entities as the deduction left them: per line,
     * append an item with the entity's `Id` and price and add `Price * qty`
     * to the total. Only the stock changed, so these are the values as read.
     */
    method BuildOrder(products: Rows, ghost found: Rows, items: seq<Line>, stamp: Stamp) returns (order: Order)
      requires AllFound(found, items) && products == Deduct(found, items, |items|)
      ensures order == Built(found, items, stamp)
    {
      order := Order(EmptyGuid, stamp.createdAt, 0, []);
      var i := 0;
      while i < |items|
        invariant 0 <= i <= |items|
        invariant order == Order(EmptyGuid, stamp.createdAt, Total(found, items, i), Lines(found, items, i, stamp.itemId))
      {
        var productId, qty := items[i].productId, items[i].qty;
        LineStep(found, items, i, stamp.itemId);
        DeductKeeps(found, items, |items|, productId);
        var product := products[productId];
        order := order.(items := order.items + [OrderItem(stamp.itemId(i), product.id, qty, product.price)]);
        order := order.(total := order.total + product.price * qty);
        i := i + 1;
      }
    }
  }
}
