/**
 * The collaborators of the order service, as one object: the product and
 * order repositories and the unit of work (`IProductRepository`,
 * `IOrderRepository`, `IUnitOfWork`), which in the shipped wiring all sit on
 * one EF Core `AppDbContext`, and that context itself for the service that
 * uses it directly.
 *
 * Concurrency is replaced by an oracle: `outcomes` says, call by call, whether
 * `SaveChangesAsync` saves, raises a concurrency exception or raises another
 * exception.
 */
module Persistence {
  import opened Entities
  import opened OrderPlacement

  class Store {
    /** The product table as the open transaction sees it. */
    var rows: Rows
    /** The order table as the open transaction sees it. */
    var orders: seq<Order>
    var inTransaction: bool
    /** The tables as they were when the transaction began; rollback restores them. */
    var snapshotRows: Rows
    var snapshotOrders: seq<Order>
    /** Products passed to `Update` since the last save. */
    var tracked: Rows
    /** Orders passed to `AddAsync` since the last save. */
    var added: seq<Order>
    /** What the coming `SaveChangesAsync` calls do. */
    var outcomes: seq<SaveOutcome>
    /** Every awaited call made to this object, in order. */
    ghost var trace: seq<Event>

    constructor (rows: Rows, outcomes: seq<SaveOutcome>)
      ensures !inTransaction
      ensures this.rows == rows && orders == [] && this.outcomes == outcomes
      ensures tracked == map[] && added == [] && trace == []
    {
      this.rows := rows;
      orders := [];
      inTransaction := false;
      snapshotRows := rows;
      snapshotOrders := [];
      tracked := map[];
      added := [];
      this.outcomes := outcomes;
      trace := [];
    }

    /** `BeginTransactionAsync`. */
    method BeginTransaction()
      requires !inTransaction
      modifies this`inTransaction, this`snapshotRows, this`snapshotOrders, this`trace
      ensures inTransaction
      ensures snapshotRows == rows && snapshotOrders == orders
      ensures trace == old(trace) + [Begin]
    {
      inTransaction := true;
      snapshotRows := rows;
      snapshotOrders := orders;
      trace := trace + [Begin];
    }

    /** The batched read: the products whose id is among `ids`. */
    method GetByIds(ids: seq<Guid>) returns (found: Rows)
      modifies this`trace
      ensures found == Fetch(rows, ids)
      ensures trace == old(trace) + [Read(ids)]
    {
      found := map id | id in rows && id in ids :: rows[id];
      trace := trace + [Read(ids)];
    }

    /** `Update(product)`: marks the entity as modified; nothing is written yet. */
    method Update(product: Product)
      modifies this`tracked, this`trace
      ensures tracked == old(tracked)[product.id := product]
      ensures trace == old(trace) + [Event.Update(product.id)]
    {
      tracked := tracked[product.id := product];
      trace := trace + [Event.Update(product.id)];
    }

    /** `AddAsync(order)`: stages the order for insertion. */
    method AddOrder(order: Order)
      modifies this`added, this`trace
      ensures added == old(added) + [order]
      ensures trace == old(trace) + [Event.AddOrder(order)]
    {
      added := added + [order];
      trace := trace + [Event.AddOrder(order)];
    }

    /**
     * `SaveChangesAsync`: writes the tracked products and the staged orders,
     * unless the oracle says that this call raises.
     */
    method SaveChanges() returns (outcome: SaveOutcome)
      modifies this`rows, this`orders, this`tracked, this`added, this`outcomes, this`trace
      ensures outcome == NextOutcome(old(outcomes)) && outcomes == AfterSave(old(outcomes))
      ensures outcome == Saved ==>
        rows == old(rows) + old(tracked) && orders == old(orders) + old(added)
        && tracked == map[] && added == []
      ensures outcome != Saved ==>
        rows == old(rows) && orders == old(orders) && tracked == old(tracked) && added == old(added)
      ensures trace == old(trace) + [Save(outcome)]
    {
      outcome := NextOutcome(outcomes);
      outcomes := AfterSave(outcomes);
      if outcome == Saved {
        rows := rows + tracked;
        orders := orders + added;
        tracked := map[];
        added := [];
      }
      trace := trace + [Save(outcome)];
    }

    /** `CommitAsync`: the transaction's writes become durable. */
    method Commit()
      requires inTransaction
      modifies this`inTransaction, this`trace
      ensures !inTransaction
      ensures trace == old(trace) + [Event.Commit]
    {
      inTransaction := false;
      trace := trace + [Event.Commit];
    }

    /**
     * `RollbackAsync`: the tables return to their state at `BeginTransaction`
     * and pending changes are dropped, so the next read is fresh.
     */
    method Rollback()
      requires inTransaction
      modifies this`rows, this`orders, this`tracked, this`added, this`inTransaction, this`trace
      ensures !inTransaction
      ensures rows == old(snapshotRows) && orders == old(snapshotOrders)
      ensures tracked == map[] && added == []
      ensures trace == old(trace) + [Event.Rollback]
    {
      rows := snapshotRows;
      orders := snapshotOrders;
      tracked := map[];
      added := [];
      inTransaction := false;
      trace := trace + [Event.Rollback];
    }

    /** `Task.Delay(ms)`, recorded only. */
    ghost method Wait(ms: nat)
      modifies this`trace
      ensures trace == old(trace) + [Delay(ms)]
    {
      trace := trace + [Delay(ms)];
    }
  }
}
