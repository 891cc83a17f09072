/**
 * The specification of `PlaceOrderAsync`, shared by its two implementations:
 * what one attempt computes from the product table and the basket, and what
 * the bounded retry loop around the attempts returns, leaves in the table
 * and asks of its collaborators.
 */
module OrderPlacement {
  import opened Entities

  /** `MaxRetries`: the number of attempts, the first one included. */
  const MaxRetries: nat := 5

  /** The retry that follows attempt `k` waits `BackoffStepMs * k` milliseconds. */
  const BackoffStepMs: nat := 50

  /**
   * The two implementations differ only in the exception type their retry
   * clause catches: the unit-of-work service catches the domain
   * `ConcurrencyException`, the EF-context service EF Core's
   * `DbUpdateConcurrencyException`.
   */
  datatype Variant = UnitOfWork | EfContext

  datatype ConcurrencyKind = DbUpdateConcurrency | DomainConcurrency

  /**
   * What one `SaveChangesAsync` call does: it saves, raises one of the two
   * concurrency exceptions, or raises some other exception.
   */
  datatype SaveOutcome = Saved | Conflict(kind: ConcurrencyKind) | Fault

  /** The exception that leaves `PlaceOrderAsync`. */
  datatype PlaceError =
    | ProductsNotFound(missing: seq<Guid>)
    | InsufficientStock(productId: Guid, name: string, requested: Int32, available: Int32)
    | ConcurrencyFailure(kind: ConcurrencyKind)
    | StoreFailure

  datatype PlaceResult = Placed(order: Order) | Failed(error: PlaceError)

  /** One awaited call the service makes to a collaborator, in call order. */
  datatype Event =
    | Begin
    | Read(ids: seq<Guid>)
    | Update(productId: Guid)
    | AddOrder(order: Order)
    | Save(outcome: SaveOutcome)
    | Commit
    | Rollback
    | Delay(ms: nat)

  /**
   * The nondeterministic values an attempt draws: `DateTime.UtcNow` for the
   * new order, and the `Guid.NewGuid()` given to the item built for line k.
   */
  datatype Stamp = Stamp(createdAt: int, itemId: nat -> Guid)

  /**
   * The values drawn by every attempt, by attempt number: each attempt
   * builds its order anew, so a retried attempt's order has a fresh
   * `CreatedAt` and fresh item ids.
   */
  type Stamps = nat -> Stamp

  /** Whether a retry clause of variant `v` catches a conflict of kind `k`. */
  predicate Absorbs(v: Variant, k: ConcurrencyKind) {
    match v
    case UnitOfWork => k == DomainConcurrency
    case EfContext => k == DbUpdateConcurrency
  }

  /** The outcome of the next `SaveChangesAsync` call; once the queue is drained, saves succeed. */
  function NextOutcome(queue: seq<SaveOutcome>): SaveOutcome {
    if queue == [] then Saved else queue[0]
  }

  function AfterSave(queue: seq<SaveOutcome>): seq<SaveOutcome> {
    if queue == [] then [] else queue[1..]
  }

  /** `items.Select(i => i.productId)`. */
  function ProductIds(items: seq<Line>): (ids: seq<Guid>)
    ensures |ids| == |items|
    ensures forall k :: 0 <= k < |items| ==> ids[k] == items[k].productId
  {
    if items == [] then [] else [items[0].productId] + ProductIds(items[1..])
  }

  /** The rows whose primary key is among `ids`: the batched read. */
  function Fetch(rows: Rows, ids: seq<Guid>): (found: Rows)
    ensures found.Keys == rows.Keys * set id | id in ids
    ensures forall id :: id in found ==> found[id] == rows[id]
  {
    map id | id in rows && id in ids :: rows[id]
  }

  ghost predicate NoDuplicates(s: seq<Guid>) {
    forall i, j :: 0 <= i < j < |s| ==> s[i] != s[j]
  }

  /**
   * LINQ `ids.Except(excluded)`: the distinct elements of `ids` that are not
   * in `excluded`, each at its first occurrence.
   */
  function Except(ids: seq<Guid>, excluded: set<Guid>): seq<Guid>
    decreases |ids|
  {
    if ids == [] then []
    else if ids[0] in excluded then Except(ids[1..], excluded)
    else [ids[0]] + Except(ids[1..], excluded + {ids[0]})
  }

  /** `Except` keeps exactly the ids outside `excluded`, each once. */
  lemma {:induction false} ExceptSpec(ids: seq<Guid>, excluded: set<Guid>)
    ensures forall x :: x in Except(ids, excluded) <==> x in ids && x !in excluded
    ensures NoDuplicates(Except(ids, excluded))
    decreases |ids|
  {
    if ids == [] {
    } else if ids[0] in excluded {
      ExceptSpec(ids[1..], excluded);
    } else {
      var rest := Except(ids[1..], excluded + {ids[0]});
      ExceptSpec(ids[1..], excluded + {ids[0]});
      assert ids[0] !in rest;
      assert Except(ids, excluded) == [ids[0]] + rest;
    }
  }

  /** Every line's product is among `products`. */
  ghost predicate AllFound(products: Rows, items: seq<Line>) {
    forall k :: 0 <= k < |items| ==> items[k].productId in products
  }

  /** The stock check of one line, against the stock as it was read. */
  predicate Short(products: Rows, line: Line)
    requires line.productId in products
  {
    products[line.productId].stockQuantity < line.qty
  }

  /** The first line at or after `from` that fails the stock check. */
  function FirstShort(products: Rows, items: seq<Line>, from: nat): (r: Option<nat>)
    requires AllFound(products, items) && from <= |items|
    ensures r.Some? ==> from <= r.value < |items| && Short(products, items[r.value])
    ensures r.Some? ==> forall j :: from <= j < r.value ==> !Short(products, items[j])
    ensures r.None? ==> forall j :: from <= j < |items| ==> !Short(products, items[j])
    decreases |items| - from
  {
    if from == |items| then None
    else if Short(products, items[from]) then Some(from)
    else FirstShort(products, items, from + 1)
  }

  /**
   * The loaded entities after `StockQuantity -= qty` has run for the first
   * `n` lines, each line on the entity of its product (two lines for one
   * product hit the same entity).
   */
  function Deduct(products: Rows, items: seq<Line>, n: nat): (r: Rows)
    requires AllFound(products, items) && n <= |items|
    ensures r.Keys == products.Keys
  {
    if n == 0 then products
    else
      var before := Deduct(products, items, n - 1);
      var id := items[n - 1].productId;
      before[id := before[id].(stockQuantity := Wrap32(before[id].stockQuantity - items[n - 1].qty))]
  }

  /**
   * The entities passed to `Update` for the first `n` lines, as the change
   * tracker holds them: keyed by their own `Id`, each in its latest state.
   */
  function Touched(products: Rows, items: seq<Line>, n: nat): Rows
    requires AllFound(products, items) && n <= |items|
  {
    if n == 0 then map[]
    else
      var product := Deduct(products, items, n)[items[n - 1].productId];
      Touched(products, items, n - 1)[product.id := product]
  }

  /** One more line deducted: its entity loses `qty` of stock and is tracked in its new state. */
  lemma DeductStep(products: Rows, items: seq<Line>, i: nat)
    requires AllFound(products, items) && i < |items|
    ensures var before := Deduct(products, items, i);
      var id := items[i].productId;
      var product := before[id].(stockQuantity := Wrap32(before[id].stockQuantity - items[i].qty));
      && Deduct(products, items, i + 1) == before[id := product]
      && Touched(products, items, i + 1) == Touched(products, items, i)[product.id := product]
  {
  }

  /** Deducting changes the stock of the loaded entities and nothing else about them. */
  lemma {:induction false} DeductKeeps(products: Rows, items: seq<Line>, n: nat, id: Guid)
    requires AllFound(products, items) && n <= |items| && id in products
    ensures Deduct(products, items, n)[id] == products[id].(stockQuantity := Deduct(products, items, n)[id].stockQuantity)
  {
    if n > 0 {
      DeductKeeps(products, items, n - 1, id);
    }
  }

  /** `Total += Price * qty` over the first `n` lines, with the prices as read. */
  function Total(products: Rows, items: seq<Line>, n: nat): Cents
    requires AllFound(products, items) && n <= |items|
  {
    if n == 0 then 0
    else Total(products, items, n - 1) + products[items[n - 1].productId].price * items[n - 1].qty
  }

  /** The order items built for the first `n` lines, one per line, with the product's `Id` and price. */
  function Lines(products: Rows, items: seq<Line>, n: nat, itemId: nat -> Guid): seq<OrderItem>
    requires AllFound(products, items) && n <= |items|
  {
    if n == 0 then []
    else
      var product := products[items[n - 1].productId];
      Lines(products, items, n - 1, itemId) + [OrderItem(itemId(n - 1), product.id, items[n - 1].qty, product.price)]
  }

  /**
   * One `Update` call per order item, naming the entity the item was built
   * from: the `Update` calls of an attempt, one per line.
   */
  function Updates(lines: seq<OrderItem>): seq<Event> {
    if lines == [] then []
    else Updates(lines[..|lines| - 1]) + [Update(lines[|lines| - 1].productId)]
  }

  /**
   * The `Update` calls of the deduction pass over the first `n` lines: one
   * per line, naming the entity read for that line.
   */
  function LineUpdates(found: Rows, items: seq<Line>, n: nat): seq<Event>
    requires AllFound(found, items) && n <= |items|
  {
    if n == 0 then [] else LineUpdates(found, items, n - 1) + [Update(found[items[n - 1].productId].id)]
  }

  /** The deduction pass's `Update` calls are those of the items the order gets, one per line. */
  lemma {:induction false} LineUpdatesAreUpdates(found: Rows, items: seq<Line>, n: nat, itemId: nat -> Guid)
    requires AllFound(found, items) && n <= |items|
    ensures LineUpdates(found, items, n) == Updates(Lines(found, items, n, itemId))
  {
    if n > 0 {
      LineUpdatesAreUpdates(found, items, n - 1, itemId);
      var lines := Lines(found, items, n, itemId);
      assert lines[..|lines| - 1] == Lines(found, items, n - 1, itemId);
    }
  }

  /** One more line built: its item is appended and its amount added to the total. */
  lemma LineStep(products: Rows, items: seq<Line>, i: nat, itemId: nat -> Guid)
    requires AllFound(products, items) && i < |items|
    ensures var product := products[items[i].productId];
      && Total(products, items, i + 1) == Total(products, items, i) + product.price * items[i].qty
      && Lines(products, items, i + 1, itemId)
         == Lines(products, items, i, itemId) + [OrderItem(itemId(i), product.id, items[i].qty, product.price)]
  {
  }
  /**
   * One pass of the deduction loop, given the entity `product` as it is
   * after `StockQuantity -= qty`: the rows, the tracked rows and the
   * `Update` call it adds.
   */
  lemma {:induction false} DeductPassStep(found: Rows, items: seq<Line>, i: nat, product: Product)
    requires AllFound(found, items) && i < |items|
    requires var before := Deduct(found, items, i)[items[i].productId];
      product == before.(stockQuantity := Wrap32(before.stockQuantity - items[i].qty))
    ensures Deduct(found, items, i + 1) == Deduct(found, items, i)[items[i].productId := product]
    ensures Touched(found, items, i + 1) == Touched(found, items, i)[product.id := product]
    ensures LineUpdates(found, items, i + 1) == LineUpdates(found, items, i) + [Update(product.id)]
  {
    DeductStep(found, items, i);
    DeductKeeps(found, items, i, items[i].productId);
  }

  /**
   * One pass of the deduct-and-build loop, given the entity `product` as it
   * is after `StockQuantity -= qty`: the rows, the tracked rows and the
   * item it adds.
   */
  lemma {:induction false} DeductLineStep(found: Rows, items: seq<Line>, i: nat, itemId: nat -> Guid, product: Product)
    requires AllFound(found, items) && i < |items|
    requires var before := Deduct(found, items, i)[items[i].productId];
      product == before.(stockQuantity := Wrap32(before.stockQuantity - items[i].qty))
    ensures Deduct(found, items, i + 1) == Deduct(found, items, i)[items[i].productId := product]
    ensures Touched(found, items, i + 1) == Touched(found, items, i)[product.id := product]
    ensures Lines(found, items, i + 1, itemId)
         == Lines(found, items, i, itemId) + [OrderItem(itemId(i), product.id, items[i].qty, product.price)]
    ensures Total(found, items, i + 1) == Total(found, items, i) + product.price * items[i].qty
  {
    DeductStep(found, items, i);
    LineStep(found, items, i, itemId);
    DeductKeeps(found, items, i, items[i].productId);
  }

  /** The `Update` calls for one more order item. */
  lemma UpdatesStep(calls: seq<Event>, lines: seq<OrderItem>, item: OrderItem)
    ensures Updates(lines + [item]) == Updates(lines) + [Update(item.productId)]
    ensures calls + Updates(lines + [item]) == calls + Updates(lines) + [Update(item.productId)]
  {
    assert (lines + [item])[..|lines|] == lines;
  }

  /** The order an attempt builds and the product table it would commit, or why it stops. */
  datatype Prepared = Rejected(error: PlaceError) | Ready(order: Order, rows: Rows)

  /** The new order: no `Id` yet, the attempt's timestamp, one item per line and their total. */
  function Built(found: Rows, items: seq<Line>, stamp: Stamp): Order
    requires AllFound(found, items)
  {
    Order(EmptyGuid, stamp.createdAt, Total(found, items, |items|), Lines(found, items, |items|, stamp.itemId))
  }

  /**
   * One attempt up to its saving, on the product table `rows`: read the
   * requested products, reject missing ones, check every line's stock, then
   * deduct the stock and build the order. The new table is the old one with
   * every updated entity written back under its `Id`.
   */
  function Prepare(rows: Rows, items: seq<Line>, stamp: Stamp): Prepared {
    var ids := ProductIds(items);
    var found := Fetch(rows, ids);
    var missing := Except(ids, found.Keys);
    if missing != [] then Rejected(ProductsNotFound(missing))
    else
      assert AllFound(found, items) by {
        ExceptSpec(ids, found.Keys);
        forall k | 0 <= k < |items| ensures items[k].productId in found {
          assert ids[k] == items[k].productId;
          assert ids[k] !in missing;
        }
      }
      match FirstShort(found, items, 0)
      case Some(k) =>
        var product := found[items[k].productId];
        Rejected(InsufficientStock(items[k].productId, product.name, items[k].qty, product.stockQuantity))
      case None =>
        Ready(Built(found, items, stamp), rows + Touched(found, items, |items|))
  }

  /** An attempt whose read misses a requested product stops with the missing ids. */
  lemma PrepareMissing(rows: Rows, items: seq<Line>, stamp: Stamp)
    requires Except(ProductIds(items), Fetch(rows, ProductIds(items)).Keys) != []
    ensures Prepare(rows, items, stamp)
         == Rejected(ProductsNotFound(Except(ProductIds(items), Fetch(rows, ProductIds(items)).Keys)))
  {
  }

  /** An attempt whose line `k` is the first to fail the stock check stops with that line. */
  lemma PrepareShort(rows: Rows, items: seq<Line>, stamp: Stamp, k: nat)
    requires Except(ProductIds(items), Fetch(rows, ProductIds(items)).Keys) == []
    requires AllFound(Fetch(rows, ProductIds(items)), items)
    requires FirstShort(Fetch(rows, ProductIds(items)), items, 0) == Some(k)
    ensures var product := rows[items[k].productId];
      Prepare(rows, items, stamp)
      == Rejected(InsufficientStock(items[k].productId, product.name, items[k].qty, product.stockQuantity))
  {
  }

  /** An attempt that passes both checks deducts the stock and builds the order. */
  lemma PrepareReady(rows: Rows, items: seq<Line>, stamp: Stamp)
    requires Except(ProductIds(items), Fetch(rows, ProductIds(items)).Keys) == []
    requires AllFound(Fetch(rows, ProductIds(items)), items)
    requires FirstShort(Fetch(rows, ProductIds(items)), items, 0) == None
    ensures var found := Fetch(rows, ProductIds(items));
      Prepare(rows, items, stamp) == Ready(Built(found, items, stamp), rows + Touched(found, items, |items|))
  {
  }

  /**
   * Whether an attempt gets past both checks, why it is rejected, and the
   * table it would commit do not depend on the values it draws; only the
   * order's `CreatedAt` and item ids do.
   */
  lemma PrepareStampFree(rows: Rows, items: seq<Line>, s: Stamp, t: Stamp)
    ensures Prepare(rows, items, s).Ready? == Prepare(rows, items, t).Ready?
    ensures Prepare(rows, items, s).Rejected? ==> Prepare(rows, items, s) == Prepare(rows, items, t)
    ensures Prepare(rows, items, s).Ready? ==> Prepare(rows, items, s).rows == Prepare(rows, items, t).rows
  {
  }

  /** What the `try` block of an attempt ends with. */
  datatype TryOutcome = Threw(error: PlaceError) | SaveThrew(raised: SaveOutcome) | Returned(order: Order)

  function TryResult(prep: Prepared, save: SaveOutcome): TryOutcome {
    match prep
    case Rejected(e) => Threw(e)
    case Ready(order, _) => if save == Saved then Returned(order) else SaveThrew(save)
  }

  /** The collaborator calls of the `try` block of an attempt: the read, then, past both checks, the saving. */
  function TryCalls(items: seq<Line>, prep: Prepared, save: SaveOutcome): seq<Event> {
    match prep
    case Rejected(_) => [Read(ProductIds(items))]
    case Ready(order, _) => [Read(ProductIds(items))] + SaveCalls(order, save)
  }

  /** The calls of an attempt that passed both checks, after the calls made before it. */
  lemma ReadyCalls(calls: seq<Event>, items: seq<Line>, order: Order, rows: Rows, save: SaveOutcome)
    ensures calls + [Read(ProductIds(items))] + SaveCalls(order, save) == calls + TryCalls(items, Ready(order, rows), save)
  {
  }

  /** The saving calls, made one by one after the calls made before them. */
  lemma SavingCalls(calls: seq<Event>, order: Order, save: SaveOutcome)
    ensures save == Saved ==>
      calls + Updates(order.items) + [AddOrder(order)] + [Save(save)] + [Commit] == calls + SaveCalls(order, save)
    ensures save != Saved ==>
      calls + Updates(order.items) + [AddOrder(order)] + [Save(save)] == calls + SaveCalls(order, save)
  {
  }

  /** The `Update` calls for `order`, then `AddAsync`, the save and, if it saved, the commit. */
  function SaveCalls(order: Order, save: SaveOutcome): seq<Event> {
    var saving := Updates(order.items) + [AddOrder(order)] + [Save(save)];
    if save == Saved then saving + [Commit] else saving
  }

  /** The exception a failed save surfaces as when it is not retried. */
  function Surfaced(raised: SaveOutcome): PlaceError {
    if raised.Conflict? then ConcurrencyFailure(raised.kind) else StoreFailure
  }

  /**
   * The outcome of the call, the product table it leaves, the number of
   * attempts made, the unconsumed save outcomes and the collaborator calls.
   */
  datatype RunResult = RunResult(
    result: PlaceResult,
    rows: Rows,
    attempts: nat,
    outcomesLeft: seq<SaveOutcome>,
    trace: seq<Event>)

  /** What attempts 1 to `MaxRetries` prepare: attempt k's at index k - 1. */
  type Preps = s: seq<Prepared> | |s| == MaxRetries
    witness [Rejected(StoreFailure), Rejected(StoreFailure), Rejected(StoreFailure), Rejected(StoreFailure), Rejected(StoreFailure)]

  /**
   * What attempts 1 to `n` prepare: every attempt reads the same table
   * `rows` afresh (a failed attempt rolls back) and builds its order with the
   * values `stamps(k)` it draws.
   */
  function PrepsUpTo(rows: Rows, items: seq<Line>, stamps: Stamps, n: nat): (preps: seq<Prepared>)
    ensures |preps| == n
  {
    if n == 0 then [] else PrepsUpTo(rows, items, stamps, n - 1) + [Prepare(rows, items, stamps(n))]
  }

  /** `preps` holds, for every attempt k, what attempt k prepares. */
  ghost predicate PreparedBy(rows: Rows, items: seq<Line>, stamps: Stamps, preps: Preps) {
    forall i :: 0 <= i < MaxRetries ==> preps[i] == Prepare(rows, items, stamps(i + 1))
  }

  /** What attempts 1 to `MaxRetries` prepare, entry by entry; `PrepsUpTo` shows there is such a sequence. */
  ghost function Preparations(rows: Rows, items: seq<Line>, stamps: Stamps): Preps {
    assert PreparedBy(rows, items, stamps, PrepsUpTo(rows, items, stamps, MaxRetries)) by {
      forall i | 0 <= i < MaxRetries
        ensures PrepsUpTo(rows, items, stamps, MaxRetries)[i] == Prepare(rows, items, stamps(i + 1))
      {
        PrepsUpToAt(rows, items, stamps, MaxRetries, i + 1);
      }
    }
    var preps: Preps :| PreparedBy(rows, items, stamps, preps);
    preps
  }

  /** Attempt `k` prepares from the table as it is and the values it draws. */
  lemma PreparationsAt(rows: Rows, items: seq<Line>, stamps: Stamps, k: nat)
    requires 1 <= k <= MaxRetries
    ensures Preparations(rows, items, stamps)[k - 1] == Prepare(rows, items, stamps(k))
  {
    assert Preparations(rows, items, stamps)[k - 1] == Prepare(rows, items, stamps(k - 1 + 1));
  }

  lemma {:induction false} PrepsUpToAt(rows: Rows, items: seq<Line>, stamps: Stamps, n: nat, k: nat)
    requires 1 <= k <= n
    ensures PrepsUpTo(rows, items, stamps, n)[k - 1] == Prepare(rows, items, stamps(k))
  {
    if k < n {
      PrepsUpToAt(rows, items, stamps, n - 1, k);
    }
  }

  /**
   * The retry loop from attempt number `attempt` on, after the calls
   * `calls`; `preps[k - 1]` is what attempt k prepares. `outcomes` says, call by
   * call, what `SaveChangesAsync` does.
   */
  function Retry(v: Variant, rows: Rows, items: seq<Line>, preps: Preps,
                 outcomes: seq<SaveOutcome>, attempt: nat, calls: seq<Event>): (r: RunResult)
    requires 1 <= attempt <= MaxRetries
    ensures attempt <= r.attempts <= MaxRetries
    ensures r.result.Failed? ==> r.rows == rows
    decreases MaxRetries - attempt
  {
    var prep := preps[attempt - 1];
    var save := NextOutcome(outcomes);
    var left := if prep.Ready? then AfterSave(outcomes) else outcomes;
    var tried := calls + [Begin] + TryCalls(items, prep, save);
    match TryResult(prep, save)
    case Returned(order) => RunResult(Placed(order), prep.rows, attempt, left, tried)
    case Threw(e) => RunResult(Failed(e), rows, attempt, left, tried + [Rollback])
    case SaveThrew(raised) =>
      if raised.Conflict? && Absorbs(v, raised.kind) && attempt < MaxRetries then
        Retry(v, rows, items, preps, left, attempt + 1, tried + [Rollback] + [Delay(BackoffStepMs * attempt)])
      else
        RunResult(Failed(Surfaced(raised)), rows, attempt, left, tried + [Rollback])
  }

  /**
   * `PlaceOrderAsync` from its first attempt, on the product table `rows`,
   * after the calls `calls`; attempt k draws `stamps(k)`.
   */
  ghost function Run(v: Variant, rows: Rows, items: seq<Line>, outcomes: seq<SaveOutcome>,
               stamps: Stamps, calls: seq<Event>): (r: RunResult)
    ensures 1 <= r.attempts <= MaxRetries
    ensures r.result.Failed? ==> r.rows == rows
  {
    Retry(v, rows, items, Preparations(rows, items, stamps), outcomes, 1, calls)
  }
}
