/**
 * What `PlaceOrderAsync` promises its callers, proved about the specification
 * both implementations are verified against: which inputs fail and how, the
 * order and the product table a success leaves, how the retry loop treats
 * each kind of failed save, and the order of the collaborator calls.
 */
module OrderProperties {
  import opened Entities
  import opened OrderPlacement

  // ---------------------------------------------------------------------------
  // Reference definitions
  // ---------------------------------------------------------------------------

  /** Every line names a stored product and asks for no more than its stock. */
  ghost predicate Fillable(rows: Rows, items: seq<Line>) {
    && AllFound(rows, items)
    && forall k :: 0 <= k < |items| ==> items[k].qty <= rows[items[k].productId].stockQuantity
  }

  /** `found` holds some of the rows of `rows`, unchanged. */
  ghost predicate Within(found: Rows, rows: Rows) {
    forall id :: id in found ==> id in rows && found[id] == rows[id]
  }

  /** The total quantity that the first `n` lines ask of product `id`. */
  function QtyFor(items: seq<Line>, n: nat, id: Guid): int
    requires n <= |items|
  {
    if n == 0 then 0
    else QtyFor(items, n - 1, id) + (if items[n - 1].productId == id then items[n - 1].qty else 0)
  }

  /** The sum over the lines of `Price * qty`, each product as stored in `rows`. */
  function ItemsTotal(rows: Rows, items: seq<Line>): Cents
    requires AllFound(rows, items)
  {
    if items == [] then 0
    else rows[items[0].productId].price * items[0].qty + ItemsTotal(rows, items[1..])
  }

  /**
   * `after` holds the products of `before`, each with its stock lowered,
   * with 32-bit wrap-around, by the total quantity the lines ask of it, and
   * nothing else about it changed.
   */
  ghost predicate StockTaken(before: Rows, after: Rows, items: seq<Line>) {
    && after.Keys == before.Keys
    && forall id :: id in before ==>
         after[id] == before[id].(stockQuantity := Wrap32(before[id].stockQuantity - QtyFor(items, |items|, id)))
  }

  /** The waiting times of the `Delay` calls in `trace`, in order. */
  function Delays(trace: seq<Event>): seq<nat> {
    if trace == [] then []
    else (if trace[0].Delay? then [trace[0].ms] else []) + Delays(trace[1..])
  }

  /** The waits after attempts `first` to `last - 1`: `50 * k` ms after attempt k. */
  function Backoffs(first: nat, last: nat): seq<nat>
    decreases last - first
  {
    if last <= first then [] else [BackoffStepMs * first] + Backoffs(first + 1, last)
  }

  // ---------------------------------------------------------------------------
  // Facts about the folds of one attempt
  // ---------------------------------------------------------------------------

  lemma {:induction false} ItemsTotalAppend(rows: Rows, items: seq<Line>, line: Line)
    requires AllFound(rows, items) && line.productId in rows
    ensures AllFound(rows, items + [line])
    ensures ItemsTotal(rows, items + [line]) == ItemsTotal(rows, items) + rows[line.productId].price * line.qty
  {
    if items != [] {
      assert (items + [line])[1..] == items[1..] + [line];
      ItemsTotalAppend(rows, items[1..], line);
    }
  }

  /** The running total of the build loop is the sum of `Price * qty` over the lines. */
  lemma {:induction false} TotalIsItemsTotal(found: Rows, rows: Rows, items: seq<Line>, n: nat)
    requires AllFound(found, items) && Within(found, rows) && n <= |items|
    ensures AllFound(rows, items[..n])
    ensures Total(found, items, n) == ItemsTotal(rows, items[..n])
  {
    if n > 0 {
      TotalIsItemsTotal(found, rows, items, n - 1);
      assert items[..n] == items[..n - 1] + [items[n - 1]];
      ItemsTotalAppend(rows, items[..n - 1], items[n - 1]);
    }
  }

  /** The build loop appends exactly one item per line, in line order. */
  lemma {:induction false} LinesAt(products: Rows, items: seq<Line>, n: nat, itemId: nat -> Guid)
    requires AllFound(products, items) && n <= |items|
    ensures |Lines(products, items, n, itemId)| == n
    ensures forall k :: 0 <= k < n ==>
      var product := products[items[k].productId];
      Lines(products, items, n, itemId)[k] == OrderItem(itemId(k), product.id, items[k].qty, product.price)
  {
    if n > 0 {
      LinesAt(products, items, n - 1, itemId);
    }
  }

  /** After `n` lines, an entity's stock has dropped, with wrap-around, by all its lines asked for. */
  lemma {:induction false} DeductedStock(products: Rows, items: seq<Line>, n: nat, id: Guid)
    requires AllFound(products, items) && n <= |items| && id in products
    ensures Deduct(products, items, n)[id].stockQuantity
         == Wrap32(products[id].stockQuantity - QtyFor(items, n, id))
  {
    if n > 0 {
      DeductedStock(products, items, n - 1, id);
      if items[n - 1].productId == id {
        Wrap32Sub(products[id].stockQuantity - QtyFor(items, n - 1, id), items[n - 1].qty);
      }
    }
  }

  /** A product that none of the first `n` lines names is asked for nothing. */
  lemma {:induction false} QtyForAbsent(items: seq<Line>, n: nat, id: Guid)
    requires n <= |items|
    requires forall k :: 0 <= k < n ==> items[k].productId != id
    ensures QtyFor(items, n, id) == 0
  {
    if n > 0 {
      QtyForAbsent(items, n - 1, id);
    }
  }

  /** Among distinct lines, a product is asked for exactly its own line's quantity. */
  lemma {:induction false} QtyForDistinct(items: seq<Line>, n: nat, k: nat)
    requires n <= |items| && k < n
    requires NoDuplicates(ProductIds(items))
    ensures QtyFor(items, n, items[k].productId) == items[k].qty
  {
    var ids := ProductIds(items);
    if k == n - 1 {
      forall j | 0 <= j < n - 1 ensures items[j].productId != items[k].productId {
        assert ids[j] != ids[k];
      }
      QtyForAbsent(items, n - 1, items[k].productId);
    } else {
      assert ids[k] != ids[n - 1];
      QtyForDistinct(items, n - 1, k);
    }
  }

  /**
   * With rows stored under their own keys, the change tracker holds, after
   * `n` lines, exactly the entities those lines named, each in its
   * deducted state.
   */
  lemma {:induction false} TouchedIsDeducted(products: Rows, items: seq<Line>, n: nat)
    requires Keyed(products) && AllFound(products, items) && n <= |items|
    ensures forall id :: id in Touched(products, items, n) <==> exists k :: 0 <= k < n && items[k].productId == id
    ensures forall id :: id in Touched(products, items, n) ==>
      Touched(products, items, n)[id] == Deduct(products, items, n)[id]
  {
    if n > 0 {
      TouchedIsDeducted(products, items, n - 1);
      var pid := items[n - 1].productId;
      DeductKeeps(products, items, n, pid);
      assert Deduct(products, items, n)[pid].id == pid;
    }
  }

  /** The stock check agrees on any two tables that hold the same rows for the lines' products. */
  lemma {:induction false} FirstShortWithin(found: Rows, rows: Rows, items: seq<Line>, from: nat)
    requires AllFound(found, items) && Within(found, rows) && from <= |items|
    ensures AllFound(rows, items)
    ensures FirstShort(found, items, from) == FirstShort(rows, items, from)
    decreases |items| - from
  {
    if from < |items| {
      FirstShortWithin(found, rows, items, from + 1);
    }
  }

  /** The batched read finds every requested product exactly when every line names a stored product. */
  lemma {:induction false} FetchFindsAll(rows: Rows, items: seq<Line>)
    ensures var found := Fetch(rows, ProductIds(items));
      && Within(found, rows)
      && (Keyed(rows) ==> Keyed(found))
      && (Except(ProductIds(items), found.Keys) == [] <==> AllFound(rows, items))
      && (AllFound(rows, items) ==> AllFound(found, items))
  {
    var ids := ProductIds(items);
    var found := Fetch(rows, ids);
    if !AllFound(rows, items) {
      ExceptSpec(ids, found.Keys);
      var k :| 0 <= k < |items| && items[k].productId !in rows;
      assert ids[k] in Except(ids, found.Keys);
    } else {
      forall x | x in ids ensures x in found {
        var k :| 0 <= k < |ids| && ids[k] == x;
        assert items[k].productId in rows;
      }
      ExceptNone(ids, found.Keys);
    }
  }

  /** Nothing is missing when every id is among the excluded ones. */
  lemma {:induction false} ExceptNone(ids: seq<Guid>, excluded: set<Guid>)
    requires forall x :: x in ids ==> x in excluded
    ensures Except(ids, excluded) == []
    decreases |ids|
  {
    if ids != [] {
      assert ids[0] in excluded;
      ExceptNone(ids[1..], excluded);
    }
  }

  // ---------------------------------------------------------------------------
  // One attempt
  // ---------------------------------------------------------------------------

  /** An attempt gets past both checks exactly when every line names a stored product with enough stock. */
  lemma {:induction false} PrepareReadyIff(rows: Rows, items: seq<Line>, stamp: Stamp)
    ensures Prepare(rows, items, stamp).Ready? <==> Fillable(rows, items)
  {
    FetchFindsAll(rows, items);
    var found := Fetch(rows, ProductIds(items));
    if AllFound(rows, items) {
      FirstShortWithin(found, rows, items, 0);
    }
  }

  /** An attempt on a fillable basket reads every requested row and prepares the order from them. */
  lemma {:induction false} ReadyParts(rows: Rows, items: seq<Line>, stamp: Stamp)
    requires Fillable(rows, items)
    ensures var found := Fetch(rows, ProductIds(items));
      && AllFound(found, items) && Within(found, rows)
      && Prepare(rows, items, stamp) == Ready(Built(found, items, stamp), rows + Touched(found, items, |items|))
  {
    FetchFindsAll(rows, items);
    var found := Fetch(rows, ProductIds(items));
    FirstShortWithin(found, rows, items, 0);
    PrepareReady(rows, items, stamp);
  }

  /**
   * The order built from the rows read: no `Id` yet, the attempt's
   * timestamp, one item per line in line order with that line's product id
   * and quantity and the product's price, and the sum of `Price * qty` as
   * its total.
   */
  lemma {:induction false} BuiltOrder(found: Rows, rows: Rows, items: seq<Line>, stamp: Stamp)
    requires Keyed(found) && AllFound(found, items) && Within(found, rows)
    ensures AllFound(rows, items)
    ensures var order := Built(found, items, stamp);
      && order.id == EmptyGuid && order.createdAt == stamp.createdAt
      && |order.items| == |items|
      && (forall k :: 0 <= k < |items| ==>
            order.items[k] == OrderItem(stamp.itemId(k), items[k].productId, items[k].qty, rows[items[k].productId].price))
      && order.total == ItemsTotal(rows, items)
  {
    LinesAt(found, items, |items|, stamp.itemId);
    TotalIsItemsTotal(found, rows, items, |items|);
    assert items[..|items|] == items;
  }

  /**
   * The table with the tracked entities written back: the same products,
   * each with its stock lowered, with 32-bit wrap-around, by the total
   * quantity the lines ask of it, and nothing else about it changed.
   */
  lemma {:induction false} CommittedRows(found: Rows, rows: Rows, items: seq<Line>)
    requires Keyed(found) && AllFound(found, items) && Within(found, rows)
    ensures StockTaken(rows, rows + Touched(found, items, |items|), items)
  {
    var touched := Touched(found, items, |items|);
    TouchedIsDeducted(found, items, |items|);
    forall id | id in touched ensures id in rows {
      var k :| 0 <= k < |items| && items[k].productId == id;
    }
    assert (rows + touched).Keys == rows.Keys;
    forall id | id in rows
      ensures (rows + touched)[id] == rows[id].(stockQuantity := Wrap32(rows[id].stockQuantity - QtyFor(items, |items|, id)))
    {
      CommittedRow(found, rows, items, id);
    }
  }

  lemma {:induction false} CommittedRow(found: Rows, rows: Rows, items: seq<Line>, id: Guid)
    requires Keyed(found) && AllFound(found, items) && Within(found, rows) && id in rows
    ensures var touched := Touched(found, items, |items|);
      (if id in touched then touched[id] else rows[id])
      == rows[id].(stockQuantity := Wrap32(rows[id].stockQuantity - QtyFor(items, |items|, id)))
  {
    var n := |items|;
    TouchedIsDeducted(found, items, n);
    if id in Touched(found, items, n) {
      var k :| 0 <= k < n && items[k].productId == id;
      DeductKeeps(found, items, n, id);
      DeductedStock(found, items, n, id);
    } else {
      QtyForAbsent(items, n, id);
    }
  }

  /** The order and the product table a fillable basket's attempt prepares, on a keyed table. */
  lemma {:induction false} PreparedReady(rows: Rows, items: seq<Line>, stamp: Stamp)
    requires Keyed(rows) && Fillable(rows, items)
    ensures var found := Fetch(rows, ProductIds(items));
      && Keyed(found) && AllFound(found, items) && Within(found, rows)
      && Prepare(rows, items, stamp) == Ready(Built(found, items, stamp), rows + Touched(found, items, |items|))
  {
    ReadyParts(rows, items, stamp);
    FetchFindsAll(rows, items);
  }

  /**
   * A basket whose products are all stored but one of whose lines asks for
   * more than its stock is rejected at the first such line.
   */
  lemma {:induction false} PreparedShort(rows: Rows, items: seq<Line>, stamp: Stamp)
    requires AllFound(rows, items) && !Fillable(rows, items)
    ensures exists k ::
      && 0 <= k < |items| && Short(rows, items[k])
      && (forall j :: 0 <= j < k ==> !Short(rows, items[j]))
      && Prepare(rows, items, stamp) == Rejected(InsufficientStock(items[k].productId, rows[items[k].productId].name,
                                                                   items[k].qty, rows[items[k].productId].stockQuantity))
  {
    FetchFindsAll(rows, items);
    var found := Fetch(rows, ProductIds(items));
    FirstShortWithin(found, rows, items, 0);
    var k := FirstShort(rows, items, 0).value;
    PrepareShort(rows, items, stamp, k);
  }

  // ---------------------------------------------------------------------------
  // The whole call
  // ---------------------------------------------------------------------------

  /**
   * A call that places an order places the order the committing attempt
   * prepared, and leaves the table that attempt prepared.
   */
  lemma {:induction false} RetryPlaced(v: Variant, rows: Rows, items: seq<Line>, preps: Preps,
                                       outcomes: seq<SaveOutcome>, attempt: nat, calls: seq<Event>)
    requires 1 <= attempt <= MaxRetries
    ensures var r := Retry(v, rows, items, preps, outcomes, attempt, calls);
      r.result.Placed? ==>
        preps[r.attempts - 1].Ready? && r.result.order == preps[r.attempts - 1].order && r.rows == preps[r.attempts - 1].rows
    decreases MaxRetries - attempt
  {
    var prep := preps[attempt - 1];
    var save := NextOutcome(outcomes);
    var left := if prep.Ready? then AfterSave(outcomes) else outcomes;
    var tried := calls + [Begin] + TryCalls(items, prep, save);
    match TryResult(prep, save)
    case Returned(order) =>
      assert Retry(v, rows, items, preps, outcomes, attempt, calls) == RunResult(Placed(order), prep.rows, attempt, left, tried);
    case Threw(e) =>
    case SaveThrew(raised) =>
      if raised.Conflict? && Absorbs(v, raised.kind) && attempt < MaxRetries {
        RetryPlaced(v, rows, items, preps, left, attempt + 1, tried + [Rollback] + [Delay(BackoffStepMs * attempt)]);
      }
  }

  /** A rejected first attempt is rolled back and not retried, whatever the saves would do. */
  lemma {:induction false} RetryRejected(v: Variant, rows: Rows, items: seq<Line>, stamps: Stamps,
                                         outcomes: seq<SaveOutcome>, calls: seq<Event>)
    requires Prepare(rows, items, stamps(1)).Rejected?
    ensures Run(v, rows, items, outcomes, stamps, calls)
         == RunResult(Failed(Prepare(rows, items, stamps(1)).error), rows, 1, outcomes,
                      calls + [Begin, Read(ProductIds(items)), Rollback])
  {
    PreparationsAt(rows, items, stamps, 1);
  }

  /**
   * A basket naming a product that is not stored fails with "Products not
   * found", listing each requested id absent from the table once; it is not
   * retried, changes nothing, and the attempt rolls back right after the read.
   */
  lemma {:induction false} RunNotFound(v: Variant, rows: Rows, items: seq<Line>, outcomes: seq<SaveOutcome>, stamps: Stamps, calls: seq<Event>)
    requires !AllFound(rows, items)
    ensures var r := Run(v, rows, items, outcomes, stamps, calls);
      && r.result.Failed? && r.result.error.ProductsNotFound?
      && (forall id :: id in r.result.error.missing <==> id in ProductIds(items) && id !in rows)
      && NoDuplicates(r.result.error.missing)
      && r.rows == rows && r.attempts == 1 && r.outcomesLeft == outcomes
      && r.trace == calls + [Begin, Read(ProductIds(items)), Rollback]
  {
    FetchFindsAll(rows, items);
    ExceptSpec(ProductIds(items), Fetch(rows, ProductIds(items)).Keys);
    PrepareMissing(rows, items, stamps(1));
    RetryRejected(v, rows, items, stamps, outcomes, calls);
  }

  /**
   * A basket whose products are all stored but one of whose lines asks for
   * more than its stock fails with insufficient stock for the first such
   * line, quoting requested and available quantities; it is not retried,
   * changes nothing, and no product is updated.
   */
  lemma {:induction false} RunShort(v: Variant, rows: Rows, items: seq<Line>, outcomes: seq<SaveOutcome>, stamps: Stamps, calls: seq<Event>)
    requires AllFound(rows, items) && !Fillable(rows, items)
    ensures var r := Run(v, rows, items, outcomes, stamps, calls);
      && (exists k :: 0 <= k < |items| && Short(rows, items[k])
            && (forall j :: 0 <= j < k ==> !Short(rows, items[j]))
            && r.result == Failed(InsufficientStock(items[k].productId, rows[items[k].productId].name,
                                                    items[k].qty, rows[items[k].productId].stockQuantity)))
      && r.rows == rows && r.attempts == 1 && r.outcomesLeft == outcomes
      && r.trace == calls + [Begin, Read(ProductIds(items)), Rollback]
  {
    PreparedShort(rows, items, stamps(1));
    RetryRejected(v, rows, items, stamps, outcomes, calls);
  }

  /** A fillable basket whose first save goes through is placed on the first attempt. */
  lemma {:induction false} RunFillable(v: Variant, rows: Rows, items: seq<Line>, outcomes: seq<SaveOutcome>, stamps: Stamps, calls: seq<Event>)
    requires Fillable(rows, items) && NextOutcome(outcomes) == Saved
    ensures var r := Run(v, rows, items, outcomes, stamps, calls);
      var prep := Prepare(rows, items, stamps(1));
      && prep.Ready?
      && r.result == Placed(prep.order)
      && r.rows == prep.rows
      && r.attempts == 1 && r.outcomesLeft == AfterSave(outcomes)
      && r.trace == calls + [Begin] + TryCalls(items, prep, Saved)
  {
    PrepareReadyIff(rows, items, stamps(1));
    PreparationsAt(rows, items, stamps, 1);
  }

  /**
   * What a placed order says about the call: every line named a stored
   * product with enough stock; the order, built by the attempt that
   * committed with the values that attempt drew, has one item per line
   * carrying the line's product id and quantity and the product's price, and
   * its total is the sum of `Price * qty`; each product's stock dropped by
   * the total quantity asked of it and nothing else in the table changed.
   */
  lemma {:induction false} RunPlaced(v: Variant, rows: Rows, items: seq<Line>, outcomes: seq<SaveOutcome>, stamps: Stamps, calls: seq<Event>)
    requires Keyed(rows)
    requires Run(v, rows, items, outcomes, stamps, calls).result.Placed?
    ensures Fillable(rows, items)
    ensures var r := Run(v, rows, items, outcomes, stamps, calls);
      var stamp := stamps(r.attempts);
      var order := r.result.order;
      && order.id == EmptyGuid && order.createdAt == stamp.createdAt
      && |order.items| == |items|
      && (forall k :: 0 <= k < |items| ==>
            order.items[k] == OrderItem(stamp.itemId(k), items[k].productId, items[k].qty, rows[items[k].productId].price))
      && order.total == ItemsTotal(rows, items)
    ensures StockTaken(rows, Run(v, rows, items, outcomes, stamps, calls).rows, items)
  {
    var attempts := Run(v, rows, items, outcomes, stamps, calls).attempts;
    var stamp := stamps(attempts);
    RetryPlaced(v, rows, items, Preparations(rows, items, stamps), outcomes, 1, calls);
    PreparationsAt(rows, items, stamps, attempts);
    PrepareReadyIff(rows, items, stamp);
    PreparedReady(rows, items, stamp);
    var found := Fetch(rows, ProductIds(items));
    BuiltOrder(found, rows, items, stamp);
    CommittedRows(found, rows, items);
  }

  /**
   * When the lines name distinct products and ask for non-negative
   * quantities, no stock goes negative: each line was checked against the
   * only deduction its product gets.
   */
  lemma {:induction false} RunDistinctKeepsStock(v: Variant, rows: Rows, items: seq<Line>, outcomes: seq<SaveOutcome>, stamps: Stamps, calls: seq<Event>)
    requires Keyed(rows) && NoDuplicates(ProductIds(items))
    requires forall k :: 0 <= k < |items| ==> 0 <= items[k].qty
    requires forall id :: id in rows ==> 0 <= rows[id].stockQuantity
    ensures var r := Run(v, rows, items, outcomes, stamps, calls);
      forall id :: id in r.rows ==> 0 <= r.rows[id].stockQuantity
  {
    var r := Run(v, rows, items, outcomes, stamps, calls);
    if r.result.Placed? {
      RunPlaced(v, rows, items, outcomes, stamps, calls);
      TakenKeepsStock(rows, r.rows, items);
    }
  }

  /** Taking at most the stock of each product once leaves no stock negative. */
  lemma {:induction false} TakenKeepsStock(before: Rows, after: Rows, items: seq<Line>)
    requires StockTaken(before, after, items) && Fillable(before, items) && NoDuplicates(ProductIds(items))
    requires forall k :: 0 <= k < |items| ==> 0 <= items[k].qty
    requires forall id :: id in before ==> 0 <= before[id].stockQuantity
    ensures forall id :: id in after ==> 0 <= after[id].stockQuantity
  {
    forall id | id in after ensures 0 <= after[id].stockQuantity {
      if k :| 0 <= k < |items| && items[k].productId == id {
        QtyForDistinct(items, |items|, k);
      } else {
        QtyForAbsent(items, |items|, id);
      }
    }
  }

  /** An empty basket is placed as an order with no items and a zero total, and changes no stock. */
  lemma {:induction false} RunEmptyBasket(v: Variant, rows: Rows, outcomes: seq<SaveOutcome>, stamps: Stamps, calls: seq<Event>)
    requires NextOutcome(outcomes) == Saved
    ensures var r := Run(v, rows, [], outcomes, stamps, calls);
      && r.result == Placed(Order(EmptyGuid, stamps(1).createdAt, 0, []))
      && r.rows == rows && r.attempts == 1
  {
    ReadyParts(rows, [], stamps(1));
    PreparationsAt(rows, [], stamps, 1);
    assert rows + map[] == rows;
  }

  // ---------------------------------------------------------------------------
  // The retry loop
  // ---------------------------------------------------------------------------

  /** Every attempt passes both checks. */
  ghost predicate AllReady(preps: Preps) {
    forall i :: 0 <= i < MaxRetries ==> preps[i].Ready?
  }

  /**
   * A fillable basket passes both checks on every attempt: each attempt
   * re-reads the table the rolled-back attempt left as it found it.
   */
  lemma FillableReady(rows: Rows, items: seq<Line>, stamps: Stamps)
    requires Fillable(rows, items)
    ensures AllReady(Preparations(rows, items, stamps))
  {
    forall i | 0 <= i < MaxRetries
      ensures Preparations(rows, items, stamps)[i].Ready?
    {
      PreparationsAt(rows, items, stamps, i + 1);
      PrepareReadyIff(rows, items, stamps(i + 1));
    }
  }

  /**
   * When every attempt passes both checks, the call fails, from any attempt
   * on, only with an exception a save raised.
   */
  lemma {:induction false} RetryFillable(v: Variant, rows: Rows, items: seq<Line>, preps: Preps,
                                         outcomes: seq<SaveOutcome>, attempt: nat, calls: seq<Event>)
    requires 1 <= attempt <= MaxRetries && AllReady(preps)
    ensures var r := Retry(v, rows, items, preps, outcomes, attempt, calls);
      r.result.Failed? ==> r.result.error.ConcurrencyFailure? || r.result.error.StoreFailure?
    decreases MaxRetries - attempt
  {
    var prep := preps[attempt - 1];
    assert prep.Ready?;
    var save := NextOutcome(outcomes);
    var tried := calls + [Begin] + TryCalls(items, prep, save);
    match TryResult(prep, save)
    case Returned(_) =>
    case Threw(_) =>
      assert false;
    case SaveThrew(raised) =>
      if raised.Conflict? && Absorbs(v, raised.kind) && attempt < MaxRetries {
        RetryFillable(v, rows, items, preps, AfterSave(outcomes), attempt + 1, tried + [Rollback] + [Delay(BackoffStepMs * attempt)]);
      }
  }

  /**
   * No other writer changes the table between attempts here, so a call that
   * was retried at all had a fillable basket, and fails, if it fails, only
   * with the exception a save raised, never with a missing product or
   * insufficient stock.
   */
  lemma {:induction false} RunRetried(v: Variant, rows: Rows, items: seq<Line>, outcomes: seq<SaveOutcome>,
                                      stamps: Stamps, calls: seq<Event>)
    requires Run(v, rows, items, outcomes, stamps, calls).attempts > 1
    ensures Fillable(rows, items)
    ensures var r := Run(v, rows, items, outcomes, stamps, calls);
      r.result.Failed? ==> r.result.error.ConcurrencyFailure? || r.result.error.StoreFailure?
  {
    PrepareReadyIff(rows, items, stamps(1));
    if !Fillable(rows, items) {
      RetryRejected(v, rows, items, stamps, outcomes, calls);
      assert false;
    }
    FillableReady(rows, items, stamps);
    RetryFillable(v, rows, items, Preparations(rows, items, stamps), outcomes, 1, calls);
  }

  /**
   * From attempt `attempt` on, if every attempt passes both checks and every
   * remaining attempt's save raises a conflict the retry clause catches, the
   * call fails with that conflict after the fifth attempt and leaves the
   * table as it was.
   */
  lemma {:induction false} RetryAllConflict(v: Variant, rows: Rows, items: seq<Line>, preps: Preps,
                                            outcomes: seq<SaveOutcome>, attempt: nat, calls: seq<Event>, kind: ConcurrencyKind)
    requires 1 <= attempt <= MaxRetries
    requires AllReady(preps) && Absorbs(v, kind)
    requires MaxRetries - attempt < |outcomes|
    requires forall i :: 0 <= i <= MaxRetries - attempt ==> outcomes[i] == Conflict(kind)
    ensures var r := Retry(v, rows, items, preps, outcomes, attempt, calls);
      && r.result == Failed(ConcurrencyFailure(kind))
      && r.attempts == MaxRetries && r.rows == rows
      && r.outcomesLeft == outcomes[MaxRetries - attempt + 1..]
    decreases MaxRetries - attempt
  {
    var prep := preps[attempt - 1];
    assert prep.Ready?;
    assert outcomes[0] == Conflict(kind);
    var left := AfterSave(outcomes);
    if attempt < MaxRetries {
      var head := [Begin] + TryCalls(items, prep, Conflict(kind));
      var next := calls + head + [Rollback] + [Delay(BackoffStepMs * attempt)];
      RetryStep(v, rows, items, preps, prep, outcomes, attempt, calls);
      assert forall i :: 0 <= i <= MaxRetries - (attempt + 1) ==> left[i] == outcomes[i + 1];
      assert left[MaxRetries - attempt..] == outcomes[MaxRetries - attempt + 1..];
      RetryAllConflict(v, rows, items, preps, left, attempt + 1, next, kind);
    }
  }

  /**
   * A fillable basket whose saves all raise a conflict the retry clause
   * catches: five attempts, then that conflict surfaces, and the table is
   * as it was.
   */
  lemma {:induction false} RunConflictEveryAttempt(v: Variant, rows: Rows, items: seq<Line>, outcomes: seq<SaveOutcome>,
                                                   stamps: Stamps, calls: seq<Event>, kind: ConcurrencyKind)
    requires Fillable(rows, items) && Absorbs(v, kind)
    requires MaxRetries <= |outcomes|
    requires forall i :: 0 <= i < MaxRetries ==> outcomes[i] == Conflict(kind)
    ensures var r := Run(v, rows, items, outcomes, stamps, calls);
      && r.result == Failed(ConcurrencyFailure(kind))
      && r.attempts == MaxRetries && r.rows == rows
      && r.outcomesLeft == outcomes[MaxRetries..]
  {
    FillableReady(rows, items, stamps);
    RetryAllConflict(v, rows, items, Preparations(rows, items, stamps), outcomes, 1, calls, kind);
  }

  /**
   * A fillable basket whose first save raises a conflict the retry clause
   * catches and whose second save goes through is placed on the second
   * attempt. Compared with a call whose first save goes through, its order
   * has the second attempt's `CreatedAt` and item ids but the same products,
   * quantities, prices and total, and the table is the same: the stock is
   * deducted once.
   */
  lemma {:induction false} RunConflictOnce(v: Variant, rows: Rows, items: seq<Line>, outcomes: seq<SaveOutcome>,
                                           stamps: Stamps, calls: seq<Event>, kind: ConcurrencyKind)
    requires Fillable(rows, items) && Absorbs(v, kind)
    requires 1 <= |outcomes| && outcomes[0] == Conflict(kind) && NextOutcome(outcomes[1..]) == Saved
    ensures var r := Run(v, rows, items, outcomes, stamps, calls);
      var once := Run(v, rows, items, [], stamps, calls);
      && r.result.Placed? && r.attempts == 2 && once.result.Placed?
      && r.result.order.createdAt == stamps(2).createdAt
      && r.result.order.total == once.result.order.total
      && |r.result.order.items| == |once.result.order.items|
      && (forall k :: 0 <= k < |r.result.order.items| ==>
            r.result.order.items[k] == once.result.order.items[k].(id := stamps(2).itemId(k)))
      && r.rows == once.rows
  {
    PrepareReadyIff(rows, items, stamps(1));
    PrepareReadyIff(rows, items, stamps(2));
    ReadyParts(rows, items, stamps(1));
    ReadyParts(rows, items, stamps(2));
    PrepareStampFree(rows, items, stamps(1), stamps(2));
    RetryPlaced(v, rows, items, Preparations(rows, items, stamps), outcomes, 1, calls);
    RetryPlaced(v, rows, items, Preparations(rows, items, stamps), [], 1, calls);
    var found := Fetch(rows, ProductIds(items));
    LinesAt(found, items, |items|, stamps(1).itemId);
    LinesAt(found, items, |items|, stamps(2).itemId);
    PreparationsAt(rows, items, stamps, 1);
    PreparationsAt(rows, items, stamps, 2);
    var preps := Preparations(rows, items, stamps);
    var tried := calls + [Begin] + TryCalls(items, preps[0], Conflict(kind));
    assert Run(v, rows, items, outcomes, stamps, calls)
        == Retry(v, rows, items, preps, outcomes[1..], 2, tried + [Rollback] + [Delay(BackoffStepMs * 1)]);
  }

  /**
   * A fillable basket whose first save raises something the retry clause
   * does not catch (another exception, or the other kind of conflict) fails
   * on the first attempt with that exception, and the table is as it was.
   */
  lemma {:induction false} RunUncaught(v: Variant, rows: Rows, items: seq<Line>, outcomes: seq<SaveOutcome>,
                                       stamps: Stamps, calls: seq<Event>)
    requires Fillable(rows, items)
    requires NextOutcome(outcomes) == Fault
          || (NextOutcome(outcomes).Conflict? && !Absorbs(v, NextOutcome(outcomes).kind))
    ensures var r := Run(v, rows, items, outcomes, stamps, calls);
      && r.result == Failed(Surfaced(NextOutcome(outcomes)))
      && r.attempts == 1 && r.rows == rows
  {
    PrepareReadyIff(rows, items, stamps(1));
    PreparationsAt(rows, items, stamps, 1);
  }

  /**
   * The unit-of-work service never retries a `DbUpdateConcurrencyException`:
   * its retry clause catches only the domain exception, so EF Core's
   * conflict fails the call on the first attempt, while the EF-context
   * service retries it.
   */
  lemma {:induction false} UnitOfWorkSurfacesDbConflict(rows: Rows, items: seq<Line>, outcomes: seq<SaveOutcome>,
                                                        stamps: Stamps, calls: seq<Event>)
    requires Fillable(rows, items)
    requires NextOutcome(outcomes) == Conflict(DbUpdateConcurrency)
    ensures var r := Run(UnitOfWork, rows, items, outcomes, stamps, calls);
      && r.result == Failed(ConcurrencyFailure(DbUpdateConcurrency))
      && r.attempts == 1 && r.rows == rows
    ensures Run(EfContext, rows, items, outcomes, stamps, calls).attempts >= 2
  {
    RunUncaught(UnitOfWork, rows, items, outcomes, stamps, calls);
    PrepareReadyIff(rows, items, stamps(1));
    PreparationsAt(rows, items, stamps, 1);
  }

  // ---------------------------------------------------------------------------
  // The collaborator calls
  // ---------------------------------------------------------------------------

  lemma {:induction false} DelaysAppend(a: seq<Event>, b: seq<Event>)
    ensures Delays(a + b) == Delays(a) + Delays(b)
  {
    if a == [] {
      assert a + b == b;
    } else {
      var ab := a + b;
      assert ab[0] == a[0] && ab[1..] == a[1..] + b;
      DelaysAppend(a[1..], b);
    }
  }

  lemma {:induction false} DelaysNone(t: seq<Event>)
    requires forall e :: e in t ==> !e.Delay?
    ensures Delays(t) == []
  {
    if t != [] {
      assert t[0] in t;
      DelaysNone(t[1..]);
    }
  }

  /** The calls an order's items cause are all `Update` calls. */
  lemma {:induction false} UpdatesAre(lines: seq<OrderItem>)
    ensures forall e :: e in Updates(lines) ==> e.Update?
  {
    if lines != [] {
      UpdatesAre(lines[..|lines| - 1]);
    }
  }

  /**
   * The calls of the `try` block of one attempt, as `TryCallsShape` states
   * them: no waiting, and a commit only as the last call, right after a
   * save that went through, exactly when the attempt returns.
   */
  ghost predicate TryShaped(t: seq<Event>, returned: bool) {
    && |t| >= 1 && Delays(t) == []
    && (returned ==> Committed(t))
    && (!returned ==> Commit !in t)
  }

  /** The calls end with a save that went through and then the only commit. */
  ghost predicate Committed(added: seq<Event>) {
    |added| >= 2 && added[|added| - 1] == Commit && added[|added| - 2] == Save(Saved) && Commit !in added[..|added| - 1]
  }

  lemma {:induction false} TryCallsShape(items: seq<Line>, prep: Prepared, save: SaveOutcome)
    ensures TryShaped(TryCalls(items, prep, save), TryResult(prep, save).Returned?)
  {
    var t := TryCalls(items, prep, save);
    var read := [Read(ProductIds(items))];
    if prep.Ready? {
      var order := prep.order;
      var u := Updates(order.items);
      UpdatesAre(order.items);
      var saving := read + u + [AddOrder(order)] + [Save(save)];
      assert Commit !in saving && forall e :: e in saving ==> !e.Delay?;
      if save == Saved {
        assert t == saving + [Commit];
        assert t[..|t| - 1] == saving;
      } else {
        assert t == saving;
      }
    } else {
      assert t == read;
    }
    DelaysNone(t);
  }

  /**
   * The calls a run makes after the earlier ones: it first begins a
   * transaction; a failed run ends with a rollback and never commits; a
   * placed one commits once, as its last call, right after a save that went
   * through.
   */
  ghost predicate Orderly(added: seq<Event>, result: PlaceResult) {
    && |added| >= 2
    && added[0] == Begin
    && (result.Failed? ==> added[|added| - 1] == Rollback && Commit !in added)
    && (result.Placed? ==> Committed(added))
  }

  /** An attempt's calls once its transaction is open: `Begin`, then the `try` block's calls. */
  ghost predicate HeadShaped(head: seq<Event>, returned: bool) {
    && |head| >= 2 && head[0] == Begin && Delays(head) == []
    && (returned ==> Committed(head))
    && (!returned ==> Commit !in head)
  }

  lemma {:induction false} HeadOf(t: seq<Event>, returned: bool)
    requires TryShaped(t, returned)
    ensures HeadShaped([Begin] + t, returned)
  {
    var head := [Begin] + t;
    DelaysAppend([Begin], t);
    assert Delays([Begin]) == [];
    if returned {
      assert head[..|head| - 1] == [Begin] + t[..|t| - 1];
    }
  }

  lemma {:induction false} HeadAfter(calls: seq<Event>, t: seq<Event>)
    ensures calls + [Begin] + t == calls + ([Begin] + t)
    ensures [] + [Begin] + t == [Begin] + t
  {
  }

  /** The calls of an attempt's `try` block, after the `Begin` that opens its transaction. */
  lemma {:induction false} AttemptHead(calls: seq<Event>, items: seq<Line>, prep: Prepared, save: SaveOutcome)
    ensures var head := [Begin] + TryCalls(items, prep, save);
      && calls + [Begin] + TryCalls(items, prep, save) == calls + head
      && [] + [Begin] + TryCalls(items, prep, save) == head
      && HeadShaped(head, TryResult(prep, save).Returned?)
  {
    TryCallsShape(items, prep, save);
    HeadOf(TryCalls(items, prep, save), TryResult(prep, save).Returned?);
    HeadAfter(calls, TryCalls(items, prep, save));
  }

  lemma {:induction false} OrderlyAfter(prefix: seq<Event>, rest: seq<Event>, result: PlaceResult)
    requires |prefix| >= 1 && prefix[0] == Begin && Commit !in prefix && Orderly(rest, result)
    ensures Orderly(prefix + rest, result)
  {
    var all := prefix + rest;
    assert all[..|all| - 1] == prefix + rest[..|rest| - 1];
  }

  /** The calls of a run whose attempt is its last: the attempt's calls, then a rollback unless it returned. */
  lemma {:induction false} LastAttempt(head: seq<Event>, returned: bool, result: PlaceResult)
    requires HeadShaped(head, returned) && result.Placed? == returned
    ensures var all := if returned then head else head + [Rollback];
      Orderly(all, result) && Delays(all) == []
  {
    if !returned {
      DelaysAppend(head, [Rollback]);
      assert Delays([Rollback]) == [];
      assert (head + [Rollback])[..|head|] == head;
    }
  }

  lemma {:induction false} BackoffsAt(first: nat, last: nat)
    requires first <= last
    decreases last - first
    ensures |Backoffs(first, last)| == last - first
    ensures forall k :: 0 <= k < last - first ==> Backoffs(first, last)[k] == BackoffStepMs * (first + k)
  {
    if first < last {
      BackoffsAt(first + 1, last);
    }
  }

  /** Attempt `attempt` fails with a conflict the variant absorbs, and another attempt is left. */
  ghost predicate Retrying(v: Variant, prep: Prepared, outcomes: seq<SaveOutcome>, attempt: nat) {
    var o := TryResult(prep, NextOutcome(outcomes));
    o.SaveThrew? && o.raised.Conflict? && Absorbs(v, o.raised.kind) && attempt < MaxRetries
  }

  /** A retried attempt: its `try` block's calls, a rollback and a wait, then the next attempt. */
  lemma {:induction false} RetryStep(v: Variant, rows: Rows, items: seq<Line>, preps: Preps, prep: Prepared,
                                     outcomes: seq<SaveOutcome>, attempt: nat, calls: seq<Event>)
    requires 1 <= attempt <= MaxRetries && prep == preps[attempt - 1]
    requires Retrying(v, prep, outcomes, attempt)
    ensures var head := [Begin] + TryCalls(items, prep, NextOutcome(outcomes));
      var left := if prep.Ready? then AfterSave(outcomes) else outcomes;
      var wait := Delay(BackoffStepMs * attempt);
      && Retry(v, rows, items, preps, outcomes, attempt, calls)
           == Retry(v, rows, items, preps, left, attempt + 1, calls + head + [Rollback] + [wait])
      && Retry(v, rows, items, preps, outcomes, attempt, [])
           == Retry(v, rows, items, preps, left, attempt + 1, head + [Rollback] + [wait])
  {
    HeadAfter(calls, TryCalls(items, prep, NextOutcome(outcomes)));
  }

  /** An attempt that is not retried ends the run, whatever calls came before it. */
  lemma {:induction false} StopFrom(v: Variant, rows: Rows, items: seq<Line>, preps: Preps, prep: Prepared,
                                    outcomes: seq<SaveOutcome>, attempt: nat, calls: seq<Event>)
    requires 1 <= attempt <= MaxRetries && prep == preps[attempt - 1]
    requires !Retrying(v, prep, outcomes, attempt)
    ensures var r := Retry(v, rows, items, preps, outcomes, attempt, []);
      Retry(v, rows, items, preps, outcomes, attempt, calls) == r.(trace := calls + r.trace)
  {
    var head := [Begin] + TryCalls(items, prep, NextOutcome(outcomes));
    HeadAfter(calls, TryCalls(items, prep, NextOutcome(outcomes)));
    assert calls + head + [Rollback] == calls + (head + [Rollback]);
  }

  /**
   * The calls of the attempts from `attempt` on keep to `Orderly`, and the
   * waits between them are the backoffs after each of those attempts but the last.
   */
  ghost predicate CallsFrom(r: RunResult, attempt: nat) {
    Orderly(r.trace, r.result) && Delays(r.trace) == Backoffs(attempt, r.attempts)
  }

  /** The calls of an attempt that is not retried: `Orderly`, and no wait. */
  lemma {:induction false} StopCalls(v: Variant, rows: Rows, items: seq<Line>, preps: Preps, prep: Prepared,
                                     outcomes: seq<SaveOutcome>, attempt: nat)
    requires 1 <= attempt <= MaxRetries && prep == preps[attempt - 1]
    requires !Retrying(v, prep, outcomes, attempt)
    ensures var r := Retry(v, rows, items, preps, outcomes, attempt, []);
      && r.attempts == attempt
      && Orderly(r.trace, r.result)
      && Delays(r.trace) == []
  {
    var save := NextOutcome(outcomes);
    var returned := TryResult(prep, save).Returned?;
    var head := [Begin] + TryCalls(items, prep, save);
    AttemptHead([], items, prep, save);
    var r := Retry(v, rows, items, preps, outcomes, attempt, []);
    assert r.trace == (if returned then head else head + [Rollback]) && r.result.Placed? == returned;
    LastAttempt(head, returned, r.result);
  }

  /** Composing a retried attempt's calls with the calls of the attempts after it. */
  lemma {:induction false} ContinueCalls(head: seq<Event>, r: RunResult, later: RunResult, attempt: nat)
    requires HeadShaped(head, false) && attempt < later.attempts && CallsFrom(later, attempt + 1)
    requires r == later.(trace := head + [Rollback] + [Delay(BackoffStepMs * attempt)] + later.trace)
    ensures CallsFrom(r, attempt)
  {
    var next := head + [Rollback] + [Delay(BackoffStepMs * attempt)];
    assert next[0] == Begin && Commit !in next;
    OrderlyAfter(next, later.trace, later.result);
    DelaysContinue(head, later.trace, BackoffStepMs * attempt);
  }

  lemma {:induction false} DelaysContinue(head: seq<Event>, later: seq<Event>, wait: nat)
    requires Delays(head) == []
    ensures Delays(head + [Rollback] + [Delay(wait)] + later) == [wait] + Delays(later)
  {
    var tail := [Rollback] + [Delay(wait)] + later;
    assert head + [Rollback] + [Delay(wait)] + later == head + tail;
    DelaysAppend(head, tail);
    assert tail[1..] == [Delay(wait)] + later;
    assert tail[1..][1..] == later;
  }

  /** The retry loop's calls follow the calls made before it, and nothing else depends on those. */
  lemma {:induction false} RetryFrom(v: Variant, rows: Rows, items: seq<Line>, preps: Preps,
                                     outcomes: seq<SaveOutcome>, attempt: nat, calls: seq<Event>)
    requires 1 <= attempt <= MaxRetries
    ensures var r := Retry(v, rows, items, preps, outcomes, attempt, []);
      Retry(v, rows, items, preps, outcomes, attempt, calls) == r.(trace := calls + r.trace)
    decreases MaxRetries - attempt
  {
    var prep := preps[attempt - 1];
    if Retrying(v, prep, outcomes, attempt) {
      var head := [Begin] + TryCalls(items, prep, NextOutcome(outcomes));
      var left := if prep.Ready? then AfterSave(outcomes) else outcomes;
      var tail := head + [Rollback] + [Delay(BackoffStepMs * attempt)];
      RetryStep(v, rows, items, preps, prep, outcomes, attempt, calls);
      RetryFrom(v, rows, items, preps, left, attempt + 1, calls + head + [Rollback] + [Delay(BackoffStepMs * attempt)]);
      RetryFrom(v, rows, items, preps, left, attempt + 1, tail);
      TailAfter(calls, head, BackoffStepMs * attempt, Retry(v, rows, items, preps, left, attempt + 1, []).trace);
    } else {
      StopFrom(v, rows, items, preps, prep, outcomes, attempt, calls);
    }
  }

  lemma TailAfter(calls: seq<Event>, head: seq<Event>, wait: nat, later: seq<Event>)
    ensures calls + head + [Rollback] + [Delay(wait)] + later == calls + (head + [Rollback] + [Delay(wait)] + later)
  {
  }

  /** An attempt that is retried has begun its transaction and has not committed. */
  lemma {:induction false} RetryHead(v: Variant, items: seq<Line>, prep: Prepared,
                                     outcomes: seq<SaveOutcome>, attempt: nat)
    requires Retrying(v, prep, outcomes, attempt)
    ensures HeadShaped([Begin] + TryCalls(items, prep, NextOutcome(outcomes)), false)
  {
    AttemptHead([], items, prep, NextOutcome(outcomes));
  }

  /** A retried attempt's calls followed by those of the attempts after it. */
  lemma {:induction false} RetryTail(v: Variant, rows: Rows, items: seq<Line>, preps: Preps, prep: Prepared,
                                     outcomes: seq<SaveOutcome>, attempt: nat)
    requires 1 <= attempt <= MaxRetries && prep == preps[attempt - 1]
    requires Retrying(v, prep, outcomes, attempt)
    ensures var head := [Begin] + TryCalls(items, prep, NextOutcome(outcomes));
      var left := if prep.Ready? then AfterSave(outcomes) else outcomes;
      var r := Retry(v, rows, items, preps, outcomes, attempt, []);
      var later := Retry(v, rows, items, preps, left, attempt + 1, []);
      r == later.(trace := head + [Rollback] + [Delay(BackoffStepMs * attempt)] + later.trace)
  {
    var head := [Begin] + TryCalls(items, prep, NextOutcome(outcomes));
    var left := if prep.Ready? then AfterSave(outcomes) else outcomes;
    RetryStep(v, rows, items, preps, prep, outcomes, attempt, []);
    RetryFrom(v, rows, items, preps, left, attempt + 1, head + [Rollback] + [Delay(BackoffStepMs * attempt)]);
  }

  /**
   * The calls the retry loop makes from attempt `attempt` on: each attempt
   * begins a transaction, and a retried one rolls back and then waits
   * `50 * k` ms after attempt k; the run ends as `Orderly` says.
   */
  lemma {:induction false} RetryCalls(v: Variant, rows: Rows, items: seq<Line>, preps: Preps,
                                      outcomes: seq<SaveOutcome>, attempt: nat)
    requires 1 <= attempt <= MaxRetries
    ensures CallsFrom(Retry(v, rows, items, preps, outcomes, attempt, []), attempt)
    decreases MaxRetries - attempt
  {
    var prep := preps[attempt - 1];
    if Retrying(v, prep, outcomes, attempt) {
      var left := if prep.Ready? then AfterSave(outcomes) else outcomes;
      RetryHead(v, items, prep, outcomes, attempt);
      RetryTail(v, rows, items, preps, prep, outcomes, attempt);
      RetryCalls(v, rows, items, preps, left, attempt + 1);
      ContinueCalls([Begin] + TryCalls(items, prep, NextOutcome(outcomes)),
                    Retry(v, rows, items, preps, outcomes, attempt, []),
                    Retry(v, rows, items, preps, left, attempt + 1, []), attempt);
    } else {
      StopCalls(v, rows, items, preps, prep, outcomes, attempt);
    }
  }

  /**
   * The calls `PlaceOrderAsync` makes, after the earlier ones: every attempt
   * begins a transaction; a failure rolls back and never commits; a success
   * commits once, last, right after a save that went through; and the waits
   * before the retries are 50, 100, ... ms, one fewer than the attempts.
   */
  lemma {:induction false} RunCalls(v: Variant, rows: Rows, items: seq<Line>, outcomes: seq<SaveOutcome>,
                                    stamps: Stamps, calls: seq<Event>)
    ensures var r := Run(v, rows, items, outcomes, stamps, calls);
      && |calls| < |r.trace| && r.trace[..|calls|] == calls
      && Orderly(r.trace[|calls|..], r.result)
      && |Delays(r.trace[|calls|..])| == r.attempts - 1
      && forall k :: 0 <= k < r.attempts - 1 ==> Delays(r.trace[|calls|..])[k] == BackoffStepMs * (k + 1)
  {
    var r := Run(v, rows, items, outcomes, stamps, calls);
    var preps := Preparations(rows, items, stamps);
    RetryFrom(v, rows, items, preps, outcomes, 1, calls);
    RetryCalls(v, rows, items, preps, outcomes, 1);
    var added := Retry(v, rows, items, preps, outcomes, 1, []).trace;
    assert r.trace == calls + added;
    assert r.trace[..|calls|] == calls && r.trace[|calls|..] == added;
    BackoffsAt(1, r.attempts);
  }
}
