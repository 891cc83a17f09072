# Order placement in XProducts, modelled and verified in Dafny

XProducts places an order with `PlaceOrderAsync(items)`, where `items` is a
list of `(productId, qty)` pairs. It ships in two near-identical variants:

- `XProducts.Core.Services.OrderService` works through a unit of work and two
  repositories, and retries on the domain `ConcurrencyException`.
- `XProducts.Infrastructure.Services.OrderService` works directly on the EF Core
  `AppDbContext`, and retries on `DbUpdateConcurrencyException`.

Each attempt does the following:

1. It opens a transaction and reads the requested products in one query.
2. If a requested id is missing, it fails with "Products not found".
3. It checks every line's quantity against the stock as read.
4. It lowers each product's `StockQuantity` by the line's quantity and marks
   the product updated.
5. It builds an `Order` with one `OrderItem` per line (the product's `Id`, the
   quantity and the product's `Price`) and a `Total` of `Price * qty` summed
   over the lines.
6. It adds the order, saves and commits.

A save that raises the retried exception is rolled back while `attempt < 5`.
The call then waits `50 * attempt` ms and tries again. Any other exception
is rolled back and rethrown.

## How the model is built

- `entities.dfy` holds the entities.
  - `Product`, `Order` and `OrderItem` are datatypes.
  - `Guid` is an opaque number.
  - C# `int` is the subset type `Int32`. `StockQuantity -= qty` wraps around
    explicitly through `Wrap32`, because nothing bounds `qty`.
  - `decimal(18,2)` prices and totals are whole numbers of cents.
- `placement.dfy` is the specification that both services are proved
  against.
  - `Prepare` is one attempt's steps 2–5 on a product table. It either
    rejects the basket or gives the order and the table the attempt would
    commit.
  - The loops of step 4 are count-indexed folds: `Deduct` (the loaded
    entities), `Touched` (the change tracker), `Lines` (the order items) and
    `Total`.
  - `Retry`/`Run` is the bounded retry loop. Each attempt builds a new order,
    so attempt k draws its own `CreatedAt` and item ids, `stamps(k)`, and
    `Preparations` holds what each attempt prepares.
  - A `Variant` value selects which conflict kind the retry clause catches.
- `persistence.dfy` is one `Store` class standing for the collaborators.
  - In the unit-of-work variant these are `IUnitOfWork`,
    `IProductRepository` and `IOrderRepository`. In the other variant it is
    `AppDbContext`.
  - Its fields are the product table, the orders, the change tracker, the
    staged orders and the rollback snapshot.
  - `outcomes` is a queue saying what each `SaveChangesAsync` call does:
    save, raise one of the two concurrency exceptions, or raise something
    else. It stands in for concurrency.
  - A ghost `trace` records every awaited call in order, including each
    `Task.Delay`.
- `core_order_service.dfy` and `infrastructure_order_service.dfy` are the
  two services as classes.
  - `PlaceOrder` is the `while (true)` loop with its `attempt` counter.
  - `TryPlace` is the `try` block.
  - The `foreach` loops are `while` loops. There is one deduct-and-build loop
    in the core variant, and separate deduct and build loops in the
    infrastructure variant.
  - Each method's `ensures` ties the store's new state, the result and the
    call trace to `Run`.
- `properties.dfy` proves what callers are promised, about `Run`: outcomes,
  order contents, stock, retries and the order of calls.
- `scenarios.dfy` restates the two test suites' baskets as lemmas.

Three behaviours of the code are proved as they are written rather than
corrected:

- The stock check compares each line with the stock as read. Two lines for
  one product can therefore overdraw it (`DuplicateLinesOverdraw`); with
  distinct products stock stays non-negative (`RunDistinctKeepsStock`).
- Quantities are never validated. A negative quantity passes the check and
  raises the stock (`NegativeQuantityRestocks`). An empty basket commits an
  empty order (`RunEmptyBasket`).
- `EfUnitOfWork.SaveChangesAsync` never translates EF Core's
  `DbUpdateConcurrencyException` into the domain exception. So the
  unit-of-work variant never retries the conflict EF Core raises
  (`UnitOfWorkSurfacesDbConflict`, `MonitorConflictOnce`).

Where the model departs from the code:

- The core variant calls `_productRepo.GetByIdsAsync`, which neither
  `IProductRepository` nor `IRepository` declares. It is modelled like the
  other variant's query: the stored rows whose id is requested.
- The core variant's insufficient-stock message names only the product. The
  model's error carries the id, name, requested quantity and available
  stock for both variants.

## Model

| member | source | states |
|---|---|---|
| Entities.Wrap32 | XProducts.Core/Entities/Product.cs:27 | the result is an `int`, and equals the input whenever the input fits in 32 bits |
| Entities.Wrap32Congruent | XProducts.Core/Services/OrderService.cs:65 | the wrapped value differs from the mathematical one by a multiple of 2^32 |
| Entities.Wrap32Sub | XProducts.Core/Services/OrderService.cs:61-65 | two successive wrapped decrements equal one wrapped decrement by their sum |
| OrderPlacement.ProductIds | XProducts.Core/Services/OrderService.cs:45 | one id per line, in line order, each the line's product id |
| OrderPlacement.Fetch | XProducts.Infrastructure/Services/OrderService.cs:34 | the rows read are exactly the stored rows whose id is requested, unchanged |
| OrderPlacement.Except | XProducts.Core/Services/OrderService.cs:48 | the requested ids, in order and without repeats, that are not among the ids read (`Enumerable.Except`) |
| OrderPlacement.ExceptSpec | XProducts.Core/Services/OrderService.cs:48 | `Except` lists exactly the requested ids not among those read, each once |
| OrderPlacement.Short | XProducts.Core/Services/OrderService.cs:55 | a line fails the stock check when its product's stock as read is below the quantity asked (the same comparison as XProducts.Infrastructure/Services/OrderService.cs:46) |
| OrderPlacement.FirstShort | XProducts.Core/Services/OrderService.cs:52-57 | the line found fails the stock check and every line before it passes; when none is found, every line passes |
| OrderPlacement.Deduct | XProducts.Core/Services/OrderService.cs:61-65 | deducting stock never adds or drops a loaded entity |
| OrderPlacement.Touched | XProducts.Core/Services/OrderService.cs:66 | the change tracker after the first n lines: each named product under its id, in its deducted state |
| OrderPlacement.Total | XProducts.Core/Services/OrderService.cs:76 | `order.Total` after the first n lines: the sum of `Price * qty` at the prices read |
| OrderPlacement.Lines | XProducts.Core/Services/OrderService.cs:68-74 | `order.Items` after the first n lines: one item per line with a fresh id, the product id, the quantity and the price read |
| OrderPlacement.Updates | XProducts.Core/Services/OrderService.cs:66 | the `Update` calls of the loop, one per order item, naming its product |
| OrderPlacement.LineUpdates | XProducts.Infrastructure/Services/OrderService.cs:52-57 | the `_ctx.Products.Update(prod)` calls of the separate deduct loop, one per line, naming the entity read for that line |
| OrderPlacement.LineUpdatesAreUpdates | XProducts.Infrastructure/Services/OrderService.cs:52-57 | the separate deduct loop makes the same `Update` calls, one per line, as the core variant makes per order item |
| OrderPlacement.DeductKeeps | XProducts.Core/Services/OrderService.cs:65 | deducting changes only `StockQuantity`; id, name, price and row version stay as read |
| OrderPlacement.DeductLineStep | XProducts.Core/Services/OrderService.cs:61-77 | one pass of the loop: the entity after `StockQuantity -= qty` is the one stored back, tracked and snapshotted into the item |
| OrderPlacement.Built | XProducts.Core/Services/OrderService.cs:59-77 | the order `new Order()` becomes after the build loop: no id, the attempt's `CreatedAt`, the items `Lines` lists and the total `Total` gives |
| OrderPlacement.Prepare | XProducts.Core/Services/OrderService.cs:45-77 | one attempt's read, existence check, stock check, deduction and build: rejected with the missing ids or the first short line, or ready with the order and the table it would commit |
| OrderPlacement.PrepareStampFree | XProducts.Core/Services/OrderService.cs:59-77 | the values an attempt draws change only its order: whether it passes both checks, its error and its table do not depend on them |
| OrderPlacement.TryResult | XProducts.Core/Services/OrderService.cs:79-83 | how the `try` block ends: the check's exception, the save's exception, or the order returned |
| OrderPlacement.TryCalls | XProducts.Core/Services/OrderService.cs:79-83 | the `try` block's collaborator calls: the read, then, past both checks, the saving calls |
| OrderPlacement.SaveCalls | XProducts.Core/Services/OrderService.cs:79-81 | the saving calls: the `Update`s, `AddAsync`, `SaveChangesAsync`, and `CommitAsync` only when the save went through |
| OrderPlacement.Absorbs | XProducts.Core/Services/OrderService.cs:85 | the retry clause's filter: the unit-of-work variant catches only the domain `ConcurrencyException`, the EF-context variant (XProducts.Infrastructure/Services/OrderService.cs:77) only `DbUpdateConcurrencyException` |
| OrderPlacement.Surfaced | XProducts.Core/Services/OrderService.cs:90-94 | an exception not retried is rethrown as it was raised: a conflict as that conflict, anything else as a store failure |
| OrderPlacement.Preparations | XProducts.Core/Services/OrderService.cs:37-77 | what every attempt prepares: each re-runs the `try` block on the same table with its own drawn values |
| OrderPlacement.PreparationsAt | XProducts.Core/Services/OrderService.cs:37-77 | attempt k prepares from the table as it is, with the values `stamps(k)` it draws |
| OrderPlacement.Retry | XProducts.Core/Services/OrderService.cs:35-95 | from attempt k on, between k and 5 attempts in all; a failed call leaves the table as it was |
| OrderPlacement.Run | XProducts.Core/Services/OrderService.cs:31-96 | at most `MaxRetries` attempts, and a failed call changes no product |
| Persistence.Store.constructor | XProducts.Infrastructure/Persistence/EfUnitOfWork.cs:17-20 | a store with the given table and save outcomes, no transaction, nothing tracked and no calls yet |
| Persistence.Store.BeginTransaction | XProducts.Core/Interfaces/IUnitOfWork.cs:11 | opens a transaction and snapshots both tables for rollback |
| Persistence.Store.GetByIds | XProducts.Core/Services/OrderService.cs:46 | returns the stored rows whose id is requested, and records the read |
| Persistence.Store.Update | XProducts.Core/Interfaces/IRepository.cs:14 | puts the entity in the change tracker under its id; nothing is written yet |
| Persistence.Store.AddOrder | XProducts.Core/Interfaces/IOrderRepository.cs:12 | stages the order for insertion |
| Persistence.Store.SaveChanges | XProducts.Core/Interfaces/IUnitOfWork.cs:14 | writes every tracked entity and staged order if the save goes through, and changes nothing if it raises |
| Persistence.Store.Commit | XProducts.Core/Interfaces/IUnitOfWork.cs:12 | closes the transaction |
| Persistence.Store.Rollback | XProducts.Core/Interfaces/IUnitOfWork.cs:13 | restores both tables to their state at `BeginTransaction` and drops pending changes |
| Persistence.Store.Wait | XProducts.Core/Services/OrderService.cs:88 | records a delay of the given length and changes nothing else |
| CoreServices.OrderService.constructor | XProducts.Core/Services/OrderService.cs:21-29 | the service works on the given store |
| CoreServices.OrderService.PlaceOrder | XProducts.Core/Services/OrderService.cs:31-96 | result, product table, consumed save outcomes and call trace are those of `Run` for the unit-of-work variant; the order table gains exactly the placed order; no transaction stays open |
| CoreServices.OrderService.TryPlace | XProducts.Core/Services/OrderService.cs:43-84 | the `try` block ends as `Prepare` says on the table read, with the calls `TryCalls` lists; the table changes only when the save goes through |
| CoreServices.OrderService.Fulfil | XProducts.Core/Services/OrderService.cs:59-83 | builds the order `Built` describes, then adds, saves and commits; a raised save leaves both tables as they were |
| CoreServices.OrderService.FindShortLine | XProducts.Core/Services/OrderService.cs:52-57 | finds the first line asking for more than its product's stock, as `FirstShort` |
| CoreServices.OrderService.DeductAndBuild | XProducts.Core/Services/OrderService.cs:59-77 | after the loop, the entities are deducted for every line, all are tracked, the order is `Built`, and one `Update` was made per item |
| InfrastructureServices.OrderService.constructor | XProducts.Infrastructure/Services/OrderService.cs:15-19 | the service works on the given context |
| InfrastructureServices.OrderService.PlaceOrder | XProducts.Infrastructure/Services/OrderService.cs:20-91 | result, product table, consumed save outcomes and call trace are those of `Run` for the EF-context variant; the order table gains exactly the placed order; no transaction stays open |
| InfrastructureServices.OrderService.TryPlace | XProducts.Infrastructure/Services/OrderService.cs:30-76 | the `try` block ends as `Prepare` says on the table read, with the calls `TryCalls` lists; the table changes only when the save goes through |
| InfrastructureServices.OrderService.Fulfil | XProducts.Infrastructure/Services/OrderService.cs:51-75 | deducts, builds the order `Built` describes, then adds, saves and commits; a raised save leaves both tables as they were |
| InfrastructureServices.OrderService.FindShortLine | XProducts.Infrastructure/Services/OrderService.cs:43-48 | finds the first line asking for more than its product's stock, as `FirstShort` |
| InfrastructureServices.OrderService.DeductStock | XProducts.Infrastructure/Services/OrderService.cs:52-57 | after the loop, the entities are deducted for every line, all are tracked, and one `Update` was made per line |
| InfrastructureServices.OrderService.BuildOrder | XProducts.Infrastructure/Services/OrderService.cs:61-67 | builds the order `Built` describes from the deducted entities: their ids and prices are those read |
| OrderProperties.ItemsTotalAppend | XProducts.Core/Services/OrderService.cs:76 | the sum of `Price * qty` over the lines grows by the appended line's amount |
| OrderProperties.TotalIsItemsTotal | XProducts.Core/Services/OrderService.cs:76 | the running total after n lines is the sum of `Price * qty` over those lines, at the stored prices |
| OrderProperties.LinesAt | XProducts.Core/Services/OrderService.cs:68-74 | the build loop appends exactly one item per line, in line order, with that line's data |
| OrderProperties.DeductedStock | XProducts.Core/Services/OrderService.cs:61-65 | after n lines, an entity's stock is its stock as read minus everything those lines asked of it, wrapped to 32 bits |
| OrderProperties.QtyForAbsent | XProducts.Core/Services/OrderService.cs:61-65 | a product no line names is asked for nothing |
| OrderProperties.QtyForDistinct | XProducts.Core/Services/OrderService.cs:61-65 | with distinct product ids, a product is asked for exactly its own line's quantity |
| OrderProperties.TouchedIsDeducted | XProducts.Core/Services/OrderService.cs:66 | the change tracker holds exactly the products the lines name, each in its deducted state |
| OrderProperties.FirstShortWithin | XProducts.Core/Services/OrderService.cs:52-57 | the stock check gives the same verdict on the rows read as on the whole table |
| OrderProperties.FetchFindsAll | XProducts.Core/Services/OrderService.cs:45-50 | nothing is missing exactly when every line names a stored product; the rows read are the stored ones |
| OrderProperties.ExceptNone | XProducts.Core/Services/OrderService.cs:48-49 | when every requested id was read, the missing list is empty |
| OrderProperties.PrepareReadyIff | XProducts.Core/Services/OrderService.cs:45-57 | an attempt gets past both checks if and only if every line names a stored product with enough stock |
| OrderProperties.ReadyParts | XProducts.Core/Services/OrderService.cs:45-77 | a fillable basket's attempt reads every requested row and prepares the order and table from them |
| OrderProperties.BuiltOrder | XProducts.Core/Services/OrderService.cs:59-77 | the new order has no id, the attempt's timestamp, one item per line in order with the line's product and quantity and the stored price, and the sum of `Price * qty` as total |
| OrderProperties.CommittedRows | XProducts.Core/Services/OrderService.cs:61-81 | the table written back holds the same products, each with its stock lowered by all its lines asked for and nothing else changed |
| OrderProperties.CommittedRow | XProducts.Core/Services/OrderService.cs:61-81 | the same, for one product |
| OrderProperties.PreparedReady | XProducts.Core/Services/OrderService.cs:45-77 | on a keyed table, a fillable basket's attempt prepares the order and table from rows read unchanged |
| OrderProperties.PreparedShort | XProducts.Core/Services/OrderService.cs:52-57 | an unfillable basket of stored products is rejected at its first short line, quoting requested and available quantities |
| OrderProperties.RetryPlaced | XProducts.Core/Services/OrderService.cs:37-95 | a call that places an order returns the order and leaves the table that its committing attempt prepared |
| OrderProperties.RunNotFound | XProducts.Core/Services/OrderService.cs:45-50 | a basket naming an absent product fails with exactly the requested ids absent from the table, each once; one attempt, no change, rollback right after the read |
| OrderProperties.RunShort | XProducts.Core/Services/OrderService.cs:52-57 | a basket of stored products with a short line fails at the first such line; one attempt, no change, no `Update` |
| OrderProperties.RunFillable | XProducts.Core/Services/OrderService.cs:41-83 | a fillable basket whose save goes through is placed on the first attempt |
| OrderProperties.RunPlaced | XProducts.Core/Services/OrderService.cs:59-83 | a placed order means every line was fillable; it has the committing attempt's `CreatedAt` and item ids, one item per line with the line's product and quantity and the stored price, its total is the sum of `Price * qty`, and each stock fell by its lines' total |
| OrderProperties.RunDistinctKeepsStock | XProducts.Core/Services/OrderService.cs:52-65 | with distinct product ids and non-negative quantities and stock, no stock goes negative |
| OrderProperties.TakenKeepsStock | XProducts.Core/Services/OrderService.cs:52-65 | taking at most each product's stock, once, leaves no stock negative |
| OrderProperties.RunEmptyBasket | XProducts.Infrastructure/Services/OrderService.cs:22 | an empty basket commits an order with no items and a zero total, changing no stock |
| OrderProperties.FillableReady | XProducts.Core/Services/OrderService.cs:41-57 | every attempt re-reads the table the rolled-back attempt left as it was, so a fillable basket passes both checks on every attempt |
| OrderProperties.RetryFillable | XProducts.Core/Services/OrderService.cs:85-94 | when every attempt passes both checks, the call fails, if at all, only with the exception a save raised |
| OrderProperties.RunRetried | XProducts.Core/Services/OrderService.cs:85-94 | a call that was retried had a fillable basket, and fails, if it fails, only with a save's exception, never with a missing product or short stock (no other writer is modelled) |
| OrderProperties.RetryAllConflict | XProducts.Core/Services/OrderService.cs:85-94 | when every attempt passes both checks and every remaining save raises a caught conflict, the call fails with it after the fifth attempt and leaves the table as it was |
| OrderProperties.RunConflictEveryAttempt | XProducts.Infrastructure/Services/OrderService.cs:77-89 | a fillable basket whose saves all raise a caught conflict fails with it after five attempts, table unchanged |
| OrderProperties.RunConflictOnce | XProducts.Infrastructure/Services/OrderService.cs:77-84 | one caught conflict, then a save that goes through: placed on attempt 2 with that attempt's `CreatedAt` and item ids, and the same products, quantities, prices, total and table as a conflict-free call, so stock is deducted once |
| OrderProperties.RunUncaught | XProducts.Core/Services/OrderService.cs:90-94 | a save raising an uncaught exception fails the call on attempt 1 with that exception, table unchanged |
| OrderProperties.UnitOfWorkSurfacesDbConflict | XProducts.Core/Services/OrderService.cs:85 | the unit-of-work variant fails on EF Core's conflict at once, where the EF-context variant retries |
| OrderProperties.DelaysAppend | XProducts.Core/Services/OrderService.cs:88 | the waits of two call sequences in turn are the first's waits followed by the second's |
| OrderProperties.DelaysNone | XProducts.Core/Services/OrderService.cs:88 | calls with no `Delay` among them record no wait |
| OrderProperties.UpdatesAre | XProducts.Core/Services/OrderService.cs:66 | the calls one per item are all `Update` calls |
| OrderProperties.TryCallsShape | XProducts.Core/Services/OrderService.cs:79-81 | the `try` block's calls never wait, and commit only as their last call, right after a save that went through, exactly when the attempt returns |
| OrderProperties.HeadOf | XProducts.Core/Services/OrderService.cs:41-81 | an attempt's calls open with the transaction and keep the `try` block's commit discipline |
| OrderProperties.AttemptHead | XProducts.Core/Services/OrderService.cs:41-81 | the same, for the calls `Retry` records for an attempt |
| OrderProperties.OrderlyAfter | XProducts.Core/Services/OrderService.cs:85-89 | a rolled-back attempt followed by a run that keeps the commit discipline keeps it too |
| OrderProperties.LastAttempt | XProducts.Core/Services/OrderService.cs:83-94 | the last attempt ends with the commit if it returned and with a rollback otherwise |
| OrderProperties.BackoffsAt | XProducts.Core/Services/OrderService.cs:88 | the waits after attempts 1 to k-1 are 50, 100, …, `50 * (k-1)` ms |
| OrderProperties.StopCalls | XProducts.Core/Services/OrderService.cs:83-94 | an attempt that is not retried records the commit discipline and no wait |
| OrderProperties.ContinueCalls | XProducts.Core/Services/OrderService.cs:85-89 | a retried attempt before attempts that keep the discipline keeps it, and prepends its wait to theirs |
| OrderProperties.DelaysContinue | XProducts.Core/Services/OrderService.cs:88 | a retried attempt contributes exactly its one backoff wait |
| OrderProperties.RetryFrom | XProducts.Core/Services/OrderService.cs:37-95 | the loop's result does not depend on the calls made before it, which only prefix its trace |
| OrderProperties.RetryHead | XProducts.Core/Services/OrderService.cs:85-89 | a retried attempt has opened its transaction and not committed |
| OrderProperties.RetryTail | XProducts.Core/Services/OrderService.cs:85-89 | a retried attempt's calls, a rollback and a wait, then those of the later attempts |
| OrderProperties.RetryCalls | XProducts.Core/Services/OrderService.cs:35-95 | from any attempt on, the calls keep the commit discipline and wait 50 ms times each retried attempt's number |
| OrderProperties.RunCalls | XProducts.Core/Services/OrderService.cs:31-96 | a call opens a transaction first; failing, it ends with a rollback and never commits; succeeding, it commits once, last, after a save that went through; the k-th wait is `50 * k` ms, one fewer than the attempts |
| OrderScenarios.Stocked | ProductOrderingAPI.Test/OrderServiceTests.cs:31-42 | a one-product table, keyed, holding the named product with the given price and stock |
| OrderScenarios.OneLinePlaced | ProductOrderingAPI.Test/OrderServiceTests.cs:27-56 | a fillable one-line basket is placed on attempt 1 with one item, total `price * qty`, and its stock taken |
| OrderScenarios.OneLineOrder | ProductOrderingAPI.Test/OrderServiceTests.cs:53-54 | a one-line order's items and total, spelled out |
| OrderScenarios.OneLineTaken | ProductOrderingAPI.Test/OrderServiceTests.cs:55 | a one-line basket's table, spelled out |
| OrderScenarios.OnlyOnce | XProducts.Core/Services/OrderService.cs:48 | a duplicate-free list holding only one id is that id alone |
| OrderScenarios.LaptopOrder | ProductOrderingAPI.Test/OrderServiceTests.cs:27-56 | two laptops at 1000 out of 10: one item, total 2000, stock 8 |
| OrderScenarios.UnknownProduct | XProducts.Tests/OrderServiceTests.cs:55-79 | an unknown id fails with "Products not found" listing just that id, changing nothing |
| OrderScenarios.PhoneShort | ProductOrderingAPI.Test/OrderServiceTests.cs:74-95 | five phones out of one fails with insufficient stock, quoting 5 requested and 1 available |
| OrderScenarios.KeyboardCalls | XProducts.Tests/OrderServiceTests.cs:112-143 | three keyboards out of five leave two; `Update`, `AddAsync`, `SaveChangesAsync` and `CommitAsync` are each called once, in that order |
| OrderScenarios.OneItemCalls | XProducts.Tests/OrderServiceTests.cs:139-142 | the calls of a committed one-item attempt, spelled out |
| OrderScenarios.OneItemSaving | XProducts.Tests/OrderServiceTests.cs:139-142 | the saving calls of a one-item order, spelled out |
| OrderScenarios.UpdatesOne | XProducts.Tests/OrderServiceTests.cs:139 | a one-item order makes one `Update` call |
| OrderScenarios.MonitorConflictOnce | ProductOrderingAPI.Test/OrderServiceTests.cs:122-153 | one EF Core conflict: the EF-context variant succeeds on attempt 2 with stock 10→8 and an order of two monitors, total 300.00, built from attempt 2's values; the unit-of-work variant fails on attempt 1 with it |
| OrderScenarios.TabletAlwaysConflicts | ProductOrderingAPI.Test/OrderServiceTests.cs:156-182 | conflicts on all five saves fail with `DbUpdateConcurrencyException` after five attempts, stock unchanged |
| OrderScenarios.DuplicateLinesOverdraw | XProducts.Core/Services/OrderService.cs:52-65 | two lines of 3 for one product with 5 in stock both pass the check and leave stock -1 |
| OrderScenarios.TwiceTaken | XProducts.Core/Services/OrderService.cs:61-65 | both duplicate lines' quantities are taken |
| OrderScenarios.NegativeQuantityRestocks | XProducts.Infrastructure/Services/OrderService.cs:43-57 | a line of -2 passes the check, totals -10.00 and raises stock 5 to 7 |
| OrderScenarios.StockWrapsAround | XProducts.Core/Services/OrderService.cs:65 | taking -1 from `int.MaxValue` wraps the stock to `int.MinValue` |

Members without a row (`DeductStep`, `LineStep`, `DeductPassStep`, `UpdatesStep`, `PrepareMissing`, `PrepareShort`,
`PrepareReady`, `PrepsUpTo`, `PrepsUpToAt`, `ReadyCalls`, `SavingCalls`, `RetryRejected`, `RetryStep`, `StopFrom`, `HeadAfter`,
`TailAfter`, `FirstTwo`) are proof steps for the members above, not properties of their own.

## Left out

- The HTTP controllers, DI wiring, DTOs and mapping profile: request shaping with no logic of the order routine.
- EF Core itself.
  - Change tracking, row-version checks and transaction isolation are replaced by the `Store` class.
  - Concurrency is replaced by the `outcomes` queue of save results.
  - `RowVersion` is carried in `Product` but never compared.
- Rollback restores the table as it was at `BeginTransaction` and clears pending changes.
  - This is the assumption the retry tests make, asserting a single decrement.
  - No other writer is modelled: a save's conflict comes from the `outcomes` queue, and every attempt re-reads the same table. So a retried call had a fillable basket and ends placed or with a save's exception (`RunRetried`).
  - Whether EF Core's change tracker really discards the mutated entities on rollback is outside the model.
- `BeginTransactionAsync`, `CommitAsync` and `RollbackAsync` never fail in the model, and neither does the read. Only `SaveChangesAsync` can raise.
- `Task.Delay` timing and `CancellationToken` handling. The delays appear only as ghost `Delay(ms)` calls in the trace.
- `Guid.NewGuid()` and `DateTime.UtcNow` are inputs: `stamps(k)` holds what attempt k draws.
  - Order item ids are that stamp's values for each line index; the order's `CreatedAt` is that stamp's time.
  - `Order.Id` stays `Guid.Empty`, since the service never assigns it and EF Core's key generation is not modelled.
- Exception message texts: errors carry their data (missing ids, product, requested and available quantities), not the formatted strings.
- Overflow of `decimal` arithmetic: prices and totals are unbounded whole numbers of cents.
- The infrastructure service's injected `IProductRepository`, which `PlaceOrderAsync` never uses.
- OrderProperties.RunPlaced: requires that every stored product sit under its own `Id` (`Keyed`), which a primary-keyed table guarantees.
- OrderProperties.RunDistinctKeepsStock: needs the same `Keyed` assumption.
