# Order lifecycle of the DesafioMinervaFoods backend, in Dafny

This project models the order lifecycle of the DesafioMinervaFoods C# backend
and proves properties of the model:

- the `Order` aggregate, with its pricing rule (a total above 5000 is born
  `Criado` with `RequiresManualApproval` set, anything else is born `Pago`);
- its transitions `Aprovar`, `Cancelar`, `DefinirPrazoEntrega`;
- `OrderItem` line totals, the `DeliveryTerm` date arithmetic and the audit
  setters of `Entity<TId>`;
- the two FluentValidation rule sets (`CreateOrderCommandValidator`,
  `OrderCreateValidator`);
- the create and approve command handlers, the older `OrderService` and the
  get-by-id query;
- the AutoMapper profile;
- the MediatR `TransactionBehavior` and the unit of work in `AppDbContext`:
  the transaction slot and the audit stamping before a save;
- the three queue workers: `RegisterOrderConsumer`, `OrderCreatedConsumer`
  and `ApproveOrderConsumer`.

Representation:

- Money (C# `decimal`, exact base 10) is `real`.
- Dates are `int` day numbers. `AddDays(n)` is `+ n`.
- GUIDs are `int`, and `Guid.Empty` is `0`.
- `DateTime.UtcNow` and `Guid.NewGuid()` are parameters (`now`, `newId`, `termId`).
- The current user's id is a parameter too.
- The repositories and the EF change tracker are replaced by one store, `Persistence.OrderStore`:
  - order rows sit in a `map<Guid, OrderState>`;
  - delivery terms sit in a `seq<DeliveryTerm>`, and the unique index on `OrderId` is enforced at save;
  - the keys of the Customers and PaymentConditions tables are read-only sets. Saving an order row enforces its two required foreign keys and the 150-character limit of `OrderItems.ProductName`, and saving a term enforces its foreign key to Orders;
  - every save may also fail in the store itself (a lost connection, a timeout), which the design treats as a transient failure; each save takes an `Option<Exception>` fault for that;
  - reading an order joins its term, as the repository's `Include` does.
- The event bus (`IEventBus`, `IPublishEndpoint`) is `Messaging.MessageBus`, the sequence of published messages.
- Exceptions are the `Outcome` datatype (`Returned` or `Threw`). Each save, and each call to a command handler, `next` or the unit of work in the transaction behaviour, takes an `Option<Exception>` that says whether it throws. Reads and publishes do not fail in this model (see Left out).

Each mutable C# object is a Dafny class:

- `Order` and `Entity` are classes whose methods are proved against pure functions on their state:
  - `Orders.Approve`, `Cancel`, `AttachDeliveryTerm`, `Reprice`;
  - the `Audit` record of an `Entity`.
- The handlers, the service and the workers are classes over the store and the bus. Each method's `ensures` gives the new store and the new outbox.
- Each worker's effect is also written as a pure function: `ScheduleDelivery`, `ApprovalEffect`, `RegisteredOrder`. The lemmas about re-delivery and idempotence are stated over those functions.

## Where the design and the code differ

The model follows the code in each of these cases:

- **Order with no items.** The Order constructor has no check that `items` is non-empty (`Order.cs:20-31`). An empty order gets total 0 and is `Pago` (`Orders.PricingBoundary`).
- **Missing `DefinirStatusProcessando`.** `RegisterOrderConsumer` calls `DefinirStatusProcessando` (`RegisterOrderConsumer.cs:35`), and `Order.cs` does not define it.
  - It is reconstructed as "set `Processando`, then apply the pricing rule again" (`Orders.MarkProcessing`).
  - This matches the worker's test, which expects `Pago` after the call for a zero-total order.
  - On a freshly built order it changes nothing (`Orders.MarkProcessingAfterCreate`).
- **Order id naming.** `Order.cs` calls the id `OrderId`, while the handlers and workers use `order.Id`. The model has one id field.
- **Create handler vs its test.** The create handler's test expects a `RegisterOrderCommand` to be published and no add.
  - The handler adds the order and publishes `OrderCreatedEvent` (`CreateOrderCommandHandler.cs:48-51`).
  - The model does what the handler does.
- **No acting user on messages.** `RegisterOrderCommand` has no user field, and `ProcessOrderApprovalCommand` is built with only the order id. The worker tests pass an extra user argument to both messages. The model's messages carry no acting user.
- **`OrderResponse` shape.** The `OrderResponse` record shows four members. The mapping profile fills more: delivery columns, items, customer name, payment description and installments.
  - `Mappings.OrderResponse` has all of them.
  - `OrderService` builds its response by hand with the enum status (`OrderServices.OrderSummary`).
- **Customer and payment navigations.** `Order.cs` has no `Customer` or `PaymentCondition` navigation, yet the profile reads `src.Customer.Name`.
  - The referenced rows are optional inputs to `Mappings.MapOrder`, and `None` gives a null column.
  - No path loads them. The repository includes only the items and the term (`OrderRepository.cs:19-22`), so the query and the create handler both pass `None`, and those columns are always null.
- **Unknown customer or payment condition.** `OrderCreateValidator` checks only that the ids are not empty. An `OrderCreateRequest` or a `RegisterOrderCommand` naming a customer or payment condition that is not stored passes, and then fails at the save on the foreign keys (`OrderConfiguration.cs:30-41`). Nothing is stored or published. `CreateOrderCommandValidator` looks both up first, so its handler's save can refuse an accepted command only for a taken key or a product name that is too long.
- **Product name length.** The `ProductName` column holds 150 characters (`OrderItemConfiguration.cs:16-18`), and neither validator limits the name's length. A longer name passes validation and fails at the save (`Persistence.ColumnFailure`).
- **Delivery-term test on the in-memory provider.** The `OrderCreatedConsumer` test stores a term for an order that has no row. That works only because the in-memory provider enforces no foreign keys. The model follows the SQL Server schema and refuses such a term with `FK_DeliveryTerms_Orders_OrderId`.
- **Duplicate `OrderCreatedEvent`.** The design expects a second delivery of the same `OrderCreatedEvent` to be a no-op. The code inserts a second term, which the unique index refuses at save. See Findings.
- **Approval failure messages.** The API approval handler distinguishes "not found" from "not flagged". `OrderService.ApproveOrderAsync` has only the first message, and it approves and writes back any order it finds.
- **Cascade mode.** `CreateOrderCommandValidator` runs with the default cascade mode. An empty customer id that also does not exist therefore reports both of its messages.

## Model

| member | source | states |
|---|---|---|
| `Orders.NewOrder` | src/DesafioMinervaFoods.Domain/Entities/Order.cs:20-31 | ids and items copied unchanged; total is the sum of the line totals; above 5000 gives Criado with the flag, 5000 or less gives Pago without it; no term; the flag matches the status |
| `Orders.Reprice` | src/DesafioMinervaFoods.Domain/Entities/Order.cs:33-45 | flag set iff total > 5000, status Criado or Pago accordingly; nothing else changes |
| `Orders.Approve` | src/DesafioMinervaFoods.Domain/Entities/Order.cs:47-54 | a flagged order becomes Pago; an unflagged one is unchanged; the flag is clear afterwards; only status and flag change; the aggregate invariant is preserved |
| `Orders.Cancel` | src/DesafioMinervaFoods.Domain/Entities/Order.cs:56-60 | Cancelado with the flag clear whatever the prior state; only status and flag change |
| `Orders.AttachDeliveryTerm` | src/DesafioMinervaFoods.Domain/Entities/Order.cs:62-68 | throws InvalidOperation with the fixed message iff the term belongs to another order; otherwise only the term changes |
| `Orders.MarkProcessing` | src/DesafioMinervaFoods.Infrastructure/Consumers/RegisterOrderConsumer.cs:35 | the reconstructed DefinirStatusProcessando never leaves the order in Processando; the flag follows the total; only status and flag change |
| `Orders.ApproveIdempotent` | src/DesafioMinervaFoods.Domain/Entities/Order.cs:47-54 | approving twice equals approving once |
| `Orders.MarkProcessingAfterCreate` | src/DesafioMinervaFoods.Infrastructure/Consumers/RegisterOrderConsumer.cs:33-35 | marking a freshly built order as processing gives back the same order |
| `Orders.PricingBoundary` | src/DesafioMinervaFoods.Tests/Domain/OrderTests.cs:10-43 | 5000 gives Pago, 5001 gives Criado with the flag, no items give total 0 and Pago |
| `Orders.PositiveLinesPositiveTotal` | src/DesafioMinervaFoods.Domain/Entities/Order.cs:29 | a non-empty order of lines with positive quantity and price has a positive total |
| `Orders.ItemsTotalAppend` | src/DesafioMinervaFoods.Domain/Entities/Order.cs:29 | the total of a concatenation is the sum of the totals |
| `Orders.ItemsTotal` | src/DesafioMinervaFoods.Domain/Entities/Order.cs:29 | no lines give 0; lines of non-negative quantity and price give a non-negative total |
| `Orders.Order.constructor` | src/DesafioMinervaFoods.Domain/Entities/Order.cs:20-31 | the constructed object's fields are NewOrder |
| `Orders.Order.Load` | src/DesafioMinervaFoods.Domain/Entities/Order.cs:19 | the parameterless constructor used when a row is read holds exactly the row's values |
| `Orders.Order.AtualizaStatusPedido` | src/DesafioMinervaFoods.Domain/Entities/Order.cs:33-45 | the new fields are Reprice of the old |
| `Orders.Order.Aprovar` | src/DesafioMinervaFoods.Domain/Entities/Order.cs:47-54 | the new fields are Approve of the old |
| `Orders.Order.Cancelar` | src/DesafioMinervaFoods.Domain/Entities/Order.cs:56-60 | the new fields are Cancel of the old |
| `Orders.Order.DefinirPrazoEntrega` | src/DesafioMinervaFoods.Domain/Entities/Order.cs:62-68 | a foreign term throws and changes nothing; otherwise only the term is set |
| `Orders.Order.DefinirStatusProcessando` | src/DesafioMinervaFoods.Infrastructure/Consumers/RegisterOrderConsumer.cs:35 | the new fields are MarkProcessing of the old |
| `OrderItems.PositiveLineTotal` | src/DesafioMinervaFoods.Domain/Entities/OrderItem.cs:10 | positive quantity and positive price give a positive line total, at least the unit price |
| `OrderItems.OrderItem.TotalPrice` | src/DesafioMinervaFoods.Domain/Entities/OrderItem.cs:10 | zero iff the quantity or the price is zero; non-negative for non-negative inputs; at least the unit price from quantity 1 on |
| `DeliveryTerms.NewDeliveryTerm` | src/DesafioMinervaFoods.Domain/Entities/DeliveryTerm.cs:12-19 | order id and days stored as given; the estimate is the order date plus the days |
| `DeliveryTerms.EstimateMonotonic` | src/DesafioMinervaFoods.Domain/Entities/DeliveryTerm.cs:17 | more days never give an earlier estimate; non-negative days never precede the order date |
| `Entities.Entity.CriadoPorUsuario` | src/DesafioMinervaFoods.Domain/Entities/Entity.cs:17-20 | sets CreatedBy; id, dates and UpdatedBy unchanged |
| `Entities.Entity.AlteradoPorUsuario` | src/DesafioMinervaFoods.Domain/Entities/Entity.cs:22-25 | sets UpdatedBy; id, dates and CreatedBy unchanged |
| `Entities.SettersIdempotent` | src/DesafioMinervaFoods.Domain/Entities/Entity.cs:17-25 | each setter called twice with the same user equals one call |
| `Transactions.TryBlock` | src/DesafioMinervaFoods.Application/Common/Behaviors/TransactionBehavior.cs:31-47 | the try block starts with Begin, never rolls back, fails iff some step throws, and runs Begin, handler, Save, Commit when none does |
| `Transactions.NonCommandBypass` | src/DesafioMinervaFoods.Application/Common/Behaviors/TransactionBehavior.cs:24-29 | a non-command calls the handler once, makes no unit-of-work call and returns the handler's outcome |
| `Transactions.SuccessfulCommand` | src/DesafioMinervaFoods.Application/Common/Behaviors/TransactionBehavior.cs:31-47 | a command with no failure logs Begin, handler, Save, Commit and returns the handler's response |
| `Transactions.HandlerThrows` | src/DesafioMinervaFoods.Application/Common/Behaviors/TransactionBehavior.cs:48-56 | a throwing handler logs Begin, handler, Rollback and the same exception is rethrown |
| `Transactions.SaveOrCommitThrows` | src/DesafioMinervaFoods.Application/Common/Behaviors/TransactionBehavior.cs:41-56 | a failing Save or Commit is followed by Rollback and its exception propagates; no response |
| `Transactions.CommandShape` | src/DesafioMinervaFoods.Application/Common/Behaviors/TransactionBehavior.cs:31-56 | for commands: Rollback iff some step threw, and then last; no call repeated; Begin first and before the handler; returns iff nothing threw |
| `Transactions.CommandNames` | src/DesafioMinervaFoods.Application/Common/Behaviors/TransactionBehavior.cs:24 | names ending in "Command" are commands, "TestQuery" and "GetOrderByIdQuery" are not |
| `Transactions.IsCommand` | src/DesafioMinervaFoods.Application/Common/Behaviors/TransactionBehavior.cs:24 | a request is a command iff its type name is some prefix followed by "Command" |
| `Transactions.Pipeline` | src/DesafioMinervaFoods.Application/Common/Behaviors/TransactionBehavior.cs:20-57 | the handler is called unless Begin throws; a returned response is the handler's; a non-command opens no transaction and returns the handler's outcome; a command returns iff no step of the try block throws, and rolls back iff one does |
| `Transactions.TransactionBehavior.Handle` | src/DesafioMinervaFoods.Application/Common/Behaviors/TransactionBehavior.cs:20-57 | the calls made and the outcome are those of Pipeline |
| `DbContexts.AcceptAll` | src/DesafioMinervaFoods.Infrastructure/Persistence/Contexts/AppDbContext.cs:37 | after a successful save every entry is Unchanged. The Deleted entries are gone. Each kept entry is a former non-Deleted entry, one per such entry, and the tracked entities are exactly those of the non-Deleted entries |
| `DbContexts.AppDbContext.OnBeforeSaving` | src/DesafioMinervaFoods.Infrastructure/Persistence/Contexts/AppDbContext.cs:40-71 | every Added direct Entity<> entry gets the save time and the current user (Guid.Empty when none); entities in no selected entry are untouched |
| `DbContexts.AppDbContext.SaveChangesAsync` | src/DesafioMinervaFoods.Infrastructure/Persistence/Contexts/AppDbContext.cs:34-38 | stamping runs before the save; the save's outcome is its fault; changes are accepted only on success |
| `DbContexts.AppDbContext.BeginTransactionAsync` | src/DesafioMinervaFoods.Infrastructure/Persistence/Contexts/AppDbContext.cs:75-78 | an open transaction is kept and nothing is issued; otherwise one is begun |
| `DbContexts.AppDbContext.CommitTransactionAsync` | src/DesafioMinervaFoods.Infrastructure/Persistence/Contexts/AppDbContext.cs:80-94 | always saves; commits only an open transaction and only after a good save; no transaction afterwards, even on failure |
| `DbContexts.AppDbContext.RollbackTransactionAsync` | src/DesafioMinervaFoods.Infrastructure/Persistence/Contexts/AppDbContext.cs:96-109 | rolls back and disposes an open transaction, does nothing without one; no transaction afterwards |
| `DbContexts.AppDbContext.DisposeTransaction` | src/DesafioMinervaFoods.Infrastructure/Persistence/Contexts/AppDbContext.cs:111-118 | disposes and clears the slot if occupied |
| `CreateOrderValidation.IdErrors` | src/DesafioMinervaFoods.Application/Features/Orders/Commands/CreateOrder/CreateOrderCommandValidator.cs:13-22 | no error iff the id is non-empty and exists; an empty id reports "required", an unknown one "does not exist" |
| `CreateOrderValidation.ItemErrors` | src/DesafioMinervaFoods.Application/Features/Orders/Commands/CreateOrder/CreateOrderCommandValidator.cs:28-37 | one message per broken child rule: blank name, quantity not positive, price not positive, each iff broken |
| `CreateOrderValidation.ForEach` | src/DesafioMinervaFoods.Application/Features/Orders/Commands/CreateOrder/CreateOrderCommandValidator.cs:28 | RuleForEach: no error iff the rules report nothing for every element |
| `CreateOrderValidation.ForEachAppend` | src/DesafioMinervaFoods.Application/Features/Orders/Commands/CreateOrder/CreateOrderCommandValidator.cs:28 | the errors of a concatenation are the errors of the parts, in order, for any rule set |
| `CreateOrderValidation.ItemsErrors` | src/DesafioMinervaFoods.Application/Features/Orders/Commands/CreateOrder/CreateOrderCommandValidator.cs:28 | no error iff every item is valid |
| `CreateOrderValidation.Validate` | src/DesafioMinervaFoods.Application/Features/Orders/Commands/CreateOrder/CreateOrderCommandValidator.cs:13-37 | no error iff customer and payment condition are non-empty and exist, items non-empty and every item valid; unknown customer and empty items report their fixed messages |
| `CreateOrderValidation.ItemsErrorsAppend` | src/DesafioMinervaFoods.Application/Features/Orders/Commands/CreateOrder/CreateOrderCommandValidator.cs:28 | the errors of a concatenation are the errors of the parts, in order |
| `CreateOrderValidation.BadItemInvalidates` | src/DesafioMinervaFoods.Application/Features/Orders/Commands/CreateOrder/CreateOrderCommandValidator.cs:28-37 | one bad item anywhere fails the command and its messages are reported |
| `CreateOrderValidation.ThreeBrokenRules` | src/DesafioMinervaFoods.Tests/Application/Features/Orders/Commands/CreateOrderCommandHandlerTests.cs:94-111 | an item with empty name, quantity 0 and negative price yields exactly the three item messages |
| `RequestValidation.ItemErrors` | src/DesafioMinervaFoods.Application/Validations/OrderCreateValidator.cs:13-16 | quantity and price rules, each message iff broken |
| `RequestValidation.ItemsErrors` | src/DesafioMinervaFoods.Application/Validations/OrderCreateValidator.cs:13 | no error iff every item has positive quantity and price |
| `RequestValidation.Validate` | src/DesafioMinervaFoods.Application/Validations/OrderCreateValidator.cs:10-16 | no error iff both ids non-empty, items non-empty, every item valid; empty items report "O pedido deve ter itens." |
| `RequestValidation.BadItemInvalidates` | src/DesafioMinervaFoods.Application/Validations/OrderCreateValidator.cs:14-15 | any item with quantity or price not positive fails the request |
| `RequestValidation.BlankNamePasses` | src/DesafioMinervaFoods.Application/Validations/OrderCreateValidator.cs:10-16 | a blank product name passes here, while the command validator refuses it |
| `RequestValidation.CommandRulesAreStricter` | src/DesafioMinervaFoods.Application/Validations/OrderCreateValidator.cs:10-16 | whatever the command validator accepts, this one accepts |
| `Persistence.FindOrder` | src/DesafioMinervaFoods.Infrastructure/Persistence/Repositories/OrderRepository.cs:19-22 | found iff the id is stored; the row joined with the term stored for the order |
| `Persistence.TermForAppend` | src/DesafioMinervaFoods.Infrastructure/Persistence/Repositories/OrderRepository.cs:21 | appending a term gives that order the new term and leaves every other order's term |
| `Persistence.TermUnique` | src/DesafioMinervaFoods.Infrastructure/Migrations/20260213021049_EntidadeBase.cs:198-202 | under the unique index, the term read with an order is the only one stored for it |
| `Persistence.ForeignKeyFailure` | src/DesafioMinervaFoods.Infrastructure/Persistence/Configurations/OrderConfiguration.cs:30-41 | no violation iff both the customer and the payment condition are stored; otherwise the violated key is named |
| `Persistence.ColumnFailure` | src/DesafioMinervaFoods.Infrastructure/Persistence/Configurations/OrderItemConfiguration.cs:16-18 | no violation iff every product name has at most 150 characters; otherwise the truncation error |
| `Persistence.InsertFailure` | src/DesafioMinervaFoods.Infrastructure/Migrations/20260213021049_EntidadeBase.cs:221-235 | an inserted order row is accepted iff its key is free, both foreign keys hold and every product name fits its column; a taken key is reported as such, and so is a long name when the keys hold |
| `Persistence.UpdateFailure` | src/DesafioMinervaFoods.Infrastructure/Persistence/Repositories/OrderRepository.cs:30-34 | an updated order row is accepted iff it exists, both foreign keys hold and every product name fits its column; a missing row is reported as such |
| `Persistence.TermInsertFailure` | src/DesafioMinervaFoods.Infrastructure/Migrations/20260213021049_EntidadeBase.cs:198-210 | a term is accepted iff its order exists, has no term yet and its key is free; a missing order and a second term are reported as such |
| `Persistence.OrderStore.GetByIdAsync` | src/DesafioMinervaFoods.Infrastructure/Persistence/Repositories/OrderRepository.cs:19-22 | a fresh Order holding the joined row, or none iff the id is absent |
| `Persistence.OrderStore.AddAsync` | src/DesafioMinervaFoods.Infrastructure/Persistence/Repositories/OrderRepository.cs:13-17 | throws InsertFailure's violation (taken key, unknown customer or payment condition, long product name) if there is one, else the store's fault if given, and then changes nothing; otherwise inserts exactly the order's row. The store invariant includes both foreign keys and the column limit |
| `Persistence.OrderStore.UpdateAsync` | src/DesafioMinervaFoods.Infrastructure/Persistence/Repositories/OrderRepository.cs:30-34 | throws UpdateFailure's violation (no row, unknown customer or payment condition, long product name) if there is one, else the store's fault if given, and then changes nothing; otherwise overwrites the order's row |
| `Persistence.OrderStore.AddDeliveryTermAsync` | src/DesafioMinervaFoods.Infrastructure/Consumers/OrderCreatedConsumer.cs:25-26 | the save refuses an unknown order, a second term per order or a taken key. Otherwise a save fault throws it, and without one the term is appended. No other order's read changes |
| `Messaging.MessageBus.Publish` | src/DesafioMinervaFoods.Application/Common/Interfaces/IEventBus.cs:5-6 | appends the message to the published sequence |
| `Mappings.MapItem` | src/DesafioMinervaFoods.Application/Mappings/MappingProfile.cs:12 | name, quantity, price copied; total is the line total |
| `Mappings.MapItems` | src/DesafioMinervaFoods.Application/Mappings/MappingProfile.cs:20-21 | items map one to one, in order |
| `Mappings.MapOrder` | src/DesafioMinervaFoods.Application/Mappings/MappingProfile.cs:15-25 | delivery columns null iff no term, else copied from it; status is the enum name; items one to one; customer and payment columns null iff not loaded |
| `Mappings.StatusName` | src/DesafioMinervaFoods.Application/Mappings/MappingProfile.cs:25 | a non-empty name; "Criado" iff the status is Criado, "Pago" iff it is Pago |
| `Mappings.StatusNameInjective` | src/DesafioMinervaFoods.Application/Mappings/MappingProfile.cs:25 | distinct statuses have distinct names |
| `Mappings.MapItemsTotal` | src/DesafioMinervaFoods.Application/Mappings/MappingProfile.cs:20-21 | the response lines sum to the order's line total |
| `Mappings.ResponseConsistent` | src/DesafioMinervaFoods.Application/Mappings/MappingProfile.cs:15-25 | for a consistent order the response total is the sum of its lines and the flag is set iff the status string is "Criado" |
| `Mappings.MapItemRequest` | src/DesafioMinervaFoods.Application/Mappings/MappingProfile.cs:34-35 | name, quantity and price copied |
| `Mappings.MapItemRequests` | src/DesafioMinervaFoods.Application/Mappings/MappingProfile.cs:30 | requests map one to one, in order |
| `Mappings.MapItemRequestsTotal` | src/DesafioMinervaFoods.Application/Mappings/MappingProfile.cs:27-32 | the mapped items total the requested amount |
| `Mappings.MapRegisterOrder` | src/DesafioMinervaFoods.Application/Mappings/MappingProfile.cs:27-32 | ids copied, items are the mapped requests, no term, consistent |
| `Mappings.RegisterOrderPricing` | src/DesafioMinervaFoods.Application/Mappings/MappingProfile.cs:27-32 | the mapped order's total is the requested amount and the pricing rule decides status and flag |
| `OrderQueries.FindOwned` | src/DesafioMinervaFoods.Application/Features/Orders/Queries/GetOrderById/GetOrderByIdQueryHandler.cs:27-28 | found iff the order exists and the owner filter admits the current user |
| `OrderQueries.GetOrderById` | src/DesafioMinervaFoods.Application/Features/Orders/Queries/GetOrderById/GetOrderByIdQueryHandler.cs:25-38 | Failure "Pedido não encontrado." iff not found for this user, without mapping; otherwise Success with the mapped order, with no customer or payment condition loaded |
| `OrderQueries.QueryReflectsStore` | src/DesafioMinervaFoods.Application/Features/Orders/Queries/GetOrderById/GetOrderByIdQueryHandler.cs:35-37 | a successful query shows the stored id, total, flag and status name, and the stored term's days. The customer and payment columns are null |
| `OrderCommands.CreatedOrder` | src/DesafioMinervaFoods.Application/Features/Orders/Commands/CreateOrder/CreateOrderCommandHandler.cs:42-45 | ids copied; items mirror the request lines; consistent; no term; the total is the requested amount, above 5000 gives Criado with the flag and 5000 or less gives Pago without it |
| `OrderCommands.ApprovalDecision` | src/DesafioMinervaFoods.Application/Features/Orders/Commands/ApproveOrder/ApproveOrderCommandHandler.cs:25-44 | not found fails first with its message; unflagged fails with its message; accepted iff found and flagged |
| `OrderCommands.ApprovalFollowsStatus` | src/DesafioMinervaFoods.Application/Features/Orders/Commands/ApproveOrder/ApproveOrderCommandHandler.cs:31-34 | for a consistent order a request is accepted iff Criado; after approval it is refused as already processed |
| `OrderCommands.ApprovalOfCreatedOrders` | src/DesafioMinervaFoods.Application/Features/Orders/Commands/ApproveOrder/ApproveOrderCommandHandler.cs:25-44 | a 100.00 order is refused as not requiring approval; a 6000.00 order is accepted |
| `OrderCommands.CreateOrderCommandHandler.Handle` | src/DesafioMinervaFoods.Application/Features/Orders/Commands/CreateOrder/CreateOrderCommandHandler.cs:32-56 | refused: Failure with the validator's messages, nothing added or published. Accepted: the save's violation, which can only be a taken key or a product name too long for its column since the validator has looked the customer and payment condition up, or else the store's fault, is thrown with nothing added or published; otherwise exactly one order is added and exactly one OrderCreatedEvent with its id and date is published, and the result is Success with its mapping |
| `OrderCommands.ApproveOrderCommandHandler.Handle` | src/DesafioMinervaFoods.Application/Features/Orders/Commands/ApproveOrder/ApproveOrderCommandHandler.cs:21-45 | result is ApprovalDecision of the stored order; exactly one ProcessOrderApprovalCommand for the id iff accepted; the store is not written |
| `OrderServices.Summarize` | src/DesafioMinervaFoods.Application/Services/OrderService.cs:35-39 | the response carries the order's id, total, status and flag |
| `OrderServices.CreateSummaryExamples` | src/DesafioMinervaFoods.Tests/Application/OrderServiceTests.cs:26-110 | 1000 gives Pago; 6000 gives Criado with the flag |
| `OrderServices.ServiceApprovalResult` | src/DesafioMinervaFoods.Application/Services/OrderService.cs:57-59 | the stored order stays consistent with the flag clear; Criado becomes Pago; anything else is unchanged |
| `OrderServices.OrderService.CreateOrderAsync` | src/DesafioMinervaFoods.Application/Services/OrderService.cs:21-40 | refused: the validator's messages, nothing added. Accepted: the save's violation (taken key, unknown customer or payment condition, long product name), or else the store's fault, is thrown with nothing added; otherwise exactly one order is added and its summary returned |
| `OrderServices.OrderService.ApproveOrderAsync` | src/DesafioMinervaFoods.Application/Services/OrderService.cs:49-62 | unknown id: the fixed failure, nothing written. Existing: a failing save throws its fault and the order stays as stored; otherwise it is approved (a no-op if unflagged), written back, and the call returns Success |
| `RegisterOrderWorker.RegisteredOrder` | src/DesafioMinervaFoods.Infrastructure/Consumers/RegisterOrderConsumer.cs:33-35 | the stored order is the mapped order: marking it processing changes nothing |
| `RegisterOrderWorker.RegistrationEvents` | src/DesafioMinervaFoods.Infrastructure/Consumers/RegisterOrderConsumer.cs:40-49 | OrderCreatedEvent with id and date, then OrderProcessedEvent with id, customer, "Sucesso" and the fixed message |
| `RegisterOrderWorker.EmptyRegistrationPaid` | src/DesafioMinervaFoods.Tests/Infrastructure/Consumers/RegisterOrderConsumerTests.cs:56-78 | a message without items ends Pago, also from Processando |
| `RegisterOrderWorker.RegistrationPricing` | src/DesafioMinervaFoods.Infrastructure/Consumers/RegisterOrderConsumer.cs:33-35 | status and flag follow the requested amount |
| `RegisterOrderWorker.RegisterOrderConsumer.Consume` | src/DesafioMinervaFoods.Infrastructure/Consumers/RegisterOrderConsumer.cs:30-50 | a repository save that refuses the order (taken key, unknown customer or payment condition, long product name) or fails in the store throws, stores nothing and publishes nothing. Otherwise exactly one order is added, and the two events follow, in order, only after the context's own save also succeeds |
| `DeliveryScheduling.ScheduledTerm` | src/DesafioMinervaFoods.Infrastructure/Consumers/OrderCreatedConsumer.cs:20-23 | the term is for the event's order, 10 days, estimate the order date plus 10 |
| `DeliveryScheduling.ScheduleDelivery` | src/DesafioMinervaFoods.Infrastructure/Consumers/OrderCreatedConsumer.cs:17-27 | as written: succeeds iff the order exists, has no term and the key is free; then exactly one term is appended; one term per order is kept |
| `DeliveryScheduling.RedeliveryRejected` | src/DesafioMinervaFoods.Infrastructure/Consumers/OrderCreatedConsumer.cs:23-26 | as written, a second delivery of the same event fails on the unique index |
| `DeliveryScheduling.ScheduleDeliveryOnce` | src/DesafioMinervaFoods.Infrastructure/Consumers/OrderCreatedConsumer.cs:17-27 | corrected: an order with a term is a successful no-op; otherwise as written |
| `DeliveryScheduling.ScheduleDeliveryOnceIdempotent` | src/DesafioMinervaFoods.Infrastructure/Consumers/OrderCreatedConsumer.cs:17-27 | corrected: a second delivery leaves the table as the first did, with one term for the order |
| `DeliveryScheduling.ScheduleDeliveryLocal` | src/DesafioMinervaFoods.Infrastructure/Consumers/OrderCreatedConsumer.cs:25-26 | every other order reads back unchanged |
| `DeliveryScheduling.OrderCreatedConsumer.Consume` | src/DesafioMinervaFoods.Infrastructure/Consumers/OrderCreatedConsumer.cs:17-27 | a violated constraint is thrown as ScheduleDelivery reports it, with the table unchanged. Otherwise the save's fault decides: the table becomes ScheduleDelivery's result, or stays unchanged and the fault is thrown. No order changes and nothing is published |
| `DeliveryScheduling.OrderCreatedConsumer.ConsumeOnce` | src/DesafioMinervaFoods.Infrastructure/Consumers/OrderCreatedConsumer.cs:17-27 | an order that has a term returns with nothing changed; otherwise as Consume, against ScheduleDeliveryOnce |
| `ApprovalWorker.ApprovalEffect` | src/DesafioMinervaFoods.Infrastructure/Consumers/ApproveOrderConsumer.cs:29-42 | a stored, flagged order is approved and one OrderProcessedEvent is published; otherwise nothing changes and nothing is published |
| `ApprovalWorker.ApprovalOutcome` | src/DesafioMinervaFoods.Infrastructure/Consumers/ApproveOrderConsumer.cs:29-33 | afterwards the flag is clear, a flagged order is Pago, only status and flag changed, other orders unchanged |
| `ApprovalWorker.ApprovalRedeliveryNoop` | src/DesafioMinervaFoods.Infrastructure/Consumers/ApproveOrderConsumer.cs:29-31 | re-delivery after approval changes nothing and publishes nothing |
| `ApprovalWorker.WidgetLifecycle` | src/DesafioMinervaFoods.Infrastructure/Consumers/ApproveOrderConsumer.cs:29-42 | 2 x 3000.00: registered Criado with the flag, term of 10 days from the order date, approved to Pago with one event, second approval a no-op |
| `ApprovalWorker.ApproveOrderConsumer.Consume` | src/DesafioMinervaFoods.Infrastructure/Consumers/ApproveOrderConsumer.cs:24-44 | an eligible order whose update fails stays unapproved, the fault is thrown and nothing is published; otherwise orders become ApprovalEffect's, and the event is published only after the update and a successful second save |

## Findings

| source | as written | input that shows it | evidently intended | confidence | as-written member | corrected member |
|---|---|---|---|---|---|---|
| src/DesafioMinervaFoods.Infrastructure/Consumers/OrderCreatedConsumer.cs:23-26 | adds a new DeliveryTerm on every delivery, without looking for an existing one, so the save fails on the unique index IX_DeliveryTerms_OrderId | the same OrderCreatedEvent delivered twice (at-least-once delivery, or a retry after a later failure) | a second delivery is a successful no-op, so each order keeps exactly one term and the message is not retried into the dead-letter queue | medium; not executed | `DeliveryScheduling.RedeliveryRejected` | `DeliveryScheduling.ScheduleDeliveryOnceIdempotent` |

## Left out

- `Messaging.MessageBus.Publish` never fails, and neither does `Persistence.OrderStore.GetByIdAsync`: an unavailable broker or store on a publish or a read is not modelled. In the create handler (`CreateOrderCommandHandler.cs:48-51`) and in the register and approve workers, a failing publish would throw after the order has been saved, so the stored order would stand without its event.
- Broker resilience is not modelled. Retry, circuit breaker, dead-letter routing and the in-memory outbox are MassTransit and RabbitMQ library features, set only by configuration constants.
- The SignalR notification fan-out (`OrderNotificationConsumer`, `OrderHub`) and the `MassTransitEventBus` wrapper are not modelled. They are thin wrappers over external libraries. The notification worker swallows hub errors.
- EF Core plumbing is replaced by `Persistence.OrderStore`: the repositories, configurations, migrations and the second plain `AppDbContext`.
  - The owner-filtered `GetByIdAsync(id, userId)` is not in `IOrderRepository`. Its filter is a parameter of `OrderQueries.GetOrderById`.
  - `GetAllAsync`, `OrderService.GetAllOrdersAsync` and the get-all query are not part of this model.
- A save that fails in the store itself is a fault parameter: the repository's save inside `AddAsync` and `UpdateAsync`, the context's save in `OrderCreatedConsumer`, and the consumers' second `_context.SaveChangesAsync()`. Which store failures occur, and the broker's retries of them, are not modelled. The change tracker of `DbContexts.AppDbContext` is not connected to `OrderStore`, because the two would have to share the EF change tracker.
- `DbContexts.AppDbContext.OnBeforeSaving`: promises nothing about entities in Modified entries. The source assigns `false` to `UpdatedAt` and a `DateTime` to `UpdatedBy` there, which has no meaning to model.
- `TransactionBehavior` runs against an abstract unit of work whose failures are parameters. It is not composed with the handlers it wraps.
- Authentication and identity are not modelled (Identity, JWT, `CurrentUserService`). The current user id is an input.
- HTTP controllers, bootstrap, Swagger, seeding and the TypeScript front end are not modelled.
- `DateTime.UtcNow` and `Guid.NewGuid()` are parameters, so the model does not claim generated ids are unique. A taken key is modelled as a failed save.
- When one save violates several constraints, the model reports them in a fixed order (key, then the foreign keys). The database reports one of them, and which one is not modelled.
- Concurrency between workers and the API is not modelled. Each consumer is one sequential step over the store.
- `OrderItem.OrderItemId`, `OrderItem.OrderId` and `OrderItemResponse.Id` are not modelled. Nothing in the core reads them.
- Money is an exact `real`: the 28-digit range of `decimal` and its `OverflowException` are not modelled, and neither is the two-decimal scale of the stored `TotalAmount` and `UnitPrice` columns, `decimal(18,2)` (`OrderConfiguration.cs:15-17`, `OrderItemConfiguration.cs:20-22`). A stored order keeps its exact total, where the database rounds a price such as 5000.004 to 5000.00 and the order reads back with the flag set. Quantities are unbounded `int`, not 32-bit.
- `CreateOrderValidation.IsWhiteSpace` lists the Unicode white-space characters by hand, for the `NotEmpty` rule on strings.
- `RequestValidation` rules without a custom message report FluentValidation's default English wording. That text lives in the library, so the model's messages stand in for it.
