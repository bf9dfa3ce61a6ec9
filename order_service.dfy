/** OrderService: the older, synchronous service path. CreateOrderAsync
    validates with OrderCreateValidator, stores the order and returns its
    summary; ApproveOrderAsync approves and rewrites any order it finds,
    whether or not the order was waiting for approval. */
module OrderServices {
  import opened Common
  import opened Orders
  import opened Persistence
  import opened Messaging
  import opened Mappings
  import RequestValidation
  import OrderCommands

  /** The OrderResponse the service builds by hand: id, total, status and
      flag. */
  datatype OrderSummary = OrderSummary(orderId: Guid, totalAmount: Money, status: Status, requiresManualApproval: bool)

  function Summarize(o: OrderState): (s: OrderSummary)
    ensures s.orderId == o.orderId && s.totalAmount == o.totalAmount
    ensures s.status == o.status && s.requiresManualApproval == o.requiresManualApproval
  {
    OrderSummary(o.orderId, o.totalAmount, o.status, o.requiresManualApproval)
  }

  /** The service's summary of a request it accepts: one line of 1000
      gives Pago; one line of 6000 gives Criado with the flag. */
  lemma CreateSummaryExamples(orderId: Guid, customerId: Guid, paymentConditionId: Guid, now: Day)
    ensures var s := Summarize(OrderCommands.CreatedOrder(OrderRequest(customerId, paymentConditionId,
                        [OrderItemRequest("Produto A", 1, 1000.0)]), orderId, now));
            s.totalAmount == 1000.0 && s.status == Pago && !s.requiresManualApproval
    ensures var s := Summarize(OrderCommands.CreatedOrder(OrderRequest(customerId, paymentConditionId,
                        [OrderItemRequest("Máquina Industrial", 1, 6000.0)]), orderId, now));
            s.totalAmount == 6000.0 && s.status == Criado && s.requiresManualApproval
  {
    var a := [OrderItemRequest("Produto A", 1, 1000.0)];
    var b := [OrderItemRequest("Máquina Industrial", 1, 6000.0)];
    assert a[1..] == [] && b[1..] == [];
  }

  /** What ApproveOrderAsync leaves stored for an existing order: approved
      if it was flagged, unchanged otherwise, and in either case the
      aggregate's invariant still holds and the flag is clear. */
  lemma ServiceApprovalResult(o: OrderState)
    requires Consistent(o)
    ensures Consistent(Approve(o)) && !Approve(o).requiresManualApproval
    ensures o.status == Criado ==> Approve(o).status == Pago
    ensures o.status != Criado ==> Approve(o) == o
  {
  }

  class OrderService {
    const repository: OrderStore

    constructor (repository: OrderStore)
      ensures this.repository == repository
    {
      this.repository := repository;
    }

    /** CreateOrderAsync: a refused request returns the validator's
        messages and adds nothing; an accepted one adds exactly one order
        and returns its summary, priced by the Order rule, unless the save
        fails: the save refuses a taken key, a customer or payment condition
        that is not stored (this validator does not look them up) and a
        product name too long for its column, and the store itself may
        fail (saveFault). A failed save throws and adds nothing. */
    method CreateOrderAsync(request: OrderRequest, newId: Guid, now: Day, saveFault: Option<Exception>)
      returns (r: Outcome<Result<OrderSummary>>)
      requires repository.Valid()
      modifies repository
      ensures repository.Valid() && repository.deliveryTerms == old(repository.deliveryTerms)
      ensures RequestValidation.Validate(request) != [] ==>
                r == Returned(Failure(RequestValidation.Validate(request))) && repository.orders == old(repository.orders)
      ensures var created := OrderCommands.CreatedOrder(request, newId, now);
              var failure := InsertFailure(old(repository.orders), repository.customers, repository.paymentConditions, created);
              && (RequestValidation.Validate(request) == [] && failure.Some? ==>
                    r == Threw(failure.value) && repository.orders == old(repository.orders))
              && (RequestValidation.Validate(request) == [] && failure.None? && saveFault.Some? ==>
                    r == Threw(saveFault.value) && repository.orders == old(repository.orders))
              && (RequestValidation.Validate(request) == [] && failure.None? && saveFault.None? ==>
                    repository.orders == old(repository.orders)[newId := created] &&
                    r == Returned(Success(Summarize(created))))
    {
      var errors := RequestValidation.Validate(request);
      if errors != [] {
        return Returned(Failure(errors));
      }
      var items := MapItemRequests(request.items);
      var order := new Order(newId, request.customerId, request.paymentConditionId, items, now);
      var added := repository.AddAsync(order, saveFault);
      if added.Threw? {
        return Threw(added.exception);
      }
      r := Returned(Success(OrderSummary(order.orderId, order.totalAmount, order.status, order.requiresManualApproval)));
    }

    /** ApproveOrderAsync: an unknown id fails with the fixed message and
        nothing is written; an existing order is approved (a no-op when it
        was not flagged) and written back, and the call succeeds, unless the
        store's save fails (saveFault): then the exception propagates and
        the stored order stays as it was. */
    method ApproveOrderAsync(orderId: Guid, saveFault: Option<Exception>) returns (r: Outcome<Result<()>>)
      requires repository.Valid()
      modifies repository
      ensures repository.Valid() && repository.deliveryTerms == old(repository.deliveryTerms)
      ensures orderId !in old(repository.orders) ==>
                r == Returned(Failure([OrderCommands.NotFoundOrNotRequired])) && repository.orders == old(repository.orders)
      ensures orderId in old(repository.orders) && saveFault.Some? ==>
                r == Threw(saveFault.value) && repository.orders == old(repository.orders)
      ensures orderId in old(repository.orders) && saveFault.None? ==>
                r == Returned(Success(())) &&
                repository.orders == old(repository.orders)[orderId := Approve(old(repository.orders)[orderId])]
    {
      var found := repository.GetByIdAsync(orderId);
      if found.None? {
        return Returned(Failure([OrderCommands.NotFoundOrNotRequired]));
      }
      var order := found.value;
      order.Aprovar();
      // the row was just read, so only the store itself can fail the update
      var updated := repository.UpdateAsync(order, saveFault);
      if updated.Threw? {
        return Threw(updated.exception);
      }
      r := Returned(Success(()));
    }
  }
}
