/** The two command handlers of the order API. CreateOrderCommandHandler
    validates, builds and stores the order, then publishes OrderCreatedEvent.
    ApproveOrderCommandHandler checks that the order exists and waits for
    approval, then enqueues a ProcessOrderApprovalCommand; it never writes
    the store. */
module OrderCommands {
  import opened Common
  import opened Orders
  import opened Persistence
  import opened Messaging
  import opened Mappings
  import CreateOrderValidation

  const NotFoundOrNotRequired := "Pedido não encontrado ou não requer aprovação."
  const ApprovalNotRequired := "Este pedido não requer aprovação manual ou já foi processado."
  const ApprovalRequested := "Solicitação de aprovação enviada com sucesso!"

  /** The order CreateOrderCommandHandler builds: each request line becomes
      an OrderItem, and the Order constructor prices the lines, so the
      requested amount decides status and flag. It is the order the
      AutoMapper profile builds for the register-order message. */
  function CreatedOrder(request: OrderRequest, orderId: Guid, now: Day): (o: OrderState)
    ensures o.orderId == orderId && o.customerId == request.customerId && o.paymentConditionId == request.paymentConditionId
    ensures |o.items| == |request.items|
    ensures forall k :: 0 <= k < |request.items| ==>
              o.items[k].productName == request.items[k].productName &&
              o.items[k].quantity == request.items[k].quantity &&
              o.items[k].unitPrice == request.items[k].unitPrice
    ensures o.orderDate == now && o.deliveryTerm == None && Consistent(o)
    ensures o.totalAmount == RequestedTotal(request.items)
    ensures o.totalAmount > ApprovalThreshold ==> o.status == Criado && o.requiresManualApproval
    ensures o.totalAmount <= ApprovalThreshold ==> o.status == Pago && !o.requiresManualApproval
  {
    RegisterOrderPricing(request, orderId, now);
    MapRegisterOrder(request, orderId, now)
  }

  /** The two guards on the loaded order, not-found first. */
  function ApprovalDecision(order: Option<OrderState>): (r: Result<string>)
    ensures r.Success? <==> order.Some? && order.value.requiresManualApproval
    ensures order.None? ==> r == Failure([NotFoundOrNotRequired])
    ensures order.Some? && !order.value.requiresManualApproval ==> r == Failure([ApprovalNotRequired])
    ensures r.Success? ==> r.data == ApprovalRequested
  {
    match order
    case None => Failure([NotFoundOrNotRequired])
    case Some(o) => if !o.requiresManualApproval then Failure([ApprovalNotRequired]) else Success(ApprovalRequested)
  }

  /** For a stored order that keeps the aggregate's invariant, an approval
      request is accepted exactly when the order is in Criado; once the
      order has been approved, a further request is refused as already
      processed. */
  lemma ApprovalFollowsStatus(o: OrderState)
    requires Consistent(o)
    ensures ApprovalDecision(Some(o)).Success? <==> o.status == Criado
    ensures ApprovalDecision(Some(Approve(o))) == Failure([ApprovalNotRequired])
  {
  }

  /** An order of 100.00 is paid at creation, so asking to approve it is
      refused as not requiring approval; one of 6000.00 is accepted. */
  lemma ApprovalOfCreatedOrders(orderId: Guid, customerId: Guid, paymentConditionId: Guid, now: Day)
    ensures ApprovalDecision(Some(CreatedOrder(OrderRequest(customerId, paymentConditionId,
              [OrderItemRequest("Widget", 1, 100.0)]), orderId, now))) == Failure([ApprovalNotRequired])
    ensures ApprovalDecision(Some(CreatedOrder(OrderRequest(customerId, paymentConditionId,
              [OrderItemRequest("Widget", 2, 3000.0)]), orderId, now))) == Success(ApprovalRequested)
  {
    var small := [OrderItemRequest("Widget", 1, 100.0)];
    var large := [OrderItemRequest("Widget", 2, 3000.0)];
    assert small[1..] == [] && large[1..] == [];
  }

  class CreateOrderCommandHandler {
    const repository: OrderStore
    const eventBus: MessageBus

    constructor (repository: OrderStore, eventBus: MessageBus)
      ensures this.repository == repository && this.eventBus == eventBus
    {
      this.repository := repository;
      this.eventBus := eventBus;
    }

    /** The existence checks the validator runs: the customer and payment
        condition repositories look in the tables the order's foreign keys
        refer to. */
    function CustomerExists(): Guid -> bool {
      id => id in repository.customers
    }

    function PaymentConditionExists(): Guid -> bool {
      id => id in repository.paymentConditions
    }

    /** Handle(CreateOrderCommand). The new order's GUID and the clock are
        given as newId and now; saveFault is what the store's own save
        throws, if anything. A command the validator refuses changes nothing
        and returns its messages; a valid one adds exactly one order and
        publishes exactly one OrderCreatedEvent after the add. Since the
        validator has looked the customer and the payment condition up, the
        save can refuse an accepted command only for a taken key or for a
        product name too long for its column (the validator does not limit
        its length), or fail in the store; a failed save throws and
        publishes nothing. */
    method Handle(request: OrderRequest, newId: Guid, now: Day, saveFault: Option<Exception>)
      returns (r: Outcome<Result<OrderResponse>>)
      requires repository.Valid()
      modifies repository, eventBus
      ensures repository.Valid() && repository.deliveryTerms == old(repository.deliveryTerms)
      ensures var errors := CreateOrderValidation.Validate(request, CustomerExists(), PaymentConditionExists());
              errors != [] ==>
                r == Returned(Failure(errors)) &&
                repository.orders == old(repository.orders) && eventBus.published == old(eventBus.published)
      ensures CreateOrderValidation.Validate(request, CustomerExists(), PaymentConditionExists()) == [] && newId in old(repository.orders) ==>
                r == Threw(DbUpdate(OrderKeyTaken)) &&
                repository.orders == old(repository.orders) && eventBus.published == old(eventBus.published)
      ensures CreateOrderValidation.Validate(request, CustomerExists(), PaymentConditionExists()) == [] ==>
                var created := CreatedOrder(request, newId, now);
                var failure := InsertFailure(old(repository.orders), repository.customers, repository.paymentConditions, created);
                && (failure.Some? ==> failure.value == DbUpdate(OrderKeyTaken) || failure.value == DbUpdate(ProductNameTooLong))
                && (failure.Some? ==>
                      r == Threw(failure.value) &&
                      repository.orders == old(repository.orders) && eventBus.published == old(eventBus.published))
                && (failure.None? && saveFault.Some? ==>
                      r == Threw(saveFault.value) &&
                      repository.orders == old(repository.orders) && eventBus.published == old(eventBus.published))
                && (failure.None? && saveFault.None? ==>
                      && repository.orders == old(repository.orders)[newId := created]
                      && eventBus.published == old(eventBus.published) + [OrderCreatedEvent(newId, now)]
                      && r == Returned(Success(MapOrder(created, None, None))))
    {
      var errors := CreateOrderValidation.Validate(request, CustomerExists(), PaymentConditionExists());
      if errors != [] {
        return Returned(Failure(errors));
      }
      var items := MapItemRequests(request.items);
      var order := new Order(newId, request.customerId, request.paymentConditionId, items, now);
      var added := repository.AddAsync(order, saveFault);
      if added.Threw? {
        return Threw(added.exception);
      }
      eventBus.Publish(OrderCreatedEvent(order.orderId, order.orderDate));
      // the new order has no navigations loaded: no customer, no payment condition
      var response := MapOrder(order.State(), None, None);
      r := Returned(Success(response));
    }
  }

  class ApproveOrderCommandHandler {
    const repository: OrderStore
    const eventBus: MessageBus

    constructor (repository: OrderStore, eventBus: MessageBus)
      ensures this.repository == repository && this.eventBus == eventBus
    {
      this.repository := repository;
      this.eventBus := eventBus;
    }

    /** Handle(ApproveOrderCommand): the guards decide the result; only an
        accepted request publishes, and then exactly one
        ProcessOrderApprovalCommand for the requested order. The store is
        only read. */
    method Handle(orderId: Guid) returns (r: Result<string>)
      modifies eventBus
      ensures r == ApprovalDecision(repository.Find(orderId))
      ensures eventBus.published == old(eventBus.published) + (if r.Success? then [ProcessOrderApprovalCommand(orderId)] else [])
    {
      var order := repository.GetByIdAsync(orderId);
      if order.None? {
        return Failure([NotFoundOrNotRequired]);
      }
      if !order.value.requiresManualApproval {
        return Failure([ApprovalNotRequired]);
      }
      eventBus.Publish(ProcessOrderApprovalCommand(orderId));
      r := Success(ApprovalRequested);
    }
  }
}
