/** RegisterOrderConsumer: the worker behind the register-order queue. It
    maps the message to an Order, marks it as processing, stores it, saves
    the context, and only then publishes OrderCreatedEvent followed by
    OrderProcessedEvent. */
module RegisterOrderWorker {
  import opened Common
  import opened Orders
  import opened Persistence
  import opened Messaging
  import opened Mappings

  const OrderRegisteredMessage := "Pedido gerado com sucesso!"

  /** The order the worker stores: the mapped order after
      DefinirStatusProcessando. Marking it changes nothing, because the
      pricing rule gives the constructor's answer again. */
  function RegisteredOrder(msg: OrderRequest, orderId: Guid, now: Day): (o: OrderState)
    ensures o == MapRegisterOrder(msg, orderId, now)
  {
    var mapped := MapRegisterOrder(msg, orderId, now);
    MarkProcessingAfterCreate(orderId, msg.customerId, msg.paymentConditionId, MapItemRequests(msg.items), now);
    MarkProcessing(mapped)
  }

  /** The two events, in publishing order. */
  function RegistrationEvents(o: OrderState): (events: seq<Message>)
    ensures |events| == 2
    ensures events[0] == OrderCreatedEvent(o.orderId, o.orderDate)
    ensures events[1].OrderProcessedEvent? && events[1].id == o.orderId && events[1].customerId == o.customerId
    ensures events[1].title == SuccessTitle && events[1].message == OrderRegisteredMessage
  {
    [OrderCreatedEvent(o.orderId, o.orderDate), OrderProcessedEvent(o.orderId, o.customerId, SuccessTitle, OrderRegisteredMessage)]
  }

  /** A message without items gives an order of total 0, which ends Pago
      whatever status it held before it was marked as processing. */
  lemma EmptyRegistrationPaid(customerId: Guid, paymentConditionId: Guid, orderId: Guid, now: Day)
    ensures var o := RegisteredOrder(OrderRequest(customerId, paymentConditionId, []), orderId, now);
            o.totalAmount == 0.0 && o.status == Pago && !o.requiresManualApproval
            && MarkProcessing(o.(status := Processando)) == o
  {
  }

  /** The registered order is priced by what the message asked for. */
  lemma RegistrationPricing(msg: OrderRequest, orderId: Guid, now: Day)
    ensures var o := RegisteredOrder(msg, orderId, now);
            && (RequestedTotal(msg.items) > ApprovalThreshold <==> o.status == Criado)
            && (RequestedTotal(msg.items) > ApprovalThreshold <==> o.requiresManualApproval)
            && (RequestedTotal(msg.items) <= ApprovalThreshold <==> o.status == Pago)
  {
    RegisterOrderPricing(msg, orderId, now);
  }

  class RegisterOrderConsumer {
    const repository: OrderStore
    const publishEndpoint: MessageBus

    constructor (repository: OrderStore, publishEndpoint: MessageBus)
      ensures this.repository == repository && this.publishEndpoint == publishEndpoint
    {
      this.repository := repository;
      this.publishEndpoint := publishEndpoint;
    }

    /** Consume(RegisterOrderCommand). The new order's GUID and the clock
        are given as newId and now; addFault is what the repository's save
        throws, and saveFault what the context's own SaveChangesAsync
        throws, if anything. Each message adds exactly one order, unless the
        repository's save refuses it (a taken key, a customer or payment
        condition that is not stored, a product name too long for its
        column) or fails, and then nothing is stored. The two events follow
        both saves, so any failure publishes nothing. */
    method Consume(msg: OrderRequest, newId: Guid, now: Day, addFault: Option<Exception>, saveFault: Option<Exception>)
      returns (r: Outcome<()>)
      requires repository.Valid()
      modifies repository, publishEndpoint
      ensures repository.Valid() && repository.deliveryTerms == old(repository.deliveryTerms)
      ensures var o := RegisteredOrder(msg, newId, now);
              var failure := InsertFailure(old(repository.orders), repository.customers, repository.paymentConditions, o);
              && (failure.Some? ==>
                    r == Threw(failure.value) &&
                    repository.orders == old(repository.orders) && publishEndpoint.published == old(publishEndpoint.published))
              && (failure.None? && addFault.Some? ==>
                    r == Threw(addFault.value) &&
                    repository.orders == old(repository.orders) && publishEndpoint.published == old(publishEndpoint.published))
              && (failure.None? && addFault.None? ==>
                    && repository.orders == old(repository.orders)[newId := o]
                    && r == FromFault(saveFault)
                    && publishEndpoint.published == old(publishEndpoint.published)
                         + (if saveFault.None? then RegistrationEvents(o) else []))
    {
      var order := new Order(newId, msg.customerId, msg.paymentConditionId, MapItemRequests(msg.items), now);
      order.DefinirStatusProcessando();
      r := repository.AddAsync(order, addFault);
      if r.Threw? {
        return;
      }
      r := FromFault(saveFault);
      if r.Threw? {
        return;
      }
      publishEndpoint.Publish(OrderCreatedEvent(order.orderId, order.orderDate));
      publishEndpoint.Publish(OrderProcessedEvent(order.orderId, order.customerId, SuccessTitle, OrderRegisteredMessage));
    }
  }
}
