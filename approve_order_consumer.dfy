/** ApproveOrderConsumer: the worker behind the approve-order queue. An
    order that is missing, or that no longer waits for approval, is passed
    over without effect; a flagged order is approved, updated, saved, and
    then announced with one OrderProcessedEvent. */
module ApprovalWorker {
  import opened Common
  import opened Orders
  import opened Persistence
  import opened Messaging
  import opened Mappings
  import opened DeliveryTerms
  import RegisterOrderWorker
  import DeliveryScheduling

  const OrderApprovedMessage := "Pedido aprovado com sucesso e enviado para processamento!"

  /** The worker's guard: the order exists and is flagged. */
  predicate Eligible(orders: map<Guid, OrderState>, orderId: Guid) {
    orderId in orders && orders[orderId].requiresManualApproval
  }

  function ApprovedEvent(o: OrderState): Message {
    OrderProcessedEvent(o.orderId, o.customerId, SuccessTitle, OrderApprovedMessage)
  }

  /** One successful delivery of an approval message: the stored orders
      afterwards and the events published. */
  function ApprovalEffect(orders: map<Guid, OrderState>, orderId: Guid): (r: (map<Guid, OrderState>, seq<Message>))
    ensures Eligible(orders, orderId) ==>
              r.0 == orders[orderId := Approve(orders[orderId])] && r.1 == [ApprovedEvent(orders[orderId])]
    ensures !Eligible(orders, orderId) ==> r.0 == orders && r.1 == []
    ensures r.0.Keys == orders.Keys
  {
    if Eligible(orders, orderId) then (orders[orderId := Approve(orders[orderId])], [ApprovedEvent(orders[orderId])])
    else (orders, [])
  }

  /** After the worker has run, the order is Pago without the flag if it
      was flagged, and the order's other columns and every other order are
      as they were. */
  lemma ApprovalOutcome(orders: map<Guid, OrderState>, orderId: Guid)
    requires orderId in orders
    ensures var after := ApprovalEffect(orders, orderId).0;
            && !after[orderId].requiresManualApproval
            && (orders[orderId].requiresManualApproval ==> after[orderId].status == Pago)
            && SameButStatus(orders[orderId], after[orderId])
            && (forall id :: id in orders && id != orderId ==> after[id] == orders[id])
  {
  }

  /** Re-delivering an approval message after it took effect changes no
      order and publishes no second event. */
  lemma ApprovalRedeliveryNoop(orders: map<Guid, OrderState>, orderId: Guid)
    ensures var once := ApprovalEffect(orders, orderId).0;
            ApprovalEffect(once, orderId) == (once, [])
  {
    if Eligible(orders, orderId) {
      var once := ApprovalEffect(orders, orderId).0;
      assert !once[orderId].requiresManualApproval;
    }
  }

  /** The whole lifecycle of an order of 2 x 3000.00: registered as Criado
      with the flag, given a term of 10 days from its order date, then
      approved to Pago with one event, and a second approval does nothing. */
  lemma WidgetLifecycle(customerId: Guid, paymentConditionId: Guid, orderId: Guid, now: Day, termId: Guid, later: Day)
    ensures var msg := OrderRequest(customerId, paymentConditionId, [OrderItemRequest("Widget", 2, 3000.0)]);
            var o := RegisterOrderWorker.RegisteredOrder(msg, orderId, now);
            var orders := map[orderId := o];
            var scheduled := DeliveryScheduling.ScheduleDelivery(orders, [], orderId, o.orderDate, termId, later);
            var approved := ApprovalEffect(orders, orderId);
            && o.totalAmount == 6000.0 && o.status == Criado && o.requiresManualApproval
            && scheduled == Returned([DeliveryScheduling.ScheduledTerm(orderId, now, termId, later)])
            && scheduled.value[0].deliveryDays == 10 && scheduled.value[0].estimatedDeliveryDate == now + 10
            && approved.0[orderId].status == Pago && !approved.0[orderId].requiresManualApproval
            && approved.1 == [OrderProcessedEvent(orderId, customerId, SuccessTitle, OrderApprovedMessage)]
            && ApprovalEffect(approved.0, orderId) == (approved.0, [])
  {
    var items := [OrderItemRequest("Widget", 2, 3000.0)];
    assert items[1..] == [];
    var msg := OrderRequest(customerId, paymentConditionId, items);
    RegisterOrderPricing(msg, orderId, now);
    var orders := map[orderId := RegisterOrderWorker.RegisteredOrder(msg, orderId, now)];
    var term := DeliveryScheduling.ScheduledTerm(orderId, now, termId, later);
    var none: seq<DeliveryTerm> := [];
    assert none + [term] == [term];
    ApprovalRedeliveryNoop(orders, orderId);
  }

  class ApproveOrderConsumer {
    const repository: OrderStore
    const publishEndpoint: MessageBus

    constructor (repository: OrderStore, publishEndpoint: MessageBus)
      ensures this.repository == repository && this.publishEndpoint == publishEndpoint
    {
      this.repository := repository;
      this.publishEndpoint := publishEndpoint;
    }

    /** Consume(ProcessOrderApprovalCommand). updateFault is what the
        repository's save throws, and saveFault what the context's own
        SaveChangesAsync throws, if anything. An ineligible order is a
        no-op. For an eligible one a failing update leaves the order
        unapproved and throws; otherwise the update is written before the
        second save, and the event is published only after both. */
    method Consume(orderId: Guid, updateFault: Option<Exception>, saveFault: Option<Exception>) returns (r: Outcome<()>)
      requires repository.Valid()
      modifies repository, publishEndpoint
      ensures repository.Valid() && repository.deliveryTerms == old(repository.deliveryTerms)
      ensures Eligible(old(repository.orders), orderId) && updateFault.Some? ==>
                r == Threw(updateFault.value) &&
                repository.orders == old(repository.orders) && publishEndpoint.published == old(publishEndpoint.published)
      ensures !Eligible(old(repository.orders), orderId) || updateFault.None? ==>
                var effect := ApprovalEffect(old(repository.orders), orderId);
                && repository.orders == effect.0
                && r == (if Eligible(old(repository.orders), orderId) then FromFault(saveFault) else Returned(()))
                && publishEndpoint.published == old(publishEndpoint.published) + (if r.Returned? then effect.1 else [])
    {
      var found := repository.GetByIdAsync(orderId);
      if found.Some? && found.value.requiresManualApproval {
        var order := found.value;
        order.Aprovar();
        // the row was just read, so only the store itself can fail the update
        r := repository.UpdateAsync(order, updateFault);
        if r.Threw? {
          return;
        }
        r := FromFault(saveFault);
        if r.Threw? {
          return;
        }
        publishEndpoint.Publish(OrderProcessedEvent(order.orderId, order.customerId, SuccessTitle, OrderApprovedMessage));
      } else {
        r := Returned(());
      }
    }
  }
}
