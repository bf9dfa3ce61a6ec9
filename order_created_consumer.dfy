/** OrderCreatedConsumer: the worker behind the order-created queue. It
    builds a DeliveryTerm of ten days from the event's order id and order
    date, adds it to the context and saves.

    As written, the worker does not look for a term the order already has,
    so a second delivery of the same event fails at the save on the unique
    index over DeliveryTerms.OrderId (ScheduleDelivery, RedeliveryRejected).
    ScheduleDeliveryOnce and ConsumeOnce are the corrected worker: a term
    already present makes the delivery a successful no-op, which makes the
    worker idempotent (ScheduleDeliveryOnceIdempotent). */
module DeliveryScheduling {
  import opened Common
  import opened DeliveryTerms
  import opened Orders
  import opened Persistence

  /** DEFAULT_DELIVERY_DAYS. */
  const DefaultDeliveryDays := 10

  /** The term the worker builds; its GUID and the clock are given as
      termId and now. */
  function ScheduledTerm(orderId: Guid, orderDate: Day, termId: Guid, now: Day): (t: DeliveryTerm)
    ensures t.orderId == orderId && t.deliveryDays == 10
    ensures t.estimatedDeliveryDate == orderDate + 10 && t.deliveryTermId == termId
  {
    NewDeliveryTerm(termId, orderId, DefaultDeliveryDays, orderDate, now)
  }

  /** No stored term has this key. */
  predicate TermIdFree(terms: seq<DeliveryTerm>, termId: Guid) {
    forall k :: 0 <= k < |terms| ==> terms[k].deliveryTermId != termId
  }

  /** The worker as written, on the term table: the save refuses a term
      for an unknown order, a second term for the same order, and a taken
      key; otherwise the table gains exactly the new term. */
  function ScheduleDelivery(orders: map<Guid, OrderState>, terms: seq<DeliveryTerm>,
                            orderId: Guid, orderDate: Day, termId: Guid, now: Day): (r: Outcome<seq<DeliveryTerm>>)
    ensures r.Returned? <==> orderId in orders && TermFor(terms, orderId).None? && TermIdFree(terms, termId)
    ensures r.Threw? ==> r.exception.DbUpdate?
    ensures r.Returned? ==> r.value == terms + [ScheduledTerm(orderId, orderDate, termId, now)]
    ensures r.Returned? && OneTermPerOrder(terms) ==> OneTermPerOrder(r.value)
  {
    var term := ScheduledTerm(orderId, orderDate, termId, now);
    match TermInsertFailure(orders, terms, term)
    case Some(e) => Threw(e)
    case None => Returned(terms + [term])
  }

  /** As written, delivering the same event a second time, after the first
      delivery stored its term, fails at the save, whatever key and clock
      the second delivery draws. */
  lemma RedeliveryRejected(orders: map<Guid, OrderState>, terms: seq<DeliveryTerm>, orderId: Guid, orderDate: Day,
                           termId: Guid, now: Day, termId2: Guid, now2: Day)
    requires ScheduleDelivery(orders, terms, orderId, orderDate, termId, now).Returned?
    ensures var once := ScheduleDelivery(orders, terms, orderId, orderDate, termId, now).value;
            ScheduleDelivery(orders, once, orderId, orderDate, termId2, now2) == Threw(DbUpdate(TermOrderTaken))
  {
    TermForAppend(terms, ScheduledTerm(orderId, orderDate, termId, now), orderId);
  }

  /** The corrected worker: an order that already has a term is left as it
      is and the delivery succeeds. */
  function ScheduleDeliveryOnce(orders: map<Guid, OrderState>, terms: seq<DeliveryTerm>,
                                orderId: Guid, orderDate: Day, termId: Guid, now: Day): (r: Outcome<seq<DeliveryTerm>>)
    ensures TermFor(terms, orderId).Some? ==> r == Returned(terms)
    ensures TermFor(terms, orderId).None? ==> r == ScheduleDelivery(orders, terms, orderId, orderDate, termId, now)
    ensures r.Returned? && OneTermPerOrder(terms) ==> OneTermPerOrder(r.value)
  {
    if TermFor(terms, orderId).Some? then Returned(terms)
    else ScheduleDelivery(orders, terms, orderId, orderDate, termId, now)
  }

  /** The corrected worker is idempotent: a second delivery of the same
      event, with any key and clock, leaves the table as the first left it,
      and the order has exactly one term. */
  lemma ScheduleDeliveryOnceIdempotent(orders: map<Guid, OrderState>, terms: seq<DeliveryTerm>, orderId: Guid, orderDate: Day,
                                       termId: Guid, now: Day, termId2: Guid, now2: Day)
    requires ScheduleDeliveryOnce(orders, terms, orderId, orderDate, termId, now).Returned?
    ensures var once := ScheduleDeliveryOnce(orders, terms, orderId, orderDate, termId, now).value;
            && ScheduleDeliveryOnce(orders, once, orderId, orderDate, termId2, now2) == Returned(once)
            && TermFor(once, orderId).Some?
  {
    if TermFor(terms, orderId).None? {
      TermForAppend(terms, ScheduledTerm(orderId, orderDate, termId, now), orderId);
    }
  }

  /** Scheduling touches only the scheduled order: every other order reads
      back with the term it had. */
  lemma ScheduleDeliveryLocal(orders: map<Guid, OrderState>, terms: seq<DeliveryTerm>, orderId: Guid, orderDate: Day,
                              termId: Guid, now: Day, other: Guid)
    requires ScheduleDelivery(orders, terms, orderId, orderDate, termId, now).Returned?
    requires other != orderId
    ensures var after := ScheduleDelivery(orders, terms, orderId, orderDate, termId, now).value;
            FindOrder(orders, after, other) == FindOrder(orders, terms, other)
  {
    TermForAppend(terms, ScheduledTerm(orderId, orderDate, termId, now), other);
  }

  class OrderCreatedConsumer {
    const context: OrderStore

    constructor (context: OrderStore)
      ensures this.context == context
    {
      this.context := context;
    }

    /** Consume(OrderCreatedEvent), as written: DeliveryTerms.Add, then
        SaveChangesAsync. saveFault is a failure of the save other than a
        violated constraint. No order row changes and nothing is
        published. */
    method Consume(orderId: Guid, orderDate: Day, termId: Guid, now: Day, saveFault: Option<Exception>) returns (r: Outcome<()>)
      requires context.Valid()
      modifies context
      ensures context.Valid() && context.orders == old(context.orders)
      ensures var expected := ScheduleDelivery(old(context.orders), old(context.deliveryTerms), orderId, orderDate, termId, now);
              && (expected.Threw? ==> r == Threw(expected.exception) && context.deliveryTerms == old(context.deliveryTerms))
              && (expected.Returned? ==> r == FromFault(saveFault))
              && (expected.Returned? ==>
                    context.deliveryTerms == if saveFault.None? then expected.value else old(context.deliveryTerms))
    {
      var deliveryTerm := NewDeliveryTerm(termId, orderId, DefaultDeliveryDays, orderDate, now);
      r := context.AddDeliveryTermAsync(deliveryTerm, saveFault);
    }

    /** The corrected worker: an order that already has its term makes the
        delivery a successful no-op. */
    method ConsumeOnce(orderId: Guid, orderDate: Day, termId: Guid, now: Day, saveFault: Option<Exception>) returns (r: Outcome<()>)
      requires context.Valid()
      modifies context
      ensures context.Valid() && context.orders == old(context.orders)
      ensures var expected := ScheduleDeliveryOnce(old(context.orders), old(context.deliveryTerms), orderId, orderDate, termId, now);
              && (expected.Threw? ==> r == Threw(expected.exception) && context.deliveryTerms == old(context.deliveryTerms))
              && (TermFor(old(context.deliveryTerms), orderId).Some? ==>
                    r == Returned(()) && context.deliveryTerms == old(context.deliveryTerms))
              && (TermFor(old(context.deliveryTerms), orderId).None? && expected.Returned? ==>
                    r == FromFault(saveFault) &&
                    context.deliveryTerms == if saveFault.None? then expected.value else old(context.deliveryTerms))
    {
      if TermFor(context.deliveryTerms, orderId).Some? {
        return Returned(());
      }
      r := Consume(orderId, orderDate, termId, now, saveFault);
    }
  }
}
