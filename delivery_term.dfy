/** DeliveryTerm: the delivery schedule attached to one order. All of its
    fields are fixed by its constructor; there are no mutators. */
module DeliveryTerms {
  import opened Common

  datatype DeliveryTerm = DeliveryTerm(
    deliveryTermId: Guid,
    orderId: Guid,
    estimatedDeliveryDate: Day,
    deliveryDays: int,
    createdAt: Day)

  /** new DeliveryTerm(orderId, deliveryDays, orderDate): the id and the
      creation time come from Guid.NewGuid and the clock, given here as
      termId and now. */
  function NewDeliveryTerm(termId: Guid, orderId: Guid, deliveryDays: int, orderDate: Day, now: Day): (t: DeliveryTerm)
    ensures t.orderId == orderId && t.deliveryDays == deliveryDays
    ensures t.estimatedDeliveryDate - orderDate == deliveryDays
    ensures t.deliveryTermId == termId && t.createdAt == now
  {
    DeliveryTerm(termId, orderId, orderDate + deliveryDays, deliveryDays, now)
  }

  /** For a fixed order date, more delivery days never give an earlier
      estimate, and the estimate is never before the order date when the
      number of days is not negative. */
  lemma EstimateMonotonic(termId: Guid, orderId: Guid, d1: int, d2: int, orderDate: Day, now: Day)
    requires d1 <= d2
    ensures NewDeliveryTerm(termId, orderId, d1, orderDate, now).estimatedDeliveryDate
         <= NewDeliveryTerm(termId, orderId, d2, orderDate, now).estimatedDeliveryDate
    ensures 0 <= d1 ==> orderDate <= NewDeliveryTerm(termId, orderId, d1, orderDate, now).estimatedDeliveryDate
  {
  }
}
