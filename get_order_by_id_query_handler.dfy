/** GetOrderByIdQueryHandler: the read path. The order is looked up by its
    id and the current user's id, and either mapped to a response or
    reported as not found. The store's owner filter is a parameter: which
    user may see which order is decided by the repository, whose filtered
    lookup is not part of this model. */
module OrderQueries {
  import opened Common
  import opened DeliveryTerms
  import opened Orders
  import opened Persistence
  import opened Mappings

  const OrderNotFound := "Pedido não encontrado."

  /** GetByIdAsync(id, userId): the order with its items and term, when it
      exists and the owner filter admits the user; null otherwise. */
  function FindOwned(orders: map<Guid, OrderState>, terms: seq<DeliveryTerm>, id: Guid, userId: Option<Guid>,
                     visible: (Guid, Option<Guid>) -> bool): (r: Option<OrderState>)
    ensures r.Some? <==> id in orders && visible(id, userId)
    ensures r.Some? ==> r == FindOrder(orders, terms, id)
  {
    if visible(id, userId) then FindOrder(orders, terms, id) else None
  }

  /** Handle(GetOrderByIdQuery): Failure "Pedido não encontrado." when the
      filtered lookup finds nothing, and then nothing is mapped; otherwise
      Success with the mapped order. The lookup loads the items and the
      term only, so the customer and payment-condition columns are null. */
  function GetOrderById(orders: map<Guid, OrderState>, terms: seq<DeliveryTerm>,
                        orderId: Guid, userId: Option<Guid>, visible: (Guid, Option<Guid>) -> bool): (r: Result<OrderResponse>)
    ensures r.Failure? <==> !(orderId in orders && visible(orderId, userId))
    ensures r.Failure? ==> r.errors == [OrderNotFound]
    ensures r.Success? ==> r.data == MapOrder(FindOrder(orders, terms, orderId).value, None, None)
  {
    match FindOwned(orders, terms, orderId, userId, visible)
    case None => Failure([OrderNotFound])
    case Some(o) => Success(MapOrder(o, None, None))
  }

  /** What a successful query reports is what the store holds for that id:
      the same order id, total, flag and status, and the delivery columns of the
      term stored for the order, if any. */
  lemma QueryReflectsStore(orders: map<Guid, OrderState>, terms: seq<DeliveryTerm>,
                           orderId: Guid, userId: Option<Guid>, visible: (Guid, Option<Guid>) -> bool)
    requires orderId in orders && visible(orderId, userId)
    ensures var r := GetOrderById(orders, terms, orderId, userId, visible);
            && r.Success?
            && r.data.orderId == orders[orderId].orderId
            && r.data.totalAmount == orders[orderId].totalAmount
            && r.data.requiresManualApproval == orders[orderId].requiresManualApproval
            && r.data.status == StatusName(orders[orderId].status)
            && (r.data.deliveryDays.Some? <==> TermFor(terms, orderId).Some?)
            && (TermFor(terms, orderId).Some? ==> r.data.deliveryDays == Some(TermFor(terms, orderId).value.deliveryDays))
            && r.data.customerName.None? && r.data.paymentDescription.None?
  {
    var o := FindOrder(orders, terms, orderId).value;
    assert Row(o) == Row(orders[orderId]);
    assert o.orderId == orders[orderId].orderId;
    assert o.status == orders[orderId].status;
    assert o.totalAmount == orders[orderId].totalAmount;
    assert o.requiresManualApproval == orders[orderId].requiresManualApproval;
  }
}
