/** MappingProfile: the AutoMapper rules, written out as functions. An Order
    becomes an OrderResponse (status by name, delivery columns from the
    optional term, items one to one), a RegisterOrderCommand becomes an Order
    through the Order constructor, and an OrderItemRequest becomes an
    OrderItem through the OrderItem constructor. */
module Mappings {
  import opened Common
  import opened OrderItems
  import opened DeliveryTerms
  import opened Orders
  import opened Messaging

  /** The reference rows an order points to, as far as the response uses them. */
  datatype Customer = Customer(customerId: Guid, name: string, email: string)
  datatype PaymentCondition = PaymentCondition(paymentConditionId: Guid, description: string, numberOfInstallments: int)

  datatype OrderItemResponse = OrderItemResponse(productName: string, quantity: int, unitPrice: Money, totalPrice: Money)

  /** The destination members the profile fills. A member whose source is a
      navigation that is not loaded is null, here None. */
  datatype OrderResponse = OrderResponse(
    orderId: Guid,
    totalAmount: Money,
    status: string,
    requiresManualApproval: bool,
    estimatedDeliveryDate: Option<Day>,
    deliveryDays: Option<int>,
    items: seq<OrderItemResponse>,
    customerName: Option<string>,
    paymentDescription: Option<string>,
    numberOfInstallments: Option<int>)

  /** StatusEnum.ToString(): the member's name. */
  function StatusName(s: Status): (r: string)
    ensures r != []
    ensures r == "Criado" <==> s == Criado
    ensures r == "Pago" <==> s == Pago
  {
    match s
    case Processando => "Processando"
    case Criado => "Criado"
    case Pago => "Pago"
    case Cancelado => "Cancelado"
  }

  /** The status names are distinct, so a response's status string tells
      which status the order was in. */
  lemma StatusNameInjective(a: Status, b: Status)
    ensures StatusName(a) == StatusName(b) <==> a == b
  {
  }

  /** OrderItem -> OrderItemResponse, by member name. */
  function MapItem(item: OrderItem): (r: OrderItemResponse)
    ensures r.productName == item.productName && r.quantity == item.quantity && r.unitPrice == item.unitPrice
    ensures r.totalPrice == item.TotalPrice()
  {
    OrderItemResponse(item.productName, item.quantity, item.unitPrice, item.TotalPrice())
  }

  /** The Items member: each item mapped, in order. */
  function MapItems(items: seq<OrderItem>): (r: seq<OrderItemResponse>)
    ensures |r| == |items|
    ensures forall k :: 0 <= k < |items| ==> r[k] == MapItem(items[k])
  {
    seq(|items|, k requires 0 <= k < |items| => MapItem(items[k]))
  }

  /** Order -> OrderResponse. The delivery columns are null exactly when the
      order has no term; the customer and payment columns are null exactly
      when that navigation is not loaded. */
  function MapOrder(o: OrderState, customer: Option<Customer>, payment: Option<PaymentCondition>): (r: OrderResponse)
    ensures r.orderId == o.orderId && r.totalAmount == o.totalAmount
    ensures r.requiresManualApproval == o.requiresManualApproval
    ensures r.status == StatusName(o.status)
    ensures r.deliveryDays.None? <==> o.deliveryTerm.None?
    ensures r.estimatedDeliveryDate.None? <==> o.deliveryTerm.None?
    ensures o.deliveryTerm.Some? ==>
              r.deliveryDays == Some(o.deliveryTerm.value.deliveryDays) &&
              r.estimatedDeliveryDate == Some(o.deliveryTerm.value.estimatedDeliveryDate)
    ensures |r.items| == |o.items| && forall k :: 0 <= k < |o.items| ==> r.items[k] == MapItem(o.items[k])
    ensures r.customerName.Some? <==> customer.Some?
    ensures customer.Some? ==> r.customerName == Some(customer.value.name)
    ensures r.paymentDescription.Some? <==> payment.Some?
    ensures r.numberOfInstallments.Some? <==> payment.Some?
    ensures payment.Some? ==>
              r.paymentDescription == Some(payment.value.description) &&
              r.numberOfInstallments == Some(payment.value.numberOfInstallments)
  {
    OrderResponse(
      o.orderId, o.totalAmount, StatusName(o.status), o.requiresManualApproval,
      if o.deliveryTerm.Some? then Some(o.deliveryTerm.value.estimatedDeliveryDate) else None,
      if o.deliveryTerm.Some? then Some(o.deliveryTerm.value.deliveryDays) else None,
      MapItems(o.items),
      if customer.Some? then Some(customer.value.name) else None,
      if payment.Some? then Some(payment.value.description) else None,
      if payment.Some? then Some(payment.value.numberOfInstallments) else None)
  }

  /** The sum of the line totals a response shows. */
  function ResponseItemsTotal(items: seq<OrderItemResponse>): Money {
    if items == [] then 0.0 else items[0].totalPrice + ResponseItemsTotal(items[1..])
  }

  lemma {:induction false} MapItemsTotal(items: seq<OrderItem>)
    ensures ResponseItemsTotal(MapItems(items)) == ItemsTotal(items)
  {
    if items != [] {
      assert MapItems(items)[1..] == MapItems(items[1..]);
      MapItemsTotal(items[1..]);
    }
  }

  /** For an order whose total is the sum of its lines, the response's total
      is the sum of the line totals it shows, and its status string and flag
      agree: the flag is set exactly when the status is "Criado". */
  lemma ResponseConsistent(o: OrderState, customer: Option<Customer>, payment: Option<PaymentCondition>)
    requires Consistent(o)
    ensures var r := MapOrder(o, customer, payment);
            r.totalAmount == ResponseItemsTotal(r.items)
            && (r.requiresManualApproval <==> r.status == "Criado")
  {
    MapItemsTotal(o.items);
    StatusNameInjective(o.status, Criado);
  }

  /** OrderItemRequest -> OrderItem, through new OrderItem(name, quantity, price). */
  function MapItemRequest(req: OrderItemRequest): (item: OrderItem)
    ensures item.productName == req.productName && item.quantity == req.quantity && item.unitPrice == req.unitPrice
  {
    OrderItem(req.productName, req.quantity, req.unitPrice)
  }

  /** List<OrderItemRequest> -> List<OrderItem>, element by element. */
  function MapItemRequests(reqs: seq<OrderItemRequest>): (items: seq<OrderItem>)
    ensures |items| == |reqs|
    ensures forall k :: 0 <= k < |reqs| ==> items[k] == MapItemRequest(reqs[k])
  {
    seq(|reqs|, k requires 0 <= k < |reqs| => MapItemRequest(reqs[k]))
  }

  /** The amount requested: the sum of quantity times unit price. */
  function RequestedTotal(reqs: seq<OrderItemRequest>): Money {
    if reqs == [] then 0.0 else (reqs[0].quantity as real) * reqs[0].unitPrice + RequestedTotal(reqs[1..])
  }

  lemma {:induction false} MapItemRequestsTotal(reqs: seq<OrderItemRequest>)
    ensures ItemsTotal(MapItemRequests(reqs)) == RequestedTotal(reqs)
  {
    if reqs != [] {
      var items := MapItemRequests(reqs);
      assert items[1..] == MapItemRequests(reqs[1..]);
      MapItemRequestsTotal(reqs[1..]);
      assert items[0].TotalPrice() == (reqs[0].quantity as real) * reqs[0].unitPrice;
      assert ItemsTotal(items) == items[0].TotalPrice() + ItemsTotal(items[1..]);
    }
  }

  /** RegisterOrderCommand -> Order, through the Order constructor; the
      constructor's GUID and clock are given as orderId and now. */
  function MapRegisterOrder(cmd: OrderRequest, orderId: Guid, now: Day): (o: OrderState)
    ensures o.orderId == orderId && o.customerId == cmd.customerId && o.paymentConditionId == cmd.paymentConditionId
    ensures o.items == MapItemRequests(cmd.items) && o.orderDate == now && o.deliveryTerm == None
    ensures Consistent(o)
  {
    NewOrder(orderId, cmd.customerId, cmd.paymentConditionId, MapItemRequests(cmd.items), now)
  }

  /** The mapped order is priced by what was requested: above 5000 it waits
      in Criado with the flag, otherwise it is Pago without it. */
  lemma RegisterOrderPricing(cmd: OrderRequest, orderId: Guid, now: Day)
    ensures var o := MapRegisterOrder(cmd, orderId, now);
            && o.totalAmount == RequestedTotal(cmd.items)
            && (RequestedTotal(cmd.items) > ApprovalThreshold ==> o.status == Criado && o.requiresManualApproval)
            && (RequestedTotal(cmd.items) <= ApprovalThreshold ==> o.status == Pago && !o.requiresManualApproval)
  {
    MapItemRequestsTotal(cmd.items);
  }
}
