/** The request records and the messages exchanged over the event bus, and
    the bus itself seen as the sequence of messages published on it. */
module Messaging {
  import opened Common

  /** OrderItemRequest(ProductName, Quantity, UnitPrice). */
  datatype OrderItemRequest = OrderItemRequest(productName: string, quantity: int, unitPrice: Money)

  /** The shape shared by CreateOrderCommand, OrderCreateRequest and
      RegisterOrderCommand: a customer, a payment condition and the lines. */
  datatype OrderRequest = OrderRequest(customerId: Guid, paymentConditionId: Guid, items: seq<OrderItemRequest>)

  /** The title both workers put on their OrderProcessedEvent. */
  const SuccessTitle := "Sucesso"

  datatype Message =
    | RegisterOrderCommand(request: OrderRequest)
    | OrderCreatedEvent(orderId: Guid, orderDate: Day)
    | OrderProcessedEvent(id: Guid, customerId: Guid, title: string, message: string)
    | ProcessOrderApprovalCommand(orderId: Guid)

  /** IEventBus / IPublishEndpoint. Delivery to consumers is not part of
      the bus: a published message is appended and stays there. */
  class MessageBus {
    var published: seq<Message>

    constructor ()
      ensures published == []
    {
      published := [];
    }

    method Publish(m: Message)
      modifies this
      ensures published == old(published) + [m]
    {
      published := published + [m];
    }
  }
}
