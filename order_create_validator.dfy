/** OrderCreateValidator: the lighter rule set for an OrderCreateRequest. It
    has no existence checks and no rule on the product name. Rules without
    a custom message report FluentValidation's default English message. */
module RequestValidation {
  import opened Common
  import opened Messaging
  import CreateOrderValidation

  const CustomerIdEmpty := "'Customer Id' must not be empty."
  const PaymentConditionIdEmpty := "'Payment Condition Id' must not be empty."
  const ItemsRequired := "O pedido deve ter itens."
  const QuantityNotPositive := "'Quantity' must be greater than '0'."
  const UnitPriceNotPositive := "'Unit Price' must be greater than '0'."

  /** An item the two child rules accept. */
  predicate ValidItem(item: OrderItemRequest) {
    item.quantity > 0 && item.unitPrice > 0.0
  }

  function ItemErrors(item: OrderItemRequest): (r: seq<string>)
    ensures item.quantity <= 0 <==> QuantityNotPositive in r
    ensures item.unitPrice <= 0.0 <==> UnitPriceNotPositive in r
    ensures r == [] <==> ValidItem(item)
  {
    CreateOrderValidation.Check(item.quantity > 0, QuantityNotPositive)
    + CreateOrderValidation.Check(item.unitPrice > 0.0, UnitPriceNotPositive)
  }

  /** The two child rules on every item. */
  function ItemsErrors(items: seq<OrderItemRequest>): (r: seq<string>)
    ensures r == [] <==> forall k :: 0 <= k < |items| ==> ValidItem(items[k])
  {
    CreateOrderValidation.ForEach(items, ItemErrors)
  }

  /** The accepted requests, stated rule by rule. */
  predicate ValidRequest(req: OrderRequest) {
    && req.customerId != EmptyGuid
    && req.paymentConditionId != EmptyGuid
    && |req.items| > 0
    && forall k :: 0 <= k < |req.items| ==> ValidItem(req.items[k])
  }

  /** The rule set as a list of messages: empty exactly for valid requests;
      empty ids and an empty item list each report their message. */
  function Validate(req: OrderRequest): (r: seq<string>)
    ensures r == [] <==> ValidRequest(req)
    ensures req.customerId == EmptyGuid ==> CustomerIdEmpty in r
    ensures req.paymentConditionId == EmptyGuid ==> PaymentConditionIdEmpty in r
    ensures req.items == [] ==> ItemsRequired in r
  {
    CreateOrderValidation.Check(req.customerId != EmptyGuid, CustomerIdEmpty)
    + CreateOrderValidation.Check(req.paymentConditionId != EmptyGuid, PaymentConditionIdEmpty)
    + CreateOrderValidation.Check(req.items != [], ItemsRequired)
    + ItemsErrors(req.items)
  }

  /** Any item with a price that is not positive, or a quantity that is not
      positive, fails the request wherever it stands in the list. */
  lemma {:induction false} BadItemInvalidates(req: OrderRequest, k: int)
    requires 0 <= k < |req.items| && (req.items[k].quantity <= 0 || req.items[k].unitPrice <= 0.0)
    ensures Validate(req) != []
  {
    assert !ValidItem(req.items[k]);
  }

  /** No name rule: a blank product name with positive quantity and price
      passes, where the command validator would refuse it. */
  lemma BlankNamePasses(customerId: Guid, paymentConditionId: Guid)
    requires customerId != EmptyGuid && paymentConditionId != EmptyGuid
    ensures Validate(OrderRequest(customerId, paymentConditionId, [OrderItemRequest("", 1, 10.0)])) == []
    ensures CreateOrderValidation.ProductNameRequired in CreateOrderValidation.ItemErrors(OrderItemRequest("", 1, 10.0))
  {
  }

  /** Whatever the command validator accepts, this one accepts too. */
  lemma {:induction false} CommandRulesAreStricter(req: OrderRequest, customerExists: Guid -> bool, paymentConditionExists: Guid -> bool)
    requires CreateOrderValidation.Validate(req, customerExists, paymentConditionExists) == []
    ensures Validate(req) == []
  {
    assert CreateOrderValidation.ValidCommand(req, customerExists, paymentConditionExists);
    forall k | 0 <= k < |req.items| ensures ValidItem(req.items[k]) {
      assert CreateOrderValidation.ValidItem(req.items[k]);
    }
  }
}
