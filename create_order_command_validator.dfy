/** CreateOrderCommandValidator: the FluentValidation rules for a
    CreateOrderCommand. The rules run in declaration order and every rule
    runs (the default cascade mode continues after a failure), so the result
    is the list of every broken rule's message, in order. Whether a customer
    or payment condition exists is a predicate given by the caller. */
module CreateOrderValidation {
  import opened Common
  import opened Messaging

  const CustomerRequired := "O cliente é obrigatório."
  const CustomerNotFound := "O cliente informado não existe na base de dados."
  const PaymentConditionRequired := "A condição de pagamento é obrigatória."
  const PaymentConditionNotFound := "A condição de pagamento informada não existe na base de dados."
  const ItemsRequired := "O pedido deve ter pelo menos um item."
  const ProductNameRequired := "O nome do produto é obrigatório."
  const QuantityNotPositive := "A quantidade deve ser maior que zero."
  const UnitPriceNotPositive := "O preço unitário deve ser maior que zero."

  /** char.IsWhiteSpace: the Unicode space separators, the line and
      paragraph separators, and the control characters U+0009 to U+000D
      and U+0085. */
  predicate IsWhiteSpace(c: char) {
    c == ' ' || ('\t' <= c <= '\r') || c == '\U{85}' || c == '\U{A0}' || c == '\U{1680}'
    || ('\U{2000}' <= c <= '\U{200A}') || c == '\U{2028}' || c == '\U{2029}'
    || c == '\U{202F}' || c == '\U{205F}' || c == '\U{3000}'
  }

  /** The string NotEmpty rule fails for the empty string and for one made
      of white space only. */
  predicate IsBlank(s: string) {
    forall k :: 0 <= k < |s| ==> IsWhiteSpace(s[k])
  }

  /** One rule: its message when the condition fails. */
  function Check(ok: bool, message: string): (r: seq<string>)
    ensures r == [] <==> ok
  {
    if ok then [] else [message]
  }

  /** NotEmpty then MustAsync(exists): both are checked, so an empty id
      reports both messages when the empty id does not exist either. */
  function IdErrors(id: Guid, exists_: bool, required: string, notFound: string): (r: seq<string>)
    ensures r == [] <==> id != EmptyGuid && exists_
    ensures id == EmptyGuid ==> required in r
    ensures !exists_ ==> notFound in r
  {
    Check(id != EmptyGuid, required) + Check(exists_, notFound)
  }

  /** The three child rules on one item. */
  function ItemErrors(item: OrderItemRequest): (r: seq<string>)
    ensures |r| <= 3
    ensures IsBlank(item.productName) <==> ProductNameRequired in r
    ensures item.quantity <= 0 <==> QuantityNotPositive in r
    ensures item.unitPrice <= 0.0 <==> UnitPriceNotPositive in r
  {
    Check(!IsBlank(item.productName), ProductNameRequired)
    + Check(item.quantity > 0, QuantityNotPositive)
    + Check(item.unitPrice > 0.0, UnitPriceNotPositive)
  }

  /** An item the child rules accept. */
  predicate ValidItem(item: OrderItemRequest) {
    !IsBlank(item.productName) && item.quantity > 0 && item.unitPrice > 0.0
  }

  /** RuleForEach: a child rule set on every element, element after
      element. Both validators use it on their items. */
  function ForEach<T>(xs: seq<T>, rules: T -> seq<string>): (r: seq<string>)
    ensures r == [] <==> forall k :: 0 <= k < |xs| ==> rules(xs[k]) == []
  {
    if xs == [] then [] else rules(xs[0]) + ForEach(xs[1..], rules)
  }

  /** The errors of a list are the errors of its parts, in order. */
  lemma {:induction false} ForEachAppend<T>(a: seq<T>, b: seq<T>, rules: T -> seq<string>)
    ensures ForEach(a + b, rules) == ForEach(a, rules) + ForEach(b, rules)
  {
    if a == [] {
      assert a + b == b;
    } else {
      assert (a + b)[1..] == a[1..] + b;
      ForEachAppend(a[1..], b, rules);
    }
  }

  /** The child rules on every item. */
  function ItemsErrors(items: seq<OrderItemRequest>): (r: seq<string>)
    ensures r == [] <==> forall k :: 0 <= k < |items| ==> ValidItem(items[k])
  {
    ForEach(items, ItemErrors)
  }

  /** The whole rule set, as the list of error messages: empty exactly for
      the valid commands; an unknown customer and an empty item list each
      report their message. */
  function Validate(cmd: OrderRequest, customerExists: Guid -> bool, paymentConditionExists: Guid -> bool): (r: seq<string>)
    ensures r == [] <==> ValidCommand(cmd, customerExists, paymentConditionExists)
    ensures !customerExists(cmd.customerId) ==> CustomerNotFound in r
    ensures !paymentConditionExists(cmd.paymentConditionId) ==> PaymentConditionNotFound in r
    ensures cmd.items == [] ==> ItemsRequired in r
  {
    IdErrors(cmd.customerId, customerExists(cmd.customerId), CustomerRequired, CustomerNotFound)
    + IdErrors(cmd.paymentConditionId, paymentConditionExists(cmd.paymentConditionId), PaymentConditionRequired, PaymentConditionNotFound)
    + Check(cmd.items != [], ItemsRequired)
    + ItemsErrors(cmd.items)
  }

  /** The accepted commands, stated rule by rule. */
  predicate ValidCommand(cmd: OrderRequest, customerExists: Guid -> bool, paymentConditionExists: Guid -> bool) {
    && cmd.customerId != EmptyGuid && customerExists(cmd.customerId)
    && cmd.paymentConditionId != EmptyGuid && paymentConditionExists(cmd.paymentConditionId)
    && |cmd.items| > 0
    && forall k :: 0 <= k < |cmd.items| ==> ValidItem(cmd.items[k])
  }

  /** The errors of a list of items are the errors of its parts, in order. */
  lemma {:induction false} ItemsErrorsAppend(a: seq<OrderItemRequest>, b: seq<OrderItemRequest>)
    ensures ItemsErrors(a + b) == ItemsErrors(a) + ItemsErrors(b)
  {
    ForEachAppend(a, b, ItemErrors);
  }

  /** One bad item fails the command whatever the items around it are, and
      its own messages are among the command's. */
  lemma BadItemInvalidates(cmd: OrderRequest, before: seq<OrderItemRequest>, bad: OrderItemRequest, after: seq<OrderItemRequest>,
                           customerExists: Guid -> bool, paymentConditionExists: Guid -> bool)
    requires !ValidItem(bad)
    ensures var r := Validate(cmd.(items := before + [bad] + after), customerExists, paymentConditionExists);
            r != [] && forall m :: m in ItemErrors(bad) ==> m in r
  {
    var items := before + [bad] + after;
    ItemsErrorsAppend(before + [bad], after);
    ItemsErrorsAppend(before, [bad]);
    assert ItemsErrors([bad]) == ItemErrors(bad) by {
      assert [bad][1..] == [];
    }
    assert ItemErrors(bad) != [];
  }

  /** An item with an empty name, quantity 0 and a negative price breaks all
      three child rules, so it alone yields three messages. */
  lemma ThreeBrokenRules(cmd: OrderRequest, customerExists: Guid -> bool, paymentConditionExists: Guid -> bool)
    requires ValidCommand(cmd.(items := [OrderItemRequest("x", 1, 1.0)]), customerExists, paymentConditionExists)
    ensures Validate(cmd.(items := [OrderItemRequest("", 0, -10.0)]), customerExists, paymentConditionExists)
         == [ProductNameRequired, QuantityNotPositive, UnitPriceNotPositive]
  {
    var items := [OrderItemRequest("", 0, -10.0)];
    assert items[1..] == [];
    assert ItemsErrors(items) == ItemErrors(items[0]);
  }
}
