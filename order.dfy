/** The Order aggregate: the pricing rule that decides at creation whether an
    order needs manual approval, and its transitions (approve, cancel, attach
    a delivery term, mark processing).

    The pure functions on OrderState are the specification; the class Order
    holds the same fields as mutable state and its methods are proved to
    follow those functions. */
module Orders {
  import opened Common
  import opened OrderItems
  import opened DeliveryTerms

  /** StatusEnum. */
  datatype Status = Processando | Criado | Pago | Cancelado

  /** An order whose total is strictly above this needs manual approval. */
  const ApprovalThreshold: Money := 5000.0

  const TermNotForOrderMessage := "O prazo de entrega não pertence a este pedido."

  /** The values of an Order's fields at one moment. */
  datatype OrderState = OrderState(
    orderId: Guid,
    customerId: Guid,
    paymentConditionId: Guid,
    orderDate: Day,
    totalAmount: Money,
    status: Status,
    requiresManualApproval: bool,
    createdAt: Day,
    items: seq<OrderItem>,
    deliveryTerm: Option<DeliveryTerm>)

  /** items.Sum(x => x.TotalPrice). Lines of non-negative quantity and
      price never give a negative total. */
  function ItemsTotal(items: seq<OrderItem>): (r: Money)
    ensures items == [] ==> r == 0.0
    ensures (forall k :: 0 <= k < |items| ==> items[k].quantity >= 0 && items[k].unitPrice >= 0.0) ==>
              r >= 0.0
  {
    if items == [] then 0.0 else items[0].TotalPrice() + ItemsTotal(items[1..])
  }

  /** The approval flag is set exactly when the order waits in Criado. */
  predicate FlagMatchesStatus(o: OrderState) {
    o.requiresManualApproval <==> o.status == Criado
  }

  /** Everything the aggregate keeps true about itself. */
  predicate Consistent(o: OrderState) {
    FlagMatchesStatus(o) && o.totalAmount == ItemsTotal(o.items)
  }

  /** The two orders differ at most in status and approval flag. */
  predicate SameButStatus(o: OrderState, r: OrderState) {
    r.(status := o.status, requiresManualApproval := o.requiresManualApproval) == o
  }

  /** AtualizaStatusPedido: the pricing rule applied to the current total. */
  function Reprice(o: OrderState): (r: OrderState)
    ensures r.requiresManualApproval <==> o.totalAmount > ApprovalThreshold
    ensures r.status == (if o.totalAmount > ApprovalThreshold then Criado else Pago)
    ensures FlagMatchesStatus(r)
    ensures SameButStatus(o, r)
  {
    if o.totalAmount > ApprovalThreshold then
      o.(status := Criado, requiresManualApproval := true)
    else
      o.(status := Pago, requiresManualApproval := false)
  }

  /** new Order(customerId, paymentConditionId, items), with the GUID and the
      clock given as orderId and now. There is no emptiness check on items. */
  function NewOrder(orderId: Guid, customerId: Guid, paymentConditionId: Guid, items: seq<OrderItem>, now: Day): (o: OrderState)
    ensures o.orderId == orderId && o.customerId == customerId && o.paymentConditionId == paymentConditionId
    ensures o.items == items && o.totalAmount == ItemsTotal(items)
    ensures o.orderDate == now && o.createdAt == now && o.deliveryTerm == None
    ensures o.totalAmount > ApprovalThreshold ==> o.status == Criado && o.requiresManualApproval
    ensures o.totalAmount <= ApprovalThreshold ==> o.status == Pago && !o.requiresManualApproval
    ensures Consistent(o)
  {
    // the status before AtualizaStatusPedido runs is immaterial: it is overwritten
    Reprice(OrderState(orderId, customerId, paymentConditionId, now, ItemsTotal(items),
                       Processando, false, now, items, None))
  }

  /** Aprovar: only an order flagged for approval changes; it becomes Pago
      and loses the flag. */
  function Approve(o: OrderState): (r: OrderState)
    ensures o.requiresManualApproval ==> r.status == Pago
    ensures !o.requiresManualApproval ==> r == o
    ensures !r.requiresManualApproval
    ensures SameButStatus(o, r)
    ensures Consistent(o) ==> Consistent(r)
  {
    if o.requiresManualApproval then o.(status := Pago, requiresManualApproval := false) else o
  }

  /** Cancelar: whatever the prior state, Cancelado without the flag. */
  function Cancel(o: OrderState): (r: OrderState)
    ensures r.status == Cancelado && !r.requiresManualApproval
    ensures SameButStatus(o, r)
    ensures FlagMatchesStatus(r)
    ensures o.totalAmount == ItemsTotal(o.items) ==> Consistent(r)
  {
    o.(status := Cancelado, requiresManualApproval := false)
  }

  /** DefinirPrazoEntrega: a term for another order is refused with
      InvalidOperationException; otherwise only the term changes. */
  function AttachDeliveryTerm(o: OrderState, term: DeliveryTerm): (r: Outcome<OrderState>)
    ensures r.Threw? <==> term.orderId != o.orderId
    ensures r.Threw? ==> r.exception == InvalidOperation(TermNotForOrderMessage)
    ensures r.Returned? ==> r.value.deliveryTerm == Some(term) && r.value.(deliveryTerm := o.deliveryTerm) == o
  {
    if term.orderId != o.orderId then Threw(InvalidOperation(TermNotForOrderMessage))
    else Returned(o.(deliveryTerm := Some(term)))
  }

  /** DefinirStatusProcessando (called by the registration worker, not part
      of Order.cs): the order passes through Processando and the pricing
      rule is applied again, so it ends in Criado or Pago by its total. */
  function MarkProcessing(o: OrderState): (r: OrderState)
    ensures r.status != Processando
    ensures r.requiresManualApproval <==> o.totalAmount > ApprovalThreshold
    ensures SameButStatus(o, r) && FlagMatchesStatus(r)
  {
    Reprice(o.(status := Processando))
  }

  /** Approving twice is approving once; an approved order stays Pago. */
  lemma ApproveIdempotent(o: OrderState)
    ensures Approve(Approve(o)) == Approve(o)
    ensures o.requiresManualApproval ==> Approve(Approve(o)).status == Pago
  {
  }

  /** Marking a freshly created order as processing leaves it exactly as the
      constructor made it: the pricing rule gives the same answer again. */
  lemma MarkProcessingAfterCreate(orderId: Guid, customerId: Guid, paymentConditionId: Guid, items: seq<OrderItem>, now: Day)
    ensures MarkProcessing(NewOrder(orderId, customerId, paymentConditionId, items, now))
         == NewOrder(orderId, customerId, paymentConditionId, items, now)
  {
  }

  /** A total of exactly 5000 is paid at once; 5001 waits for approval; no
      items at all give total 0 and Pago. */
  lemma PricingBoundary(orderId: Guid, customerId: Guid, paymentConditionId: Guid, now: Day)
    ensures var o := NewOrder(orderId, customerId, paymentConditionId, [OrderItem("Produto Padrão", 1, 5000.0)], now);
            o.totalAmount == 5000.0 && o.status == Pago && !o.requiresManualApproval
    ensures var o := NewOrder(orderId, customerId, paymentConditionId, [OrderItem("Produto Premium", 1, 5001.0)], now);
            o.totalAmount == 5001.0 && o.status == Criado && o.requiresManualApproval
    ensures var o := NewOrder(orderId, customerId, paymentConditionId, [], now);
            o.totalAmount == 0.0 && o.status == Pago && !o.requiresManualApproval
  {
    var padrao := [OrderItem("Produto Padrão", 1, 5000.0)];
    assert ItemsTotal(padrao) == 5000.0 by { assert padrao[1..] == []; }
    var premium := [OrderItem("Produto Premium", 1, 5001.0)];
    assert ItemsTotal(premium) == 5001.0 by { assert premium[1..] == []; }
  }

  /** An order built from lines that all have positive quantity and price
      has a positive total; it is never the zero-total order. */
  lemma {:induction false} PositiveLinesPositiveTotal(items: seq<OrderItem>)
    requires items != []
    requires forall k :: 0 <= k < |items| ==> items[k].quantity > 0 && items[k].unitPrice > 0.0
    ensures ItemsTotal(items) > 0.0
  {
    PositiveLineTotal(items[0]);
    if |items| > 1 {
      PositiveLinesPositiveTotal(items[1..]);
    } else {
      assert items[1..] == [];
    }
  }

  /** Summing a concatenation is summing each part. */
  lemma {:induction false} ItemsTotalAppend(a: seq<OrderItem>, b: seq<OrderItem>)
    ensures ItemsTotal(a + b) == ItemsTotal(a) + ItemsTotal(b)
  {
    if a == [] {
      assert a + b == b;
    } else {
      assert (a + b)[1..] == a[1..] + b;
      ItemsTotalAppend(a[1..], b);
    }
  }

  /** Order, with private setters: every change goes through a method. */
  class Order {
    var orderId: Guid
    var customerId: Guid
    var paymentConditionId: Guid
    var orderDate: Day
    var totalAmount: Money
    var status: Status
    var requiresManualApproval: bool
    var createdAt: Day
    var items: seq<OrderItem>
    var deliveryTerm: Option<DeliveryTerm>

    function State(): OrderState
      reads this
    {
      OrderState(orderId, customerId, paymentConditionId, orderDate, totalAmount,
                 status, requiresManualApproval, createdAt, items, deliveryTerm)
    }

    /** Order(customerId, paymentConditionId, items). */
    constructor (orderId: Guid, customerId: Guid, paymentConditionId: Guid, items: seq<OrderItem>, now: Day)
      ensures State() == NewOrder(orderId, customerId, paymentConditionId, items, now)
    {
      this.orderId := orderId;
      this.customerId := customerId;
      this.paymentConditionId := paymentConditionId;
      this.orderDate := now;
      this.createdAt := now;
      this.items := items;
      this.totalAmount := ItemsTotal(items);
      this.status := Processando;
      this.requiresManualApproval := false;
      this.deliveryTerm := None;
      new;
      AtualizaStatusPedido();
    }

    /** The parameterless constructor through which the store rebuilds a
        saved order, all fields set from the row. */
    constructor Load(s: OrderState)
      ensures State() == s
    {
      orderId, customerId, paymentConditionId := s.orderId, s.customerId, s.paymentConditionId;
      orderDate, totalAmount, status := s.orderDate, s.totalAmount, s.status;
      requiresManualApproval, createdAt := s.requiresManualApproval, s.createdAt;
      items, deliveryTerm := s.items, s.deliveryTerm;
    }

    method AtualizaStatusPedido()
      modifies this
      ensures State() == Reprice(old(State()))
    {
      if totalAmount > ApprovalThreshold {
        status := Criado;
        requiresManualApproval := true;
      } else {
        status := Pago;
        requiresManualApproval := false;
      }
    }

    method Aprovar()
      modifies this
      ensures State() == Approve(old(State()))
    {
      if requiresManualApproval {
        status := Pago;
        requiresManualApproval := false;
      }
    }

    method Cancelar()
      modifies this
      ensures State() == Cancel(old(State()))
    {
      status := Cancelado;
      requiresManualApproval := false;
    }

    method DefinirPrazoEntrega(term: DeliveryTerm) returns (r: Outcome<()>)
      modifies this
      ensures AttachDeliveryTerm(old(State()), term).Threw? ==>
                r == Threw(InvalidOperation(TermNotForOrderMessage)) && State() == old(State())
      ensures AttachDeliveryTerm(old(State()), term).Returned? ==>
                r == Returned(()) && State() == AttachDeliveryTerm(old(State()), term).value
    {
      if term.orderId != orderId {
        return Threw(InvalidOperation(TermNotForOrderMessage));
      }
      deliveryTerm := Some(term);
      r := Returned(());
    }

    method DefinirStatusProcessando()
      modifies this
      ensures State() == MarkProcessing(old(State()))
    {
      status := Processando;
      AtualizaStatusPedido();
    }
  }
}
