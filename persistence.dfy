/** The order store behind IOrderRepository and the DeliveryTerms set of the
    context: order rows keyed by id, and the delivery-term table, whose
    unique index on OrderId admits at most one term per order. Reading an
    order joins its term, as the repository's Include does. */
module Persistence {
  import opened Common
  import opened DeliveryTerms
  import opened Orders
  import opened OrderItems

  const OrderKeyTaken := "PK_Orders"
  const OrderRowMissing := "Orders: no row to update"
  const TermOrderMissing := "FK_DeliveryTerms_Orders_OrderId"
  const TermOrderTaken := "IX_DeliveryTerms_OrderId"
  const TermKeyTaken := "PK_DeliveryTerms"
  const OrderCustomerMissing := "FK_Orders_Customers_CustomerId"
  const OrderPaymentMissing := "FK_Orders_PaymentConditions_PaymentConditionId"
  const ProductNameTooLong := "String or binary data would be truncated in table 'OrderItems', column 'ProductName'."

  /** The length of the OrderItems.ProductName column, nvarchar(150). */
  const ProductNameMaxLength := 150

  /** The term stored for an order, if any. */
  function TermFor(terms: seq<DeliveryTerm>, orderId: Guid): (r: Option<DeliveryTerm>)
    ensures r.Some? ==> r.value in terms && r.value.orderId == orderId
    ensures r.None? <==> forall k :: 0 <= k < |terms| ==> terms[k].orderId != orderId
  {
    if terms == [] then None
    else if terms[0].orderId == orderId then Some(terms[0])
    else TermFor(terms[1..], orderId)
  }

  /** What the unique index on DeliveryTerms.OrderId keeps. */
  predicate OneTermPerOrder(terms: seq<DeliveryTerm>) {
    forall i, j :: 0 <= i < j < |terms| ==> terms[i].orderId != terms[j].orderId
  }

  /** What the primary key of DeliveryTerms keeps. */
  predicate DistinctTermIds(terms: seq<DeliveryTerm>) {
    forall i, j :: 0 <= i < j < |terms| ==> terms[i].deliveryTermId != terms[j].deliveryTermId
  }

  /** The order columns and items, without the joined term. */
  function Row(o: OrderState): OrderState {
    o.(deliveryTerm := None)
  }

  /** GetByIdAsync: the row with its items and its term. */
  function FindOrder(orders: map<Guid, OrderState>, terms: seq<DeliveryTerm>, id: Guid): (r: Option<OrderState>)
    ensures r.Some? <==> id in orders
    ensures r.Some? ==> Row(r.value) == Row(orders[id]) && r.value.deliveryTerm == TermFor(terms, id)
  {
    if id in orders then Some(orders[id].(deliveryTerm := TermFor(terms, id))) else None
  }

  /** Appending a term for one order leaves every other order's term as it
      was and gives that order the new term, when it had none. */
  lemma {:induction false} TermForAppend(terms: seq<DeliveryTerm>, t: DeliveryTerm, id: Guid)
    ensures id != t.orderId ==> TermFor(terms + [t], id) == TermFor(terms, id)
    ensures id == t.orderId && TermFor(terms, id).None? ==> TermFor(terms + [t], id) == Some(t)
  {
    if terms == [] {
      assert [t][1..] == [];
    } else {
      assert (terms + [t])[1..] == terms[1..] + [t];
      TermForAppend(terms[1..], t, id);
    }
  }

  /** The required foreign keys of an order row, to Customers and to
      PaymentConditions: the constraint a row violates, if any. */
  function ForeignKeyFailure(customers: set<Guid>, paymentConditions: set<Guid>, o: OrderState): (r: Option<Exception>)
    ensures r.None? <==> o.customerId in customers && o.paymentConditionId in paymentConditions
    ensures o.customerId !in customers ==> r == Some(DbUpdate(OrderCustomerMissing))
    ensures o.customerId in customers && o.paymentConditionId !in paymentConditions ==> r == Some(DbUpdate(OrderPaymentMissing))
  {
    if o.customerId !in customers then Some(DbUpdate(OrderCustomerMissing))
    else if o.paymentConditionId !in paymentConditions then Some(DbUpdate(OrderPaymentMissing))
    else None
  }

  /** Every line's product name fits its column. */
  predicate NamesFit(items: seq<OrderItem>) {
    forall k :: 0 <= k < |items| ==> |items[k].productName| <= ProductNameMaxLength
  }

  /** The column limit on the order's lines: a product name longer than
      the column fails the save. */
  function ColumnFailure(o: OrderState): (r: Option<Exception>)
    ensures r.None? <==> NamesFit(o.items)
    ensures r.Some? ==> r == Some(DbUpdate(ProductNameTooLong))
  {
    if exists k :: 0 <= k < |o.items| && |o.items[k].productName| > ProductNameMaxLength then Some(DbUpdate(ProductNameTooLong))
    else None
  }

  /** What the save of an inserted order row violates, if anything: the
      primary key, then the two foreign keys, then the column limit of its
      lines. (The database reports one violated constraint; which one, when
      several are, is not modelled.) */
  function InsertFailure(orders: map<Guid, OrderState>, customers: set<Guid>, paymentConditions: set<Guid>,
                         o: OrderState): (r: Option<Exception>)
    ensures r.None? <==>
              o.orderId !in orders && o.customerId in customers && o.paymentConditionId in paymentConditions && NamesFit(o.items)
    ensures o.orderId in orders ==> r == Some(DbUpdate(OrderKeyTaken))
    ensures o.orderId !in orders && ForeignKeyFailure(customers, paymentConditions, o).None? && !NamesFit(o.items) ==>
              r == Some(DbUpdate(ProductNameTooLong))
    ensures r.Some? ==> r.value.DbUpdate?
  {
    if o.orderId in orders then Some(DbUpdate(OrderKeyTaken))
    else if ForeignKeyFailure(customers, paymentConditions, o).Some? then ForeignKeyFailure(customers, paymentConditions, o)
    else ColumnFailure(o)
  }

  /** What the save of an updated order row violates, if anything: a row
      that is not there, then the two foreign keys, then the column limit. */
  function UpdateFailure(orders: map<Guid, OrderState>, customers: set<Guid>, paymentConditions: set<Guid>,
                         o: OrderState): (r: Option<Exception>)
    ensures r.None? <==>
              o.orderId in orders && o.customerId in customers && o.paymentConditionId in paymentConditions && NamesFit(o.items)
    ensures o.orderId !in orders ==> r == Some(DbUpdate(OrderRowMissing))
    ensures r.Some? ==> r.value.DbUpdate?
  {
    if o.orderId !in orders then Some(DbUpdate(OrderRowMissing))
    else if ForeignKeyFailure(customers, paymentConditions, o).Some? then ForeignKeyFailure(customers, paymentConditions, o)
    else ColumnFailure(o)
  }

  /** What the save of an inserted delivery term violates, if anything: the
      foreign key to its order, the unique index on OrderId, then the
      primary key. */
  function TermInsertFailure(orders: map<Guid, OrderState>, terms: seq<DeliveryTerm>, t: DeliveryTerm): (r: Option<Exception>)
    ensures r.None? <==>
              t.orderId in orders && TermFor(terms, t.orderId).None? &&
              forall k :: 0 <= k < |terms| ==> terms[k].deliveryTermId != t.deliveryTermId
    ensures r.Some? ==> r.value.DbUpdate?
    ensures t.orderId !in orders ==> r == Some(DbUpdate(TermOrderMissing))
    ensures t.orderId in orders && TermFor(terms, t.orderId).Some? ==> r == Some(DbUpdate(TermOrderTaken))
  {
    if t.orderId !in orders then Some(DbUpdate(TermOrderMissing))
    else if TermFor(terms, t.orderId).Some? then Some(DbUpdate(TermOrderTaken))
    else if exists k :: 0 <= k < |terms| && terms[k].deliveryTermId == t.deliveryTermId then Some(DbUpdate(TermKeyTaken))
    else None
  }

  class OrderStore {
    var orders: map<Guid, OrderState>
    var deliveryTerms: seq<DeliveryTerm>
    /** The keys of the Customers and PaymentConditions tables, which the
        modelled code only reads. */
    const customers: set<Guid>
    const paymentConditions: set<Guid>

    ghost predicate Valid()
      reads this
    {
      && (forall id :: id in orders ==> orders[id].orderId == id && orders[id].deliveryTerm == None)
      && (forall id :: id in orders ==>
            orders[id].customerId in customers && orders[id].paymentConditionId in paymentConditions &&
            NamesFit(orders[id].items))
      && OneTermPerOrder(deliveryTerms)
      && DistinctTermIds(deliveryTerms)
      && (forall k :: 0 <= k < |deliveryTerms| ==> deliveryTerms[k].orderId in orders)
    }

    constructor (customers: set<Guid>, paymentConditions: set<Guid>)
      ensures Valid() && orders == map[] && deliveryTerms == []
      ensures this.customers == customers && this.paymentConditions == paymentConditions
    {
      orders := map[];
      deliveryTerms := [];
      this.customers := customers;
      this.paymentConditions := paymentConditions;
    }

    function Find(id: Guid): Option<OrderState>
      reads this
    {
      FindOrder(orders, deliveryTerms, id)
    }

    /** GetByIdAsync(id): a tracked Order loaded from the row, or null. */
    method GetByIdAsync(id: Guid) returns (r: Option<Order>)
      ensures r.Some? <==> id in orders
      ensures r.Some? ==> fresh(r.value) && r.value.State() == Find(id).value
    {
      if id in orders {
        var o := new Order.Load(Find(id).value);
        r := Some(o);
      } else {
        r := None;
      }
    }

    /** AddAsync(order): insert and save. A taken key, a customer or
        payment condition that is not stored, or a product name too long for
        its column fails the save; so does the store itself, when fault is
        given. A failed save stores nothing. */
    method AddAsync(o: Order, fault: Option<Exception>) returns (r: Outcome<()>)
      requires Valid()
      modifies this
      ensures Valid()
      ensures var failure := InsertFailure(old(orders), customers, paymentConditions, old(o.State()));
              && (failure.Some? ==> r == Threw(failure.value))
              && (failure.None? ==> r == FromFault(fault))
      ensures r.Threw? ==> orders == old(orders)
      ensures r.Returned? ==> orders == old(orders)[o.orderId := Row(o.State())]
      ensures deliveryTerms == old(deliveryTerms)
    {
      var failure := InsertFailure(orders, customers, paymentConditions, o.State());
      if failure.Some? {
        return Threw(failure.value);
      }
      if fault.Some? {
        return Threw(fault.value);
      }
      orders := orders[o.orderId := Row(o.State())];
      r := Returned(());
    }

    /** UpdateAsync(order): overwrite the row and save. A row that is not
        there, a customer or payment condition that is not stored, or a
        product name too long for its column fails the save; so does the
        store itself, when fault is given. A failed save writes nothing. */
    method UpdateAsync(o: Order, fault: Option<Exception>) returns (r: Outcome<()>)
      requires Valid()
      modifies this
      ensures Valid()
      ensures var failure := UpdateFailure(old(orders), customers, paymentConditions, old(o.State()));
              && (failure.Some? ==> r == Threw(failure.value))
              && (failure.None? ==> r == FromFault(fault))
      ensures r.Threw? ==> orders == old(orders)
      ensures r.Returned? ==> orders == old(orders)[o.orderId := Row(o.State())]
      ensures deliveryTerms == old(deliveryTerms)
    {
      var failure := UpdateFailure(orders, customers, paymentConditions, o.State());
      if failure.Some? {
        return Threw(failure.value);
      }
      if fault.Some? {
        return Threw(fault.value);
      }
      orders := orders[o.orderId := Row(o.State())];
      r := Returned(());
    }

    /** DeliveryTerms.Add(term) followed by SaveChangesAsync: the save fails
        when the order does not exist, when the order already has a term, or
        when the term's key is taken; otherwise it fails when it meets the
        given fault. */
    method AddDeliveryTermAsync(t: DeliveryTerm, fault: Option<Exception>) returns (r: Outcome<()>)
      requires Valid()
      modifies this
      ensures Valid()
      ensures orders == old(orders)
      ensures var failure := TermInsertFailure(old(orders), old(deliveryTerms), t);
              && (failure.Some? ==> r == Threw(failure.value))
              && (failure.None? ==> r == FromFault(fault))
      ensures r.Threw? ==> deliveryTerms == old(deliveryTerms)
      ensures r.Returned? ==> deliveryTerms == old(deliveryTerms) + [t]
      ensures r.Returned? ==> Find(t.orderId) == Some(old(Find(t.orderId)).value.(deliveryTerm := Some(t)))
      ensures forall id :: id != t.orderId ==> Find(id) == old(Find(id))
    {
      var failure := TermInsertFailure(orders, deliveryTerms, t);
      if failure.Some? {
        return Threw(failure.value);
      }
      if fault.Some? {
        return Threw(fault.value);
      }
      forall id | true
        ensures id != t.orderId ==> TermFor(deliveryTerms + [t], id) == TermFor(deliveryTerms, id)
        ensures id == t.orderId ==> TermFor(deliveryTerms + [t], id) == Some(t)
      {
        TermForAppend(deliveryTerms, t, id);
      }
      deliveryTerms := deliveryTerms + [t];
      r := Returned(());
    }
  }

  /** In a valid store each order has at most one term, so the term an order
      is read with is the only one stored for it. */
  lemma {:induction false} TermUnique(terms: seq<DeliveryTerm>, id: Guid, k: int)
    requires OneTermPerOrder(terms)
    requires 0 <= k < |terms| && terms[k].orderId == id
    ensures TermFor(terms, id) == Some(terms[k])
  {
    if terms[0].orderId != id {
      TermUnique(terms[1..], id, k - 1);
    }
  }
}
