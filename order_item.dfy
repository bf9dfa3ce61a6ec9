/** OrderItem: one line of an order. Its total is derived from the stored
    quantity and unit price, never stored itself. */
module OrderItems {
  import opened Common

  /** The constructor OrderItem(productName, quantity, unitPrice) stores its
      three arguments unchanged; a datatype value has no way to change them. */
  datatype OrderItem = OrderItem(productName: string, quantity: int, unitPrice: Money) {

    /** TotalPrice => Quantity * UnitPrice. */
    function TotalPrice(): (r: Money)
      ensures r == 0.0 <==> quantity == 0 || unitPrice == 0.0
      ensures quantity >= 0 && unitPrice >= 0.0 ==> r >= 0.0
      ensures quantity >= 1 && unitPrice >= 0.0 ==> r >= unitPrice
    {
      (quantity as real) * unitPrice
    }
  }

  /** A line with positive quantity and positive price has a positive total. */
  lemma PositiveLineTotal(item: OrderItem)
    requires item.quantity > 0 && item.unitPrice > 0.0
    ensures item.TotalPrice() > 0.0
    ensures item.TotalPrice() >= item.unitPrice
  {
    var q := item.quantity as real;
    assert q >= 1.0;
    calc {
      item.TotalPrice();
      == q * item.unitPrice;
      == item.unitPrice + (q - 1.0) * item.unitPrice;
    }
    assert (q - 1.0) * item.unitPrice >= 0.0;
  }
}
