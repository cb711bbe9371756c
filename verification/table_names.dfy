/** The lower-case names of the six entity tables, each checked to be made
    of letters, digits and `_` only. The Silver file names and the Bronze
    Load patterns are built from them. */
module TableNames {
  import opened Labels

  lemma WordCustomers()
    ensures WordFrom("customers", 0)
  {
    assert WordFrom("customers", 8);
    assert WordFrom("customers", 4);
  }

  lemma WordProducts()
    ensures WordFrom("products", 0)
  {
    assert WordFrom("products", 4);
  }

  lemma WordOrders()
    ensures WordFrom("orders", 0)
  {
    assert WordFrom("orders", 4);
  }

  lemma WordOrderItems()
    ensures WordFrom("order_items", 0)
  {
    assert WordFrom("order_items", 8);
    assert WordFrom("order_items", 4);
  }

  lemma WordPayments()
    ensures WordFrom("payments", 0)
  {
    assert WordFrom("payments", 4);
  }

  lemma WordShipments()
    ensures WordFrom("shipments", 0)
  {
    assert WordFrom("shipments", 8);
    assert WordFrom("shipments", 4);
  }
}
