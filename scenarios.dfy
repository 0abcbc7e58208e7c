/** Concrete runs of the order model: a plain checkout, and the failed
    settlement that shows the difference between the deduction loop as
    written and the all-or-nothing settlement. */
module Scenarios {
  import opened Outcomes
  import opened MenuItems
  import opened Orders

  /** Two plates of Nasi Goreng (25000 each, 50 in stock) paid with 60000:
      subtotal 50000, tax 5000, grand total 55000, so the change is 5000,
      the stock drops to 48 and the order is completed. */
  method CheckoutExample() returns (change: Result<real>, stock: int, completed: bool)
    ensures change == Ok(5000.0) && stock == 48 && completed
  {
    var itemIds := new IdCounter();
    var orderIds := new IdCounter();
    var item := new MenuItem(itemIds, "Nasi Goreng", 25000.0, 50, Food(2));
    var order := new Order(orderIds, 0);
    order.AddItem(item, 2);
    assert order.lines == [Line(item, 2)];
    assert Shortfall(order.lines) == 1;
    assert GrandTotal(order.lines) == 55000.0 by {
      assert Subtotal(order.lines) == 50000.0 by {
        assert order.lines[..0] == [];
      }
    }
    change := order.ProcessPayment(60000.0, "Cash");
    stock := item.stock;
    completed := order.status == Completed;
  }

  /** A cart whose first line (one Pudding, 5 in stock) can be served but
      whose second (two Es Krim, 1 in stock) cannot, paid in full. The
      deduction loop as written reports the shortage only after it has
      taken the Pudding out of stock, and the order stays pending. */
  method PartialDeduction() returns (r: Result<real>, first: int, second: int, pending: bool)
    ensures r == Err(OutOfStock("Es Krim", 1))
    ensures first == 4 && second == 1 && pending
  {
    var order, pudding, esKrim := ShortCart();
    r := order.ProcessPayment(100000.0, "Cash");
    first, second := pudding.stock, esKrim.stock;
    pending := order.status == Pending;
  }

  /** The same cart settled all-or-nothing: the same error, and no stock
      level changes. */
  method AtomicRefusal() returns (r: Result<real>, first: int, second: int, pending: bool)
    ensures r == Err(OutOfStock("Es Krim", 1))
    ensures first == 5 && second == 1 && pending
  {
    var order, pudding, esKrim := ShortCart();
    r := order.SettleAtomically(100000.0, "Cash");
    first, second := pudding.stock, esKrim.stock;
    pending := order.status == Pending;
  }

  /** Builds the cart of the two settlement runs above. */
  method ShortCart() returns (order: Order, pudding: MenuItem, esKrim: MenuItem)
    ensures fresh(order) && fresh(pudding) && fresh(esKrim)
    ensures pudding.name == "Pudding" && pudding.stock == 5
    ensures esKrim.name == "Es Krim" && esKrim.stock == 1
    ensures order.lines == [Line(pudding, 1), Line(esKrim, 2)] && order.status == Pending
    ensures UniqueIds(order.lines)
    ensures Shortfall(order.lines) == 1
    ensures GrandTotal(order.lines) <= 100000.0
  {
    var itemIds := new IdCounter();
    var orderIds := new IdCounter();
    pudding := new MenuItem(itemIds, "Pudding", 10000.0, 5, Dessert(false));
    esKrim := new MenuItem(itemIds, "Es Krim", 12000.0, 1, Dessert(true));
    order := new Order(orderIds, 0);
    order.AddItem(pudding, 1);
    order.AddItem(esKrim, 2);
    assert order.lines == [Line(pudding, 1), Line(esKrim, 2)];
    assert order.lines[1..][1..] == [];
    var head := [Line(pudding, 1)];
    assert order.lines[..1] == head && head[..0] == [];
    assert Subtotal(head) == 10000.0;
    assert Subtotal(order.lines) == 34000.0;
  }
}
