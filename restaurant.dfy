/** The register: the catalogue, the current cart and the ledger of
    completed orders, with the state effects of the cashier's handlers and
    the sales report's aggregates. */
module Restaurant {
  import opened Outcomes
  import opened MenuItems
  import opened Orders
  import opened BestSellers

  // ---------------------------------------------------------------------
  // Aggregates over completed orders
  // ---------------------------------------------------------------------

  /** Total sales: the sum of the orders' grand totals (0 for none). */
  function SalesTotal(orders: seq<Order>): real
    reads orders
  {
    if orders == [] then 0.0
    else SalesTotal(orders[..|orders| - 1]) + GrandTotal(orders[|orders| - 1].lines)
  }

  /** The names on a list of lines. */
  function NamesIn(lines: seq<Line>): set<string>
  {
    if lines == [] then {} else NamesIn(lines[..|lines| - 1]) + {lines[|lines| - 1].item.name}
  }

  /** The names sold in a list of orders. */
  function NamesSold(orders: seq<Order>): set<string>
    reads orders
  {
    if orders == [] then {} else NamesSold(orders[..|orders| - 1]) + NamesIn(orders[|orders| - 1].lines)
  }

  /** The units of `name` on a list of lines. */
  function SoldIn(lines: seq<Line>, name: string): int
  {
    if lines == [] then 0
    else
      var last := lines[|lines| - 1];
      SoldIn(lines[..|lines| - 1], name) + (if last.item.name == name then last.quantity else 0)
  }

  /** The units of `name` sold in a list of orders. */
  function Sold(orders: seq<Order>, name: string): int
    reads orders
  {
    if orders == [] then 0
    else Sold(orders[..|orders| - 1], name) + SoldIn(orders[|orders| - 1].lines, name)
  }

  /** Units sold per name over a list of orders, for every name sold. */
  ghost function SalesCounts(orders: seq<Order>): map<string, int>
    reads orders
  {
    map n | n in NamesSold(orders) :: Sold(orders, n)
  }

  /** A name on no line was sold zero times. */
  lemma {:induction false} SoldInAbsent(lines: seq<Line>, name: string)
    requires name !in NamesIn(lines)
    ensures SoldIn(lines, name) == 0
  {
    if lines != [] {
      SoldInAbsent(lines[..|lines| - 1], name);
    }
  }

  /** A name in no order was sold zero times. */
  lemma {:induction false} SoldAbsent(orders: seq<Order>, name: string)
    requires name !in NamesSold(orders)
    ensures Sold(orders, name) == 0
  {
    if orders != [] {
      SoldAbsent(orders[..|orders| - 1], name);
      SoldInAbsent(orders[|orders| - 1].lines, name);
    }
  }

  /** Every recorded order is completed and has at least one line. */
  ghost predicate Settled(orders: seq<Order>)
    reads orders
  {
    forall i :: 0 <= i < |orders| ==> orders[i].status == Completed && orders[i].lines != []
  }

  /** Counting line `j` of the next order into a map that holds the counts
      of the orders `done` and of the lines before `j` (a missing name
      counting as 0) gives the counts up to and including line `j`. */
  lemma {:induction false} CountLine(sales: map<string, int>, done: seq<Order>, lines: seq<Line>, j: nat)
    requires j < |lines|
    requires sales.Keys == NamesSold(done) + NamesIn(lines[..j])
    requires forall n :: n in sales ==> sales[n] == Sold(done, n) + SoldIn(lines[..j], n)
    ensures var name := lines[j].item.name;
      var counted := sales[name := (if name in sales then sales[name] else 0) + lines[j].quantity];
      counted.Keys == NamesSold(done) + NamesIn(lines[..j + 1]) &&
      forall n :: n in counted ==> counted[n] == Sold(done, n) + SoldIn(lines[..j + 1], n)
  {
    var name := lines[j].item.name;
    assert lines[..j + 1][..j] == lines[..j];
    if name !in sales {
      SoldAbsent(done, name);
      SoldInAbsent(lines[..j], name);
    }
  }

  /** Recording one more order adds its grand total to total sales. */
  lemma {:induction false} SalesTotalAppend(orders: seq<Order>, o: Order)
    ensures SalesTotal(orders + [o]) == SalesTotal(orders) + GrandTotal(o.lines)
  {
    assert (orders + [o])[..|orders|] == orders;
  }

  /** When every order's grand total lies between `lo` and `hi`, so does
      the average order value. */
  lemma {:induction false} AverageWithinBounds(orders: seq<Order>, lo: real, hi: real)
    requires |orders| > 0
    requires forall i :: 0 <= i < |orders| ==> lo <= GrandTotal(orders[i].lines) <= hi
    ensures lo <= SalesTotal(orders) / |orders| as real <= hi
  {
    SalesTotalBounds(orders, lo, hi);
    QuotientBounds(SalesTotal(orders), |orders| as real, lo, hi);
  }

  /** Dividing by a positive count keeps bounds that held times the count. */
  lemma {:induction false} QuotientBounds(total: real, n: real, lo: real, hi: real)
    requires n > 0.0 && lo * n <= total <= hi * n
    ensures lo <= total / n <= hi
  {
  }

  /** Per-order bounds on the grand total bound the total sales by the
      number of orders times those bounds. */
  lemma {:induction false} SalesTotalBounds(orders: seq<Order>, lo: real, hi: real)
    requires forall i :: 0 <= i < |orders| ==> lo <= GrandTotal(orders[i].lines) <= hi
    ensures lo * |orders| as real <= SalesTotal(orders) <= hi * |orders| as real
  {
    if orders != [] {
      var init, last := orders[..|orders| - 1], orders[|orders| - 1];
      assert forall i :: 0 <= i < |init| ==> init[i] == orders[i];
      SalesTotalBounds(init, lo, hi);
      var n := |init| as real;
      assert SalesTotal(orders) == SalesTotal(init) + GrandTotal(last.lines);
      assert lo * (n + 1.0) == lo * n + lo && hi * (n + 1.0) == hi * n + hi;
      assert |orders| as real == n + 1.0;
    }
  }

  // ---------------------------------------------------------------------
  // The register
  // ---------------------------------------------------------------------

  class Register {
    var menu: seq<MenuItem>
    var currentOrder: Order
    var completedOrders: seq<Order>
    /** The process-wide id allocators for items and for orders. */
    const itemIds: IdCounter
    const orderIds: IdCounter

    /** The cart is a pending order with one line per item id, distinct
        from every recorded order; every recorded order is completed and
        has at least one line. */
    ghost predicate Valid()
      reads this, currentOrder, completedOrders
    {
      currentOrder !in completedOrders &&
      UniqueIds(currentOrder.lines) && currentOrder.status == Pending &&
      Settled(completedOrders)
    }

    /** An empty cart (taking the next order id), an empty ledger and the
        seeded catalogue. */
    constructor (itemIds: IdCounter, orderIds: IdCounter, now: int)
      requires itemIds != orderIds
      modifies itemIds, orderIds
      ensures Valid()
      ensures this.itemIds == itemIds && this.orderIds == orderIds
      ensures fresh(currentOrder) && currentOrder.lines == [] && completedOrders == []
      ensures currentOrder.orderId == old(orderIds.next) && orderIds.next == old(orderIds.next) + 1
      ensures |menu| == 12 && itemIds.next == old(itemIds.next) + 12
      ensures IdsFrom(menu, old(itemIds.next))
    {
      this.itemIds := itemIds;
      this.orderIds := orderIds;
      menu := [];
      currentOrder := new Order(orderIds, now);
      completedOrders := [];
      new;
      InitializeMenu();
    }

    /** Seeds the catalogue with the restaurant's twelve items; each takes
        the next item id, so the ids rise one by one from the counter. */
    method InitializeMenu()
      requires menu == []
      modifies this`menu, itemIds
      ensures |menu| == 12 && itemIds.next == old(itemIds.next) + 12
      ensures IdsFrom(menu, old(itemIds.next))
    {
      ghost var start := itemIds.next;
      AddMenuItem(start, "Nasi Goreng", 25000.0, 50, Food(2));
      AddMenuItem(start, "Rendang", 35000.0, 30, Food(3));
      AddMenuItem(start, "Ayam Geprek", 20000.0, 40, Food(5));
      AddMenuItem(start, "Soto Ayam", 18000.0, 35, Food(1));
      AddMenuItem(start, "Mie Goreng", 22000.0, 45, Food(2));
      AddMenuItem(start, "Es Teh Manis", 5000.0, 100, Beverage(false));
      AddMenuItem(start, "Kopi Hitam", 8000.0, 80, Beverage(true));
      AddMenuItem(start, "Jus Alpukat", 15000.0, 40, Beverage(false));
      AddMenuItem(start, "Teh Hangat", 5000.0, 100, Beverage(true));
      AddMenuItem(start, "Es Krim", 12000.0, 50, Dessert(true));
      AddMenuItem(start, "Pudding", 10000.0, 40, Dessert(false));
      AddMenuItem(start, "Pisang Goreng", 8000.0, 60, Dessert(false));
    }

    /** Appends a new item to the catalogue; it takes the next item id, so
        a catalogue whose ids run up from `start` to just below the
        counter keeps that shape. */
    method AddMenuItem(ghost start: int, name: string, price: real, stock: int, kind: Kind)
      requires IdsFrom(menu, start) && itemIds.next == start + |menu|
      modifies this`menu, itemIds
      ensures IdsFrom(menu, start) && itemIds.next == start + |menu|
      ensures |menu| == |old(menu)| + 1 && menu[..|old(menu)|] == old(menu)
      ensures var m := menu[|old(menu)|];
        fresh(m) && m.id == old(itemIds.next) && m.name == name && m.price == price && m.stock == stock && m.kind == kind
    {
      var m := new MenuItem(itemIds, name, price, stock, kind);
      menu := menu + [m];
    }

    /** Adds one unit of `item` to the cart, unless it is out of stock. */
    method AddToCart(item: MenuItem) returns (r: Result<()>)
      requires Valid()
      modifies currentOrder`lines
      ensures Valid()
      ensures item.stock <= 0 ==>
        r == Err(OutOfStock(item.name, item.stock)) && currentOrder.lines == old(currentOrder.lines)
      ensures item.stock > 0 ==>
        r == Ok(()) && currentOrder.lines == AddLine(old(currentOrder.lines), item, 1)
    {
      if item.stock <= 0 {
        return Err(OutOfStock(item.name, item.stock));
      }
      AddLineKeepsUnique(currentOrder.lines, item, 1);
      currentOrder.AddItem(item, 1);
      r := Ok(());
    }

    /** Sets the quantity on cart row `row` to `newQuantity`: refused for a
        row that does not exist, for more than the item's stock, and (by the
        order) for a non-positive quantity; otherwise only that row changes. */
    method UpdateCartQuantity(row: int, newQuantity: int) returns (r: Result<()>)
      requires Valid()
      modifies currentOrder`lines
      ensures Valid()
      ensures r.Err? ==> currentOrder.lines == old(currentOrder.lines)
      ensures !(0 <= row < |currentOrder.lines|) ==> r == Err(NoSuchRow)
      ensures 0 <= row < |old(currentOrder.lines)| ==>
        var l := old(currentOrder.lines)[row];
        (newQuantity > l.item.stock ==> r == Err(OutOfStock(l.item.name, l.item.stock))) &&
        (newQuantity <= l.item.stock && newQuantity <= 0 ==> r == Err(InvalidQuantity)) &&
        (0 < newQuantity <= l.item.stock ==>
          r == Ok(()) && currentOrder.lines == old(currentOrder.lines)[row := Line(l.item, newQuantity)])
    {
      if !(0 <= row < |currentOrder.lines|) {
        return Err(NoSuchRow);
      }
      var l := currentOrder.lines[row];
      if newQuantity > l.item.stock {
        return Err(OutOfStock(l.item.name, l.item.stock));
      }
      RequantifyRow(currentOrder.lines, row, newQuantity);
      RequantifyKeepsUnique(currentOrder.lines, l.item.id, newQuantity);
      r := currentOrder.UpdateQuantity(l.item.id, newQuantity);
    }

    /** Removes the line on the selected cart row; no selection (a negative
        row) does nothing. The other lines keep their order. */
    method RemoveFromCart(row: int) returns (r: Result<()>)
      requires Valid()
      modifies currentOrder`lines
      ensures Valid()
      ensures row < 0 ==> r == Ok(()) && currentOrder.lines == old(currentOrder.lines)
      ensures row >= |old(currentOrder.lines)| ==> r == Err(NoSuchRow) && currentOrder.lines == old(currentOrder.lines)
      ensures 0 <= row < |old(currentOrder.lines)| ==>
        r == Ok(()) && currentOrder.lines == old(currentOrder.lines)[..row] + old(currentOrder.lines)[row + 1..]
    {
      if row < 0 {
        return Ok(());
      }
      if row >= |currentOrder.lines| {
        return Err(NoSuchRow);
      }
      var id := currentOrder.lines[row].item.id;
      WithoutDropsOne(currentOrder.lines, row);
      WithoutKeepsUnique(currentOrder.lines, id);
      currentOrder.RemoveItem(id);
      r := Ok(());
    }

    /** Replaces the cart with a fresh empty order. */
    method ClearCart(now: int)
      requires Valid()
      modifies this`currentOrder, orderIds
      ensures Valid()
      ensures fresh(currentOrder) && currentOrder.lines == [] && currentOrder.status == Pending
      ensures currentOrder.orderId == old(orderIds.next) && orderIds.next == old(orderIds.next) + 1
      ensures completedOrders == old(completedOrders)
    {
      currentOrder := new Order(orderIds, now);
    }

    /** Pays for the cart. An empty cart is refused before anything changes.
        Otherwise the order settles all-or-nothing (`Order.SettleAtomically`,
        the corrected settlement); on success it is recorded in the ledger
        and the cart becomes a fresh empty order, and on any failure the
        ledger, the cart and every stock level stay as they are. */
    method ProcessPayment(amount: real, payMethod: string, now: int) returns (r: Result<real>)
      requires Valid()
      modifies this`currentOrder, this`completedOrders, orderIds
      modifies currentOrder`status, currentOrder`paymentMethod, currentOrder`paymentAmount
      modifies Items(currentOrder.lines)
      ensures Valid()
      ensures old(currentOrder.lines) == [] ==>
        r == Err(EmptyCart) && currentOrder.status == old(currentOrder.status)
      ensures old(currentOrder.lines) != [] && amount < GrandTotal(old(currentOrder.lines)) ==>
        r == Err(InsufficientPayment(GrandTotal(old(currentOrder.lines))))
      ensures r.Err? ==> currentOrder == old(currentOrder) && completedOrders == old(completedOrders)
      ensures r.Err? ==>
        currentOrder.paymentMethod == old(currentOrder.paymentMethod) &&
        currentOrder.paymentAmount == old(currentOrder.paymentAmount) &&
        orderIds.next == old(orderIds.next)
      ensures r.Err? ==>
        forall i :: 0 <= i < |old(currentOrder.lines)| ==>
          var l := old(currentOrder.lines)[i];
          l.item.stock == old(l.item.stock)
      ensures r.Ok? <==>
        old(currentOrder.lines) != [] && amount >= GrandTotal(old(currentOrder.lines)) &&
        old(Shortfall(currentOrder.lines)) == |old(currentOrder.lines)|
      ensures r.Ok? ==>
        var settled := old(currentOrder);
        r.value == amount - GrandTotal(settled.lines) && r.value >= 0.0 &&
        settled.status == Completed && settled.paymentMethod == Some(payMethod) && settled.paymentAmount == amount &&
        completedOrders == old(completedOrders) + [settled] &&
        SalesTotal(completedOrders) == old(SalesTotal(completedOrders)) + GrandTotal(settled.lines) &&
        fresh(currentOrder) && currentOrder.lines == [] && currentOrder.status == Pending
      ensures r.Ok? ==>
        currentOrder.orderId == old(orderIds.next) && orderIds.next == old(orderIds.next) + 1
      ensures r.Ok? ==>
        forall i :: 0 <= i < |old(currentOrder.lines)| ==>
          var l := old(currentOrder.lines)[i];
          l.item.stock == old(l.item.stock) - l.quantity
    {
      if currentOrder.lines == [] {
        return Err(EmptyCart);
      }
      var settled := currentOrder;
      r := settled.SettleAtomically(amount, payMethod);
      if r.Ok? {
        RecordSale(now);
      }
    }

    /** Moves the paid cart into the ledger and opens a fresh empty cart. */
    method RecordSale(now: int)
      requires currentOrder !in completedOrders && Settled(completedOrders)
      requires currentOrder.status == Completed && currentOrder.lines != []
      modifies this`currentOrder, this`completedOrders, orderIds
      ensures Valid()
      ensures completedOrders == old(completedOrders) + [old(currentOrder)]
      ensures SalesTotal(completedOrders) == old(SalesTotal(completedOrders)) + GrandTotal(old(currentOrder).lines)
      ensures fresh(currentOrder) && currentOrder.lines == [] && currentOrder.status == Pending
      ensures currentOrder.orderId == old(orderIds.next) && orderIds.next == old(orderIds.next) + 1
    {
      SalesTotalAppend(completedOrders, currentOrder);
      completedOrders := completedOrders + [currentOrder];
      currentOrder := new Order(orderIds, now);
    }

    /** The restock handler: adds `quantity` (unchecked, possibly negative)
        to the first catalogue item with id `id`; reports whether one was
        found. No other item changes. */
    method Restock(id: int, quantity: int) returns (found: bool)
      modifies menu
      ensures found <==> exists i :: 0 <= i < |menu| && menu[i].id == id
      ensures found ==>
        var k := FirstWithId(menu, id);
        menu[k].stock == old(menu[k].stock) + quantity &&
        forall j :: 0 <= j < |menu| && menu[j] != menu[k] ==> menu[j].stock == old(menu[j].stock)
      ensures !found ==> forall j :: 0 <= j < |menu| ==> menu[j].stock == old(menu[j].stock)
    {
      var i := 0;
      while i < |menu|
        invariant i <= |menu|
        invariant forall j :: 0 <= j < i ==> menu[j].id != id
      {
        if menu[i].id == id {
          menu[i].AddStock(quantity);
          return true;
        }
        i := i + 1;
      }
      found := false;
    }

    /** Total sales, accumulated order by order. */
    method GetTotalSales() returns (total: real)
      ensures total == SalesTotal(completedOrders)
    {
      total := 0.0;
      var i := 0;
      while i < |completedOrders|
        invariant i <= |completedOrders|
        invariant total == SalesTotal(completedOrders[..i])
      {
        assert completedOrders[..i + 1][..i] == completedOrders[..i];
        var grand := completedOrders[i].GetGrandTotal();
        total := total + grand;
        i := i + 1;
      }
      assert completedOrders[..i] == completedOrders;
    }

    /** The average order value: 0 with no completed orders, otherwise total
        sales divided by the number of orders. */
    method GetAverageOrder() returns (average: real)
      ensures completedOrders == [] ==> average == 0.0
      ensures completedOrders != [] ==> average * |completedOrders| as real == SalesTotal(completedOrders)
    {
      if completedOrders == [] {
        return 0.0;
      }
      var total := GetTotalSales();
      average := total / |completedOrders| as real;
    }

    /** The per-name sales counts: for every name on a line of a completed
        order, the sum of the quantities of those lines. */
    method CountSales() returns (sales: map<string, int>)
      ensures sales.Keys == NamesSold(completedOrders)
      ensures forall n :: n in sales ==> sales[n] == Sold(completedOrders, n)
    {
      sales := map[];
      var i := 0;
      while i < |completedOrders|
        invariant i <= |completedOrders|
        invariant sales.Keys == NamesSold(completedOrders[..i])
        invariant forall n :: n in sales ==> sales[n] == Sold(completedOrders[..i], n)
      {
        assert completedOrders[..i + 1][..i] == completedOrders[..i];
        sales := CountLines(sales, completedOrders[..i], completedOrders[i].lines);
        i := i + 1;
      }
      assert completedOrders[..i] == completedOrders;
    }

    /** The best-seller report: the names with the most units sold, highest
        first, at most five of them; a single "no sales data" row when
        nothing has been sold. */
    method UpdateBestSellers() returns (report: seq<ReportRow>)
      ensures var counts := SalesCounts(completedOrders);
        counts.Keys == {} ==> report == [NoSalesData]
      ensures var counts := SalesCounts(completedOrders);
        counts.Keys != {} ==>
        1 <= |report| <= ReportLimit &&
        (forall i :: 0 <= i < |report| ==>
          report[i].Seller? && report[i].name in counts && report[i].sold == counts[report[i].name]) &&
        (forall i, j :: 0 <= i < j < |report| ==> report[i].sold >= report[j].sold) &&
        (forall i, j :: 0 <= i < j < |report| ==> report[i].name != report[j].name) &&
        (forall n :: n in counts && Seller(n, counts[n]) !in report ==>
          |report| == ReportLimit && forall i :: 0 <= i < |report| ==> report[i].sold >= counts[n])
    {
      var sales := CountSales();
      assert sales == SalesCounts(completedOrders);
      var entries := Entries(sales);
      report := Report(entries);
      ReportRanks(sales, entries);
    }
  }

  /** The inner loop of the count: adds the units of each line to its
      name's count, a missing name counting as 0. */
  method CountLines(sales: map<string, int>, ghost done: seq<Order>, lines: seq<Line>)
    returns (counted: map<string, int>)
    requires sales.Keys == NamesSold(done)
    requires forall n :: n in sales ==> sales[n] == Sold(done, n)
    ensures counted.Keys == NamesSold(done) + NamesIn(lines)
    ensures forall n :: n in counted ==> counted[n] == Sold(done, n) + SoldIn(lines, n)
  {
    counted := sales;
    var j := 0;
    assert lines[..0] == [];
    while j < |lines|
      invariant j <= |lines|
      invariant counted.Keys == NamesSold(done) + NamesIn(lines[..j])
      invariant forall n :: n in counted ==> counted[n] == Sold(done, n) + SoldIn(lines[..j], n)
    {
      var name := lines[j].item.name;
      CountLine(counted, done, lines, j);
      counted := counted[name := (if name in counted then counted[name] else 0) + lines[j].quantity];
      j := j + 1;
    }
    assert lines[..j] == lines;
  }

  /** Item ids that run consecutively upward from `start`. */
  ghost predicate IdsFrom(items: seq<MenuItem>, start: int)
  {
    forall i :: 0 <= i < |items| ==> items[i].id == start + i
  }

  /** The index of the first item with id `id`, or |items| if none. */
  function FirstWithId(items: seq<MenuItem>, id: int): (k: nat)
    ensures k <= |items|
    ensures k < |items| ==> items[k].id == id
    ensures forall i :: 0 <= i < k ==> items[i].id != id
  {
    if items == [] then 0
    else if items[0].id == id then 0
    else 1 + FirstWithId(items[1..], id)
  }
}
