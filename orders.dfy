/** The order (cart): an ordered list of lines, each a shared catalogue item
    and a quantity, with at most one line per item id; derived totals; and
    payment settlement, which deducts stock and completes the order. */
module Orders {
  import opened Outcomes
  import opened MenuItems

  /** One cart line. The item is shared with the catalogue, not owned. */
  datatype Line = Line(item: MenuItem, quantity: int)

  /** An order starts out "Pending" and becomes "Completed" when paid. */
  datatype Status = Pending | Completed

  /** The flat tax rate, 10%. */
  const TaxRate: real := 0.10

  /** A line's subtotal, recomputed on each read. */
  function LineSubtotal(l: Line): real
  {
    l.item.price * l.quantity as real
  }

  /** A line of no units costs nothing; with a non-negative price, a line
      costs at least its price per unit it holds, and never less than 0. */
  lemma LineSubtotalBounds(l: Line)
    ensures l.quantity == 0 ==> LineSubtotal(l) == 0.0
    ensures 0.0 <= l.item.price && 0 <= l.quantity ==> 0.0 <= LineSubtotal(l)
    ensures 0.0 <= l.item.price && 1 <= l.quantity ==> l.item.price <= LineSubtotal(l)
  {
  }

  /** The order invariant: no two lines share an item id. */
  ghost predicate UniqueIds(lines: seq<Line>)
  {
    forall i, j :: 0 <= i < j < |lines| ==> lines[i].item.id != lines[j].item.id
  }

  /** Distinct ids make the lines' items distinct objects. */
  lemma {:induction false} DistinctItems(lines: seq<Line>)
    requires UniqueIds(lines)
    ensures forall i, j :: 0 <= i < j < |lines| ==> lines[i].item != lines[j].item
  {
  }

  /** The items the lines refer to: what settlement may change. */
  ghost function Items(lines: seq<Line>): set<MenuItem>
  {
    set l | l in lines :: l.item
  }

  // ---------------------------------------------------------------------
  // The line-list operations, as functions of the old list
  // ---------------------------------------------------------------------

  /** The index of the first line for item `id`, or |lines| if none. */
  function Find(lines: seq<Line>, id: int): (k: nat)
    ensures k <= |lines|
    ensures k < |lines| ==> lines[k].item.id == id
    ensures forall i :: 0 <= i < k ==> lines[i].item.id != id
  {
    if lines == [] then 0
    else if lines[0].item.id == id then 0
    else 1 + Find(lines[1..], id)
  }

  /** Adding an item: merge into its line if there is one, else append. */
  function AddLine(lines: seq<Line>, item: MenuItem, quantity: int): seq<Line>
  {
    var k := Find(lines, item.id);
    if k < |lines| then lines[k := Line(lines[k].item, lines[k].quantity + quantity)]
    else lines + [Line(item, quantity)]
  }

  /** Removing every line for item `id`, keeping the others in order. */
  function Without(lines: seq<Line>, id: int): (r: seq<Line>)
    ensures forall i :: 0 <= i < |r| ==> r[i] in lines && r[i].item.id != id
    ensures forall i :: 0 <= i < |lines| && lines[i].item.id != id ==> lines[i] in r
    ensures |r| <= |lines|
  {
    if lines == [] then []
    else if lines[0].item.id == id then Without(lines[1..], id)
    else [lines[0]] + Without(lines[1..], id)
  }

  /** Setting the quantity of the first line for item `id`, if any. */
  function Requantify(lines: seq<Line>, id: int, quantity: int): seq<Line>
  {
    var k := Find(lines, id);
    if k < |lines| then lines[k := Line(lines[k].item, quantity)] else lines
  }

  /** The sum of the line subtotals (0 for no lines). */
  function Subtotal(lines: seq<Line>): real
  {
    if lines == [] then 0.0
    else Subtotal(lines[..|lines| - 1]) + LineSubtotal(lines[|lines| - 1])
  }

  function Tax(lines: seq<Line>): real
  {
    Subtotal(lines) * TaxRate
  }

  function GrandTotal(lines: seq<Line>): real
  {
    Subtotal(lines) + Tax(lines)
  }

  /** The first line whose quantity exceeds its item's stock, or |lines|:
      where a line-by-line deduction stops. */
  ghost function Shortfall(lines: seq<Line>): (k: nat)
    reads Items(lines)
    ensures k <= |lines|
    ensures k < |lines| ==> lines[k].quantity > lines[k].item.stock
    ensures forall i :: 0 <= i < k ==> lines[i].quantity <= lines[i].item.stock
  {
    if lines == [] then 0
    else if lines[0].quantity > lines[0].item.stock then 0
    else
      assert Items(lines[1..]) <= Items(lines) by {
        forall l | l in lines[1..] ensures l in lines { }
      }
      1 + Shortfall(lines[1..])
  }

  // ---------------------------------------------------------------------
  // Lemmas about the line-list operations
  // ---------------------------------------------------------------------

  /** With unique ids, the line for an id is the one Find returns. */
  lemma {:induction false} FindUnique(lines: seq<Line>, k: nat)
    requires UniqueIds(lines) && k < |lines|
    ensures Find(lines, lines[k].item.id) == k
  {
  }

  /** Re-adding an item that has a line adds to that line only: same
      length, same item, the other lines and their order untouched. */
  lemma {:induction false} AddLineMerges(lines: seq<Line>, item: MenuItem, quantity: int, k: nat)
    requires UniqueIds(lines) && k < |lines| && lines[k].item.id == item.id
    ensures var r := AddLine(lines, item, quantity);
      |r| == |lines| &&
      r[k] == Line(lines[k].item, lines[k].quantity + quantity) &&
      forall i :: 0 <= i < |lines| && i != k ==> r[i] == lines[i]
  {
    FindUnique(lines, k);
  }

  /** Adding an item with no line appends exactly one line at the end. */
  lemma {:induction false} AddLineAppends(lines: seq<Line>, item: MenuItem, quantity: int)
    requires forall i :: 0 <= i < |lines| ==> lines[i].item.id != item.id
    ensures AddLine(lines, item, quantity) == lines + [Line(item, quantity)]
  {
  }

  /** Adding keeps at most one line per item id. */
  lemma {:induction false} AddLineKeepsUnique(lines: seq<Line>, item: MenuItem, quantity: int)
    requires UniqueIds(lines)
    ensures UniqueIds(AddLine(lines, item, quantity))
  {
  }

  /** Adding the same item twice gives one line with the summed quantity. */
  lemma {:induction false} AddTwiceMerges(lines: seq<Line>, item: MenuItem, q1: int, q2: int)
    requires UniqueIds(lines)
    requires forall i :: 0 <= i < |lines| ==> lines[i].item.id != item.id
    ensures AddLine(AddLine(lines, item, q1), item, q2) == lines + [Line(item, q1 + q2)]
  {
    var once := AddLine(lines, item, q1);
    AddLineAppends(lines, item, q1);
    AddLineKeepsUnique(lines, item, q1);
    AddLineMerges(once, item, q2, |lines|);
  }

  /** Removing an id that has no line changes nothing. */
  lemma {:induction false} WithoutAbsent(lines: seq<Line>, id: int)
    requires forall i :: 0 <= i < |lines| ==> lines[i].item.id != id
    ensures Without(lines, id) == lines
  {
    if lines != [] {
      WithoutAbsent(lines[1..], id);
    }
  }

  /** With unique ids, removing an id that has a line drops exactly that
      line and keeps the rest in their original order. */
  lemma {:induction false} WithoutDropsOne(lines: seq<Line>, k: nat)
    requires UniqueIds(lines) && k < |lines|
    ensures Without(lines, lines[k].item.id) == lines[..k] + lines[k + 1..]
  {
    var id := lines[k].item.id;
    if k == 0 {
      WithoutAbsent(lines[1..], id);
    } else {
      WithoutDropsOne(lines[1..], k - 1);
      assert lines[1..][k - 1].item.id == id;
      assert lines[..k] == [lines[0]] + lines[1..][..k - 1];
      assert lines[k + 1..] == lines[1..][k..];
    }
  }

  /** Removing keeps at most one line per item id. */
  lemma {:induction false} WithoutKeepsUnique(lines: seq<Line>, id: int)
    requires UniqueIds(lines)
    ensures UniqueIds(Without(lines, id))
  {
    if lines != [] {
      WithoutKeepsUnique(lines[1..], id);
      var rest := Without(lines[1..], id);
      if lines[0].item.id != id {
        forall i | 0 <= i < |rest| ensures rest[i].item.id != lines[0].item.id {
          assert rest[i] in lines[1..];
        }
      }
    }
  }

  /** Updating a quantity keeps every line's item and position; only the
      first line for `id` gets the new quantity. */
  lemma {:induction false} RequantifyKeepsItems(lines: seq<Line>, id: int, quantity: int)
    ensures var r := Requantify(lines, id, quantity);
      |r| == |lines| &&
      (forall i :: 0 <= i < |lines| ==> r[i].item == lines[i].item) &&
      (forall i :: 0 <= i < |lines| && lines[i].item.id != id ==> r[i] == lines[i]) &&
      (forall i :: 0 <= i < |lines| && lines[i].item.id == id ==> r[i].quantity == quantity || i > Find(lines, id))
  {
  }

  /** Updating a quantity keeps at most one line per item id. */
  lemma {:induction false} RequantifyKeepsUnique(lines: seq<Line>, id: int, quantity: int)
    requires UniqueIds(lines)
    ensures UniqueIds(Requantify(lines, id, quantity))
  {
    RequantifyKeepsItems(lines, id, quantity);
  }

  /** With unique ids, updating the quantity of the item on row k sets
      exactly that row. */
  lemma {:induction false} RequantifyRow(lines: seq<Line>, k: nat, quantity: int)
    requires UniqueIds(lines) && k < |lines|
    ensures Requantify(lines, lines[k].item.id, quantity) == lines[k := Line(lines[k].item, quantity)]
  {
    FindUnique(lines, k);
  }

  /** The subtotal of a concatenation is the sum of the subtotals. */
  lemma {:induction false} SubtotalConcat(a: seq<Line>, b: seq<Line>)
    ensures Subtotal(a + b) == Subtotal(a) + Subtotal(b)
  {
    if b == [] {
      assert a + b == a;
    } else {
      SubtotalConcat(a, b[..|b| - 1]);
      assert (a + b)[..|a + b| - 1] == a + b[..|b| - 1];
      assert (a + b)[|a + b| - 1] == b[|b| - 1];
    }
  }

  /** Replacing one line changes the subtotal by the difference of the two
      line subtotals. */
  lemma {:induction false} SubtotalReplace(lines: seq<Line>, k: nat, l: Line)
    requires k < |lines|
    ensures Subtotal(lines[k := l]) == Subtotal(lines) - LineSubtotal(lines[k]) + LineSubtotal(l)
  {
    assert lines == lines[..k] + [lines[k]] + lines[k + 1..];
    assert lines[k := l] == lines[..k] + [l] + lines[k + 1..];
    SubtotalConcat(lines[..k] + [lines[k]], lines[k + 1..]);
    SubtotalConcat(lines[..k] + [l], lines[k + 1..]);
    SubtotalConcat(lines[..k], [lines[k]]);
    SubtotalConcat(lines[..k], [l]);
  }

  /** The item whose price an addition is charged at: the one already on
      the item's line, if there is one (lines keep their first item). */
  function ChargedItem(lines: seq<Line>, item: MenuItem): MenuItem
  {
    var k := Find(lines, item.id);
    if k < |lines| then lines[k].item else item
  }

  /** Adding `quantity` of an item raises the subtotal by the price of the
      line's item times `quantity`. */
  lemma {:induction false} SubtotalAddLine(lines: seq<Line>, item: MenuItem, quantity: int)
    ensures Subtotal(AddLine(lines, item, quantity)) == Subtotal(lines) + LineSubtotal(Line(ChargedItem(lines, item), quantity))
  {
    var k := Find(lines, item.id);
    if k < |lines| {
      var l := Line(lines[k].item, lines[k].quantity + quantity);
      SubtotalReplace(lines, k, l);
      MergedLineSubtotal(lines[k], quantity);
    } else {
      SubtotalConcat(lines, [Line(item, quantity)]);
      assert [Line(item, quantity)][..0] == [];
    }
  }

  /** Merging `quantity` into a line adds `quantity` units at its price. */
  lemma {:induction false} MergedLineSubtotal(l: Line, quantity: int)
    ensures LineSubtotal(Line(l.item, l.quantity + quantity)) == LineSubtotal(l) + LineSubtotal(Line(l.item, quantity))
  {
    var p := l.item.price;
    assert (l.quantity + quantity) as real == l.quantity as real + quantity as real;
    assert p * (l.quantity as real + quantity as real) == p * l.quantity as real + p * quantity as real;
  }

  /** Removing an item's line lowers the subtotal by that line's subtotal. */
  lemma {:induction false} SubtotalWithout(lines: seq<Line>, k: nat)
    requires UniqueIds(lines) && k < |lines|
    ensures Subtotal(Without(lines, lines[k].item.id)) == Subtotal(lines) - LineSubtotal(lines[k])
  {
    var before, x, after := lines[..k], lines[k], lines[k + 1..];
    WithoutDropsOne(lines, k);
    assert lines == (before + [x]) + after;
    SubtotalConcat(before + [x], after);
    SubtotalConcat(before, [x]);
    assert Subtotal([x]) == LineSubtotal(x) by {
      assert [x][..0] == [];
    }
    SubtotalConcat(before, after);
  }

  /** Non-negative prices and quantities give a non-negative subtotal, tax
      and grand total, with the grand total at least the subtotal. */
  lemma {:induction false} TotalsNonnegative(lines: seq<Line>)
    requires forall i :: 0 <= i < |lines| ==> lines[i].item.price >= 0.0 && lines[i].quantity >= 0
    ensures 0.0 <= Subtotal(lines) <= GrandTotal(lines)
    ensures Tax(lines) >= 0.0
  {
    if lines != [] {
      TotalsNonnegative(lines[..|lines| - 1]);
    }
  }

  // ---------------------------------------------------------------------
  // The order object
  // ---------------------------------------------------------------------

  class Order {
    const orderId: int
    const timestamp: int
    var lines: seq<Line>
    var status: Status
    var paymentMethod: Option<string>
    var paymentAmount: real

    /** A new, empty, pending order whose id is the counter's current value;
        the counter advances. The clock reading is passed in. */
    constructor (ids: IdCounter, now: int)
      modifies ids
      ensures orderId == old(ids.next) && ids.next == old(ids.next) + 1
      ensures timestamp == now
      ensures lines == [] && status == Pending
      ensures paymentMethod == None && paymentAmount == 0.0
    {
      orderId := ids.next;
      timestamp := now;
      lines := [];
      status := Pending;
      paymentMethod := None;
      paymentAmount := 0.0;
      ids.next := ids.next + 1;
    }

    /** Merges `quantity` into the item's line, or appends a new line. */
    method AddItem(item: MenuItem, quantity: int)
      modifies this`lines
      ensures lines == AddLine(old(lines), item, quantity)
    {
      var i := 0;
      while i < |lines|
        invariant i <= |lines| && lines == old(lines)
        invariant forall j :: 0 <= j < i ==> lines[j].item.id != item.id
      {
        if lines[i].item.id == item.id {
          lines := lines[i := Line(lines[i].item, lines[i].quantity + quantity)];
          return;
        }
        i := i + 1;
      }
      lines := lines + [Line(item, quantity)];
    }

    /** Removes every line for item `id`. */
    method RemoveItem(id: int)
      modifies this`lines
      ensures lines == Without(old(lines), id)
    {
      lines := Without(lines, id);
    }

    /** Sets the quantity of the item's line; a non-positive quantity is
        refused, and an id with no line is ignored. */
    method UpdateQuantity(id: int, newQuantity: int) returns (r: Result<()>)
      modifies this`lines
      ensures newQuantity <= 0 ==> r == Err(InvalidQuantity) && lines == old(lines)
      ensures newQuantity > 0 ==> r == Ok(()) && lines == Requantify(old(lines), id, newQuantity)
    {
      if newQuantity <= 0 {
        return Err(InvalidQuantity);
      }
      r := Ok(());
      var i := 0;
      while i < |lines|
        invariant i <= |lines| && lines == old(lines)
        invariant forall j :: 0 <= j < i ==> lines[j].item.id != id
      {
        if lines[i].item.id == id {
          lines := lines[i := Line(lines[i].item, newQuantity)];
          return;
        }
        i := i + 1;
      }
    }

    /** The subtotal, accumulated line by line. */
    method GetTotal() returns (total: real)
      ensures total == Subtotal(lines)
    {
      total := 0.0;
      var i := 0;
      while i < |lines|
        invariant i <= |lines|
        invariant total == Subtotal(lines[..i])
      {
        assert lines[..i + 1][..i] == lines[..i];
        total := total + LineSubtotal(lines[i]);
        i := i + 1;
      }
      assert lines[..i] == lines;
    }

    /** Tax: 10% of the subtotal. */
    method GetTax() returns (tax: real)
      ensures tax == Subtotal(lines) * 0.10
    {
      var total := GetTotal();
      tax := total * TaxRate;
    }

    /** Grand total: subtotal plus tax. */
    method GetGrandTotal() returns (grand: real)
      ensures grand == Subtotal(lines) + Tax(lines)
    {
      var total := GetTotal();
      var tax := GetTax();
      grand := total + tax;
    }

    /** Settles the order as the source does: refuses underpayment, then
        deducts stock line by line. If a line's quantity exceeds its stock,
        the lines before it stay deducted, the rest are untouched and the
        order fields keep their values; otherwise the order is completed
        and the change is returned. */
    method ProcessPayment(amount: real, payMethod: string) returns (r: Result<real>)
      requires UniqueIds(lines)
      modifies this`status, this`paymentMethod, this`paymentAmount, Items(lines)
      ensures amount < GrandTotal(lines) ==>
        r == Err(InsufficientPayment(GrandTotal(lines))) &&
        (forall i :: 0 <= i < |lines| ==> lines[i].item.stock == old(lines[i].item.stock)) &&
        status == old(status) && paymentMethod == old(paymentMethod) && paymentAmount == old(paymentAmount)
      ensures amount >= GrandTotal(lines) ==>
        forall i :: 0 <= i < old(Shortfall(lines)) ==>
          lines[i].item.stock == old(lines[i].item.stock) - lines[i].quantity
      ensures amount >= GrandTotal(lines) ==>
        forall i :: old(Shortfall(lines)) <= i < |lines| ==> lines[i].item.stock == old(lines[i].item.stock)
      ensures amount >= GrandTotal(lines) && old(Shortfall(lines)) == |lines| ==>
        r == Ok(amount - GrandTotal(lines)) &&
        status == Completed && paymentMethod == Some(payMethod) && paymentAmount == amount
      ensures amount >= GrandTotal(lines) && old(Shortfall(lines)) < |lines| ==>
        var k := old(Shortfall(lines));
        r == Err(OutOfStock(lines[k].item.name, old(lines[k].item.stock))) &&
        status == old(status) && paymentMethod == old(paymentMethod) && paymentAmount == old(paymentAmount)
      ensures r.Ok? ==> r.value >= 0.0
    {
      var total := GetGrandTotal();
      assert total == GrandTotal(lines);
      if amount < total {
        return Err(InsufficientPayment(total));
      }
      ghost var k := Shortfall(lines);
      var reduced := DeductStock(lines);
      assert lines == old(lines) && total == GrandTotal(lines);
      if reduced.Err? {
        assert k < |lines|;
        return Err(reduced.error);
      }
      assert k == |lines|;
      status := Completed;
      paymentMethod := Some(payMethod);
      paymentAmount := amount;
      r := Ok(amount - total);
    }

    /** Settlement with every line's stock checked before any is deducted:
        it either completes the order and deducts every line, or fails with
        no stock and no order field changed. */
    method SettleAtomically(amount: real, payMethod: string) returns (r: Result<real>)
      requires UniqueIds(lines)
      modifies this`status, this`paymentMethod, this`paymentAmount, Items(lines)
      ensures r.Err? ==>
        (forall i :: 0 <= i < |lines| ==> lines[i].item.stock == old(lines[i].item.stock)) &&
        status == old(status) && paymentMethod == old(paymentMethod) && paymentAmount == old(paymentAmount)
      ensures r.Ok? <==> amount >= GrandTotal(lines) && old(Shortfall(lines)) == |lines|
      ensures amount < GrandTotal(lines) ==> r == Err(InsufficientPayment(GrandTotal(lines)))
      ensures amount >= GrandTotal(lines) && old(Shortfall(lines)) < |lines| ==>
        var k := old(Shortfall(lines));
        r == Err(OutOfStock(lines[k].item.name, lines[k].item.stock))
      ensures r.Ok? ==>
        r.value == amount - GrandTotal(lines) && r.value >= 0.0 &&
        (forall i :: 0 <= i < |lines| ==> lines[i].item.stock == old(lines[i].item.stock) - lines[i].quantity) &&
        status == Completed && paymentMethod == Some(payMethod) && paymentAmount == amount
    {
      var total := GetGrandTotal();
      assert total == GrandTotal(lines);
      if amount < total {
        return Err(InsufficientPayment(total));
      }
      var checked := CheckStock(lines);
      if checked.Err? {
        return Err(checked.error);
      }
      var reduced := DeductStock(lines);
      status := Completed;
      paymentMethod := Some(payMethod);
      paymentAmount := amount;
      r := Ok(amount - total);
    }
  }

  /** The stock check of atomic settlement: finds the first line whose
      quantity exceeds its item's stock, changing nothing. */
  method CheckStock(lines: seq<Line>) returns (r: Result<()>)
    ensures Shortfall(lines) == |lines| ==> r == Ok(())
    ensures Shortfall(lines) < |lines| ==>
      r == Err(OutOfStock(lines[Shortfall(lines)].item.name, lines[Shortfall(lines)].item.stock))
  {
    ghost var k := Shortfall(lines);
    var i := 0;
    while i < |lines|
      invariant i <= |lines| && i <= k
    {
      if lines[i].quantity > lines[i].item.stock {
        assert i == k;
        return Err(OutOfStock(lines[i].item.name, lines[i].item.stock));
      }
      i := i + 1;
    }
    r := Ok(());
  }

  /** The deduction loop of settlement: reduces each line's item stock in
      order, stopping at the first line whose quantity exceeds its stock.
      The lines before that one are deducted and the rest are untouched. */
  method DeductStock(lines: seq<Line>) returns (r: Result<()>)
    requires UniqueIds(lines)
    modifies Items(lines)
    ensures forall i :: 0 <= i < old(Shortfall(lines)) ==>
      lines[i].item.stock == old(lines[i].item.stock) - lines[i].quantity
    ensures forall i :: old(Shortfall(lines)) <= i < |lines| ==> lines[i].item.stock == old(lines[i].item.stock)
    ensures old(Shortfall(lines)) == |lines| ==> r == Ok(())
    ensures old(Shortfall(lines)) < |lines| ==>
      r == Err(OutOfStock(lines[old(Shortfall(lines))].item.name, old(lines[Shortfall(lines)].item.stock)))
  {
    ghost var k := Shortfall(lines);
    DistinctItems(lines);
    var i := 0;
    while i < |lines|
      invariant i <= |lines| && i <= k
      invariant forall j :: 0 <= j < i ==> lines[j].item.stock == old(lines[j].item.stock) - lines[j].quantity
      invariant forall j :: i <= j < |lines| ==> lines[j].item.stock == old(lines[j].item.stock)
    {
      var item := lines[i].item;
      assert item in Items(lines) by { assert lines[i] in lines; }
      var reduced := item.ReduceStock(lines[i].quantity);
      if reduced.Err? {
        assert k == i;
        return Err(reduced.error);
      }
      i := i + 1;
    }
    r := Ok(());
  }
}
