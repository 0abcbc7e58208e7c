/** A sellable catalogue item: identity fields fixed at construction and a
    stock level that is the only thing that changes afterwards. */
module MenuItems {
  import opened Outcomes

  /** The three kinds of item, each with the one attribute its kind adds. */
  datatype Kind =
    | Food(spicyLevel: int)
    | Beverage(isHot: bool)
    | Dessert(hasIceCream: bool)

  /** The category tag each kind's constructor passes up to the common item. */
  function CategoryName(k: Kind): (c: string)
    ensures k.Food? <==> c == "Food"
    ensures k.Beverage? <==> c == "Beverage"
    ensures k.Dessert? <==> c == "Dessert"
  {
    match k
    case Food(_) => "Food"
    case Beverage(_) => "Beverage"
    case Dessert(_) => "Dessert"
  }

  /** An id allocator: the process-wide counter that hands out ids, starting
      at 1 and advancing by one per allocation. */
  class IdCounter {
    var next: int

    constructor ()
      ensures next == 1
    {
      next := 1;
    }
  }

  class MenuItem {
    // Identity: `const`, so no operation can change them after construction.
    const id: int
    const name: string
    const price: real
    const kind: Kind
    // The only mutable state.
    var stock: int

    /** Takes the allocator's current value as the id and advances it. */
    constructor (ids: IdCounter, name: string, price: real, stock: int, kind: Kind)
      modifies ids
      ensures id == old(ids.next) && ids.next == old(ids.next) + 1
      ensures this.name == name && this.price == price && this.kind == kind
      ensures this.stock == stock
    {
      id := ids.next;
      this.name := name;
      this.price := price;
      this.stock := stock;
      this.kind := kind;
      ids.next := ids.next + 1;
    }

    /** The category string reported for this item. */
    function Category(): (c: string)
      ensures c == "Food" <==> kind.Food?
      ensures c == "Beverage" <==> kind.Beverage?
      ensures c == "Dessert" <==> kind.Dessert?
    {
      CategoryName(kind)
    }

    /** Replaces the stock level; a negative level is refused. */
    method SetStock(newStock: int) returns (r: Result<()>)
      modifies this
      ensures newStock < 0 ==> r == Err(InvalidQuantity) && stock == old(stock)
      ensures newStock >= 0 ==> r == Ok(()) && stock == newStock
    {
      if newStock < 0 {
        return Err(InvalidQuantity);
      }
      stock := newStock;
      r := Ok(());
    }

    /** Takes `quantity` out of stock; taking more than is there is refused. */
    method ReduceStock(quantity: int) returns (r: Result<()>)
      modifies this
      ensures quantity > old(stock) ==> r == Err(OutOfStock(name, old(stock))) && stock == old(stock)
      ensures quantity <= old(stock) ==> r == Ok(()) && stock == old(stock) - quantity
      ensures 0 <= quantity <= old(stock) ==> 0 <= stock <= old(stock)
    {
      if quantity > stock {
        return Err(OutOfStock(name, stock));
      }
      stock := stock - quantity;
      r := Ok(());
    }

    /** Adds `quantity` to stock without any check, so a negative quantity
        lowers the stock and can take it below zero. */
    method AddStock(quantity: int)
      modifies this
      ensures stock == old(stock) + quantity
      ensures quantity < 0 ==> stock < old(stock)
    {
      stock := stock + quantity;
    }
  }
}
