/** One product category's assortment: the `Product` class, which implements the
    `Assortment` interface, in Project/Program.cs. */
module Inventory {

  /** What `TakeDelivery` ends with: the delivery report is written, or the
      dictionary's duplicate-key exception escapes to the caller. */
  datatype DeliveryOutcome = Recorded | DuplicateKey

  class Assortment {
    /** The category name (`productName` in the source). */
    var categoryName: string
    /** Item name -> price; a dictionary, so every name occurs at most once. */
    var items: map<string, int>

    constructor (categoryName: string)
      ensures this.categoryName == categoryName && items == map[]
    {
      this.categoryName := categoryName;
      items := map[];
    }

    /** Inserts `item` when it is new; a name already present is reported and left alone.
        `inserted` tells which of the two messages is printed. */
    method AddItem(item: string, price: int) returns (inserted: bool)
      modifies this`items
      ensures inserted <==> item !in old(items)
      ensures items == if inserted then old(items)[item := price] else old(items)
    {
      inserted := item !in items;
      if inserted {
        items := items[item := price];
      }
    }

    /** Removes `item` if present; `removed` tells which message is printed. */
    method DelItem(item: string) returns (removed: bool)
      modifies this`items
      ensures removed <==> item in old(items)
      ensures items == old(items) - {item}
    {
      removed := item in items;
      items := items - {item};
    }

    /** Adds `quantity` units of `productName` one `Add` at a time. A dictionary holds a
        key once, so the first unit is added when the name is new and the next `Add`
        (or the first, when the name was already there) throws; the entries added
        before the throw stay. */
    method TakeDelivery(productName: string, quantity: int, priceOf: int) returns (outcome: DeliveryOutcome)
      modifies this`items
      ensures outcome == DuplicateKey <==> quantity >= 1 && (productName in old(items) || quantity >= 2)
      ensures items == if quantity >= 1 && productName !in old(items)
                       then old(items)[productName := priceOf]
                       else old(items)
    {
      var i := 0;
      while i < quantity
        invariant 0 <= i <= 1 && (i <= quantity || i == 0)
        invariant items == if i == 0 then old(items) else old(items)[productName := priceOf]
        invariant i == 1 ==> productName !in old(items)
      {
        if productName in items {
          return DuplicateKey;
        }
        items := items[productName := priceOf];
        i := i + 1;
      }
      outcome := Recorded;
    }
  }

  /** `delItem` undoes `addItem` of a new name, and undoes a one-unit delivery of a new name. */
  method AddThenDelete(product: Assortment, item: string, price: int)
    requires item !in product.items
    modifies product`items
    ensures product.items == old(product.items)
  {
    var inserted := product.AddItem(item, price);
    assert inserted && item in product.items;
    var removed := product.DelItem(item);
    assert removed;
    var outcome := product.TakeDelivery(item, 1, price);
    assert outcome == Recorded && item in product.items;
    removed := product.DelItem(item);
  }

  /** The five assortments' item maps in the order checkout and the reports visit them. */
  function Shelves(p1: Assortment, p2: Assortment, p3: Assortment, p4: Assortment, p5: Assortment): (s: seq<map<string, int>>)
    reads p1`items, p2`items, p3`items, p4`items, p5`items
    ensures |s| == 5
  {
    [p1.items, p2.items, p3.items, p4.items, p5.items]
  }
}
