/** The `ShoppingCart` class of Project/Program.cs. */
module Cart {
  import opened Stock
  import opened Lines
  import opened Sales
  import opened Inventory

  class ShoppingCart {
    /** The cart lines, in the order they were added. */
    var products: seq<Line>

    /** `GetInstance`'s lazy singleton becomes a plain constructor. */
    constructor ()
      ensures products == []
    {
      products := [];
    }

    /** Appends one line at the end. */
    method AddProduct(productName: string, quantity: int, netPrice: real, tax: real, grossPrice: real)
      modifies this`products
      ensures products == old(products) + [Line(productName, quantity, netPrice, tax, grossPrice)]
    {
      products := products + [Line(productName, quantity, netPrice, tax, grossPrice)];
    }

    /** Removes the first line named `productName`; with no such line nothing changes. */
    method RemoveProduct(productName: string)
      modifies this`products
      ensures (forall j :: 0 <= j < |old(products)| ==> old(products)[j].prodName != productName) ==>
                products == old(products)
      ensures forall i :: (0 <= i < |old(products)| && old(products)[i].prodName == productName &&
                           forall j :: 0 <= j < i ==> old(products)[j].prodName != productName) ==>
                products == old(products)[..i] + old(products)[i + 1..]
    {
      var productToRemove := FindIndex(products, productName);
      if productToRemove != -1 {
        products := RemoveAt(products, productToRemove);
      }
    }

    /** As the source has it: `List.Find` returns a copy of the value tuple, and the
        new quantity is written into that copy, so the cart never changes. */
    method ChangeQuantity(productName: string, newQuantity: int)
      modifies this`products
      ensures products == old(products)
    {
      var i := FindIndex(products, productName);
      if i != -1 {
        var productToUpdate := products[i];
        productToUpdate := productToUpdate.(quantity := newQuantity);
      }
    }

    /** What `ChangeQuantity` is evidently meant to do: give the first line named
        `productName` the new quantity, and change nothing else. */
    method SetQuantity(productName: string, newQuantity: int)
      modifies this`products
      ensures |products| == |old(products)|
      ensures forall j :: 0 <= j < |products| && old(products)[j].prodName != productName ==>
                products[j] == old(products)[j]
      ensures forall i :: (0 <= i < |old(products)| && old(products)[i].prodName == productName &&
                           forall j :: 0 <= j < i ==> old(products)[j].prodName != productName) ==>
                products == old(products)[i := old(products)[i].(quantity := newQuantity)]
    {
      var i := FindIndex(products, productName);
      if i != -1 {
        products := products[i := products[i].(quantity := newQuantity)];
      }
    }

    /** Checkout against five distinct assortments. For every line and every unit of
        its quantity, each assortment holding the line's name loses it and the
        line's count goes up; a line that removed anything is recorded by the first
        index of its name and gets an invoice entry; the recorded lines are then
        removed from the last recorded to the first. The invoice map is returned
        (writing it to a file is not modelled). */
    method DoBuying(p1: Assortment, p2: Assortment, p3: Assortment, p4: Assortment, p5: Assortment)
      returns (invoices: map<string, int>)
      requires p1 != p2 && p1 != p3 && p1 != p4 && p1 != p5 && p2 != p3
      requires p2 != p4 && p2 != p5 && p3 != p4 && p3 != p5 && p4 != p5
      modifies this`products, p1`items, p2`items, p3`items, p4`items, p5`items
      ensures var sale := Checkout(old(products), old(Shelves(p1, p2, p3, p4, p5)));
              products == sale.remaining && Shelves(p1, p2, p3, p4, p5) == sale.shelves && invoices == sale.invoice
      ensures forall a :: 0 <= a < 5 ==>
                Shelves(p1, p2, p3, p4, p5)[a] ==
                old(Shelves(p1, p2, p3, p4, p5))[a] - SoldNames(old(products), old(Shelves(p1, p2, p3, p4, p5)))
      ensures invoices.Keys == SoldNames(old(products), old(Shelves(p1, p2, p3, p4, p5)))
      ensures forall k :: k in invoices ==>
                invoices[k] == Presence(k, old(Shelves(p1, p2, p3, p4, p5))) && 1 <= invoices[k] <= 5
      ensures DistinctNames(old(products)) ==> products == Unsold(old(products), old(Shelves(p1, p2, p3, p4, p5)))
    {
      ghost var start := Shelves(p1, p2, p3, p4, p5);
      var indexesToRemove: seq<int> := [];
      invoices := map[];

      var j := 0;
      while j < |products|
        modifies p1`items, p2`items, p3`items, p4`items, p5`items
        invariant 0 <= j <= |products|
        invariant Scan(products, j, start) == Tally(Shelves(p1, p2, p3, p4, p5), indexesToRemove, invoices)
      {
        var product := products[j];
        var productName := product.prodName;
        var productCount := product.quantity;
        var index := FindIndex(products, productName);

        var check, quantity := TakeUnits(p1, p2, p3, p4, p5, productName, productCount);

        if check {
          // `invoices.Add` would throw on a name already invoiced; it cannot be there,
          // because an invoiced name is on no shelf any more.
          ScanState(products, j, start);
          PresenceMinus(productName, start, SoldNames(products[..j], start));
          assert productName !in invoices;
          indexesToRemove := indexesToRemove + [index];
          invoices := invoices[productName := quantity];
        }
        j := j + 1;
      }

      ghost var scanned := products;
      RemoveRecorded(indexesToRemove);

      CheckoutShelves(scanned, start);
      CheckoutInvoice(scanned, start);
      if DistinctNames(scanned) {
        CheckoutCart(scanned, start);
      }
    }

    /** The unit loop of `doBuying` for one line: `productCount` times, every
        assortment that holds `productName` loses it and `quantity` goes up by one;
        `check` records whether anything was removed. */
    method TakeUnits(p1: Assortment, p2: Assortment, p3: Assortment, p4: Assortment, p5: Assortment,
                     productName: string, productCount: int)
      returns (check: bool, quantity: int)
      requires p1 != p2 && p1 != p3 && p1 != p4 && p1 != p5 && p2 != p3
      requires p2 != p4 && p2 != p5 && p3 != p4 && p3 != p5 && p4 != p5
      modifies p1`items, p2`items, p3`items, p4`items, p5`items
      ensures quantity == if productCount >= 1 then Presence(productName, old(Shelves(p1, p2, p3, p4, p5))) else 0
      ensures check <==> quantity > 0
      ensures Shelves(p1, p2, p3, p4, p5) ==
                if check then Minus(old(Shelves(p1, p2, p3, p4, p5)), {productName})
                else old(Shelves(p1, p2, p3, p4, p5))
    {
      check := false;
      quantity := 0;
      ghost var before := Shelves(p1, p2, p3, p4, p5);
      ghost var swept := Minus(before, {productName});
      PresenceOfFive(productName, before);
      var i := 0;
      while i < productCount
        invariant 0 <= i && (i <= productCount || i == 0)
        invariant i == 0 ==> p1.items == before[0] && p2.items == before[1] && p3.items == before[2] &&
                             p4.items == before[3] && p5.items == before[4]
        invariant i > 0 ==> p1.items == swept[0] && p2.items == swept[1] && p3.items == swept[2] &&
                            p4.items == swept[3] && p5.items == swept[4]
        invariant quantity == if i == 0 then 0 else Presence(productName, before)
        invariant check <==> quantity > 0
      {
        if productName in p1.items {
          p1.items := p1.items - {productName};
          check := true;
          quantity := quantity + 1;
        }
        if productName in p2.items {
          p2.items := p2.items - {productName};
          check := true;
          quantity := quantity + 1;
        }
        if productName in p3.items {
          p3.items := p3.items - {productName};
          check := true;
          quantity := quantity + 1;
        }
        if productName in p4.items {
          p4.items := p4.items - {productName};
          check := true;
          quantity := quantity + 1;
        }
        if productName in p5.items {
          p5.items := p5.items - {productName};
          check := true;
          quantity := quantity + 1;
        }
        SweptShelf(before[0], p1.items, productName);
        SweptShelf(before[1], p2.items, productName);
        SweptShelf(before[2], p3.items, productName);
        SweptShelf(before[3], p4.items, productName);
        SweptShelf(before[4], p5.items, productName);
        i := i + 1;
      }
      if !check && i > 0 {
        MinusAbsent(before, productName);
      }
    }

    /** The removal loop of `doBuying`: `RemoveAt(indexesToRemove[k])` for k from the
        last recorded index down to the first. */
    method RemoveRecorded(indexesToRemove: seq<int>)
      requires RemovableFromEnd(indexesToRemove, |products|)
      modifies this`products
      ensures products == RemoveFromEnd(old(products), indexesToRemove)
    {
      var k := |indexesToRemove| - 1;
      assert indexesToRemove[..k + 1] == indexesToRemove;
      while k >= 0
        invariant -1 <= k < |indexesToRemove|
        invariant RemovableFromEnd(indexesToRemove[..k + 1], |products|)
        invariant RemoveFromEnd(products, indexesToRemove[..k + 1]) == RemoveFromEnd(old(products), indexesToRemove)
      {
        var indexToRemove := indexesToRemove[k];
        assert indexesToRemove[..k + 1][..k] == indexesToRemove[..k];
        products := RemoveAt(products, indexToRemove);
        k := k - 1;
      }
      assert indexesToRemove[..0] == [];
    }
  }

  /** A shelf that had `name` removed where present equals the shelf minus `name`. */
  lemma SweptShelf(shelf: map<string, int>, after: map<string, int>, name: string)
    requires after == shelf - {name} || (name !in shelf && after == shelf)
    ensures after == shelf - {name}
  {
    if name !in shelf {
      assert (shelf - {name}).Keys == shelf.Keys;
    }
  }

  /** `RemoveProduct` undoes `AddProduct` of a name the cart does not hold yet. */
  method AddThenRemove(cart: ShoppingCart, productName: string, quantity: int, netPrice: real, tax: real, grossPrice: real)
    requires forall j :: 0 <= j < |cart.products| ==> cart.products[j].prodName != productName
    modifies cart`products
    ensures cart.products == old(cart.products)
  {
    ghost var before := cart.products;
    cart.AddProduct(productName, quantity, netPrice, tax, grossPrice);
    assert cart.products[|before|].prodName == productName;
    cart.RemoveProduct(productName);
    assert (before + [Line(productName, quantity, netPrice, tax, grossPrice)])[..|before|] == before;
  }

  /** `ChangeQuantity` loses its update, while `SetQuantity` keeps it. */
  method ChangeQuantityIsLost() {
    var cart := new ShoppingCart();
    cart.AddProduct("Sample", 2, 20.0, 5.0, 25.0);
    cart.ChangeQuantity("Sample", 5);
    assert cart.products == [Line("Sample", 2, 20.0, 5.0, 25.0)];
    cart.SetQuantity("Sample", 5);
    assert cart.products == [Line("Sample", 5, 20.0, 5.0, 25.0)];
  }

  /** One line asking for two units of a name that only the first of five shelves holds. */
  lemma OneLineSale(line: Line, start: seq<map<string, int>>)
    requires line == Line("Shoes-A", 2, 20.0, 5.0, 25.0)
    requires start == [map["Shoes-A" := 7], map[], map[], map[], map[]]
    ensures Presence("Shoes-A", start) == 1
    ensures SoldNames([line], start) == {"Shoes-A"}
    ensures DistinctNames([line]) && Unsold([line], start) == []
    ensures start[0] - {"Shoes-A"} == map[]
  {
    assert (start[0] - {"Shoes-A"}).Keys == {};
    PresenceOfFive("Shoes-A", start);
    assert Sells(line, start);
    assert Unsold([line], start) == Unsold([], start) + [];
  }

  /** A cart line for two units of an item that one assortment holds: the item
      leaves the assortment, the line leaves the cart, and the invoice counts one
      unit, the number of assortments that held it, not the two asked for. */
  method CheckoutOneLine(cart: ShoppingCart, shoes: Assortment, shirts: Assortment, pants: Assortment,
                         pyjamas: Assortment, accessories: Assortment)
    returns (invoices: map<string, int>)
    requires shoes != shirts && shoes != pants && shoes != pyjamas && shoes != accessories && shirts != pants
    requires shirts != pyjamas && shirts != accessories && pants != pyjamas && pants != accessories && pyjamas != accessories
    requires shoes.items == map["Shoes-A" := 7]
    requires shirts.items == pants.items == pyjamas.items == accessories.items == map[]
    requires cart.products == [Line("Shoes-A", 2, 20.0, 5.0, 25.0)]
    modifies cart`products, shoes`items, shirts`items, pants`items, pyjamas`items, accessories`items
    ensures invoices == map["Shoes-A" := 1]
    ensures cart.products == [] && shoes.items == map[]
    ensures shoes.categoryName == old(shoes.categoryName)
  {
    ghost var start := Shelves(shoes, shirts, pants, pyjamas, accessories);
    OneLineSale(cart.products[0], start);
    assert cart.products == [cart.products[0]];
    invoices := cart.DoBuying(shoes, shirts, pants, pyjamas, accessories);
    assert invoices.Keys == {"Shoes-A"};
  }
}
