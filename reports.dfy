/** The order-threshold report (`countOccurences`, `toPlaceAnOrder`) and the stock
    merge (`AggregateProductStock`, `MergeProductsStock`) of Project/Program.cs.
    The maps they compute are modelled; the files they are written to are not. */
module Reports {
  import opened Stock
  import opened Inventory

  /** `counts` is `itemsCount` after one more assortment with item map `items` was
      counted into it: every item name of that assortment gains one, the rest keep
      their count. */
  predicate CountedInto(counts: map<string, int>, itemsCount: map<string, int>, items: map<string, int>)
  {
    && counts.Keys == itemsCount.Keys + items.Keys
    && forall k :: k in counts ==>
         counts[k] == (if k in itemsCount then itemsCount[k] else 0) + (if k in items then 1 else 0)
  }

  /** `counts` holds, for every name on any of `shelves`, the number of shelves that hold it. */
  ghost predicate Tallies(counts: map<string, int>, shelves: seq<map<string, int>>)
  {
    forall k :: (k in counts <==> Presence(k, shelves) >= 1) && (k in counts ==> counts[k] == Presence(k, shelves))
  }

  method CountOccurrences(product: Assortment, itemsCount: map<string, int>) returns (counts: map<string, int>)
    ensures CountedInto(counts, itemsCount, product.items)
  {
    var items := product.items;
    counts := itemsCount;
    var pending := items.Keys;
    while pending != {}
      invariant pending <= items.Keys
      invariant counts.Keys == itemsCount.Keys + (items.Keys - pending)
      invariant forall k :: k in counts ==>
                  counts[k] == (if k in itemsCount then itemsCount[k] else 0) +
                               (if k in items && k !in pending then 1 else 0)
      decreases pending
    {
      var key :| key in pending;
      if key in counts {
        counts := counts[key := counts[key] + 1];
      } else {
        counts := counts[key := 1];
      }
      pending := pending - {key};
    }
  }

  /** Counting one more shelf into a tally over some shelves gives the tally over
      those shelves and the new one. */
  lemma TallyStep(itemsCount: map<string, int>, counts: map<string, int>,
                  shelves: seq<map<string, int>>, items: map<string, int>)
    requires Tallies(itemsCount, shelves) && CountedInto(counts, itemsCount, items)
    ensures Tallies(counts, shelves + [items])
  {
    forall k ensures (k in counts <==> Presence(k, shelves + [items]) >= 1) &&
                     (k in counts ==> counts[k] == Presence(k, shelves + [items])) {
      PresenceSnoc(k, shelves, items);
    }
  }

  /** The five `countOccurences` calls of `toPlaceAnOrder`: every name on some
      assortment, with the number of assortments that hold it. */
  method CountAll(product1: Assortment, product2: Assortment, product3: Assortment,
                  product4: Assortment, product5: Assortment)
    returns (itemsCount: map<string, int>)
    ensures Tallies(itemsCount, Shelves(product1, product2, product3, product4, product5))
  {
    ghost var s := Shelves(product1, product2, product3, product4, product5);
    ghost var s1, s2, s3, s4 := [s[0]], [s[0], s[1]], [s[0], s[1], s[2]], [s[0], s[1], s[2], s[3]];
    itemsCount := map[];
    assert Tallies(itemsCount, []);
    var c1 := CountOccurrences(product1, itemsCount);
    TallyStep(itemsCount, c1, [], s[0]);
    assert [] + [s[0]] == s1;
    var c2 := CountOccurrences(product2, c1);
    TallyStep(c1, c2, s1, s[1]);
    assert s1 + [s[1]] == s2;
    var c3 := CountOccurrences(product3, c2);
    TallyStep(c2, c3, s2, s[2]);
    assert s2 + [s[2]] == s3;
    var c4 := CountOccurrences(product4, c3);
    TallyStep(c3, c4, s3, s[3]);
    assert s3 + [s[3]] == s4;
    var c5 := CountOccurrences(product5, c4);
    TallyStep(c4, c5, s4, s[4]);
    assert s4 + [s[4]] == s;
    itemsCount := c5;
  }

  /** The names held by at least `quantity` of the five assortments (and by at least
      one), each with the number of assortments that hold it. */
  method ToPlaceAnOrder(product1: Assortment, product2: Assortment, product3: Assortment,
                        product4: Assortment, product5: Assortment, quantity: int)
    returns (itemsCount: map<string, int>)
    ensures forall k :: k in itemsCount <==>
              (Presence(k, Shelves(product1, product2, product3, product4, product5)) >= 1 &&
               Presence(k, Shelves(product1, product2, product3, product4, product5)) >= quantity)
    ensures forall k :: k in itemsCount ==>
              itemsCount[k] == Presence(k, Shelves(product1, product2, product3, product4, product5))
  {
    itemsCount := CountAll(product1, product2, product3, product4, product5);

    ghost var full := itemsCount;
    var keys := itemsCount.Keys;
    while keys != {}
      invariant keys <= full.Keys
      invariant forall k :: k in itemsCount <==> k in full && (k in keys || full[k] >= quantity)
      invariant forall k :: k in itemsCount ==> itemsCount[k] == full[k]
      decreases keys
    {
      var item :| item in keys;
      if itemsCount[item] < quantity {
        itemsCount := itemsCount - {item};
      }
      keys := keys - {item};
    }
  }

  /** Adds every item of `product` whose name `aggregatedStock` does not hold yet; a
      name already there keeps its price. */
  method AggregateProductStock(product: Assortment, aggregatedStock: map<string, int>)
    returns (stock: map<string, int>)
    ensures stock.Keys == aggregatedStock.Keys + product.items.Keys
    ensures forall k :: k in aggregatedStock ==> stock[k] == aggregatedStock[k]
    ensures forall k :: k in stock && k !in aggregatedStock ==> stock[k] == product.items[k]
  {
    var productStock := product.items;
    stock := aggregatedStock;
    var pending := productStock.Keys;
    while pending != {}
      invariant pending <= productStock.Keys
      invariant stock.Keys == aggregatedStock.Keys + (productStock.Keys - pending)
      invariant forall k :: k in aggregatedStock ==> stock[k] == aggregatedStock[k]
      invariant forall k :: k in stock && k !in aggregatedStock ==> stock[k] == productStock[k]
      decreases pending
    {
      var key :| key in pending;
      if key in stock {
        // The source builds `key + "_"` here and drops it: the duplicate is skipped.
      } else {
        stock := stock[key := productStock[key]];
      }
      pending := pending - {key};
    }
  }

  /** The union of the five item maps; a name held by several assortments gets the
      price from the first of them, in order 1..5. */
  method MergeProductsStock(product1: Assortment, product2: Assortment, product3: Assortment,
                            product4: Assortment, product5: Assortment)
    returns (stock: map<string, int>)
    ensures stock.Keys == product1.items.Keys + product2.items.Keys + product3.items.Keys +
                          product4.items.Keys + product5.items.Keys
    ensures forall k :: k in stock ==>
              stock[k] == if k in product1.items then product1.items[k]
                          else if k in product2.items then product2.items[k]
                          else if k in product3.items then product3.items[k]
                          else if k in product4.items then product4.items[k]
                          else product5.items[k]
  {
    stock := map[];
    stock := AggregateProductStock(product1, stock);
    stock := AggregateProductStock(product2, stock);
    stock := AggregateProductStock(product3, stock);
    stock := AggregateProductStock(product4, stock);
    stock := AggregateProductStock(product5, stock);
  }
}
