/** What `ShoppingCart.doBuying` computes, as functions of the cart and the five
    shelves it starts from, and the properties of that result. */
module Sales {
  import opened Stock
  import opened Lines

  /** What the first loop of `doBuying` has built after some lines: the shelves
      as they now are, `indexesToRemove`, and `invoices`. */
  datatype Tally = Tally(shelves: seq<map<string, int>>, matched: seq<int>, invoice: map<string, int>)

  /** The end state of `doBuying`: the cart left over, the shelves, the invoice. */
  datatype Sale = Sale(remaining: seq<Line>, shelves: seq<map<string, int>>, invoice: map<string, int>)

  /** Removing `idx[|idx| - 1]`, then `idx[|idx| - 2]`, ... down to `idx[0]` from a
      list of `len` lines never goes out of range. */
  predicate RemovableFromEnd(idx: seq<int>, len: int)
  {
    forall t :: 0 <= t < |idx| ==> 0 <= idx[t] && idx[t] + |idx| - t <= len
  }

  /** The first loop of `doBuying` over `cart[..n]`. A line with quantity at least 1
      sweeps its name off every shelf on its first unit (the dictionaries hold it at
      most once, so the later units find nothing); `sold` is the number of shelves
      that held it. A line that sold something records the FIRST index of its name
      and its invoice entry. */
  function Scan(cart: seq<Line>, n: nat, start: seq<map<string, int>>): (t: Tally)
    requires n <= |cart|
    ensures |t.shelves| == |start|
    ensures RemovableFromEnd(t.matched, n)
    decreases n
  {
    if n == 0 then Tally(start, [], map[])
    else
      var t := Scan(cart, n - 1, start);
      var line := cart[n - 1];
      var sold := if line.quantity >= 1 then Presence(line.prodName, t.shelves) else 0;
      if sold == 0 then t
      else Tally(Minus(t.shelves, {line.prodName}), t.matched + [FindIndex(cart, line.prodName)],
                 t.invoice[line.prodName := sold])
  }

  /** The second loop of `doBuying`: `RemoveAt(idx[i])` for i from the last down to 0. */
  function RemoveFromEnd(lines: seq<Line>, idx: seq<int>): (r: seq<Line>)
    requires RemovableFromEnd(idx, |lines|)
    ensures |r| == |lines| - |idx|
    decreases |idx|
  {
    if |idx| == 0 then lines
    else RemoveFromEnd(RemoveAt(lines, idx[|idx| - 1]), idx[..|idx| - 1])
  }

  /** Both loops of `doBuying`: the shelves keep their number and the cart does not grow. */
  function Checkout(cart: seq<Line>, start: seq<map<string, int>>): (s: Sale)
    ensures |s.shelves| == |start| && |s.remaining| <= |cart|
  {
    var t := Scan(cart, |cart|, start);
    Sale(RemoveFromEnd(cart, t.matched), t.shelves, t.invoice)
  }

  /** A line is served when it asks for at least one unit and some shelf holds its name. */
  predicate Sells(line: Line, shelves: seq<map<string, int>>)
  {
    line.quantity >= 1 && Presence(line.prodName, shelves) >= 1
  }

  /** The names of the lines that are served. */
  function SoldNames(lines: seq<Line>, shelves: seq<map<string, int>>): set<string>
  {
    set l | l in lines && Sells(l, shelves) :: l.prodName
  }

  /** The lines that are not served, in their order in the cart. */
  function Unsold(lines: seq<Line>, shelves: seq<map<string, int>>): (r: seq<Line>)
    ensures |r| <= |lines|
    decreases |lines|
  {
    if |lines| == 0 then []
    else
      var last := lines[|lines| - 1];
      Unsold(lines[..|lines| - 1], shelves) + (if Sells(last, shelves) then [] else [last])
  }

  /** A line is kept exactly when it is in the cart and is not served. */
  lemma {:induction false} UnsoldMembers(lines: seq<Line>, shelves: seq<map<string, int>>)
    ensures forall l :: l in Unsold(lines, shelves) <==> l in lines && !Sells(l, shelves)
    decreases |lines|
  {
    if |lines| > 0 {
      var prefix := lines[..|lines| - 1];
      UnsoldMembers(prefix, shelves);
      assert lines == prefix + [lines[|lines| - 1]];
    }
  }

  lemma SoldNamesSnoc(lines: seq<Line>, n: nat, shelves: seq<map<string, int>>)
    requires 0 < n <= |lines|
    ensures SoldNames(lines[..n], shelves) ==
      SoldNames(lines[..n - 1], shelves) + (if Sells(lines[n - 1], shelves) then {lines[n - 1].prodName} else {})
  {
    assert lines[..n] == lines[..n - 1] + [lines[n - 1]];
  }

  /** After `n` lines, every served name is off every shelf and nothing else is,
      and the invoice gives each served name the number of shelves that held it.
      This holds whether or not the cart repeats a name. */
  lemma {:induction false} ScanState(cart: seq<Line>, n: nat, start: seq<map<string, int>>)
    requires n <= |cart|
    ensures Scan(cart, n, start).shelves == Minus(start, SoldNames(cart[..n], start))
    ensures Scan(cart, n, start).invoice.Keys == SoldNames(cart[..n], start)
    ensures forall k :: k in Scan(cart, n, start).invoice ==> Scan(cart, n, start).invoice[k] == Presence(k, start)
    decreases n
  {
    if n == 0 {
      assert SoldNames(cart[..0], start) == {};
      MinusNothing(start);
    } else {
      ScanState(cart, n - 1, start);
      var t := Scan(cart, n - 1, start);
      var line := cart[n - 1];
      var before := SoldNames(cart[..n - 1], start);
      SoldNamesSnoc(cart, n, start);
      PresenceMinus(line.prodName, start, before);
      if Sells(line, start) && line.prodName !in before {
        MinusTwice(start, before, {line.prodName});
      } else {
        assert SoldNames(cart[..n], start) == before;
        assert Scan(cart, n, start) == t;
      }
    }
  }

  lemma {:induction false} RemoveFromEndAppend(lines: seq<Line>, idx: seq<int>, x: Line)
    requires RemovableFromEnd(idx, |lines|)
    ensures RemovableFromEnd(idx, |lines + [x]|)
    ensures RemoveFromEnd(lines + [x], idx) == RemoveFromEnd(lines, idx) + [x]
    decreases |idx|
  {
    if |idx| > 0 {
      var m := idx[|idx| - 1];
      assert RemoveAt(lines + [x], m) == RemoveAt(lines, m) + [x];
      RemoveFromEndAppend(RemoveAt(lines, m), idx[..|idx| - 1], x);
    }
  }

  lemma RemoveFromEndLast(lines: seq<Line>, idx: seq<int>, x: Line)
    requires RemovableFromEnd(idx, |lines|)
    ensures RemovableFromEnd(idx + [|lines|], |lines + [x]|)
    ensures RemoveFromEnd(lines + [x], idx + [|lines|]) == RemoveFromEnd(lines, idx)
  {
    var both := idx + [|lines|];
    assert both[..|both| - 1] == idx;
    assert RemoveAt(lines + [x], |lines|) == lines;
  }

  lemma UnsoldSnoc(lines: seq<Line>, x: Line, shelves: seq<map<string, int>>)
    ensures Unsold(lines + [x], shelves) == Unsold(lines, shelves) + (if Sells(x, shelves) then [] else [x])
  {
    assert (lines + [x])[..|lines|] == lines;
  }

  /** With distinct names, line `n - 1` is served exactly when it `Sells` against the
      starting shelves, and then it records its own position. */
  lemma ScanStepDistinct(cart: seq<Line>, n: nat, start: seq<map<string, int>>)
    requires 0 < n <= |cart| && DistinctNames(cart)
    ensures Scan(cart, n, start).matched ==
      Scan(cart, n - 1, start).matched + (if Sells(cart[n - 1], start) then [n - 1] else [])
  {
    ScanState(cart, n - 1, start);
    var line := cart[n - 1];
    var before := SoldNames(cart[..n - 1], start);
    assert line.prodName !in before;
    PresenceMinus(line.prodName, start, before);
    if Sells(line, start) {
      assert FindIndex(cart, line.prodName) == n - 1;
    }
  }

  /** One more line: if it is served its own position is recorded and it is removed,
      otherwise it stays at the end of what is kept. */
  lemma RemoveFromEndStep(prefix: seq<Line>, line: Line, whole: seq<Line>, matched: seq<int>, next: seq<int>,
                          start: seq<map<string, int>>)
    requires whole == prefix + [line]
    requires RemovableFromEnd(matched, |prefix|) && RemoveFromEnd(prefix, matched) == Unsold(prefix, start)
    requires next == matched + (if Sells(line, start) then [|prefix|] else [])
    ensures RemovableFromEnd(next, |whole|)
    ensures RemoveFromEnd(whole, next) == Unsold(whole, start)
  {
    UnsoldSnoc(prefix, line, start);
    if Sells(line, start) {
      RemoveFromEndLast(prefix, matched, line);
    } else {
      assert next == matched;
      RemoveFromEndAppend(prefix, matched, line);
    }
  }

  /** The positions of the served lines, in order. */
  function ServedPositions(lines: seq<Line>, start: seq<map<string, int>>): (p: seq<int>)
    ensures RemovableFromEnd(p, |lines|)
    decreases |lines|
  {
    if |lines| == 0 then []
    else
      var n := |lines| - 1;
      ServedPositions(lines[..n], start) + (if Sells(lines[n], start) then [n] else [])
  }

  /** With distinct names the first loop records exactly the served positions. */
  lemma {:induction false} ScanMatchesServed(cart: seq<Line>, n: nat, start: seq<map<string, int>>)
    requires n <= |cart| && DistinctNames(cart)
    ensures Scan(cart, n, start).matched == ServedPositions(cart[..n], start)
    decreases n
  {
    if n > 0 {
      ScanMatchesServed(cart, n - 1, start);
      ScanStepDistinct(cart, n, start);
      assert cart[..n][..n - 1] == cart[..n - 1];
    }
  }

  /** Removing the served positions from the end leaves the unserved lines, in order. */
  lemma {:induction false} RemoveServed(lines: seq<Line>, start: seq<map<string, int>>)
    ensures RemoveFromEnd(lines, ServedPositions(lines, start)) == Unsold(lines, start)
    decreases |lines|
  {
    if |lines| > 0 {
      var prefix := lines[..|lines| - 1];
      RemoveServed(prefix, start);
      assert lines == prefix + [lines[|lines| - 1]];
      RemoveFromEndStep(prefix, lines[|lines| - 1], lines, ServedPositions(prefix, start),
                        ServedPositions(lines, start), start);
    }
  }

  /** With distinct names each served line records its own position, and removing
      those positions from the end leaves exactly the lines not served, in order. */
  lemma ScanCart(cart: seq<Line>, n: nat, start: seq<map<string, int>>)
    requires n <= |cart| && DistinctNames(cart)
    ensures RemoveFromEnd(cart[..n], Scan(cart, n, start).matched) == Unsold(cart[..n], start)
  {
    ScanMatchesServed(cart, n, start);
    RemoveServed(cart[..n], start);
  }

  /** Checkout takes the served names, and only those, off every shelf; every other
      item keeps its price. */
  lemma CheckoutShelves(cart: seq<Line>, start: seq<map<string, int>>)
    ensures |Checkout(cart, start).shelves| == |start|
    ensures forall a :: 0 <= a < |start| ==> Checkout(cart, start).shelves[a] == start[a] - SoldNames(cart, start)
  {
    ScanState(cart, |cart|, start);
    assert cart[..|cart|] == cart;
  }

  /** The invoice names exactly the served lines, each with the number of shelves
      that held it (between one and the number of shelves), not the quantity asked for. */
  lemma CheckoutInvoice(cart: seq<Line>, start: seq<map<string, int>>)
    ensures Checkout(cart, start).invoice.Keys == SoldNames(cart, start)
    ensures forall k :: k in Checkout(cart, start).invoice ==>
      Checkout(cart, start).invoice[k] == Presence(k, start) && 1 <= Presence(k, start) <= |start|
  {
    ScanState(cart, |cart|, start);
    assert cart[..|cart|] == cart;
  }

  /** With distinct names, the cart keeps exactly the lines that were not served, in order. */
  lemma CheckoutCart(cart: seq<Line>, start: seq<map<string, int>>)
    requires DistinctNames(cart)
    ensures Checkout(cart, start).remaining == Unsold(cart, start)
  {
    ScanCart(cart, |cart|, start);
    assert cart[..|cart|] == cart;
  }

  /** A served line (quantity at least 1, name on some shelf) leaves the cart, its name
      is on no shelf afterwards, and its invoice count is its presence count. */
  lemma CheckoutServedLine(cart: seq<Line>, start: seq<map<string, int>>, j: nat)
    requires DistinctNames(cart) && j < |cart| && Sells(cart[j], start)
    ensures cart[j] !in Checkout(cart, start).remaining
    ensures forall a :: 0 <= a < |start| ==> cart[j].prodName !in Checkout(cart, start).shelves[a]
    ensures cart[j].prodName in Checkout(cart, start).invoice
    ensures Checkout(cart, start).invoice[cart[j].prodName] == Presence(cart[j].prodName, start)
    ensures 1 <= Presence(cart[j].prodName, start) <= |start|
  {
    CheckoutCart(cart, start);
    UnsoldMembers(cart, start);
    CheckoutShelves(cart, start);
    CheckoutInvoice(cart, start);
  }

  /** A line that is not served (quantity at most 0, or its name on no shelf) stays in
      the cart and, names being distinct, gets no invoice entry. */
  lemma CheckoutUnservedLine(cart: seq<Line>, start: seq<map<string, int>>, j: nat)
    requires DistinctNames(cart) && j < |cart| && !Sells(cart[j], start)
    ensures cart[j] in Checkout(cart, start).remaining
    ensures cart[j].prodName !in Checkout(cart, start).invoice
  {
    CheckoutCart(cart, start);
    UnsoldMembers(cart, start);
    CheckoutInvoice(cart, start);
  }

  /** With a repeated name the first loop records the FIRST index of the name, so a
      cart of an unserved line `A` (quantity 0) followed by a served line `A` loses
      the unserved line and keeps the one that was sold. */
  lemma RepeatedNameRemovesFirstLine()
    ensures Checkout([Line("A", 0, 1.0, 0.0, 1.0), Line("A", 1, 1.0, 0.0, 1.0)],
                     [map["A" := 5], map[], map[], map[], map[]]).remaining == [Line("A", 1, 1.0, 0.0, 1.0)]
    ensures Unsold([Line("A", 0, 1.0, 0.0, 1.0), Line("A", 1, 1.0, 0.0, 1.0)],
                   [map["A" := 5], map[], map[], map[], map[]]) == [Line("A", 0, 1.0, 0.0, 1.0)]
  {
    var l0, l1 := Line("A", 0, 1.0, 0.0, 1.0), Line("A", 1, 1.0, 0.0, 1.0);
    var cart := [l0, l1];
    var start: seq<map<string, int>> := [map["A" := 5], map[], map[], map[], map[]];
    PresenceOfFive("A", start);
    assert Presence("A", start) == 1;
    assert Scan(cart, 1, start) == Tally(start, [], map[]);
    assert FindIndex(cart, "A") == 0;
    assert Scan(cart, 2, start).matched == [0];
    assert RemoveFromEnd(cart, [0]) == RemoveFromEnd(RemoveAt(cart, 0), []);
    assert RemoveAt(cart, 0) == [l1];
    assert cart[..1] == [l0];
    assert [l0][..0] == [];
    assert Unsold([l0], start) == [l0];
  }
}
