/** Shopping-cart lines and the list operations the cart uses on them. */
module Lines {

  /** One cart line: the source's 5-tuple. The three prices are `double` in the
      source and are only carried along, never computed on. */
  datatype Line = Line(prodName: string, quantity: int, netPrice: real, tax: real, grossPrice: real)

  /** `List.FindIndex(p => p.prodName == name)`: the first position holding `name`, or -1. */
  function FindIndex(lines: seq<Line>, name: string): (r: int)
    ensures -1 <= r < |lines|
    ensures r == -1 <==> forall j :: 0 <= j < |lines| ==> lines[j].prodName != name
    ensures r >= 0 ==> lines[r].prodName == name && forall j :: 0 <= j < r ==> lines[j].prodName != name
    decreases |lines|
  {
    if |lines| == 0 then -1
    else if lines[0].prodName == name then 0
    else
      var r := FindIndex(lines[1..], name);
      if r == -1 then -1 else r + 1
  }

  /** `List.RemoveAt(i)`: the line at `i` goes, the later ones move up by one. */
  function RemoveAt(lines: seq<Line>, i: nat): (r: seq<Line>)
    requires i < |lines|
    ensures |r| == |lines| - 1
    ensures forall k :: 0 <= k < i ==> r[k] == lines[k]
    ensures forall k :: i <= k < |r| ==> r[k] == lines[k + 1]
  {
    lines[..i] + lines[i + 1..]
  }

  /** No two cart lines carry the same product name. */
  predicate DistinctNames(lines: seq<Line>)
  {
    forall i, j :: 0 <= i < j < |lines| ==> lines[i].prodName != lines[j].prodName
  }
}
