/** Stock held on a row of shelves: one item map (name -> price) per assortment,
    in the fixed order in which checkout and the reports visit the assortments. */
module Stock {

  /** Number of shelves whose item map holds `name` (the "presence count"). */
  function Presence(name: string, shelves: seq<map<string, int>>): (n: nat)
    ensures n <= |shelves|
    decreases |shelves|
  {
    if |shelves| == 0 then 0
    else Presence(name, shelves[..|shelves| - 1]) + (if name in shelves[|shelves| - 1] then 1 else 0)
  }

  /** The indices of the shelves that hold `name`. */
  function Holders(name: string, shelves: seq<map<string, int>>): set<int>
  {
    set a | 0 <= a < |shelves| && name in shelves[a]
  }

  /** Every shelf with the keys in `names` taken out. */
  function Minus(shelves: seq<map<string, int>>, names: set<string>): (r: seq<map<string, int>>)
    ensures |r| == |shelves|
    ensures forall a :: 0 <= a < |r| ==> r[a] == shelves[a] - names
  {
    seq(|shelves|, a requires 0 <= a < |shelves| => shelves[a] - names)
  }

  lemma MinusNothing(shelves: seq<map<string, int>>)
    ensures Minus(shelves, {}) == shelves
  {
    forall a | 0 <= a < |shelves| ensures Minus(shelves, {})[a] == shelves[a] {
      assert (shelves[a] - {}).Keys == shelves[a].Keys;
    }
  }

  lemma MinusTwice(shelves: seq<map<string, int>>, names: set<string>, more: set<string>)
    ensures Minus(Minus(shelves, names), more) == Minus(shelves, names + more)
  {
    forall a | 0 <= a < |shelves| ensures Minus(Minus(shelves, names), more)[a] == Minus(shelves, names + more)[a] {
      assert (shelves[a] - names - more).Keys == (shelves[a] - (names + more)).Keys;
    }
  }

  /** Taking out a name that no shelf holds changes nothing. */
  lemma MinusAbsent(shelves: seq<map<string, int>>, name: string)
    requires Presence(name, shelves) == 0
    ensures Minus(shelves, {name}) == shelves
  {
    PresenceZero(name, shelves);
    forall a | 0 <= a < |shelves| ensures Minus(shelves, {name})[a] == shelves[a] {
      assert (shelves[a] - {name}).Keys == shelves[a].Keys;
    }
  }

  /** The presence count is the number of holders. */
  lemma {:induction false} PresenceIsHolderCount(name: string, shelves: seq<map<string, int>>)
    ensures Presence(name, shelves) == |Holders(name, shelves)|
    decreases |shelves|
  {
    if |shelves| > 0 {
      var n := |shelves| - 1;
      var prefix := shelves[..n];
      PresenceIsHolderCount(name, prefix);
      var before := Holders(name, prefix);
      assert n !in before;
      if name in shelves[n] {
        assert Holders(name, shelves) == before + {n};
      } else {
        assert Holders(name, shelves) == before;
      }
    }
  }

  /** A name has presence zero exactly when no shelf holds it. */
  lemma {:induction false} PresenceZero(name: string, shelves: seq<map<string, int>>)
    ensures Presence(name, shelves) == 0 <==> forall a :: 0 <= a < |shelves| ==> name !in shelves[a]
    decreases |shelves|
  {
    if |shelves| > 0 {
      var n := |shelves| - 1;
      PresenceZero(name, shelves[..n]);
      assert forall a :: 0 <= a < n ==> shelves[..n][a] == shelves[a];
    }
  }

  /** Taking keys out of every shelf: a removed name is present nowhere, any other name keeps its count. */
  lemma {:induction false} PresenceMinus(name: string, shelves: seq<map<string, int>>, names: set<string>)
    ensures Presence(name, Minus(shelves, names)) == if name in names then 0 else Presence(name, shelves)
    decreases |shelves|
  {
    if |shelves| > 0 {
      var n := |shelves| - 1;
      PresenceMinus(name, shelves[..n], names);
      assert Minus(shelves, names)[..n] == Minus(shelves[..n], names);
    }
  }

  /** Adding one more shelf at the end adds one to the count exactly when that shelf holds the name. */
  lemma PresenceSnoc(name: string, shelves: seq<map<string, int>>, last: map<string, int>)
    ensures Presence(name, shelves + [last]) == Presence(name, shelves) + (if name in last then 1 else 0)
  {
    assert (shelves + [last])[..|shelves|] == shelves;
  }

  /** The presence count over five shelves, written out. */
  lemma PresenceOfFive(name: string, shelves: seq<map<string, int>>)
    requires |shelves| == 5
    ensures Presence(name, shelves) ==
      (if name in shelves[0] then 1 else 0) + (if name in shelves[1] then 1 else 0) +
      (if name in shelves[2] then 1 else 0) + (if name in shelves[3] then 1 else 0) +
      (if name in shelves[4] then 1 else 0)
  {
    assert shelves == [shelves[0]] + [shelves[1]] + [shelves[2]] + [shelves[3]] + [shelves[4]];
    assert [shelves[0]] == [] + [shelves[0]];
    PresenceSnoc(name, [], shelves[0]);
    PresenceSnoc(name, [shelves[0]], shelves[1]);
    PresenceSnoc(name, [shelves[0]] + [shelves[1]], shelves[2]);
    PresenceSnoc(name, [shelves[0]] + [shelves[1]] + [shelves[2]], shelves[3]);
    PresenceSnoc(name, [shelves[0]] + [shelves[1]] + [shelves[2]] + [shelves[3]], shelves[4]);
  }
}
