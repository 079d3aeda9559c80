/** The 1-based position map that both schema walkers build from their list
    of field paths: `for (num, item) in list.iter().enumerate() { map.insert(item, num + 1) }`. */
module Positions {

  /** The map after inserting `items[i] -> i + 1` into `m` for i = 0, 1, ...
      in that order; a later insertion of the same path overwrites. */
  function Numbered(m: map<string, nat>, items: seq<string>): map<string, nat>
    decreases |items|
  {
    if items == [] then m
    else Numbered(m, items[..|items| - 1])[items[|items| - 1] := |items|]
  }

  /** The numbered paths are those already in `m` and the inserted ones. */
  lemma {:induction false} NumberedKeys(m: map<string, nat>, items: seq<string>)
    ensures Numbered(m, items).Keys == m.Keys + set x | x in items
    decreases |items|
  {
    if items != [] {
      var init := items[..|items| - 1];
      NumberedKeys(m, init);
      assert items == init + [items[|items| - 1]];
      assert (set x | x in items) == (set x | x in init) + {items[|items| - 1]};
    }
  }

  /** Position i holds the last occurrence of its item. */
  predicate LastOccurrence(items: seq<string>, i: int) {
    0 <= i < |items| && forall j :: i < j < |items| ==> items[j] != items[i]
  }

  /** Appending a different path keeps a last occurrence last. */
  lemma LastOccurrenceSnoc(init: seq<string>, x: string, i: int)
    requires LastOccurrence(init, i) && x != init[i]
    ensures LastOccurrence(init + [x], i)
  {
    var items := init + [x];
    forall j | i < j < |items| ensures items[j] != items[i] {
      if j < |init| { assert items[j] == init[j]; }
    }
  }

  /** A recorded path is numbered with its last position: the value v lies in
      1..|items|, items[v - 1] is the path, and it does not occur after that. */
  lemma {:induction false} NumberedAt(m: map<string, nat>, items: seq<string>, k: string)
    requires k in items
    ensures k in Numbered(m, items)
    ensures 1 <= Numbered(m, items)[k] <= |items|
    ensures LastOccurrence(items, Numbered(m, items)[k] - 1)
    ensures items[Numbered(m, items)[k] - 1] == k
    decreases |items|
  {
    var n := |items|;
    var init := items[..n - 1];
    var last := items[n - 1];
    assert items == init + [last];
    assert Numbered(m, items) == Numbered(m, init)[last := n];
    if last != k {
      var i :| 0 <= i < n && items[i] == k;
      assert init[i] == k;
      NumberedAt(m, init, k);
      var v := Numbered(m, init)[k];
      LastOccurrenceSnoc(init, last, v - 1);
    }
  }

  /** A path that is not recorded keeps the value it had before. */
  lemma {:induction false} NumberedOutside(m: map<string, nat>, items: seq<string>, k: string)
    requires k !in items && k in m
    ensures k in Numbered(m, items) && Numbered(m, items)[k] == m[k]
    decreases |items|
  {
    if items != [] {
      var init := items[..|items| - 1];
      forall i | 0 <= i < |init| ensures init[i] != k {
        assert init[i] == items[i];
      }
      NumberedOutside(m, init, k);
    }
  }

  /** Both directions: the path at position i is numbered i + 1 exactly when
      no later position holds the same path. */
  lemma NumberedIsLastPosition(m: map<string, nat>, items: seq<string>, i: int)
    requires 0 <= i < |items|
    ensures items[i] in Numbered(m, items)
    ensures Numbered(m, items)[items[i]] == i + 1 <==> LastOccurrence(items, i)
  {
    var k := items[i];
    assert k in items;
    NumberedAt(m, items, k);
    var v := Numbered(m, items)[k];
    assert items[v - 1] == items[i];
  }

  /** Starting from an empty map, every value lies in 1..|items|. */
  lemma NumberedRange(items: seq<string>, k: string)
    requires k in Numbered(map[], items)
    ensures 1 <= Numbered(map[], items)[k] <= |items|
  {
    NumberedKeys(map[], items);
    NumberedAt(map[], items, k);
  }

  /** Starting from an empty map with no repeated path, the map sends
      `items[i]` to `i + 1` and holds nothing else. */
  lemma NumberedDistinct(items: seq<string>)
    requires forall i, j :: 0 <= i < j < |items| ==> items[i] != items[j]
    ensures Numbered(map[], items).Keys == set x | x in items
    ensures forall i :: 0 <= i < |items| ==> Numbered(map[], items)[items[i]] == i + 1
  {
    NumberedKeys(map[], items);
    forall i | 0 <= i < |items| ensures Numbered(map[], items)[items[i]] == i + 1 {
      NumberedIsLastPosition(map[], items, i);
    }
  }
}
