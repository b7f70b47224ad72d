/** The player's inventory: a growable array of item names. */
module Inventories {
  import opened Text

  /** The inventory line of the status panel: "Empty", or the names in sorted order joined by ", ". */
  function Listing(xs: seq<string>): string {
    if xs == [] then "Empty" else Join(Sort(xs), ", ")
  }

  /** Every item held is named in the listing. */
  lemma ListingNamesEveryItem(xs: seq<string>, x: string)
    requires x in xs
    ensures Contains(Listing(xs), x)
  {
    var sorted := Sort(xs);
    assert x in multiset(sorted);
    var i :| 0 <= i < |sorted| && sorted[i] == x;
    JoinContainsEach(sorted, ", ", i);
  }

  /** The listing depends only on what is held, not on the order it was picked up in. */
  lemma ListingIgnoresOrder(xs: seq<string>, ys: seq<string>)
    requires multiset(xs) == multiset(ys)
    ensures Listing(xs) == Listing(ys)
  {
    SortIgnoresOrder(xs, ys);
    assert |xs| == |multiset(xs)| == |multiset(ys)| == |ys|;
  }

  /** One step of the joining loop: the element at `i`, then the separator unless it is the last. */
  lemma JoinUnfold(xs: seq<string>, sep: string, i: nat)
    requires i < |xs|
    ensures Join(xs[i..], sep) == xs[i] + (if i == |xs| - 1 then "" else sep + Join(xs[i + 1..], sep))
  {
    var rest := xs[i..];
    if i < |xs| - 1 {
      assert rest[1..] == xs[i + 1..];
    }
  }

  /**
   * `Inventory<std::string>`: `items` is the heap array, `capacity` its size and
   * `currentSize` the number of slots in use.
   */
  class Inventory {
    var items: array<string>
    var currentSize: nat
    var capacity: nat
    ghost var Repr: set<object>

    ghost predicate Valid()
      reads this, Repr
    {
      Repr == {this, items} && capacity == items.Length && currentSize <= capacity
    }

    ghost function Contents(): seq<string>
      reads this, items
      requires currentSize <= items.Length
    {
      items[..currentSize]
    }

    constructor ()
      ensures Valid() && fresh(Repr) && Contents() == []
    {
      items := new string[0];
      currentSize := 0;
      capacity := 0;
      Repr := {this, items};
    }

    /** Grows the array to twice its capacity (2 when it had none), copying the items over. */
    method Resize()
      requires Valid()
      modifies this
      ensures Valid() && fresh(items) && fresh(Repr - old(Repr))
      ensures capacity == if old(capacity) == 0 then 2 else 2 * old(capacity)
      ensures Contents() == old(Contents())
    {
      capacity := if capacity == 0 then 2 else capacity * 2;
      var newItems := new string[capacity];
      var i := 0;
      while i < currentSize
        invariant 0 <= i <= currentSize <= newItems.Length
        invariant currentSize <= items.Length
        invariant newItems[..i] == items[..i]
        modifies newItems
      {
        newItems[i] := items[i];
        i := i + 1;
      }
      assert newItems[..currentSize] == items[..currentSize];
      items := newItems;
      Repr := {this, items};
    }

    /** Appends an item, growing the array first when it is full. */
    method Add(item: string)
      requires Valid()
      modifies Repr
      ensures Valid() && fresh(Repr - old(Repr))
      ensures Contents() == old(Contents()) + [item]
    {
      if currentSize == capacity {
        Resize();
      }
      items[currentSize] := item;
      currentSize := currentSize + 1;
    }

    /** Linear search by exact string equality. */
    method Has(item: string) returns (found: bool)
      requires Valid()
      ensures found <==> item in Contents()
    {
      var i := 0;
      while i < currentSize
        invariant 0 <= i <= currentSize
        invariant item !in items[..i]
      {
        if items[i] == item {
          return true;
        }
        assert items[..i + 1] == items[..i] + [items[i]];
        i := i + 1;
      }
      return false;
    }

    function Size(): (n: nat)
      reads this, Repr
      requires Valid()
      ensures n == |Contents()|
    {
      currentSize
    }

    /** `getSortedString`: sorts a copy of the items and writes them out separated by ", ". */
    method SortedString() returns (s: string)
      requires Valid()
      ensures s == Listing(Contents())
    {
      if currentSize == 0 {
        return "Empty";
      }
      var sorted := Sort(items[..currentSize]);
      var n := |sorted|;
      s := "";
      var i := 0;
      while i < n
        invariant 0 <= i <= n == |sorted|
        invariant i < n ==> s + Join(sorted[i..], ", ") == Join(sorted, ", ")
        invariant i == n ==> s == Join(sorted, ", ")
      {
        JoinUnfold(sorted, ", ", i);
        s := s + sorted[i] + (if i == n - 1 then "" else ", ");
        i := i + 1;
      }
    }
  }
}
