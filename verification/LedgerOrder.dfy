/** The stable sorted insert of ledger_order.go, which orders parked edges by
    cursor, ledger sections by owner, and here also the ready queue. */
module LedgerOrder {

  ghost predicate Sorted<T>(items: seq<T>, order: T -> int) {
    forall i, j :: 0 <= i < j < |items| ==> order(items[i]) <= order(items[j])
  }

  /** The elements ordered at or before key, then those after it, each part in
      the order it had. */
  function Before<T>(items: seq<T>, key: int, order: T -> int): seq<T> {
    if items == [] then []
    else (if order(items[0]) <= key then [items[0]] else []) + Before(items[1..], key, order)
  }

  function After<T>(items: seq<T>, key: int, order: T -> int): seq<T> {
    if items == [] then []
    else (if order(items[0]) <= key then [] else [items[0]]) + After(items[1..], key, order)
  }

  /** Where the source puts item: after every element ordered at or before it. */
  function Inserted<T>(items: seq<T>, item: T, order: T -> int): seq<T> {
    Before(items, order(item), order) + [item] + After(items, order(item), order)
  }

  lemma {:induction false} SplitAt<T>(items: seq<T>, key: int, order: T -> int, at: nat)
    requires at <= |items|
    requires forall i :: 0 <= i < at ==> order(items[i]) <= key
    requires forall i :: at <= i < |items| ==> order(items[i]) > key
    ensures Before(items, key, order) == items[..at]
    ensures After(items, key, order) == items[at..]
  {
    if items != [] {
      if at == 0 {
        SplitAt(items[1..], key, order, 0);
      } else {
        SplitAt(items[1..], key, order, at - 1);
        assert items[..at] == [items[0]] + items[1..][..at - 1];
        assert items[at..] == items[1..][at - 1..];
      }
    }
  }

  /** A sorted sequence splits at one point. */
  lemma {:induction false} Slot<T>(items: seq<T>, key: int, order: T -> int) returns (at: nat)
    requires Sorted(items, order)
    ensures at <= |items|
    ensures forall i :: 0 <= i < at ==> order(items[i]) <= key
    ensures forall i :: at <= i < |items| ==> order(items[i]) > key
  {
    if items == [] {
      at := 0;
    } else if order(items[|items| - 1]) <= key {
      at := |items|;
    } else {
      at := Slot(items[..|items| - 1], key, order);
    }
  }

  lemma SandwichSorted<T>(left: seq<T>, item: T, right: seq<T>, order: T -> int)
    requires Sorted(left, order) && Sorted(right, order)
    requires forall i :: 0 <= i < |left| ==> order(left[i]) <= order(item)
    requires forall i :: 0 <= i < |right| ==> order(right[i]) > order(item)
    ensures Sorted(left + [item] + right, order)
  {
    var r := left + [item] + right;
    assert forall i :: 0 <= i < |left| ==> r[i] == left[i];
    assert r[|left|] == item;
    assert forall i :: |left| < i < |r| ==> r[i] == right[i - |left| - 1];
  }

  /** The insert keeps the sequence sorted and only adds the item. */
  lemma InsertedSorted<T>(items: seq<T>, item: T, order: T -> int)
    requires Sorted(items, order)
    ensures Sorted(Inserted(items, item, order), order)
    ensures multiset(Inserted(items, item, order)) == multiset(items) + multiset{item}
  {
    var at := Slot(items, order(item), order);
    SplitAt(items, order(item), order, at);
    SandwichSorted(items[..at], item, items[at..], order);
    assert items == items[..at] + items[at..];
  }

  lemma InsertedAt<T>(items: seq<T>, item: T, order: T -> int) returns (at: nat)
    requires Sorted(items, order)
    ensures at <= |items| && Inserted(items, item, order) == items[..at] + [item] + items[at..]
    ensures Sorted(Inserted(items, item, order), order)
  {
    at := Slot(items, order(item), order);
    SplitAt(items, order(item), order, at);
    InsertedSorted(items, item, order);
  }

  /** sort.Search: the first index ordered after key. */
  method Search<T>(items: seq<T>, key: int, order: T -> int) returns (at: nat)
    requires Sorted(items, order)
    ensures at <= |items|
    ensures forall i :: 0 <= i < at ==> order(items[i]) <= key
    ensures forall i :: at <= i < |items| ==> order(items[i]) > key
  {
    var lo, hi := 0, |items|;
    while lo < hi
      invariant 0 <= lo <= hi <= |items|
      invariant forall i :: 0 <= i < lo ==> order(items[i]) <= key
      invariant forall i :: hi <= i < |items| ==> order(items[i]) > key
    {
      var mid := (lo + hi) / 2;
      if order(items[mid]) > key {
        hi := mid;
      } else {
        lo := mid + 1;
      }
    }
    at := lo;
  }

  method InsertAfterOrder<T>(items: seq<T>, item: T, order: T -> int) returns (r: seq<T>)
    requires Sorted(items, order)
    ensures r == Inserted(items, item, order)
  {
    var key := order(item);
    if |items| == 0 || order(items[|items| - 1]) <= key {
      SplitAt(items, key, order, |items|);
      return items + [item];
    }
    var at := Search(items, key, order);
    SplitAt(items, key, order, at);
    r := items[..at] + [item] + items[at..];
  }
}
