/** Disposition tallies (core/tally.go): records counted under their Reason, the
    Reasons in the order each was first recorded. */
module Tallies {

  datatype Record = Record(reason: string, name: string, causes: seq<string>)

  type Facts = seq<string>

  /** A record and the Facts of the item Task it came from. */
  datatype Item = Item(rec: Record, facts: Facts)

  /** facts, when not empty, is aligned with names. */
  datatype ReasonTally = ReasonTally(reason: string, names: seq<string>, facts: seq<Facts>)

  // ---- what a tally of items says -----------------------------------------

  /** The distinct Reasons, in first-recorded order. */
  function Reasons(items: seq<Item>): seq<string> {
    if items == [] then []
    else
      var before, r := Reasons(items[..|items| - 1]), items[|items| - 1].rec.reason;
      if r in before then before else before + [r]
  }

  /** The items recorded under reason, in record order. */
  function Under(items: seq<Item>, reason: string): seq<Item> {
    if items == [] then []
    else
      var before, last := Under(items[..|items| - 1], reason), items[|items| - 1];
      if last.rec.reason == reason then before + [last] else before
  }

  function NamesOf(items: seq<Item>): seq<string> {
    seq(|items|, (i: nat) requires i < |items| => items[i].rec.name)
  }

  function FactsOf(items: seq<Item>): seq<Facts> {
    seq(|items|, (i: nat) requires i < |items| => items[i].facts)
  }

  /** n records with no Facts. */
  function Blanks(n: int): seq<Facts> {
    seq(if n < 0 then 0 else n, _ => [])
  }

  predicate Factless(items: seq<Item>) {
    forall i :: 0 <= i < |items| ==> items[i].facts == []
  }

  /** One Reason's share: Facts are kept only once some item carries them. */
  function Share(items: seq<Item>, reason: string): ReasonTally {
    var mine := Under(items, reason);
    ReasonTally(reason, NamesOf(mine), if Factless(mine) then [] else FactsOf(mine))
  }

  function Causes(items: seq<Item>): seq<string> {
    if items == [] then [] else Causes(items[..|items| - 1]) + items[|items| - 1].rec.causes
  }

  function Plus(items: seq<Item>, item: Item): (r: seq<Item>)
    ensures |r| == |items| + 1 && r[..|items|] == items && r[|r| - 1] == item
  {
    items + [item]
  }

  // ---- what the order and the split mean ----------------------------------

  /** First-recorded order: every Reason is listed once, at a place no later than its
      first record, and Reasons first recorded later are listed later. */
  lemma {:induction false} ReasonsOnce(items: seq<Item>)
    ensures forall j, k :: 0 <= j < k < |Reasons(items)| ==> Reasons(items)[j] != Reasons(items)[k]
    ensures forall i :: 0 <= i < |items| ==> items[i].rec.reason in Reasons(items)
    ensures forall r :: r in Reasons(items) ==> exists i :: 0 <= i < |items| && items[i].rec.reason == r
    ensures |Reasons(items)| <= |items|
  {
    if items != [] {
      var before := items[..|items| - 1];
      ReasonsOnce(before);
      forall i | 0 <= i < |items| ensures items[i].rec.reason in Reasons(items) {
        if i < |before| {
          assert before[i].rec.reason in Reasons(before);
        }
      }
      forall r | r in Reasons(items) ensures exists i :: 0 <= i < |items| && items[i].rec.reason == r {
        if r in Reasons(before) {
          var i :| 0 <= i < |before| && before[i].rec.reason == r;
          assert items[i].rec.reason == r;
        } else {
          assert items[|items| - 1].rec.reason == r;
        }
      }
    }
  }

  ghost predicate FirstAt(items: seq<Item>, i: nat) {
    i < |items| && forall j :: 0 <= j < i ==> items[j].rec.reason != items[i].rec.reason
  }

  lemma {:induction false} ReasonsInFirstOrder(items: seq<Item>, i: nat, j: nat, a: nat, b: nat)
    requires FirstAt(items, i) && FirstAt(items, j) && i < j
    requires a < |Reasons(items)| && Reasons(items)[a] == items[i].rec.reason
    requires b < |Reasons(items)| && Reasons(items)[b] == items[j].rec.reason
    ensures a < b
  {
    var before := items[..|items| - 1];
    ReasonsOnce(before);
    assert before[i].rec.reason in Reasons(before);
    ReasonsOnce(items);
    assert Reasons(before) <= Reasons(items);
    if j < |before| {
      assert before[j].rec.reason in Reasons(before);
      assert FirstAt(before, i) && FirstAt(before, j);
      assert a < |Reasons(before)| && b < |Reasons(before)|;
      ReasonsInFirstOrder(before, i, j, a, b);
    } else {
      assert items[j].rec.reason !in Reasons(before);
    }
  }

  function Sum(ns: seq<nat>): nat {
    if ns == [] then 0 else Sum(ns[..|ns| - 1]) + ns[|ns| - 1]
  }

  function Sizes(items: seq<Item>, reasons: seq<string>): seq<nat> {
    seq(|reasons|, (k: nat) requires k < |reasons| => |Under(items, reasons[k])|)
  }

  /** One more item under reasons[k] is one more in the sum, and none elsewhere. */
  lemma {:induction false} SizesPlus(items: seq<Item>, item: Item, reasons: seq<string>)
    requires forall j, k :: 0 <= j < k < |reasons| ==> reasons[j] != reasons[k]
    ensures Sum(Sizes(Plus(items, item), reasons)) ==
      Sum(Sizes(items, reasons)) + (if item.rec.reason in reasons then 1 else 0)
  {
    if reasons != [] {
      var front := reasons[..|reasons| - 1];
      SizesPlus(items, item, front);
      assert Sizes(items, reasons)[..|front|] == Sizes(items, front);
      assert Sizes(Plus(items, item), reasons)[..|front|] == Sizes(Plus(items, item), front);
      assert reasons == front + [reasons[|front|]];
    }
  }

  lemma {:induction false} UnderNew(items: seq<Item>, reason: string)
    requires reason !in Reasons(items)
    ensures Under(items, reason) == []
  {
    if items != [] {
      UnderNew(items[..|items| - 1], reason);
    }
  }

  /** The headline and its reason parts always sum: the Reasons partition the records. */
  lemma {:induction false} PartsSum(items: seq<Item>)
    ensures Sum(Sizes(items, Reasons(items))) == |items|
  {
    if items != [] {
      var before, last := items[..|items| - 1], items[|items| - 1];
      assert items == Plus(before, last);
      PartsSum(before);
      ReasonsOnce(before);
      SizesPlus(before, last, Reasons(before));
      if last.rec.reason !in Reasons(before) {
        UnderNew(before, last.rec.reason);
        assert Sizes(items, Reasons(items))[..|Reasons(before)|] == Sizes(items, Reasons(before));
      }
    }
  }

  // ---- the tally ----------------------------------------------------------

  ghost predicate Partition(reasons: seq<ReasonTally>, index: map<string, nat>, items: seq<Item>) {
    && |reasons| == |Reasons(items)|
    && (forall k {:trigger reasons[k]} :: 0 <= k < |reasons| ==>
      && reasons[k] == Share(items, Reasons(items)[k])
      && Reasons(items)[k] in index && index[Reasons(items)[k]] == k)
    && (forall r :: r in index ==> r in Reasons(items))
  }

  class Tally {
    var reasons: seq<ReasonTally>
    var index: map<string, nat>
    var causes: seq<string>
    var total: nat

    /** This is the tally of exactly items, recorded in that order. */
    ghost predicate Shows(items: seq<Item>)
      reads this
    {
      Partition(reasons, index, items) && causes == Causes(items) && total == |items|
    }

    constructor ()
      ensures Shows([])
    {
      reasons, index, causes, total := [], map[], [], 0;
    }

    method AddItem(rec: Record, facts: Facts, ghost items: seq<Item>)
      requires Shows(items)
      modifies this
      ensures Shows(Plus(items, Item(rec, facts)))
    {
      hide Share, Causes, Partition, Reasons;
      Found(reasons, index, items, rec.reason);
      ghost var was := reasons;
      if rec.reason !in index {
        index := index[rec.reason := |reasons|];
        reasons := reasons + [ReasonTally(rec.reason, [], [])];
      }
      var i := index[rec.reason];
      var r := reasons[i];
      assert r == Share(items, rec.reason);
      var names, known := r.names + [rec.name], r.facts;
      if facts != [] || known != [] {
        while |known| < |names| - 1
          invariant |r.facts| <= |known| && (known == r.facts || |known| <= |r.names|)
          invariant known == r.facts + Blanks(|known| - |r.facts|)
        {
          known := known + [[]];
        }
        known := known + [facts];
      }
      SharePlus(items, Item(rec, facts), known);
      Recorded(was, old(index), items, Item(rec, facts));
      reasons := reasons[i := ReasonTally(rec.reason, names, known)];
      causes := causes + rec.causes;
      total := total + 1;
      CausesPlus(items, Item(rec, facts));
      assert rec.reason !in old(index) ==> reasons == was + [ReasonTally(rec.reason, names, known)];
    }

    method AddAll(records: seq<Record>, facts: Facts, ghost items: seq<Item>)
      requires Shows(items)
      modifies this
      ensures Shows(items + Carrying(records, facts))
    {
      hide *;
      var i := 0;
      assert items + Carrying(records[..0], facts) == items by { NoneCarried(records, facts); }
      while i < |records|
        invariant i <= |records| && Shows(items + Carrying(records[..i], facts))
      {
        OneCarried(items, records, facts, i);
        AddItem(records[i], facts, items + Carrying(records[..i], facts));
        i := i + 1;
      }
      assert records[..i] == records;
    }

    /** A tally the caller can hold while this one keeps counting. */
    method Clone(ghost items: seq<Item>) returns (t: Tally)
      requires Shows(items)
      ensures fresh(t) && t.Shows(items)
    {
      t := new Tally();
      t.reasons, t.index, t.causes, t.total := reasons, index, causes, total;
    }
  }

  /** Each record with its Task's Facts. */
  function Carrying(records: seq<Record>, facts: Facts): seq<Item> {
    seq(|records|, (i: nat) requires i < |records| => Item(records[i], facts))
  }

  lemma NoneCarried(records: seq<Record>, facts: Facts)
    ensures Carrying(records[..0], facts) == []
  {
  }

  lemma OneCarried(items: seq<Item>, records: seq<Record>, facts: Facts, i: nat)
    requires i < |records|
    ensures items + Carrying(records[..i + 1], facts) == Plus(items + Carrying(records[..i], facts), Item(records[i], facts))
  {
    assert Carrying(records[..i + 1], facts) == Carrying(records[..i], facts) + [Item(records[i], facts)];
  }

  /** The index finds exactly the Reasons recorded. */
  lemma Found(reasons: seq<ReasonTally>, index: map<string, nat>, items: seq<Item>, r: string)
    requires Partition(reasons, index, items)
    ensures r in index ==> index[r] < |reasons| == |Reasons(items)| && Reasons(items)[index[r]] == r && reasons[index[r]] == Share(items, r)
    ensures r !in index ==> r !in Reasons(items) && Share(items, r) == ReasonTally(r, [], [])
  {
    hide Share, Reasons;
    if r in Reasons(items) {
      var k :| 0 <= k < |reasons| && Reasons(items)[k] == r;
      assert reasons[k] == Share(items, r);
    } else {
      UnderNew(items, r);
      assert Share(items, r) == ReasonTally(r, [], []) by {
        EmptyShare(items, r);
      }
    }
  }

  lemma EmptyShare(items: seq<Item>, r: string)
    requires Under(items, r) == []
    ensures Share(items, r) == ReasonTally(r, [], [])
  {
  }

  lemma ReasonsPlus(items: seq<Item>, item: Item)
    ensures Reasons(Plus(items, item)) ==
      if item.rec.reason in Reasons(items) then Reasons(items) else Reasons(items) + [item.rec.reason]
    ensures forall j, k :: 0 <= j < k < |Reasons(items)| ==> Reasons(items)[j] != Reasons(items)[k]
  {
    ReasonsOnce(items);
  }

  lemma PartKept(reasons: seq<ReasonTally>, index: map<string, nat>, items: seq<Item>, item: Item, k: nat)
    requires Partition(reasons, index, items) && k < |reasons| && Reasons(items)[k] != item.rec.reason
    ensures reasons[k] == Share(Plus(items, item), Reasons(items)[k])
    ensures Reasons(items)[k] in index && index[Reasons(items)[k]] == k
  {
    hide Share, Reasons;
    OtherShare(items, item, Reasons(items)[k]);
  }

  /** Replacing, or appending, one Reason's share records the item. */
  lemma Recorded(reasons: seq<ReasonTally>, index: map<string, nat>, items: seq<Item>, item: Item)
    requires Partition(reasons, index, items)
    ensures var r := item.rec.reason;
      var share := Share(Plus(items, item), r);
      if r in index then index[r] < |reasons| && Partition(reasons[index[r] := share], index, Plus(items, item))
      else Partition(reasons + [share], index[r := |reasons|], Plus(items, item))
  {
    hide Share, Under, Reasons, Plus;
    var r, after := item.rec.reason, Plus(items, item);
    var share, names := Share(after, r), Reasons(items);
    Found(reasons, index, items, r);
    ReasonsPlus(items, item);
    if r in index {
      var now := reasons[index[r] := share];
      forall k | 0 <= k < |now| ensures now[k] == Share(after, names[k]) && names[k] in index && index[names[k]] == k {
        if k != index[r] {
          PartKept(reasons, index, items, item, k);
        }
      }
    } else {
      var now, found := reasons + [share], index[r := |reasons|];
      forall k | 0 <= k < |reasons| ensures now[k] == Share(after, names[k]) && names[k] in found && found[names[k]] == k {
        PartKept(reasons, index, items, item, k);
      }
    }
  }

  lemma CausesPlus(items: seq<Item>, item: Item)
    ensures Causes(Plus(items, item)) == Causes(items) + item.rec.causes
  {
  }

  function Padded(r: ReasonTally, facts: Facts): seq<Facts> {
    if facts == [] && r.facts == [] then [] else r.facts + Blanks(|r.names| - |r.facts|) + [facts]
  }

  /** The padded append is the new share. */
  lemma SharePlus(items: seq<Item>, item: Item, known: seq<Facts>)
    requires known == Padded(Share(items, item.rec.reason), item.facts)
    ensures Share(Plus(items, item), item.rec.reason) ==
      ReasonTally(item.rec.reason, Share(items, item.rec.reason).names + [item.rec.name], known)
  {
    var was, now := Under(items, item.rec.reason), Under(Plus(items, item), item.rec.reason);
    assert now == was + [item];
    assert NamesOf(now) == NamesOf(was) + [item.rec.name];
    assert FactsOf(now) == FactsOf(was) + [item.facts];
    assert Factless(now) <==> Factless(was) && item.facts == [] by {
      assert now[|was|] == item;
      assert forall i :: 0 <= i < |was| ==> now[i] == was[i];
    }
    if Factless(was) {
      assert FactsOf(was) == Blanks(|was|);
    } else {
      assert FactsOf(was) != [];
    }
  }

  lemma OtherShare(items: seq<Item>, item: Item, reason: string)
    requires reason != item.rec.reason
    ensures Share(Plus(items, item), reason) == Share(items, reason)
  {
  }
}
