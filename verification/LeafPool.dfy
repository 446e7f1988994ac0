/** The pool that digests leaves concurrently (checksum/leafpool.go), and the walk
    that feeds it (checksum/tree.go). Leaves finish in any order and a failure
    cancels the rest; what the walk returns does not depend on it. */
module LeafPool {
  import opened Merkle
  import opened TreeWalk

  datatype Outcome = Digested(digest: Bytes) | Failed(error: string)

  datatype Landing = Landing(leaf: nat, outcome: Outcome)

  datatype Failure = NoFailure | First(error: string)

  // ---- the meaning --------------------------------------------------------

  /** What the leaves that returned, in that order, leave in their nodes. */
  function Digests(landed: seq<Landing>): map<nat, Bytes> {
    if landed == [] then map[]
    else
      var last := landed[|landed| - 1];
      var before := Digests(landed[..|landed| - 1]);
      if last.outcome.Digested? then before[last.leaf := last.outcome.digest] else before
  }

  function FirstFailure(landed: seq<Landing>): Failure {
    if landed == [] then NoFailure
    else
      var before := FirstFailure(landed[..|landed| - 1]);
      var last := landed[|landed| - 1].outcome;
      if before.NoFailure? && last.Failed? then First(last.error) else before
  }

  lemma {:induction false} FailureFound(landed: seq<Landing>)
    ensures FirstFailure(landed).NoFailure? <==> forall i :: 0 <= i < |landed| ==> landed[i].outcome.Digested?
  {
    if landed != [] {
      FailureFound(landed[..|landed| - 1]);
    }
  }

  /** Leaves that all returned what they come to leave that in their nodes. */
  lemma {:induction false} DigestsAre(landed: seq<Landing>, work: map<nat, Bytes>)
    requires forall i :: 0 <= i < |landed| ==>
      landed[i].leaf in work && landed[i].outcome == Digested(work[landed[i].leaf])
    ensures forall i :: 0 <= i < |landed| ==> landed[i].leaf in Digests(landed)
    ensures forall k :: k in Digests(landed) ==> k in work && Digests(landed)[k] == work[k]
  {
    if landed != [] {
      DigestsAre(landed[..|landed| - 1], work);
    }
  }

  // ---- the pool -----------------------------------------------------------

  class LeafPool {
    const slots: nat
    var busy: nat
    var digests: map<nat, Bytes>
    var err: Failure
    ghost var running: set<nat>
    ghost var landed: seq<Landing>

    ghost predicate Valid()
      reads this
    {
      busy == |running| <= slots && digests == Digests(landed) && err == FirstFailure(landed)
    }

    constructor (parallelism: nat)
      ensures Valid() && slots == parallelism && running == {} && landed == []
    {
      slots, busy, digests, err := parallelism, 0, map[], NoFailure;
      running, landed := {}, [];
    }

    /** Schedules leaf i: takes a slot, or, once the walk is cancelled, may do nothing.
        It blocks while every slot is busy, so it is never called then. */
    method Schedule(i: nat, cancelledFirst: bool) returns (scheduled: bool)
      requires Valid() && i !in running && (busy < slots || err != NoFailure)
      modifies this`busy, this`running
      ensures Valid() && scheduled == !(err != NoFailure && (cancelledFirst || old(busy) == slots))
      ensures running == old(running) + if scheduled then {i} else {}
    {
      if err != NoFailure && (cancelledFirst || busy == slots) {
        return false;
      }
      busy, running := busy + 1, running + {i};
      scheduled := true;
    }

    /** Leaf i's callback returned: its digest lands in its node, or its failure is
        kept if it is the first. */
    method Finish(i: nat, outcome: Outcome)
      requires Valid() && i in running
      modifies this`busy, this`running, this`landed, this`digests, this`err
      ensures Valid() && running == old(running) - {i} && landed == old(landed) + [Landing(i, outcome)]
    {
      assert (landed + [Landing(i, outcome)])[..|landed|] == landed;
      match outcome {
        case Failed(e) =>
          if err == NoFailure {
            err := First(e);
          }
        case Digested(d) =>
          digests := digests[i := d];
      }
      busy, running, landed := busy - 1, running - {i}, landed + [Landing(i, outcome)];
    }

    /** wait: nothing runs any more. The failure is that of the first leaf that
        failed; without one every leaf returned its digest. */
    method Wait() returns (failure: Failure)
      requires Valid() && running == {}
      ensures failure == FirstFailure(landed)
      ensures failure.NoFailure? <==> forall i :: 0 <= i < |landed| ==> landed[i].outcome.Digested?
    {
      FailureFound(landed);
      failure := err;
    }
  }

  // ---- what the walk meets ------------------------------------------------

  /** What the walk does at an entry it keeps: schedules a leaf, which comes to
      outcome, lists a directory, or fails to list or read one. */
  datatype Visit = Leaf(outcome: Outcome) | Lists | Unread

  predicate Bad(v: Visit) { v.Unread? || (v.Leaf? && v.outcome.Failed?) }

  ghost predicate AnyBad(vs: seq<Visit>) { exists i :: 0 <= i < |vs| && Bad(vs[i]) }

  const UNREADABLE := "unreadable"

  function VisitAll(h: Hash, ex: Exclusion, rel: Bytes, es: seq<Entry>): seq<Visit>
    decreases Sizes(es), 1, |es|
  {
    if es == [] then []
    else if Dropped(ex, rel, es[0]) then VisitAll(h, ex, rel, es[1..])
    else VisitEntry(h, ex, rel, es[0]) + VisitAll(h, ex, rel, es[1..])
  }

  function VisitEntry(h: Hash, ex: Exclusion, rel: Bytes, e: Entry): seq<Visit>
    decreases Size(e), 0, 0
  {
    match e
    case Dir(_, listing) => [Lists] + VisitAll(h, ex, ChildPath(rel, e), Sorted(listing))
    case File(_, _, content) => [Leaf(Digested(h(content)))]
    case Unreadable(_, k) => [if k == KindFile then Leaf(Failed(UNREADABLE)) else Unread]
    case _ => []
  }

  lemma AnyBadBoth(a: seq<Visit>, b: seq<Visit>)
    ensures AnyBad(a + b) <==> AnyBad(a) || AnyBad(b)
  {
    if AnyBad(b) {
      var i :| 0 <= i < |b| && Bad(b[i]);
      assert Bad((a + b)[|a| + i]);
    }
    if AnyBad(a) {
      var i :| 0 <= i < |a| && Bad(a[i]);
      assert Bad((a + b)[i]);
    }
  }

  /** The walk meets something bad exactly when the tree cannot be read. */
  lemma {:induction false} BadIsUnread(h: Hash, ex: Exclusion, rel: Bytes, es: seq<Entry>)
    ensures AnyBad(VisitAll(h, ex, rel, es)) <==> WalkAll(ex, rel, es).None?
    decreases Sizes(es), 1, |es|
  {
    if es != [] && Dropped(ex, rel, es[0]) {
      BadIsUnread(h, ex, rel, es[1..]);
    } else if es != [] {
      BadEntry(h, ex, rel, es[0]);
      BadIsUnread(h, ex, rel, es[1..]);
      AnyBadBoth(VisitEntry(h, ex, rel, es[0]), VisitAll(h, ex, rel, es[1..]));
    }
  }

  lemma {:induction false} BadEntry(h: Hash, ex: Exclusion, rel: Bytes, e: Entry)
    ensures AnyBad(VisitEntry(h, ex, rel, e)) <==> WalkEntry(ex, rel, e).None?
    decreases Size(e), 0, 0
  {
    match e
    case Dir(_, listing) =>
      BadIsUnread(h, ex, ChildPath(rel, e), Sorted(listing));
      AnyBadBoth([Lists], VisitAll(h, ex, ChildPath(rel, e), Sorted(listing)));
    case Unreadable(_, _) =>
      assert Bad(VisitEntry(h, ex, rel, e)[0]);
    case _ =>
  }

  // ---- the walk and the pool together -------------------------------------

  /** How far the walk is, the leaves running, returned and never scheduled, and
      whether the walk stopped on an error of its own. */
  datatype Progress = Progress(at: nat, running: set<nat>, landed: seq<Landing>, dropped: set<nat>, stopped: bool)

  const STARTED := Progress(0, {}, [], {}, false)

  /** A leaf failed, and the rest of the walk was cancelled with it. */
  predicate Cancelled(s: Progress) { FirstFailure(s.landed) != NoFailure }

  /** The walk's next entry. Once cancelled, a leaf may go unscheduled and a directory
      is not listed. */
  ghost predicate Visits(vs: seq<Visit>, slots: nat, a: Progress, b: Progress) {
    && !a.stopped && a.at < |vs|
    && match vs[a.at]
       case Leaf(_) =>
         || (|a.running| < slots && b == a.(at := a.at + 1, running := a.running + {a.at}))
         || (Cancelled(a) && b == a.(at := a.at + 1, dropped := a.dropped + {a.at}))
       case Lists => b == if Cancelled(a) then a.(stopped := true) else a.(at := a.at + 1)
       case Unread => b == a.(stopped := true)
  }

  /** Running leaf i returns what it comes to, or, once cancelled, possibly a failure. */
  ghost predicate Lands(vs: seq<Visit>, a: Progress, b: Progress, i: nat, o: Outcome) {
    && i in a.running && i < |vs| && vs[i].Leaf?
    && (o == vs[i].outcome || (Cancelled(a) && o.Failed?))
    && b == a.(running := a.running - {i}, landed := a.landed + [Landing(i, o)])
  }

  ghost predicate Goes(vs: seq<Visit>, slots: nat, a: Progress, b: Progress) {
    Visits(vs, slots, a, b) || exists i, o :: Lands(vs, a, b, i, o)
  }

  /** A whole walk, in one of its interleavings: nothing is left to do or running. */
  ghost predicate IsWalk(vs: seq<Visit>, slots: nat, states: seq<Progress>) {
    && states != [] && states[0] == STARTED
    && (forall k :: 0 <= k < |states| - 1 ==> Goes(vs, slots, states[k], states[k + 1]))
    && var last := states[|states| - 1];
       last.running == {} && (last.stopped || last.at == |vs|)
  }

  predicate WalkFails(s: Progress) { s.stopped || Cancelled(s) }

  ghost predicate HasLanded(s: Progress, i: nat) { exists k :: 0 <= k < |s.landed| && s.landed[k].leaf == i }

  /** Nothing failed so far unless something bad was met; until then every leaf met
      runs or returned what it comes to. */
  ghost predicate OnTrack(vs: seq<Visit>, s: Progress) {
    && s.at <= |vs| && (forall i :: i in s.running ==> i < s.at) && (WalkFails(s) ==> AnyBad(vs))
    && (!WalkFails(s) ==>
      && (forall i :: 0 <= i < s.at ==> !vs[i].Unread? && (vs[i].Leaf? ==> i in s.running || HasLanded(s, i)))
      && (forall k :: 0 <= k < |s.landed| ==>
        s.landed[k].leaf < s.at && vs[s.landed[k].leaf] == Leaf(s.landed[k].outcome)))
  }

  lemma StaysOnTrack(vs: seq<Visit>, slots: nat, a: Progress, b: Progress)
    requires OnTrack(vs, a) && Goes(vs, slots, a, b)
    ensures OnTrack(vs, b)
  {
    if Visits(vs, slots, a, b) {
      VisitOnTrack(vs, slots, a, b);
    } else {
      var i, o :| Lands(vs, a, b, i, o);
      LandOnTrack(vs, a, b, i, o);
    }
  }

  lemma VisitOnTrack(vs: seq<Visit>, slots: nat, a: Progress, b: Progress)
    requires OnTrack(vs, a) && Visits(vs, slots, a, b)
    ensures OnTrack(vs, b)
  {
    if vs[a.at].Unread? {
      assert Bad(vs[a.at]);
    }
    if !WalkFails(b) {
      forall i | 0 <= i < b.at && vs[i].Leaf? ensures i in b.running || HasLanded(b, i) {
        assert i < a.at ==> i in a.running || HasLanded(a, i);
        if i < a.at && HasLanded(a, i) {
          var k :| 0 <= k < |a.landed| && a.landed[k].leaf == i;
          assert b.landed[k].leaf == i;
        }
      }
    }
  }

  lemma LandOnTrack(vs: seq<Visit>, a: Progress, b: Progress, i: nat, o: Outcome)
    requires OnTrack(vs, a) && Lands(vs, a, b, i, o)
    ensures OnTrack(vs, b)
  {
    assert b.landed[..|a.landed|] == a.landed;
    if o.Failed? && !Cancelled(a) {
      assert Bad(vs[i]);
    }
    if !WalkFails(b) {
      forall j | 0 <= j < b.at && vs[j].Leaf? ensures j in b.running || HasLanded(b, j) {
        if j == i {
          assert b.landed[|a.landed|].leaf == i;
        } else if HasLanded(a, j) {
          var k :| 0 <= k < |a.landed| && a.landed[k].leaf == j;
          assert b.landed[k].leaf == j;
        }
      }
    }
  }

  lemma {:induction false} AllOnTrack(vs: seq<Visit>, slots: nat, states: seq<Progress>, k: nat)
    requires IsWalk(vs, slots, states) && k < |states|
    ensures OnTrack(vs, states[k])
  {
    if k > 0 {
      AllOnTrack(vs, slots, states, k - 1);
      StaysOnTrack(vs, slots, states[k - 1], states[k]);
    }
  }

  /** However the leaves interleave, the walk fails exactly when it meets something
      bad, and otherwise every leaf's digest is in its node. */
  lemma OrderDoesNotMatter(vs: seq<Visit>, slots: nat, states: seq<Progress>)
    requires IsWalk(vs, slots, states)
    ensures var last := states[|states| - 1];
      && (WalkFails(last) <==> AnyBad(vs))
      && (!WalkFails(last) ==> forall i: nat :: i < |vs| && vs[i].Leaf? ==>
           i in Digests(last.landed) && vs[i].outcome == Digested(Digests(last.landed)[i]))
  {
    var last := states[|states| - 1];
    AllOnTrack(vs, slots, states, |states| - 1);
    if !WalkFails(last) {
      FailureFound(last.landed);
      var work := map i: nat | 0 <= i < |vs| && vs[i].Leaf? && vs[i].outcome.Digested? :: vs[i].outcome.digest;
      DigestsAre(last.landed, work);
      forall i: nat | i < |vs| && vs[i].Leaf?
        ensures i in Digests(last.landed) && vs[i].outcome == Digested(Digests(last.landed)[i])
      {
        assert HasLanded(last, i);
        var k :| 0 <= k < |last.landed| && last.landed[k].leaf == i;
        assert last.landed[k].leaf in Digests(last.landed);
      }
    }
  }

  // ---- combining ----------------------------------------------------------

  /** combine over the nodes: a file's digest is the one that landed in its node. */
  function Combined(h: Hash, ex: Exclusion, rel: Bytes, es: seq<Entry>, nodes: map<nat, Bytes>, at: nat): Bytes
    decreases Sizes(es), 1, |es|
  {
    if es == [] then []
    else if Dropped(ex, rel, es[0]) then Combined(h, ex, rel, es[1..], nodes, at)
    else
      Frame(KindOf(es[0]), es[0].name, NodeDigest(h, ex, rel, es[0], nodes, at))
      + Combined(h, ex, rel, es[1..], nodes, at + |VisitEntry(h, ex, rel, es[0])|)
  }

  function NodeDigest(h: Hash, ex: Exclusion, rel: Bytes, e: Entry, nodes: map<nat, Bytes>, at: nat): Bytes
    decreases Size(e), 0, 0
  {
    match e
    case Dir(_, listing) => h(TREE_DOMAIN + Combined(h, ex, ChildPath(rel, e), Sorted(listing), nodes, at + 1))
    case File(_, _, _) => if at in nodes then nodes[at] else Zeros(DIGEST_LEN)
    case _ => DigestOf(h, e)
  }

  ghost predicate Landed(vs: seq<Visit>, nodes: map<nat, Bytes>, at: nat) {
    forall i: nat :: i < |vs| && vs[i].Leaf? ==> at + i in nodes && vs[i].outcome == Digested(nodes[at + i])
  }

  lemma LandedParts(a: seq<Visit>, b: seq<Visit>, nodes: map<nat, Bytes>, at: nat)
    requires Landed(a + b, nodes, at)
    ensures Landed(a, nodes, at) && Landed(b, nodes, at + |a|)
  {
    forall i: nat | i < |a| && a[i].Leaf? ensures at + i in nodes && a[i].outcome == Digested(nodes[at + i]) {
      assert (a + b)[i] == a[i];
    }
    forall i: nat | i < |b| && b[i].Leaf? ensures at + |a| + i in nodes && b[i].outcome == Digested(nodes[at + |a| + i]) {
      assert (a + b)[|a| + i] == b[i];
    }
  }

  lemma {:induction false} CombinedIs(h: Hash, ex: Exclusion, rel: Bytes, es: seq<Entry>, nodes: map<nat, Bytes>,
      at: nat)
    requires Landed(VisitAll(h, ex, rel, es), nodes, at) && WalkAll(ex, rel, es).Some?
    ensures Combined(h, ex, rel, es, nodes, at) == Frames(h, WalkAll(ex, rel, es).value)
    decreases Sizes(es), 1, |es|
  {
    hide Dropped, ChildPath, Uvarint, KindByte;
    if es != [] && Dropped(ex, rel, es[0]) {
      CombinedIs(h, ex, rel, es[1..], nodes, at);
    } else if es != [] {
      var v := VisitEntry(h, ex, rel, es[0]);
      LandedParts(v, VisitAll(h, ex, rel, es[1..]), nodes, at);
      NodeIs(h, ex, rel, es[0], nodes, at);
      CombinedIs(h, ex, rel, es[1..], nodes, at + |v|);
      var child, rest := WalkEntry(ex, rel, es[0]).value, WalkAll(ex, rel, es[1..]).value;
      assert ([child] + rest)[1..] == rest;
    }
  }

  lemma {:induction false} NodeIs(h: Hash, ex: Exclusion, rel: Bytes, e: Entry, nodes: map<nat, Bytes>, at: nat)
    requires Landed(VisitEntry(h, ex, rel, e), nodes, at) && WalkEntry(ex, rel, e).Some?
    ensures NodeDigest(h, ex, rel, e, nodes, at) == DigestOf(h, WalkEntry(ex, rel, e).value)
    ensures KindOf(WalkEntry(ex, rel, e).value) == KindOf(e) && WalkEntry(ex, rel, e).value.name == e.name
    decreases Size(e), 0, 0
  {
    match e
    case Dir(_, listing) =>
      LandedParts([Lists], VisitAll(h, ex, ChildPath(rel, e), Sorted(listing)), nodes, at);
      CombinedIs(h, ex, ChildPath(rel, e), Sorted(listing), nodes, at + 1);
    case File(_, _, content) =>
      assert VisitEntry(h, ex, rel, e)[0] == Leaf(Digested(h(content)));
    case _ =>
  }

  /** The whole walk: in every interleaving, cancelled ones included, it fails exactly
      when some leaf, listing or link it keeps cannot be read, and otherwise combines
      to the tree's digest. */
  lemma WalkIsTreeDigest(h: Hash, ex: Exclusion, listing: seq<Entry>, slots: nat, states: seq<Progress>)
    requires IsWalk(VisitAll(h, ex, ROOT, Sorted(listing)), slots, states)
    ensures var last := states[|states| - 1];
      TreeDigest(h, ex, listing) ==
        if WalkFails(last) then None
        else Some(h(TREE_DOMAIN + Combined(h, ex, ROOT, Sorted(listing), Digests(last.landed), 0)))
  {
    var vs, last := VisitAll(h, ex, ROOT, Sorted(listing)), states[|states| - 1];
    OrderDoesNotMatter(vs, slots, states);
    BadIsUnread(h, ex, ROOT, Sorted(listing));
    if !WalkFails(last) {
      CombinedIs(h, ex, ROOT, Sorted(listing), Digests(last.landed), 0);
    }
  }
}
