/** Failure lasts: a predecessor that reads failed goes on reading failed while a
    cascade runs, so whoever it kept from starting never starts. */
module Failures {
  import opened Outcomes
  import opened CollectionTally
  import opened Topology
  import opened Eligibility
  import opened WaitLists
  import opened RunState

  /** What reads failed through a reads failed through b. A membership newly sealed
      takes every member declared so far, and a hold goes only with its builder's
      failure on record. */
  ghost predicate FailureKept(a: Tally, b: Tally, declSeq: nat) {
    && b.members == a.members
    && (a.builderFailed ==> b.builderFailed)
    && (a.firstFailed != 0 ==> 0 < b.firstFailed <= a.firstFailed)
    && (a.sealed ==> b.sealed && b.sealedThrough == a.sealedThrough)
    && (!a.sealed && b.sealed ==> b.sealedThrough == declSeq)
    && (b.holds == a.holds || (b.holds < a.holds && b.builderFailed))
  }

  ghost predicate TaskFails(s: Sched, t: TaskId) {
    t < |s.state| == |s.phase| && TaskOutcome(V(s), t) == PredFailed
  }

  ghost predicate FailuresLast(a: Sched, b: Sched) {
    && |b.state| == |b.phase| == |a.state| == |a.phase| && |b.tally| == |a.tally|
    && b.entry == a.entry && b.draining == a.draining && b.declSeq == a.declSeq && b.named == a.named
    && (forall t: TaskId :: TaskFails(a, t) ==> TaskFails(b, t))
    && (forall c {:trigger b.tally[c]} :: 0 <= c < |a.tally| ==> FailureKept(a.tally[c], b.tally[c], a.declSeq))
  }

  lemma FailuresLastTwice(a: Sched, b: Sched, c: Sched)
    requires FailuresLast(a, b) && FailuresLast(b, c)
    ensures FailuresLast(a, c)
  {
    forall d | 0 <= d < |a.tally| ensures FailureKept(a.tally[d], c.tally[d], a.declSeq) {
      assert FailureKept(a.tally[d], b.tally[d], a.declSeq) && FailureKept(b.tally[d], c.tally[d], b.declSeq);
    }
  }

  /** Only outcomes, names and the declaration cursor matter. */
  lemma FailuresLastSame(a: Sched, b: Sched, a': Sched, b': Sched)
    requires FailuresLast(a, b)
    requires V(a') == V(a) && a'.declSeq == a.declSeq && a'.named == a.named
    requires V(b') == V(b) && b'.declSeq == b.declSeq && b'.named == b.named
    ensures FailuresLast(a', b')
  {
    forall t: TaskId | TaskFails(a', t) ensures TaskFails(b', t) {
      assert TaskFails(a, t);
      assert TaskFails(b, t);
    }
  }

  /** The earliest failures are of members already declared. */
  ghost predicate Bounded(s: Sched) {
    && s.declSeq < THROUGH_ALL
    && forall c {:trigger s.tally[c]} :: 0 <= c < |s.tally| ==> s.tally[c].firstFailed <= s.declSeq
  }

  lemma WholeBounded(s: Sched)
    requires Whole(s)
    ensures Bounded(s) && ViewOk(V(s)) && EachPredsOk(s.named, |s.state|, |s.tally|) && |s.named| == |s.state|
  {
    hide Tree, Life, Memory, Located, Edges, Led, QueueOk, Counts, Holds, Started, StartsPast, NoGate,
        GatesAlone;
    forall c | 0 <= c < |s.tally| ensures s.tally[c].firstFailed <= s.declSeq {
      var t := s.tally[c];
      assert Current(t, s.state) && MembersAt(s.info, s.cols, t, c);
    }
  }

  /** One predecessor that reads failed still does. */
  lemma {:induction false} FailedLasts(a: Sched, b: Sched, p: Pred)
    requires FailuresLast(a, b) && Bounded(a) && ViewOk(V(a)) && ViewOk(V(b)) && PredOk(p, |a.state|, |a.tally|)
    requires OutcomeOf(V(a), p).0 == PredFailed
    ensures OutcomeOf(V(b), p).0 == PredFailed
    decreases Rank(p), 1, 0
  {
    match p
    case Missing =>
    case OnTask(t) => assert TaskFails(a, t);
    case OnCol(c, through) =>
      var t, u := a.tally[c], b.tally[c];
      assert FailureKept(t, u, a.declSeq);
      var (cursor, open) := EdgeCursor(t, through, a.draining);
      var (cursor', open') := EdgeCursor(u, through, b.draining);
      if !t.builderFailed && !u.builderFailed && !open && !FailedThrough(t, cursor) {
        assert !HasMemberThrough(t, cursor) && !open' && !HasMemberThrough(u, cursor');
        EntryLasts(a, b, c, a.entry[c]);
      }
  }

  lemma {:induction false} EntryLasts(a: Sched, b: Sched, c: nat, es: seq<Pred>)
    requires FailuresLast(a, b) && Bounded(a) && ViewOk(V(a)) && ViewOk(V(b)) && c < |a.tally| && PredsOk(es, |a.state|, c)
    requires EntryOutcome(V(a), c, es).0 == PredFailed
    ensures EntryOutcome(V(b), c, es).0 == PredFailed
    decreases c + 1, 0, |es|
  {
    if OutcomeOf(V(a), es[0]).0 == PredFailed {
      FailedLasts(a, b, es[0]);
    } else {
      EntryLasts(a, b, c, es[1..]);
    }
  }

  /** Some predecessor x ever named reads failed: x can never start. */
  ghost predicate Doomed(s: Sched, x: nat) {
    && ViewOk(V(s)) && x < |s.named| && PredsOk(s.named[x], |s.state|, |s.tally|)
    && exists i :: 0 <= i < |s.named[x]| && OutcomeOf(V(s), s.named[x][i]).0 == PredFailed
  }

  lemma DoomedLasts(a: Sched, b: Sched, x: nat)
    requires Doomed(a, x) && FailuresLast(a, b) && Bounded(a)
    ensures Doomed(b, x)
  {
    var i :| 0 <= i < |a.named[x]| && OutcomeOf(V(a), a.named[x][i]).0 == PredFailed;
    FailedLasts(a, b, a.named[x][i]);
  }

  /** Who is refused for what a scan found is doomed. */
  lemma DoomedByScan(s: Sched, x: nat, scan: PredScan)
    requires ViewOk(V(s)) && x < |s.named| && PredsOk(s.named[x], |s.state|, |s.tally|)
    requires Scan(V(s), s.named[x], scan).0 == PredFailed
    ensures Doomed(s, x)
  {
    ScanFails(V(s), s.named[x], scan);
    var p := Scan(V(s), s.named[x], scan).1;
    var i :| 0 <= i < |s.named[x]| && s.named[x][i] == p;
  }

  /** Doom is read from the outcomes and the names alone. */
  lemma DoomedSame(a: Sched, b: Sched, x: nat)
    requires V(a) == V(b) && a.named == b.named
    ensures Doomed(a, x) == Doomed(b, x)
  {
  }
}
