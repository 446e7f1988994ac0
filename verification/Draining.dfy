/** The drain's fresh start (execution.go, eligibility.go): every parked Task is
    taken off its list and placed again, now that undefined Tasks and empty
    collections have stopped pending. */
module Draining {
  import opened Outcomes
  import opened CollectionTally
  import opened Topology
  import opened Eligibility
  import opened WaitLists
  import opened RunState
  import opened Placing
  import opened Failures
  import opened Cascades
  import opened Followers
  import opened Rest

  /** The parked Tasks among the first n, or the parked gates, in order. */
  function ParkedUpTo(info: seq<TaskInfo>, phase: seq<Phase>, gates: bool, n: nat): seq<TaskId>
    requires n <= |info| == |phase|
  {
    if n == 0 then []
    else ParkedUpTo(info, phase, gates, n - 1)
         + if phase[n - 1] == PhaseParked && (info[n - 1].gateFor >= 0) == gates then [n - 1] else []
  }

  lemma {:induction false} ParkedUpToOk(info: seq<TaskInfo>, phase: seq<Phase>, gates: bool, n: nat)
    requires n <= |info| == |phase|
    ensures forall x: nat :: x in ParkedUpTo(info, phase, gates, n) <==>
              x < n && phase[x] == PhaseParked && (info[x].gateFor >= 0) == gates
    ensures forall i, j :: 0 <= i < j < |ParkedUpTo(info, phase, gates, n)| ==>
              ParkedUpTo(info, phase, gates, n)[i] < ParkedUpTo(info, phase, gates, n)[j]
  {
    if n > 0 {
      ParkedUpToOk(info, phase, gates, n - 1);
      var rest := ParkedUpTo(info, phase, gates, n - 1);
      forall i | 0 <= i < |rest| ensures rest[i] < n - 1 {
        assert rest[i] in rest;
      }
    }
  }

  /** Every parked Task: the run's Tasks, then its gates. */
  function AllParked(s: Sched): seq<TaskId>
    requires |s.info| == |s.phase|
  {
    ParkedUpTo(s.info, s.phase, false, |s.info|) + ParkedUpTo(s.info, s.phase, true, |s.info|)
  }

  lemma AllParkedOk(s: Sched)
    requires |s.info| == |s.phase|
    ensures forall x: nat :: x in AllParked(s) <==> x < |s.phase| && s.phase[x] == PhaseParked
    ensures forall i, j :: 0 <= i < j < |AllParked(s)| ==> AllParked(s)[i] != AllParked(s)[j]
  {
    var tasks, gates := ParkedUpTo(s.info, s.phase, false, |s.info|), ParkedUpTo(s.info, s.phase, true, |s.info|);
    ParkedUpToOk(s.info, s.phase, false, |s.info|);
    ParkedUpToOk(s.info, s.phase, true, |s.info|);
    forall i, j | 0 <= i < |tasks| && 0 <= j < |gates| ensures tasks[i] != gates[j] {
      assert tasks[i] in tasks && gates[j] in gates;
    }
  }

  function Unparked(t: Tally): Tally { t.(parked := [], open := []) }

  function UnparkedAll(tally: seq<Tally>): (r: seq<Tally>)
    ensures |r| == |tally| && forall c :: 0 <= c < |r| ==> r[c] == Unparked(tally[c])
  {
    seq(|tally|, c requires 0 <= c < |tally| => Unparked(tally[c]))
  }

  function NoDependents(dependents: seq<seq<TaskId>>): (r: seq<seq<TaskId>>)
    ensures |r| == |dependents| && forall x :: 0 <= x < |r| ==> r[x] == []
  {
    seq(|dependents|, x requires 0 <= x < |dependents| => [])
  }

  /** The run with every parked Task in hand. */
  function Drained(s: Sched): Sched {
    s.(draining := true, drainAt := if s.draining then s.drainAt else s.declSeq,
       dependents := NoDependents(s.dependents), tally := UnparkedAll(s.tally), loc := Cleared(s.loc))
  }

  lemma TalliesUnparked(tally: seq<Tally>, state: seq<EntityState>, cols: seq<ColInfo>, draining: bool)
    requires Tallies(tally, state, cols, -1, draining)
    ensures Tallies(UnparkedAll(tally), state, cols, -1, true)
  {
  }

  lemma HoldsUnparked(info: seq<TaskInfo>, cols: seq<ColInfo>, state: seq<EntityState>, tally: seq<Tally>)
    requires Holds(info, cols, state, tally, -1)
    ensures Holds(info, cols, state, UnparkedAll(tally), -1)
  {
  }

  lemma MembersUnparked(info: seq<TaskInfo>, cols: seq<ColInfo>, tally: seq<Tally>)
    requires Members(info, cols, tally)
    ensures Members(info, cols, UnparkedAll(tally))
  {
    forall c | 0 <= c < |cols| ensures MembersAt(info, cols, UnparkedAll(tally)[c], c) {
      assert MembersAt(info, cols, tally[c], c);
    }
  }

  lemma StartedUnparked(s: Sched)
    requires Started(s.named, s.phase, s.startedAt, s.state, s.tally)
    ensures Started(s.named, s.phase, s.startedAt, s.state, UnparkedAll(s.tally))
  {
    forall x, p | 0 <= x < |s.phase| && s.phase[x] == PhaseRunning && p in s.named[x]
      ensures Secured(p, s.startedAt[x], s.state, UnparkedAll(s.tally))
    {
      assert Secured(p, s.startedAt[x], s.state, s.tally);
    }
  }

  lemma LocatedDrained(s: Sched)
    requires Located(ListsOf(s), s.loc, s.phase) && s.woken == []
    ensures Located(ListsOf(Drained(s)), Cleared(s.loc), s.phase)
  {
    var w, w' := ListsOf(s), ListsOf(Drained(s));
    forall g: Loc | g != InQueue ensures ListAt(w', g) == multiset{} {
      match g
      case AtTask(t) =>
      case AtOpen(c) =>
      case AtClosed(c) =>
        if c < |w'.tally| {
          assert Sts(w'.tally[c].parked) == [];
        }
      case _ =>
    }
    ClearAll(w, w', s.loc, s.phase);
  }

  lemma DrainedOk(s: Sched)
    requires Whole(s) && s.woken == []
    ensures Whole(Drained(s))
  {
    hide Static, Tree, Members, Life, NamedOk, Memory, Tallies, Located, QueueOk, Counts, Holds, Started, NoGate;
    TalliesUnparked(s.tally, s.state, s.cols, s.draining);
    HoldsUnparked(s.info, s.cols, s.state, s.tally);
    MembersUnparked(s.info, s.cols, s.tally);
    StartedUnparked(s);
    LocatedDrained(s);
  }

  /** Afterwards exactly the parked Tasks are in hand. */
  lemma DrainStarts(s: Sched)
    requires Good(s)
    ensures |s.info| == |s.phase|
    ensures var r := Drained(s);
      && Whole(r) && !r.waking && r.woken == []
      && (forall x: nat :: x in InHands(r) <==> x in AllParked(s))
      && (forall x :: x in InHands(r) ==> x < |r.phase| && r.phase[x] == PhaseParked)
  {
    hide Static, Tree, Members, Life, NamedOk, Memory, Tallies, Edges, Led, QueueOk, Counts, Holds, Started,
        StartsPast, NoGate, GatesAlone, Stops;
    DrainedOk(s);
    AllParkedOk(s);
    var r := Drained(s);
    forall x: nat ensures x in InHands(r) <==> x in AllParked(s) {
      assert x !in InHands(s);
    }
  }

  /** Parked Tasks not yet placed again are in hand, as they were. */
  lemma StillInHand(r: Sched, s: Sched, x: TaskId)
    requires Whole(s) && HandsStill(r, s) && x in InHands(s) && x in InHands(r)
    requires forall y :: y in InHands(r) ==> y < |r.phase| && r.phase[y] == PhaseParked
    ensures x < |s.phase| && x < |s.state| && InHand(s, x) && s.phase[x] == PhaseParked && !IsTerminal(s.state[x])
  {
    hide Static, Tree, Members, NamedOk, Memory, Tallies, Located, Edges, Led, QueueOk, Counts, Holds, Started,
        StartsPast, NoGate, GatesAlone;
  }

  lemma StillTwice(a: Sched, b: Sched, c: Sched)
    requires HandsStill(a, b) && HandsStill(b, c) && InHands(c) <= InHands(b)
    ensures HandsStill(a, c)
  {
  }

  /** On the way from a to b, x was placed by what all its predecessors say. */
  ghost predicate Rescanned(a: Sched, b: Sched, x: TaskId) {
    exists m, n :: Cascaded(a, m, -1) && Cascaded(n, b, -1) && Readable(m, x) && PlacedBy(m, n, x, ScanAll)
  }

  lemma RescannedNext(a: Sched, s: Sched, t: Sched, parked: seq<TaskId>, i: nat)
    requires i < |parked| && Whole(s) && Whole(t) && Cascaded(a, s, -1) && Cascaded(s, t, -1)
    requires forall j :: 0 <= j < i ==> Rescanned(a, s, parked[j])
    requires Readable(s, parked[i]) && PlacedBy(s, t, parked[i], ScanAll)
    ensures forall j :: 0 <= j < i + 1 ==> Rescanned(a, t, parked[j])
  {
    hide Cascaded, Inv, PlacedBy;
    LifeOf(t);
    CascadeNone(t, -1);
    assert Rescanned(a, t, parked[i]);
    forall j | 0 <= j < i ensures Rescanned(a, t, parked[j]) {
      var x := parked[j];
      var m, n :| Cascaded(a, m, -1) && Cascaded(n, s, -1) && Readable(m, x) && PlacedBy(m, n, x, ScanAll);
      CascadeTwice(n, s, t, -1);
    }
  }

  /** Whoever named a Task that can no longer be Done, or one nobody will hand in now, is
      refused by its rescan. */
  lemma RescanRefuses(s: Sched, b: Sched, x: TaskId)
    requires Rescanned(Drained(s), b, x) && |s.state| == |s.phase| && Life(s.state, s.phase)
    requires NamesFailed(s, x) || NamesUnsubmitted(s, x)
    ensures x < |b.state| && b.state[x] == NotStarted
  {
    hide PlacedBy, FailuresLast, TallyGrows, Doomed, Readable;
    var a := Drained(s);
    var m, n :| Cascaded(a, m, -1) && Cascaded(n, b, -1) && Readable(m, x) && PlacedBy(m, n, x, ScanAll);
    DrainedFrame(s);
    StillRefused(s, m, x);
    if NamesFailed(m, x) {
      PlacedAfterFailed(m, n, x);
    } else {
      PlacedUndefined(m, n, x);
    }
    PlacedIn(m, n, x);
    assert CascadedTask(n, b, x);
  }

  lemma PlacedIn(m: Sched, n: Sched, x: TaskId)
    requires Readable(m, x) && PlacedBy(m, n, x, ScanAll)
    ensures x < |n.state| && x < |n.phase|
  {
  }

  lemma DrainedFrame(s: Sched)
    ensures var a := Drained(s); a.state == s.state && a.phase == s.phase && a.named == s.named && a.draining
  {
  }

  lemma StillRefused(s: Sched, m: Sched, x: TaskId)
    requires Cascaded(Drained(s), m, -1) && |s.state| == |s.phase| && Life(s.state, s.phase)
    requires NamesFailed(s, x) || NamesUnsubmitted(s, x)
    ensures m.draining && (NamesFailed(m, x) || NamesUnsubmitted(m, x))
  {
    hide FailuresLast, TallyGrows, Doomed, Drained;
    DrainedFrame(s);
    if NamesFailed(s, x) {
      var p :| p in s.named[x] && p.OnTask? && p.t < |s.state| && s.state[p.t] in {Failed, Blocked, Cancelled, NotStarted};
      assert CascadedTask(Drained(s), m, p.t);
      assert p in m.named[x] && m.state[p.t] == s.state[p.t];
    } else {
      var p :| p in s.named[x] && NeverSubmitted(s, x, p);
      assert CascadedTask(Drained(s), m, p.t);
      assert p in m.named[x] && NeverSubmitted(m, x, p);
    }
  }

  /** While draining nobody is open on a membership that could still be sealed. */
  lemma DrainingWakesNobody(s: Sched, c: nat)
    requires Whole(s) && c < |s.cols|
    ensures c < |s.tally| && (s.draining ==> SealWakes(s.tally[c]) == [])
  {
    hide Static, Tree, Members, Life, NamedOk, Memory, Located, Edges, Led, QueueOk, Counts, Holds, GatesKnown, Started,
        StartsPast, NoGate, GatesAlone, Current;
    assert c < |s.tally| && TallyAt(s.tally[c], |s.state|, s.draining);
  }

  lemma DrainEnds(s: Sched, t: Sched)
    requires Good(s) && Whole(t) && Cascaded(Drained(s), t, -1)
    requires !t.waking && t.woken == [] && InHands(t) == {}
    ensures Good(t) && Advances(s, t) && t.inflight == s.inflight && t.draining
  {
    hide Static, Tree, Members, NamedOk, Memory, Tallies, Located, Edges, Led, QueueOk, Counts, Holds, Started,
        StartsPast, NoGate, GatesAlone;
    var r := Drained(s);
    CascadeKeepsHalts(r, t, -1);
    assert HaltsKept(s, t) by {
      forall x | HaltedTask(s, x) ensures HaltedTask(t, x) {
        assert HaltedTask(r, x);
      }
    }
    StopsKept(s, t);
    CascadeAdvances(r, t);
    forall c | 0 <= c < |s.tally| ensures TallyAdvances(s.tally[c], t.tally[c]) {
      assert TallyAdvances(r.tally[c], t.tally[c]);
    }
  }
}
