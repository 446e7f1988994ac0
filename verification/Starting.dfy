/** The steps by which a Task is submitted, starts, and gives its slot back
    (execution.go). Each is a function of the whole state with a proof that it
    keeps the invariant. */
module Starting {
  import opened Outcomes
  import opened CollectionTally
  import opened Topology
  import opened Eligibility
  import opened WaitLists
  import opened RunState
  import opened Placing
  import opened Settling
  import opened Failures
  import opened Cascades
  import opened Followers
  import opened Rest
  import Order = LedgerOrder

  // ---- submitting ---------------------------------------------------------

  function SubmittedTask(s: Sched, x: TaskId): Sched
    requires x < |s.phase|
  {
    s.(phase := s.phase[x := PhaseQueued], wg := s.wg + 1)
  }

  lemma CountsSubmitted(phase: seq<Phase>, parked: int, wg: int, executing: int, inflight: int, claimed: set<TaskId>,
      x: TaskId)
    requires Counts(phase, parked, wg, executing, inflight, claimed) && x < |phase| && phase[x] == PhaseDeclared
    ensures Counts(phase[x := PhaseQueued], parked, wg + 1, executing, inflight, claimed)
  {
    CountPhaseUpdate(phase, x, PhaseQueued, PhaseParked);
    CountPhaseUpdate(phase, x, PhaseQueued, PhaseQueued);
  }

  /** A submitted Task reads pending to everybody: nobody was parked on it for
      being failed. */
  lemma EdgesSubmitted(v: View, loc: seq<Loc>, edge: seq<Pred>, x: TaskId)
    requires Edges(v, loc, edge, -1) && x < |loc| && v.phase[x] == PhaseDeclared
    ensures Edges(v.(phase := v.phase[x := PhaseQueued]), loc, edge, -1)
  {
    var v' := v.(phase := v.phase[x := PhaseQueued]);
    forall y | 0 <= y < |loc| ensures EdgeAt(v', y, loc[y], edge[y], -1) {
      assert EdgeAt(v, y, loc[y], edge[y], -1);
    }
  }

  lemma SubmittedOk(s: Sched, x: TaskId)
    requires Whole(s) && x < |s.phase| && x < |s.state| && s.phase[x] == PhaseDeclared && !IsTerminal(s.state[x])
    ensures Whole(SubmittedTask(s, x)) && InHand(SubmittedTask(s, x), x)
  {
    hide Static, Tree, Members, NamedOk, Memory, Tallies, Located, Edges, Led, QueueOk, Counts, Holds, Started,
        StartsPast, NoGate, GatesAlone;
    Submitted(ListsOf(s), x, s.loc, s.phase);
    NotWaiting(ListsOf(s), x, s.loc, s.phase);
    EdgesSubmitted(V(s), s.loc, s.edge, x);
    CountsSubmitted(s.phase, s.parked, s.wg, s.executing, s.inflight, s.claimed, x);
    StartedRephase(s.named, s.phase, s.startedAt, s.state, s.tally, x, PhaseQueued);
  }

  lemma NotWaiting(w: Lists, x: TaskId, loc: seq<Loc>, phase: seq<Phase>)
    requires Located(w, loc, phase) && x < |loc| && !Awaiting(phase[x])
    ensures loc[x] == Off
  {
  }

  // ---- starting -----------------------------------------------------------

  /** The state a claimed Task is shown in: its gate, or a Task with evidence of
      its own already, is not promoted. */
  function StartState(info: TaskInfo, st: EntityState): EntityState {
    if info.gateFor < 0 && st == Pending then Running else st
  }

  ghost function ClaimedTask(s: Sched, x: TaskId): Sched
    requires x < |s.phase| && x < |s.loc| && x < |s.state| && x < |s.info| && x < |s.startedAt|
  {
    s.(state := s.state[x := StartState(s.info[x], s.state[x])],
       phase := s.phase[x := PhaseRunning],
       loc := s.loc[x := Off],
       startedAt := s.startedAt[x := s.declSeq],
       claimed := s.claimed + {x},
       executing := s.executing + 1,
       inflight := s.inflight + 1)
  }

  /** now is was with no Task's outcome changed. */
  ghost predicate SameOutcomes(was: seq<EntityState>, now: seq<EntityState>) {
    && |now| == |was|
    && forall i :: 0 <= i < |was| ==>
         && StateOutcome(now[i]) == StateOutcome(was[i])
         && (IsTerminal(was[i]) || IsTerminal(now[i]) ==> now[i] == was[i])
  }

  lemma StartKeepsOutcomes(s: Sched, x: TaskId)
    requires x < |s.state| && x < |s.info|
    ensures SameOutcomes(s.state, s.state[x := StartState(s.info[x], s.state[x])])
  {
  }

  lemma TalliesSameOutcomes(tally: seq<Tally>, was: seq<EntityState>, now: seq<EntityState>, cols: seq<ColInfo>,
      draining: bool)
    requires Tallies(tally, was, cols, -1, draining) && SameOutcomes(was, now)
    ensures Tallies(tally, now, cols, -1, draining)
  {
    forall c | 0 <= c < |tally| ensures Current(tally[c], now) {
      PrefixAgrees(tally[c].members, now, was);
      EarliestAgrees(tally[c].members, now, was);
    }
  }

  lemma {:induction false} GatesSameOutcomes(info: seq<TaskInfo>, cols: seq<ColInfo>, was: seq<EntityState>,
      now: seq<EntityState>, c: int, n: nat)
    requires n <= |info| == |was| && SameOutcomes(was, now)
    ensures PendingGates(info, cols, now, c, n) == PendingGates(info, cols, was, c, n)
  {
    if n > 0 {
      GatesSameOutcomes(info, cols, was, now, c, n - 1);
    }
  }

  lemma HoldsSameOutcomes(info: seq<TaskInfo>, cols: seq<ColInfo>, was: seq<EntityState>, now: seq<EntityState>,
      tally: seq<Tally>)
    requires Holds(info, cols, was, tally, -1) && SameOutcomes(was, now)
    ensures Holds(info, cols, now, tally, -1)
  {
    forall c | 0 <= c < |cols|
      ensures tally[c].holds == PendingGates(info, cols, now, c, |info|) + (if OnChain(cols, -1, c) then 1 else 0)
    {
      GatesSameOutcomes(info, cols, was, now, c, |info|);
    }
  }

  lemma MemorySameOutcomes(named: seq<seq<Pred>>, preds: seq<seq<Pred>>, was: seq<EntityState>, now: seq<EntityState>)
    requires Memory(named, preds, was) && SameOutcomes(was, now)
    ensures Memory(named, preds, now)
  {
    forall y | 0 <= y < |named| ensures Forgets(named[y], preds[y], now) {
      ForgetsLater(named[y], preds[y], was, now);
    }
  }

  lemma EdgesClaimed(v: View, loc: seq<Loc>, edge: seq<Pred>, x: TaskId, now: seq<EntityState>)
    requires Edges(v, loc, edge, -1) && x < |loc| && v.phase[x] == PhaseQueued && SameOutcomes(v.state, now)
    ensures Edges(v.(state := now, phase := v.phase[x := PhaseRunning]), loc[x := Off], edge, -1)
  {
    var v' := v.(state := now, phase := v.phase[x := PhaseRunning]);
    var loc' := loc[x := Off];
    forall y | 0 <= y < |loc'| ensures EdgeAt(v', y, loc'[y], edge[y], -1) {
      assert EdgeAt(v, y, loc[y], edge[y], -1);
    }
  }

  lemma CountsClaimed(phase: seq<Phase>, parked: int, wg: int, executing: int, inflight: int, claimed: set<TaskId>,
      x: TaskId)
    requires Counts(phase, parked, wg, executing, inflight, claimed) && x < |phase| && phase[x] == PhaseQueued
    ensures Counts(phase[x := PhaseRunning], parked, wg, executing + 1, inflight + 1, claimed + {x})
  {
    CountPhaseUpdate(phase, x, PhaseRunning, PhaseParked);
    CountPhaseUpdate(phase, x, PhaseRunning, PhaseQueued);
    assert x !in claimed;
  }

  /** The predecessor that reads succeeded when a Task starts is secured: what it
      held the Task to has succeeded, whatever is declared later. */
  lemma StartSecures(s: Sched, p: Pred)
    requires ViewOk(V(s)) && PredOk(p, |s.state|, |s.tally|) && Tallies(s.tally, s.state, s.cols, -1, s.draining)
    requires StartsPast(s.startedAt, s.tally, s.declSeq) && s.declSeq < THROUGH_ALL
    requires p.OnCol? ==> p.through <= s.declSeq
    requires OutcomeOf(V(s), p).0 == PredSucceeded
    ensures Secured(p, s.declSeq, s.state, s.tally)
  {
    if p.OnCol? {
      var t := s.tally[p.c];
      assert Current(t, s.state);
      forall i | 0 <= i < |t.members| && t.members[i].declaration <= HeldThrough(t, p.through, s.declSeq)
        ensures SucceededIn(t.members[i], s.state)
      {
        SucceededEdgeMeansMembers(V(s), p.c, p.through, i);
      }
    }
  }

  lemma SecuredSame(p: Pred, at: nat, was: seq<EntityState>, now: seq<EntityState>, tally: seq<Tally>)
    requires Secured(p, at, was, tally) && SameOutcomes(was, now)
    ensures Secured(p, at, now, tally)
  {
  }

  lemma StartedClaimed(s: Sched, x: TaskId, now: seq<EntityState>)
    requires Started(s.named, s.phase, s.startedAt, s.state, s.tally) && SameOutcomes(s.state, now) && x < |s.phase|
    requires forall p :: p in s.named[x] ==> Secured(p, s.declSeq, s.state, s.tally)
    ensures Started(s.named, s.phase[x := PhaseRunning], s.startedAt[x := s.declSeq], now, s.tally)
  {
    var phase', at' := s.phase[x := PhaseRunning], s.startedAt[x := s.declSeq];
    forall y, p | 0 <= y < |phase'| && phase'[y] == PhaseRunning && p in s.named[y] ensures Secured(p, at'[y], now, s.tally) {
      SecuredSame(p, at'[y], s.state, now, s.tally);
    }
  }

  /** Every predecessor x ever named reads succeeded. */
  ghost predicate AllSucceeded(s: Sched, x: TaskId) {
    && Readable(s, x)
    && forall i :: 0 <= i < |s.named[x]| ==> OutcomeOf(V(s), s.named[x][i]).0 == PredSucceeded
  }

  lemma NamedSecured(s: Sched, x: TaskId)
    requires Whole(s) && AllSucceeded(s, x)
    ensures forall p :: p in s.named[x] ==> Secured(p, s.declSeq, s.state, s.tally)
  {
    hide Tree, Members, Life, Memory, Located, Edges, Led, QueueOk, Counts, Holds, Started,
        StartsPast, NoGate, GatesAlone, Tallies, OutcomeOf, ViewOk;
    forall p | p in s.named[x] ensures Secured(p, s.declSeq, s.state, s.tally) {
      var i :| 0 <= i < |s.named[x]| && s.named[x][i] == p;
      assert PredOk(p, |s.state|, |s.tally|);
      StartSecures(s, p);
    }
  }

  lemma LifeClaimed(state: seq<EntityState>, phase: seq<Phase>, x: TaskId, now: seq<EntityState>)
    requires Life(state, phase) && x < |phase| && SameOutcomes(state, now)
    ensures Life(now, phase[x := PhaseRunning])
  {
  }

  lemma StartsPastNow(startedAt: seq<nat>, tally: seq<Tally>, declSeq: nat, x: nat)
    requires StartsPast(startedAt, tally, declSeq) && x < |startedAt|
    ensures StartsPast(startedAt[x := declSeq], tally, declSeq)
  {
  }

  /** A Task claimed when all its predecessors read succeeded starts safely. */
  lemma ClaimedOk(s: Sched, x: TaskId)
    requires Whole(s) && x < |s.phase| && s.phase[x] == PhaseQueued && AllSucceeded(s, x)
    ensures x < |s.loc| && x < |s.state| && x < |s.info| && x < |s.startedAt|
    ensures Whole(ClaimedTask(s, x))
  {
    hide Static, Tree, Members, Life, NamedOk, Memory, Tallies, Located, Edges, Led, QueueOk, Counts, Holds,
        Started, StartsPast, NoGate, GatesAlone, AllSucceeded, StartState, SameOutcomes;
    var now := s.state[x := StartState(s.info[x], s.state[x])];
    NamedSecured(s, x);
    StartKeepsOutcomes(s, x);
    LifeClaimed(s.state, s.phase, x, now);
    MemorySameOutcomes(s.named, s.preds, s.state, now);
    TalliesSameOutcomes(s.tally, s.state, now, s.cols, s.draining);
    Depart(ListsOf(s), x, s.loc, s.phase, PhaseRunning);
    EdgesClaimed(V(s), s.loc, s.edge, x, now);
    LedDecided(s.entry, s.preds, s.loc, s.edge, x);
    CountsClaimed(s.phase, s.parked, s.wg, s.executing, s.inflight, s.claimed, x);
    HoldsSameOutcomes(s.info, s.cols, s.state, now, s.tally);
    StartedClaimed(s, x, now);
    StartsPastNow(s.startedAt, s.tally, s.declSeq, x);
  }

  // ---- giving the slot back -----------------------------------------------

  ghost function FinishedTask(s: Sched, x: TaskId): Sched {
    s.(claimed := s.claimed - {x}, inflight := s.inflight - 1, executing := s.executing - 1, wg := s.wg - 1)
  }

  lemma FinishedOk(s: Sched, x: TaskId)
    requires Whole(s) && x in s.claimed
    ensures Whole(FinishedTask(s, x))
  {
    hide Static, Tree, Members, Life, NamedOk, Memory, Tallies, Located, Edges, Led, QueueOk, Holds, Started,
        StartsPast, NoGate, GatesAlone;
  }

  lemma FinishedGood(s: Sched, x: TaskId)
    requires Good(s) && x in s.claimed
    ensures Good(FinishedTask(s, x)) && Advances(s, FinishedTask(s, x))
  {
    hide Static, Tree, Members, Life, NamedOk, Memory, Tallies, Located, Edges, Led, QueueOk, Counts, Holds,
        Started, StartsPast, NoGate, GatesAlone;
    FinishedOk(s, x);
    StopsKept(s, FinishedTask(s, x));
  }

  // ---- a submitted Task is placed at once ---------------------------------

  lemma SubmitStarts(s: Sched, x: TaskId)
    requires Good(s) && x < |s.phase| && x < |s.state| && s.phase[x] == PhaseDeclared && !IsTerminal(s.state[x])
    ensures var r := SubmittedTask(s, x);
      Whole(r) && InHand(r, x) && InHands(r) == {x} && !r.waking && r.woken == []
  {
    hide Static, Tree, Members, NamedOk, Memory, Tallies, Edges, Led, QueueOk, Counts, Holds, Started,
        StartsPast, NoGate, GatesAlone, Stops;
    SubmittedOk(s, x);
    var r := SubmittedTask(s, x);
    forall y ensures y in InHands(r) <==> y == x {
      assert y !in InHands(s);
    }
  }

  lemma SubmitEnds(s: Sched, t: Sched, x: TaskId)
    requires Good(s) && x < |s.phase| && x < |s.state| && s.phase[x] == PhaseDeclared && !IsTerminal(s.state[x])
    requires Whole(t) && Cascaded(SubmittedTask(s, x), t, x) && InHands(t) == {} && !t.waking && t.woken == []
    requires t.phase[x] != PhaseRunning && t.phase[x] != PhaseDeclared
    ensures Good(t) && Advances(s, t) && t.inflight == s.inflight
  {
    hide Static, Tree, Members, NamedOk, Memory, Tallies, Located, Edges, Led, QueueOk, Counts, Holds, Started,
        StartsPast, NoGate, GatesAlone, StoppedAt, AboveStopped;
    var r := SubmittedTask(s, x);
    forall y: nat ensures HaltedTask(s, y) ==> HaltedTask(t, y) {
      assert y < |s.state| && y != x ==> CascadedTask(r, t, y);
    }
    StopsKept(s, t);
    forall y | 0 <= y < |s.state| && IsTerminal(s.state[y]) ensures t.state[y] == s.state[y] {
      assert CascadedTask(r, t, y);
    }
    forall y | 0 <= y < |t.phase| ensures t.phase[y] == PhaseRunning <==> s.phase[y] == PhaseRunning {
      assert y != x ==> CascadedTask(r, t, y);
    }
    forall y | 0 <= y < |t.phase|
      ensures s.phase[y] != PhaseDeclared ==> t.phase[y] != PhaseDeclared
      ensures s.phase[y] == PhaseAbandoned ==> t.phase[y] == PhaseAbandoned
    {
      assert y != x ==> CascadedTask(r, t, y);
    }
    forall c | 0 <= c < |s.tally| ensures TallyAdvances(s.tally[c], t.tally[c]) {
      assert TallyGrows(r.tally[c], t.tally[c], r.declSeq);
    }
  }

  lemma PlacedNotRunning(a: Sched, b: Sched, x: TaskId, scan: PredScan)
    requires Readable(a, x) && PlacedBy(a, b, x, scan) && Cascaded(a, b, -1)
    requires x < |a.phase| && Awaiting(a.phase[x]) && x < |a.state|
    ensures x < |b.phase| && b.phase[x] != PhaseRunning && b.phase[x] != PhaseDeclared && Cascaded(a, b, x)
  {
    assert CascadedTask(a, b, x);
  }

  // ---- the head of the queue ----------------------------------------------

  /** x is live at the head of the ready queue. */
  ghost predicate HeadOf(s: Sched, x: TaskId) {
    && s.queue != [] && s.queue[0] == x
    && x < |s.loc| && x < |s.phase| && x < |s.state|
    && s.loc[x] == InQueue && s.phase[x] == PhaseQueued && !IsTerminal(s.state[x])
  }

  /** A queue entry is live when its Task still awaits its start in the queue. */
  lemma HeadLive(s: Sched)
    requires Quiet(s) && s.queue != []
    ensures var x := s.queue[0];
      && x < |s.phase| && x < |s.state| && x < |s.loc| && x < |s.info| == |s.phase|
      && (if s.phase[x] == PhaseQueued && !IsTerminal(s.state[x]) then HeadOf(s, x)
          else DroppedHead(s) == s.(queue := s.queue[1..]) && Quiet(DroppedHead(s)) && Cascaded(s, DroppedHead(s), -1))
  {
    hide Static, Tree, Members, NamedOk, Memory, Tallies, Edges, Led, QueueOk, Counts, Holds, Started,
        StartsPast, NoGate, GatesAlone;
    DroppedHeadOk(s, -1, -1, -1);
    var x := s.queue[0];
    assert x !in InHands(s);
    assert InHands(s.(queue := s.queue[1..])) == InHands(s);
    CascadeOfLists(s, DroppedHead(s));
  }

  lemma HeadDropped(s: Sched, x: TaskId)
    requires Quiet(s) && HeadOf(s, x)
    ensures var r := DroppedHead(s);
      && Whole(r) && InHand(r, x) && InHands(r) == {x} && Cascaded(s, r, -1)
      && r == s.(queue := s.queue[1..], loc := r.loc) && V(r) == V(s)
  {
    hide Static, Tree, Members, NamedOk, Memory, Tallies, Edges, Led, QueueOk, Counts, Holds, Started,
        StartsPast, NoGate, GatesAlone;
    DroppedHeadOk(s, -1, -1, -1);
    var r := DroppedHead(s);
    CascadeOfLists(s, r);
    forall y ensures y in InHands(r) <==> y == x {
      assert y !in InHands(s);
    }
  }

  /** Nothing queued was declared before the head. */
  lemma HeadIsEarliest(s: Sched, x: TaskId, y: TaskId)
    requires Quiet(s) && HeadOf(s, x) && y < |s.phase| && s.phase[y] == PhaseQueued
    ensures x < |s.info| && y < |s.info| && s.info[x].decl <= s.info[y].decl
  {
    hide Static, Tree, Members, Life, NamedOk, Memory, Tallies, Edges, Led, Counts, Holds, Started,
        StartsPast, NoGate, GatesAlone;
    assert y !in InHands(s);
    assert ListOk(ListAt(ListsOf(s), InQueue), InQueue, s.loc, s.phase);
    assert multiset(s.queue)[y] == 1;
    var i :| 0 <= i < |s.queue| && s.queue[i] == y;
  }

  /** With nobody in hand, whoever is queued is in the queue. */
  lemma NobodyQueued(s: Sched)
    requires Quiet(s) && s.queue == []
    ensures forall x :: 0 <= x < |s.phase| ==> s.phase[x] != PhaseQueued
  {
    hide Static, Tree, Members, Life, NamedOk, Memory, Tallies, Edges, Led, QueueOk, Counts, Holds, Started,
        StartsPast, NoGate, GatesAlone;
    forall x | 0 <= x < |s.phase| ensures s.phase[x] != PhaseQueued {
      assert x !in InHands(s);
      assert ListOk(ListAt(ListsOf(s), InQueue), InQueue, s.loc, s.phase);
    }
  }

  lemma AllReadSucceeded(s: Sched, x: TaskId, scan: PredScan)
    requires Readable(s, x) && Scan(V(s), s.named[x], scan).0 == PredSucceeded
    ensures AllSucceeded(s, x)
  {
    ScanSucceeds(V(s), s.named[x], scan);
  }

  lemma ClaimedGood(s: Sched, x: TaskId)
    requires Good(s) && HeadOf(s, x) && AllSucceeded(s, x)
    ensures x < |s.info| && x < |s.startedAt|
    ensures Good(ClaimedTask(s, x))
  {
    hide Static, Tree, Members, Life, NamedOk, Memory, Tallies, Located, Edges, Led, QueueOk, Counts, Holds,
        Started, StartsPast, NoGate, GatesAlone, AllSucceeded;
    ClaimedOk(s, x);
    var r := ClaimedTask(s, x);
    forall y ensures y !in InHands(r) {
      assert y !in InHands(s);
    }
    StopsKept(s, r);
  }

  lemma HeadShape(s: Sched, x: TaskId)
    requires Quiet(s) && HeadOf(s, x)
    ensures x < |s.preds| && !Waits(s.loc[x])
  {
  }

  lemma ScannedQuiet(s: Sched, t: Sched, x: TaskId)
    requires Quiet(s) && HeadOf(s, x) && Whole(t) && x < |s.preds| && x < |t.preds| && t == Scanned(s, x, t.preds[x])
    ensures Quiet(t) && HeadOf(t, x) && Cascaded(s, t, -1) && |t.queue| == |s.queue| && t.state == s.state
  {
    hide Static, Tree, Members, Life, NamedOk, Memory, Tallies, Located, Edges, Led, QueueOk, Counts, Holds,
        Started, StartsPast, NoGate, GatesAlone;
  }

  /** A Task that is not eligible leaves the queue for good, or settles. */
  lemma PlacedAgain(a: Sched, b: Sched, x: TaskId, verdict: Outcome, blocker: Pred)
    requires Readable(a, x) && Scan(V(a), a.named[x], ScanToBlocker) == (verdict, blocker) && verdict != PredSucceeded
    requires PlacedBy(a, b, x, ScanToBlocker)
    requires Unresolved(b.state) < Unresolved(a.state) || (b.state == a.state && b.woken == a.woken)
    requires InHand(a, x) && Whole(a)
    ensures Unresolved(b.state) < Unresolved(a.state) || (b.state == a.state && b.queue == a.queue)
  {
    hide Static, Tree, Members, NamedOk, Memory, Tallies, Located, Edges, Led, QueueOk, Counts, Holds, Started,
        StartsPast, NoGate, GatesAlone, Scan, Readable;
  }

  /** Some Task x named may still be Done, and none can no longer be. */
  ghost predicate MayStartLater(s: Sched, x: TaskId) {
    && NamesOnly(s, x, {Done, Skipped, Pending, Running, Empty, Incomplete})
    && NamesOneIn(s, x, {Pending, Running, Empty, Incomplete})
  }

  /** Where a Task goes when it is submitted, by the states of the Tasks it named. */
  lemma SubmittedByStates(s: Sched, b: Sched, x: TaskId)
    requires x < |s.phase| && Readable(SubmittedTask(s, x), x) && PlacedBy(SubmittedTask(s, x), b, x, ScanAll)
    ensures x < |b.phase| && x < |b.state|
    ensures NamesDone(s, x) ==> b.phase[x] == PhaseQueued
    ensures NamesFailed(s, x) ==> b.state[x] == NotStarted
    ensures !s.draining && MayStartLater(s, x) ==> b.phase[x] == PhaseParked
    ensures s.draining && NamesUnsubmitted(s, x) ==> b.state[x] == NotStarted
  {
    hide NamesOnly, NamesOneIn, NamesDone, NamesFailed, NamesUnsubmitted, Readable, Scan;
    var a := SubmittedTask(s, x);
    SameNames(s, a, x);
    PlacedOnceDone(a, b, x, ScanAll);
    if NamesFailed(s, x) {
      PlacedAfterFailed(a, b, x);
    }
    if !s.draining && MayStartLater(s, x) {
      PlacedBeforeDone(a, b, x, ScanAll);
    }
    if s.draining && NamesUnsubmitted(s, x) {
      PlacedUndefined(a, b, x);
    }
  }

  lemma SameNames(s: Sched, a: Sched, x: TaskId)
    requires x < |s.phase| && a == SubmittedTask(s, x)
    ensures forall states :: NamesOnly(s, x, states) ==> NamesOnly(a, x, states)
    ensures forall states :: NamesOneIn(s, x, states) ==> NamesOneIn(a, x, states)
    ensures NamesDone(s, x) ==> NamesDone(a, x)
    ensures NamesFailed(s, x) ==> NamesFailed(a, x)
    ensures NamesUnsubmitted(s, x) ==> NamesUnsubmitted(a, x)
  {
  }

  lemma CancelledKept(a: Sched, b: Sched, but: int)
    requires Cascaded(a, b, but)
    ensures b.cancelled == a.cancelled && b.draining == a.draining
  {
  }
}
