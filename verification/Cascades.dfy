/** What a cascade of wakeups may change, and what each of its steps keeps: the
    proof side of the scheduler's place, settle and wake methods. */
module Cascades {
  import opened Outcomes
  import opened CollectionTally
  import opened Topology
  import opened Eligibility
  import opened WaitLists
  import opened RunState
  import opened Placing
  import opened Settling
  import opened Failures
  import Order = LedgerOrder

  // ---- what a cascade may change ------------------------------------------

  /** One Task's fate in a cascade of wakeups: submitted work that has not started
      may be queued or parked, or settled NotStarted because a predecessor it named
      reads failed; nothing else moves. */
  ghost predicate CascadedTask(a: Sched, b: Sched, x: nat)
    requires x < |a.state| == |a.phase| == |b.state| == |b.phase|
  {
    if Awaiting(a.phase[x]) then
      || (b.state[x] == a.state[x] && Awaiting(b.phase[x]))
      || (b.state[x] == NotStarted && b.phase[x] == PhaseAbandoned && Doomed(b, x))
    else b.state[x] == a.state[x] && b.phase[x] == a.phase[x]
  }

  /** Builders conclude; none appears. */
  ghost predicate BuildersKept(a: seq<BuilderPhase>, b: seq<BuilderPhase>) {
    |b| == |a| && forall c :: 0 <= c < |a| ==> (b[c] == NoBuilder <==> a[c] == NoBuilder)
  }

  ghost predicate SameFrame(a: Sched, b: Sched) {
    && b == a.(state := b.state, phase := b.phase, preds := b.preds, dependents := b.dependents, tally := b.tally,
               builder := b.builder, queue := b.queue, woken := b.woken, parked := b.parked, wg := b.wg,
               waking := b.waking, loc := b.loc, edge := b.edge)
    && |b.state| == |a.state| && |b.phase| == |a.phase| && |b.tally| == |a.tally|
    && |a.phase| == |a.state| && BuildersKept(a.builder, b.builder)
  }

  /** A cascade declares nothing, moves no seal and holds nothing open; what it seals
      it seals as declared by now. */
  ghost predicate TallyGrows(a: Tally, b: Tally, declSeq: nat) {
    && b.members == a.members && b.holds <= a.holds
    && (a.sealed ==> b.sealed && b.sealedThrough == a.sealedThrough)
    && (!a.sealed && b.sealed ==> b.sealedThrough == declSeq)
  }

  /** Everything but Task but moved as a cascade moves it; when that is everything,
      what read failed still does. */
  ghost predicate Cascaded(a: Sched, b: Sched, but: int) {
    && SameFrame(a, b) && (but < 0 ==> FailuresLast(a, b))
    && (forall x :: 0 <= x < |a.state| && x != but ==> CascadedTask(a, b, x))
    && (forall c :: 0 <= c < |a.tally| ==> TallyGrows(a.tally[c], b.tally[c], a.declSeq))
  }

  /** A cascade after another: whoever the first refused is doomed still. */
  lemma CascadeTwice(a: Sched, b: Sched, c: Sched, but: int)
    requires Cascaded(a, b, but) && Cascaded(b, c, -1) && Whole(b)
    ensures Cascaded(a, c, but)
  {
    hide Inv, FailuresLast, Doomed, TallyGrows;
    WholeBounded(b);
    if but < 0 {
      FailuresLastTwice(a, b, c);
    }
    forall x | 0 <= x < |a.state| && x != but ensures CascadedTask(a, c, x) {
      assert CascadedTask(a, b, x) && CascadedTask(b, c, x);
      if Doomed(b, x) {
        DoomedLasts(b, c, x);
      }
    }
    TalliesGrow(a, b, c);
  }

  lemma TalliesGrow(a: Sched, b: Sched, c: Sched)
    requires |a.tally| == |b.tally| == |c.tally| && a.declSeq == b.declSeq
    requires forall d :: 0 <= d < |a.tally| ==> TallyGrows(a.tally[d], b.tally[d], a.declSeq)
    requires forall d :: 0 <= d < |b.tally| ==> TallyGrows(b.tally[d], c.tally[d], b.declSeq)
    ensures forall d :: 0 <= d < |a.tally| ==> TallyGrows(a.tally[d], c.tally[d], a.declSeq)
  {
    forall d | 0 <= d < |a.tally| ensures TallyGrows(a.tally[d], c.tally[d], a.declSeq) {
      assert TallyGrows(a.tally[d], b.tally[d], a.declSeq) && TallyGrows(b.tally[d], c.tally[d], b.declSeq);
    }
  }

  /** The same after a stretch that settled nobody. */
  lemma CascadeMore(a: Sched, b: Sched, c: Sched, but: int)
    requires Cascaded(a, b, but) && Cascaded(b, c, but) && b.state == a.state && b.phase == a.phase
    ensures Cascaded(a, c, but)
  {
    hide FailuresLast, Doomed, TallyGrows;
    if but < 0 {
      FailuresLastTwice(a, b, c);
    }
    forall x | 0 <= x < |a.state| && x != but ensures CascadedTask(a, c, x) {
      assert CascadedTask(b, c, x);
    }
    TalliesGrow(a, b, c);
  }

  // ---- what each step keeps ------------------------------------------------

  ghost function InHands(s: Sched): set<TaskId> { Hands(s.loc, s.phase) }

  /** The Tasks a step still holds are as they were. */
  ghost predicate HandsStill(a: Sched, b: Sched) {
    forall x :: x in InHands(b) ==> x < |a.phase| && x < |b.phase| && b.phase[x] == a.phase[x]
  }

  ghost predicate Readable(s: Sched, st: TaskId) {
    ViewOk(V(s)) && st < |s.named| && PredsOk(s.named[st], |s.state|, |s.tally|)
  }

  /** Where st was placed is what all the predecessors it ever named say. */
  ghost predicate PlacedBy(a: Sched, b: Sched, st: TaskId, scan: PredScan)
    requires Readable(a, st)
  {
    var (verdict, blocker) := Scan(V(a), a.named[st], scan);
    && st < |b.phase| && st < |b.state| && st < |b.loc| && st < |b.edge|
    && match verdict
       case PredSucceeded => b.phase[st] == PhaseQueued && b.state == a.state
       case PredPending =>
         b.phase[st] == PhaseParked && b.state == a.state && b.queue == a.queue && Waits(b.loc[st]) && b.edge[st] == blocker
       case PredFailed => b.state[st] == NotStarted
  }

  /** blocker is pending, and what one of st's predecessors waits for. */
  ghost predicate Blocks(s: Sched, st: TaskId, b: Pred) {
    && st < |s.preds| && |s.phase| == |s.state|
    && PredOk(b, |s.state|, |s.tally|) && DirectlyPending(V(s), b)
    && (exists p :: p in s.preds[st] && Leads(s.entry, p, b))
    && (b.OnTask? ==> b.t < |s.info| && s.info[b.t].gateFor < 0)
  }

  lemma Shaped(s: Sched, e: int, top: int, htop: int)
    requires Inv(s, e, top, htop)
    ensures Shape(s)
  {
  }

  lemma ParentOf(s: Sched, e: int, top: int, htop: int, c: nat)
    requires Inv(s, e, top, htop) && c < |s.cols|
    ensures -1 <= s.cols[c].parent < c
  {
  }

  lemma CascadeNone(s: Sched, but: int)
    requires |s.phase| == |s.state|
    ensures Cascaded(s, s, but) && HandsStill(s, s)
  {
  }

  lemma WakingFrame(s: Sched, b: bool)
    requires Whole(s)
    ensures Whole(s.(waking := b)) && Cascaded(s, s.(waking := b), -1) && HandsStill(s, s.(waking := b))
  {
    hide Static, Tree, Members, Life, NamedOk, Memory, Tallies, Located, Edges, Led, QueueOk, Counts, Holds,
        Started, StartsPast, NoGate, GatesAlone;
  }

  lemma HandPlaced(loc: seq<Loc>, phase: seq<Phase>, st: TaskId, tag: Loc, p: Phase)
    requires |loc| == |phase| && st < |loc| && tag != Off
    ensures Hands(loc[st := tag], phase[st := p]) == Hands(loc, phase) - {st}
  {
  }

  lemma HandSettled(loc: seq<Loc>, phase: seq<Phase>, st: TaskId)
    requires |loc| == |phase| && st < |loc|
    ensures Hands(if Awaiting(phase[st]) then loc[st := Off] else loc, phase[st := AbandonedPhase(phase[st])]) == Hands(loc, phase) - {st}
  {
  }

  lemma DecidedFrame(s: Sched, st: TaskId, to: EntityState)
    requires Whole(s) && st < |s.state|
    ensures st < |s.phase| && st < |s.loc| && st < |s.info|
    ensures var r := Decided(s, st, to);
      && r.info == s.info && r.tally == s.tally && r.waking == s.waking && r.woken == s.woken
      && |r.dependents| == |r.phase| == |s.state| && r.state == s.state[st := to]
      && r.phase == s.phase[st := AbandonedPhase(s.phase[st])] && !Awaiting(r.phase[st])
  {
    hide Static, Tree, Members, NamedOk, Memory, Tallies, Located, Edges, Led, Holds, Started, StartsPast, Counts,
        QueueOk, Life, NoGate, GatesAlone;
  }

  lemma StillAfterDecided(s0: Sched, s2: Sched, st: TaskId, to: EntityState)
    requires |s0.phase| == |s0.state| == |s0.loc| && st < |s0.state|
    requires var s1 := Decided(s0, st, to); InHands(s2) == InHands(s1) && HandsStill(s1, s2)
    ensures InHands(s2) == InHands(s0) - {st} && HandsStill(s0, s2)
  {
    HandSettled(s0.loc, s0.phase, st);
  }

  lemma HandsMoved(loc: seq<Loc>, phase: seq<Phase>, tag: Loc, batch: multiset<TaskId>)
    requires |loc| == |phase| && tag != Off
    ensures Hands(Moved(loc, tag, batch), phase) == Hands(loc, phase)
  {
  }

  lemma HandsShrunk(loc: seq<Loc>, phase: seq<Phase>, c: nat, freed: seq<TaskId>, decided: seq<TaskId>)
    requires |loc| == |phase|
    ensures Hands(ShrunkLoc(loc, c, freed, decided), phase) == Hands(loc, phase)
  {
    HandsMoved(loc, phase, AtOpen(c), multiset(freed));
    HandsMoved(Moved(loc, AtOpen(c), multiset(freed)), phase, AtClosed(c), multiset(decided));
  }

  lemma ParkedAtOk(s: Sched, st: TaskId, b: Pred)
    requires Whole(s) && InHand(s, st) && Blocks(s, st, b)
    ensures PredOk(b, |s.dependents|, |s.tally|) && st < |s.edge|
    ensures Whole(ParkedAt(s, st, b)) && ParkTag(V(s), b) != Off
  {
    hide Static, Tree, Members, Life, NamedOk, Memory, Tallies, Located, Edges, Led, QueueOk, Counts, Holds,
        Started, StartsPast, NoGate, GatesAlone;
    match b
    case OnTask(t) => ParkedAtTaskOk(s, st, b, -1, -1, -1);
    case OnCol(c, through) => ParkedAtColOk(s, st, b, -1, -1, -1);
  }

  lemma BlockerFound(s: Sched, st: TaskId, scan: PredScan)
    requires Whole(s) && st < |s.preds| && ViewOk(V(s)) && PredsOk(s.preds[st], |s.state|, |s.tally|)
    requires Scan(V(s), s.preds[st], scan).0 == PredPending
    ensures Blocks(s, st, Scan(V(s), s.preds[st], scan).1)
  {
    hide Static, Tree, Members, Life, NamedOk, Tallies, Located, Edges, Led, QueueOk, Counts, Holds, Started,
        StartsPast, GatesAlone;
    var p := ScanBlocker(V(s), s.preds[st], scan);
    var b := Scan(V(s), s.preds[st], scan).1;
    ForgetsSubset(s.named[st], s.preds[st], s.state);
    if b.OnTask? {
      if b in s.preds[st] {
        assert b in s.named[st];
      }
    }
  }

  lemma StillUnresolved(s: Sched, st: TaskId)
    requires Whole(s) && InHand(s, st)
    ensures st < |s.state| && !IsTerminal(s.state[st])
  {
  }

  lemma EnqueueKeeps(s0: Sched, s1: Sched, st: TaskId, scan: PredScan)
    requires Readable(s0, st) && Readable(s1, st) && Scan(V(s1), s1.named[st], scan).0 == PredSucceeded
    requires Whole(s0) && Whole(s1) && InHand(s0, st) && st < |s0.preds|
    requires st < |s1.preds| && s1 == Scanned(s0, st, s1.preds[st])
    ensures st < |s1.phase| && st < |s1.loc| && Order.Sorted(s1.queue, ByDecl(s1.info))
    ensures Whole(Enqueued(s1, st)) && Cascaded(s0, Enqueued(s1, st), -1) && PlacedBy(s0, Enqueued(s1, st), st, scan)
    ensures InHands(Enqueued(s1, st)) == InHands(s0) - {st} && HandsStill(s0, Enqueued(s1, st))
  {
    hide Static, Tree, Members, Life, NamedOk, Memory, Tallies, Located, Edges, Led, Counts, Holds, Started,
        StartsPast, NoGate, GatesAlone;
    EnqueuedOk(s1, st, -1, -1, -1);
    HandPlaced(s1.loc, s1.phase, st, InQueue, PhaseQueued);
  }

  lemma OnlyParked(t: Tally, u: Tally, declSeq: nat)
    requires u == t.(open := u.open, parked := u.parked)
    ensures TallyGrows(t, u, declSeq) && FailureKept(t, u, declSeq)
  {
  }

  lemma ParkedFrame(s: Sched, st: TaskId, kept: seq<Pred>, b: Pred)
    requires |s.phase| == |s.state| == |s.loc| == |s.edge| == |s.preds| == |s.dependents| && st < |s.phase|
    requires PredOk(b, |s.state|, |s.tally|)
    ensures var r := ParkedAt(Scanned(s, st, kept), st, b);
      && r == s.(phase := r.phase, preds := r.preds, parked := r.parked, loc := r.loc, edge := r.edge,
                 dependents := r.dependents, tally := r.tally)
      && r.phase == s.phase[st := PhaseParked] && |r.tally| == |s.tally|
      && forall c :: 0 <= c < |s.tally| ==> r.tally[c] == s.tally[c].(open := r.tally[c].open, parked := r.tally[c].parked)
  {
    hide ParkTag, EdgeCursor;
  }

  /** Parking fails nobody and revives nobody. */
  lemma CascadeOfPark(s: Sched, st: TaskId, kept: seq<Pred>, b: Pred)
    requires |s.phase| == |s.state| == |s.loc| == |s.edge| == |s.preds| == |s.dependents| && st < |s.phase|
    requires PredOk(b, |s.state|, |s.tally|) && Awaiting(s.phase[st])
    ensures Cascaded(s, ParkedAt(Scanned(s, st, kept), st, b), -1)
  {
    hide Doomed, ParkedAt, FailureKept, TallyGrows;
    ParkedFrame(s, st, kept, b);
    var r := ParkedAt(Scanned(s, st, kept), st, b);
    forall t: TaskId | TaskFails(s, t) ensures TaskFails(r, t) {
    }
    forall c | 0 <= c < |s.tally| ensures TallyGrows(s.tally[c], r.tally[c], s.declSeq) && FailureKept(s.tally[c], r.tally[c], s.declSeq) {
      OnlyParked(s.tally[c], r.tally[c], s.declSeq);
    }
  }

  lemma ParkKeeps(s0: Sched, s1: Sched, st: TaskId, b: Pred, scan: PredScan)
    requires Readable(s0, st) && Readable(s1, st) && Scan(V(s1), s1.named[st], scan) == (PredPending, b)
    requires Whole(s0) && Whole(s1) && InHand(s0, st) && st < |s0.preds|
    requires st < |s1.preds| && s1 == Scanned(s0, st, s1.preds[st])
    requires ViewOk(V(s1)) && PredsOk(s1.preds[st], |s1.state|, |s1.tally|)
    requires Scan(V(s1), s1.preds[st], scan) == (PredPending, b)
    ensures st < |s1.phase| && st < |s1.loc| && st < |s1.edge| && PredOk(b, |s1.dependents|, |s1.tally|) && !b.Missing?
    ensures var s2 := ParkedAt(s1, st, b);
      && Whole(s2) && Cascaded(s0, s2, -1)
      && InHands(s2) == InHands(s0) - {st} && HandsStill(s0, s2)
      && PlacedBy(s0, s2, st, scan) && s2.state == s0.state && s2.woken == s0.woken
  {
    hide Static, Tree, Members, Life, NamedOk, Memory, Tallies, Located, Edges, Led, QueueOk, Counts, Holds,
        Started, StartsPast, NoGate, GatesAlone, Cascaded;
    BlockerFound(s1, st, scan);
    ParkedAtOk(s1, st, b);
    CascadeOfPark(s0, st, s1.preds[st], b);
    HandPlaced(s1.loc, s1.phase, st, ParkTag(V(s1), b), PhaseParked);
  }

  lemma RefusalKeeps(s0: Sched, s1: Sched, s2: Sched, st: TaskId, scan: PredScan)
    requires Readable(s0, st) && Readable(s1, st) && Scan(V(s1), s1.named[st], scan).0 == PredFailed
    requires Whole(s0) && Whole(s2) && InHand(s0, st) && st < |s0.preds|
    requires st < |s1.preds| && s1 == Scanned(s0, st, s1.preds[st])
    requires Cascaded(s1, s2, st) && st < |s2.state| && s2.state[st] == NotStarted && st < |s2.phase| && s2.phase[st] == PhaseAbandoned
    requires Whole(s1) && FailuresLast(s1, s2)
    ensures Cascaded(s0, s2, -1) && PlacedBy(s0, s2, st, scan)
  {
    hide Static, Tree, Members, Life, NamedOk, Memory, Tallies, Located, Edges, Led, QueueOk, Counts, Holds,
        Started, StartsPast, NoGate, GatesAlone, Doomed, TallyGrows, FailuresLast;
    WholeBounded(s1);
    DoomedByScan(s1, st, scan);
    DoomedLasts(s1, s2, st);
    forall x | 0 <= x < |s0.state| ensures CascadedTask(s0, s2, x) {
      assert x != st ==> CascadedTask(s1, s2, x);
    }
    FailuresLastOfLists(s0, s1);
    FailuresLastTwice(s0, s1, s2);
    forall c | 0 <= c < |s0.tally| ensures TallyGrows(s0.tally[c], s2.tally[c], s0.declSeq) {
      assert TallyGrows(s1.tally[c], s2.tally[c], s1.declSeq);
    }
  }

  /** Nothing outcomes are read from changed. */
  lemma FailuresLastOfLists(a: Sched, b: Sched)
    requires V(a) == V(b) && |a.phase| == |a.state| && a.declSeq == b.declSeq && a.named == b.named
    ensures FailuresLast(a, b)
  {
  }

  /** A settle to a state that fails the Tasks after it fixes what it fails. */
  lemma DecidedLasts(s: Sched, st: TaskId, to: EntityState)
    requires |s.phase| == |s.state| == |s.loc| && st < |s.state| && StateOutcome(to) == PredFailed
    requires !IsTerminal(s.state[st])
    ensures FailuresLast(s, Decided(s, st, to))
  {
  }

  lemma CascadeAfterDecided(s0: Sched, s2: Sched, st: TaskId, to: EntityState)
    requires |s0.phase| == |s0.state| == |s0.loc| && st < |s0.state| && !IsTerminal(s0.state[st])
    requires StateOutcome(to) == PredFailed ==> FailuresLast(Decided(s0, st, to), s2)
    requires var s1 := Decided(s0, st, to);
      Cascaded(s1, s2, st) && st < |s2.state| && st < |s2.phase| && s2.state[st] == to && s2.phase[st] == s1.phase[st]
    ensures Cascaded(s0, s2, st) && s2.state[st] == to && s2.phase[st] == AbandonedPhase(s0.phase[st])
    ensures StateOutcome(to) == PredFailed ==> FailuresLast(s0, s2)
  {
    hide Doomed, FailuresLast;
    if StateOutcome(to) == PredFailed {
      DecidedLasts(s0, st, to);
      FailuresLastTwice(s0, Decided(s0, st, to), s2);
    }
    var s1 := Decided(s0, st, to);
    forall x | 0 <= x < |s0.state| && x != st ensures CascadedTask(s0, s2, x) {
      assert CascadedTask(s1, s2, x);
    }
    forall c | 0 <= c < |s0.tally| ensures TallyGrows(s0.tally[c], s2.tally[c], s0.declSeq) {
      assert TallyGrows(s1.tally[c], s2.tally[c], s1.declSeq);
    }
  }

  /** Changing only the lists cascades nothing. */
  lemma CascadeOfLists(a: Sched, b: Sched)
    requires |a.phase| == |a.state|
    requires b == a.(dependents := b.dependents, woken := b.woken, queue := b.queue, loc := b.loc)
    ensures Cascaded(a, b, -1)
  {
  }

  lemma CascadeOfShrunk(s: Sched, c: nat, u: Tally, freed: seq<TaskId>, decided: seq<TaskId>, but: int)
    requires |s.phase| == |s.state| && c < |s.tally| && TallyGrows(s.tally[c], u, s.declSeq)
    requires but < 0 ==> FailureKept(s.tally[c], u, s.declSeq)
    ensures Cascaded(s, Shrunk(s, c, u, freed, decided), but)
  {
    hide Doomed;
  }

  /** A cascade leaves alone what is not waiting to start. */
  lemma CascadeBut(a: Sched, b: Sched, st: TaskId)
    requires Cascaded(a, b, -1) && st < |a.state| && !Awaiting(a.phase[st])
    ensures Cascaded(a, b, st) && FailuresLast(a, b)
    ensures st < |b.state| && st < |b.phase| && b.state[st] == a.state[st] && b.phase[st] == a.phase[st]
  {
    hide Doomed, FailuresLast, TallyGrows;
    assert CascadedTask(a, b, st);
  }

  lemma HomeOf(s: Sched, st: TaskId)
    requires st < |s.info| && Inv(s, st, s.info[st].home, -1)
    ensures -1 <= s.info[st].home < |s.cols|
  {
  }

  lemma GateSits(s: Sched, st: TaskId)
    requires Whole(s) && st < |s.state| && !IsTerminal(s.state[st])
    ensures st < |s.info| && -1 <= s.info[st].gateFor < |s.tally|
    ensures s.info[st].gateFor >= 0 ==> s.info[st].home == -1
  {
  }

  lemma GateHasNoDependents(s: Sched, st: TaskId)
    requires st < |s.info| && 0 <= s.info[st].gateFor && Inv(s, st, -1, s.info[st].gateFor)
    ensures Inv(s, -1, -1, s.info[st].gateFor)
  {
    hide Static, Tree, Members, Life, NamedOk, Memory, Tallies, Located, Edges, Led, QueueOk, Counts, Holds,
        Started, StartsPast, NoGate;
    assert s.dependents[st] == [];
    NoneLeftAt(ListsOf(s), s.loc, s.phase, AtTask(st));
    EdgesSettled(V(s), s.loc, s.edge, st);
  }

  lemma BuilderFrame(s: Sched, builder: seq<BuilderPhase>, htop: int, but: int)
    requires Inv(s, -1, -1, htop) && BuildersKept(s.builder, builder)
    ensures Inv(s.(builder := builder), -1, -1, htop)
    ensures Cascaded(s, s.(builder := builder), but)
  {
    hide Static, Tree, Members, Life, NamedOk, Memory, Tallies, Located, Edges, Led, QueueOk, Counts, Holds,
        Started, StartsPast, NoGate, GatesAlone;
  }

  lemma PoppedHands(s: Sched)
    requires Whole(s) && s.woken != []
    ensures s.woken[0] < |s.loc| == |s.phase| == |s.state|
    ensures var x := s.woken[0];
      && Hands(Taken(s.loc, x, InWoken), s.phase) == Hands(s.loc, s.phase) + (if Awaiting(s.phase[x]) then {x} else {})
      && (Awaiting(s.phase[x]) ==> x !in Hands(s.loc, s.phase) && s.phase[x] == PhaseParked && !IsTerminal(s.state[x]))
  {
    hide Static, Tree, Members, NamedOk, Memory, Tallies, Edges, Led, QueueOk, Counts, Holds, Started,
        StartsPast, NoGate, GatesAlone;
    var x := s.woken[0];
    assert ListOk(ListAt(ListsOf(s), InWoken), InWoken, s.loc, s.phase);
    assert x in multiset(s.woken);
  }

  // ---- one worklist or chain step -----------------------------------------

  lemma DependentsWokenKeeps(s: Sched, st: TaskId, top: int, was: seq<EntityState>)
    requires st < |s.dependents| && Inv(s, st, top, -1) && Owes(s, st, was, top)
    ensures var r := DependentsWoken(s, st);
      && Inv(r, -1, top, -1) && Cascaded(s, r, -1) && InHands(r) == InHands(s) && |r.tally| == |r.cols|
      && Owes(r, st, was, top)
  {
    hide Static, Tree, Members, Life, NamedOk, Memory, Tallies, Located, Edges, Led, QueueOk, Counts, Holds,
        Started, StartsPast, NoGate, GatesAlone, Current;
    DependentsWokenOk(s, st, top, -1);
    HandsMoved(s.loc, s.phase, AtTask(st), multiset(s.dependents[st]));
  }

  /** The tallies from top up are as they were when st was about to settle. */
  ghost predicate Owes(s: Sched, st: TaskId, was: seq<EntityState>, top: int) {
    && st < |s.state| == |was| && s.state == was[st := s.state[st]] && !IsTerminal(was[st])
    && forall c: nat :: c < |s.tally| && OnChain(s.cols, top, c) ==> Current(s.tally[c], was)
  }

  /** Before st settles every tally is current. */
  lemma OwesAll(s: Sched, st: TaskId, to: EntityState)
    requires Whole(s) && st < |s.state| && !IsTerminal(s.state[st])
    ensures st < |s.info| && st < |s.phase| && st < |s.loc| && Owes(Decided(s, st, to), st, s.state, s.info[st].home)
  {
    hide Static, Tree, Members, Life, NamedOk, Memory, Located, Edges, Led, QueueOk, Counts, Holds, Started,
        StartsPast, NoGate, GatesAlone, Current;
    forall c: nat | c < |s.tally| ensures Current(s.tally[c], s.state) {
      assert c < |s.cols|;
    }
  }

  /** What the incremental settle of collection c's tally asks for, st sits below c. */
  lemma SettlesHere(s: Sched, st: TaskId, was: seq<EntityState>, c: nat, htop: int)
    requires Inv(s, -1, c, htop) && Owes(s, st, was, c) && Below(s.info, s.cols, st, c)
    ensures c < |s.tally| && st < |s.info|
    ensures Current(s.tally[c], was) && WaitersPending(s.tally[c])
    ensures SettledOnly(s.tally[c], Member(st, s.info[st].decl), s.state, was)
  {
    hide Static, Tree, Life, NamedOk, Memory, Located, Edges, Led, QueueOk, Counts, Holds, Started,
        StartsPast, NoGate, GatesAlone, WaitersPending, Current;
    ChainBounds(s.cols, s.info[st].home, c);
    var t := s.tally[c];
    assert TallyAt(t, |s.state|, s.draining) && MembersAt(s.info, s.cols, t, c);
    assert OnChain(s.cols, c, c);
    assert st in Ids(t.members);
    var i :| 0 <= i < |t.members| && t.members[i].id == st;
    assert t.members[i] == Member(st, s.info[st].decl);
  }

  /** A settle forgets no failure. */
  lemma RefreshedFails(t: Tally, st: Member, state: seq<EntityState>, was: seq<EntityState>, declSeq: nat)
    requires Current(t, was) && SettledOnly(t, st, state, was)
    ensures FailureKept(t, Refreshed(t, state), declSeq)
  {
    RefreshedKeeps(t, state);
    match StateOutcome(state[st.id])
    case PredFailed =>
      FailureRecount(t, st, state, was);
      assert st in t.members;
    case PredSucceeded => SuccessRecount(t, st, state, was);
    case PredPending => StillUndecided(t, st, state, was);
  }

  lemma RecountKeeps(s0: Sched, s: Sched, c: nat, st: TaskId, was: seq<EntityState>)
    requires c < |s.cols| && Inv(s, -1, c, -1) && Cascaded(s0, s, -1) && s.state == s0.state && s.phase == s0.phase
    requires Owes(s, st, was, c) && Below(s.info, s.cols, st, c)
    ensures c < |s.tally|
    ensures var r := Recount(s, c);
      && -1 <= s.cols[c].parent < c && r.cols == s.cols && r.info == s.info
      && Inv(r, -1, s.cols[c].parent, -1) && Cascaded(s0, r, -1) && InHands(r) == InHands(s)
      && Owes(r, st, was, s.cols[c].parent)
      && (s.cols[c].parent >= 0 ==> Below(r.info, r.cols, st, s.cols[c].parent))
  {
    hide Tree, Members, Life, NamedOk, Memory, Tallies, Located, Edges, Led, QueueOk, Counts, Holds, Started,
        StartsPast, NoGate, GatesAlone, Refreshed, Static, Owes, Doomed, FailuresLast, SettledOnly, Current,
        FailureKept, TallyGrows;
    SettlesHere(s, st, was, c, -1);
    var t := s.tally[c];
    var u := Recounted(t, s.state);
    var freed, decided := if u.firstFailed != 0 then t.open else [], Sts(NowDecided(t.parked, u));
    ParentOf(s, -1, c, -1, c);
    RecountOk(s, c, -1);
    RefreshedFails(t, Member(st, s.info[st].decl), s.state, was, s.declSeq);
    RefreshedGrows(t, s.state, s.declSeq);
    HandsShrunk(s.loc, s.phase, c, freed, decided);
    CascadeOfShrunk(s, c, Refreshed(t, s.state), freed, decided, -1);
    CascadeMore(s0, s, Recount(s, c), -1);
    OwesAbove(s, st, was, c);
  }

  lemma RefreshedGrows(t: Tally, state: seq<EntityState>, declSeq: nat)
    ensures TallyGrows(t, Refreshed(t, state), declSeq)
  {
    RefreshedKeeps(t, state);
  }

  lemma OwesAbove(s: Sched, st: TaskId, was: seq<EntityState>, c: nat)
    requires Owes(s, st, was, c) && Below(s.info, s.cols, st, c) && c < |s.tally| == |s.cols| && -1 <= s.cols[c].parent < c
    ensures Owes(Recount(s, c), st, was, s.cols[c].parent)
    ensures s.cols[c].parent >= 0 ==> Below(s.info, s.cols, st, s.cols[c].parent)
  {
    hide Refreshed, Current;
    var p := s.cols[c].parent;
    if p >= 0 {
      assert OnChain(s.cols, c, p) by {
        assert OnChain(s.cols, p, p);
      }
      ChainTransitive(s.cols, s.info[st].home, c, p);
    }
    forall d: nat | d < |s.tally| && OnChain(s.cols, p, d) ensures d != c && Current(s.tally[d], was) {
      ChainBounds(s.cols, p, d);
      assert OnChain(s.cols, c, d);
    }
  }

  // ---- a builder's conclusion ---------------------------------------------

  /** What is recorded of a builder whose gate settled as state. */
  function BuilderOutcome(state: EntityState): BuilderPhase {
    match state
    case Done => BuilderDone
    case NotStarted => BuilderNotStarted
    case _ => BuilderPanicked
  }

  /** What a concluded builder leaves of the tally of a container it held. */
  function ConcludedTally(t: Tally, done: bool, own: bool, declSeq: nat): Tally {
    Released(if done then t else BuilderFailed(t), own, declSeq)
  }

  /** Gate st's outcome is recorded, and every container from its own up to below c
      has given back its hold, having learnt of a failure; nothing else changed. */
  ghost predicate Concluding(a: Sched, b: Sched, st: TaskId, c: int) {
    && st < |a.info| && st < |a.state| && 0 <= a.info[st].gateFor < |a.builder|
    && var col := a.info[st].gateFor;
       && b.cols == a.cols && b.declSeq == a.declSeq
       && b.builder == a.builder[col := BuilderOutcome(a.state[st])]
       && (c >= 0 ==> OnChain(a.cols, col, c))
       && |b.tally| == |a.tally|
       && forall d {:trigger b.tally[d]} :: 0 <= d < |a.tally| ==>
            b.tally[d] == if OnChain(a.cols, col, d) && d > c
                          then ConcludedTally(a.tally[d], a.state[st] == Done, d == col, a.declSeq) else a.tally[d]
  }

  ghost predicate Concludes(a: Sched, b: Sched, st: TaskId) { Concluding(a, b, st, -1) }

  /** A gate that settled had its builder's outcome recorded and its holds given back
      before anybody was placed again. */
  ghost predicate GateConcluded(a: Sched, b: Sched, st: TaskId, to: EntityState) {
    st < |a.state| && st < |a.phase| && st < |a.loc| && st < |a.info| && a.info[st].gateFor >= 0 ==>
      exists at :: Concludes(Decided(a, st, to), at, st) && Cascaded(at, b, -1)
  }

  lemma ConcludingStarts(s: Sched, st: TaskId)
    requires st < |s.info| && st < |s.state| && Inv(s, st, -1, s.info[st].gateFor) && 0 <= s.info[st].gateFor
    ensures s.info[st].gateFor < |s.builder|
    ensures BuildersKept(s.builder, s.builder[s.info[st].gateFor := BuilderOutcome(s.state[st])])
    ensures Concluding(s, s.(builder := s.builder[s.info[st].gateFor := BuilderOutcome(s.state[st])]), st, s.info[st].gateFor)
  {
    hide Tree, Members, Life, NamedOk, Memory, Tallies, Located, Edges, Led, QueueOk, Counts, Holds, Started,
        StartsPast, NoGate, GatesAlone;
    var col := s.info[st].gateFor;
    assert OnChain(s.cols, col, col);
    forall d | 0 <= d < |s.tally| && OnChain(s.cols, col, d) ensures d <= col {
      ChainBounds(s.cols, col, d);
    }
  }

  /** The container reached is the only one left below the next. */
  lemma OnlyHere(cols: seq<ColInfo>, col: int, c: nat, d: nat)
    requires OnChain(cols, col, c) && OnChain(cols, col, d) && c < |cols| && cols[c].parent < d <= c
    ensures d == c
  {
    ChainSplit(cols, col, c, d);
    if d != c {
      ChainBounds(cols, cols[c].parent, d);
    }
  }

  lemma ConcludesHere(s: Sched, c: nat, done: bool, own: bool)
    requires c < |s.tally|
    ensures var m := if done then s else FailedCol(s, c);
      && c < |m.tally|
      && var r := ReleasedCol(m, c, own);
         r.tally == s.tally[c := ConcludedTally(s.tally[c], done, own, s.declSeq)]
         && r.builder == s.builder && r.cols == s.cols && r.declSeq == s.declSeq
  {
    hide Released, BuilderFailed, ReleaseWakes, ShrunkLoc;
  }

  lemma ConcludingNext(a: Sched, b: Sched, st: TaskId, c: nat)
    requires Concluding(a, b, st, c) && c < |b.tally| && c < |a.cols| && -1 <= a.cols[c].parent < c
    ensures var m := if a.state[st] == Done then b else FailedCol(b, c);
      c < |m.tally| && Concluding(a, ReleasedCol(m, c, c == a.info[st].gateFor), st, a.cols[c].parent)
  {
    hide ConcludedTally, ReleasedCol, FailedCol, OnChain;
    var col, p := a.info[st].gateFor, a.cols[c].parent;
    ConcludesHere(b, c, a.state[st] == Done, c == col);
    if p >= 0 {
      ParentOnChain(a.cols, c);
      ChainTransitive(a.cols, col, c, p);
    }
    forall d: nat | d < |a.tally| && OnChain(a.cols, col, d) && p < d <= c ensures d == c {
      OnlyHere(a.cols, col, c, d);
    }
  }

  lemma ParentOnChain(cols: seq<ColInfo>, c: nat)
    requires c < |cols| && 0 <= cols[c].parent < c
    ensures OnChain(cols, c, cols[c].parent)
  {
    assert OnChain(cols, cols[c].parent, cols[c].parent);
  }

  lemma ConcludingEnds(a: Sched, at: Sched, b: Sched, st: TaskId, but: int)
    requires Concluding(a, at, st, -1) && Cascaded(a, at, but) && Cascaded(at, b, -1) && Whole(at)
    requires at.state == a.state && at.phase == a.phase && IsTerminal(a.state[st])
    requires but == if a.state[st] == Done then st as int else -1
    ensures Cascaded(a, b, st) && Concludes(a, at, st)
    ensures st < |b.state| == |a.state| == |b.phase| == |a.phase| && b.state[st] == a.state[st] && b.phase[st] == a.phase[st]
    ensures StateOutcome(b.state[st]) == PredFailed ==> FailuresLast(a, b)
  {
    hide Static, Tree, Members, NamedOk, Memory, Tallies, Located, Edges, Led, QueueOk, Counts, Holds, Started,
        StartsPast, NoGate, GatesAlone, FailuresLast, Doomed, TallyGrows;
    assert !Awaiting(at.phase[st]);
    CascadeTwice(a, at, b, but);
    CascadeBut(at, b, st);
    if but < 0 {
      CascadeBut(a, b, st);
    }
  }

  lemma FailColKeeps(s0: Sched, s: Sched, c: nat, but: int)
    requires c < |s.cols| && Inv(s, -1, -1, c) && Cascaded(s0, s, but) && s.state == s0.state && s.phase == s0.phase
    ensures c < |s.tally|
    ensures var r := FailedCol(s, c);
      && Inv(r, -1, -1, c) && Cascaded(s0, r, but) && InHands(r) == InHands(s)
      && r.tally[c].builderFailed
  {
    hide Static, Tree, Members, Life, NamedOk, Memory, Tallies, Located, Edges, Led, QueueOk, Counts, Holds,
        Started, StartsPast, NoGate, GatesAlone, FailuresLast, Doomed;
    var t := s.tally[c];
    FailedColOk(s, c, -1, c);
    HandsShrunk(s.loc, s.phase, c, t.open, Sts(t.parked));
    CascadeOfShrunk(s, c, BuilderFailed(t), t.open, Sts(t.parked), but);
    CascadeMore(s0, s, FailedCol(s, c), but);
  }

  /** A hold released after its builder failed forgets no failure. */
  lemma ReleaseKeeps(s0: Sched, s: Sched, c: nat, seal: bool, but: int)
    requires c < |s.cols| && Inv(s, -1, -1, c) && Cascaded(s0, s, but) && s.state == s0.state && s.phase == s0.phase
    requires c < |s.tally| && (but < 0 ==> s.tally[c].builderFailed)
    ensures var r := ReleasedCol(s, c, seal);
      && -1 <= s.cols[c].parent < c && r.cols == s.cols
      && Inv(r, -1, -1, s.cols[c].parent) && Cascaded(s0, r, but) && InHands(r) == InHands(s)
  {
    hide Tree, Members, Life, NamedOk, Memory, Tallies, Located, Edges, Led, QueueOk, Counts, Holds, Started,
        StartsPast, NoGate, GatesAlone, Static, FailuresLast, Doomed;
    var t := s.tally[c];
    ParentOf(s, -1, -1, c, c);
    ReleasedColOk(s, c, seal);
    HandsShrunk(s.loc, s.phase, c, ReleaseWakes(t, seal), []);
    CascadeOfShrunk(s, c, Released(t, seal, s.declSeq), ReleaseWakes(t, seal), [], but);
    CascadeMore(s0, s, ReleasedCol(s, c, seal), but);
  }

  /** A concluded builder's container, told of a failure, gives back its hold. */
  lemma HoldKeeps(s0: Sched, s: Sched, c: nat, done: bool, own: bool, but: int)
    requires c < |s.cols| && Inv(s, -1, -1, c) && Cascaded(s0, s, but) && s.state == s0.state && s.phase == s0.phase
    requires done || but < 0
    requires but < 0 ==> !done
    ensures c < |s.tally|
    ensures var m := if done then s else FailedCol(s, c);
      && c < |m.tally|
      && var r := ReleasedCol(m, c, own);
         && -1 <= s.cols[c].parent < c && r.cols == s.cols && |r.tally| == |r.cols|
         && Inv(r, -1, -1, s.cols[c].parent) && Cascaded(s0, r, but) && InHands(r) == InHands(s)
         && r.state == s.state && r.phase == s.phase && r.waking == s.waking
  {
    hide Inv, Cascaded, Hands, Released, BuilderFailed, ReleaseWakes, ShrunkLoc;
    Shaped(s, -1, -1, c);
    if !done {
      FailColKeeps(s0, s, c, but);
    }
    var m := if done then s else FailedCol(s, c);
    ReleaseKeeps(s0, m, c, own, but);
  }

  lemma SealKeeps(s: Sched, c: nat)
    requires c < |s.cols| && Whole(s)
    ensures c < |s.tally|
    ensures var r := SealedCol(s, c);
      Whole(r) && Cascaded(s, r, -1) && InHands(r) == InHands(s) && r.waking == s.waking
  {
    hide Static, Tree, Members, Life, NamedOk, Memory, Tallies, Located, Edges, Led, QueueOk, Counts, Holds,
        Started, StartsPast, NoGate, GatesAlone, FailuresLast, Doomed;
    var t := s.tally[c];
    SealedColOk(s, c, -1, -1);
    HandsShrunk(s.loc, s.phase, c, SealWakes(t), []);
    CascadeOfShrunk(s, c, Sealed(t, s.declSeq), SealWakes(t), [], -1);
  }

  lemma PopKeeps(s0: Sched, s: Sched)
    requires Whole(s) && s.woken != [] && Cascaded(s0, s, -1)
    ensures var x := s.woken[0];
      && x < |s.loc| && x < |s.phase| && x < |s.state|
      && var r := PoppedWoken(s);
      && Whole(r) && Cascaded(s0, r, -1)
      && (if s.phase[x] == PhaseParked && !IsTerminal(s.state[x])
          then InHand(r, x) && InHands(r) == InHands(s) + {x} && x !in InHands(s)
          else InHands(r) == InHands(s))
  {
    hide Static, Tree, Members, NamedOk, Memory, Tallies, Located, Edges, Led, QueueOk, Counts, Holds, Started,
        StartsPast, NoGate, GatesAlone;
    PoppedWokenOk(s, -1, -1, -1);
    PoppedHands(s);
    CascadeOfLists(s, PoppedWoken(s));
    CascadeTwice(s0, s, PoppedWoken(s), -1);
  }

  lemma ReadableNow(s: Sched, x: TaskId)
    requires Whole(s) && x < |s.preds|
    ensures Readable(s, x)
  {
    ViewOfWhole(s, x);
  }

  /** Every predecessor list of a whole state can be read. */
  lemma ViewOfWhole(s: Sched, x: TaskId)
    requires Whole(s) && x < |s.preds|
    ensures ViewOk(V(s)) && |s.named| == |s.preds|
    ensures PredsOk(s.named[x], |s.state|, |s.tally|) && PredsOk(s.preds[x], |s.state|, |s.tally|)
    ensures Forgets(s.named[x], s.preds[x], s.state)
  {
    hide Tree, Members, Life, Tallies, Located, Edges, Led, QueueOk, Counts, Holds, Started,
        StartsPast, NoGate, GatesAlone;
    ForgetsSubset(s.named[x], s.preds[x], s.state);
    forall i | 0 <= i < |s.preds[x]| ensures PredOk(s.preds[x][i], |s.state|, |s.tally|) {
      assert s.preds[x][i] in s.named[x];
    }
  }
}
