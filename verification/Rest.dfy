/** The scheduler at rest: what holds between any two steps, whatever their
    order, and what one step may change. */
module Rest {
  import opened Outcomes
  import opened CollectionTally
  import opened Topology
  import opened Eligibility
  import opened WaitLists
  import opened RunState
  import opened Settling
  import opened Failures
  import opened Cascades
  import opened Followers
  import Order = LedgerOrder

  ghost predicate Good(s: Sched) { Quiet(s) && Stops(s) }

  /** Nothing is declared, waiting or running. */
  ghost predicate Blank(s: Sched) {
    && Shape(s) && |s.info| == |s.state| == |s.cols| == 0
    && s.queue == [] && s.woken == []
    && s.parked == s.wg == s.executing == s.inflight == 0 && s.claimed == {}
    && s.declSeq == 0 && !s.waking && !s.draining
  }

  lemma BlankLists(s: Sched)
    requires Blank(s)
    ensures Located(ListsOf(s), s.loc, s.phase)
  {
    forall tag: Loc | tag != Off ensures ListOk(ListAt(ListsOf(s), tag), tag, s.loc, s.phase) {
    }
  }

  lemma BlankOk(s: Sched)
    requires Blank(s)
    ensures Good(s)
  {
    hide Located, Hands, Stops;
    BlankLists(s);
    BlankHands(s);
    BlankStops(s);
  }

  lemma BlankHands(s: Sched)
    requires Blank(s)
    ensures Hands(s.loc, s.phase) == {}
  {
  }

  lemma BlankStops(s: Sched)
    requires Blank(s)
    ensures Stops(s)
  {
  }

  // ---- the states themselves ----------------------------------------------

  /** Every predecessor st ever named is a Task in one of those states. */
  ghost predicate NamesOnly(s: Sched, st: TaskId, states: set<EntityState>) {
    st < |s.named| && forall p :: p in s.named[st] ==> p.OnTask? && p.t < |s.state| && s.state[p.t] in states
  }

  /** One of them is. */
  ghost predicate NamesOneIn(s: Sched, st: TaskId, states: set<EntityState>) {
    st < |s.named| && exists p :: p in s.named[st] && p.OnTask? && p.t < |s.state| && s.state[p.t] in states
  }

  /** Every predecessor st ever named is a Task that is Done or Skipped. */
  ghost predicate NamesDone(s: Sched, st: TaskId) { NamesOnly(s, st, {Done, Skipped}) }

  /** One of them is a Task that can no longer be. */
  ghost predicate NamesFailed(s: Sched, st: TaskId) { NamesOneIn(s, st, {Failed, Blocked, Cancelled, NotStarted}) }

  /** p is another Task, whose work nobody has handed in and which nothing resolved. */
  ghost predicate NeverSubmitted(s: Sched, st: TaskId, p: Pred) {
    && p.OnTask? && p.t != st && p.t < |s.phase| && p.t < |s.state|
    && s.phase[p.t] == PhaseDeclared && s.state[p.t] in {Pending, Running, Empty, Incomplete}
  }

  ghost predicate NamesUnsubmitted(s: Sched, st: TaskId) {
    st < |s.named| && exists p :: p in s.named[st] && NeverSubmitted(s, st, p)
  }

  /** Where st was placed, by the states of the Tasks it named: queued once all are
      Done or Skipped. */
  lemma PlacedAfterDone(a: Sched, b: Sched, st: TaskId, scan: PredScan)
    requires Readable(a, st) && PlacedBy(a, b, st, scan) && NamesDone(a, st)
    ensures b.phase[st] == PhaseQueued
  {
    var v, ps := V(a), a.named[st];
    forall i | 0 <= i < |ps| ensures OutcomeOf(v, ps[i]).0 == PredSucceeded {
      assert ps[i] in ps;
    }
    hide OutcomeOf, NamesDone, ViewOk, PredsOk, Scan;
    ScanSucceeds(v, ps, scan);
  }

  /** Settled NotStarted when one can never be. */
  lemma PlacedAfterFailed(a: Sched, b: Sched, st: TaskId)
    requires Readable(a, st) && PlacedBy(a, b, st, ScanAll)
    requires NamesFailed(a, st)
    ensures b.state[st] == NotStarted
  {
    var v, ps := V(a), a.named[st];
    var p :| p in ps && p.OnTask? && p.t < |a.state| && a.state[p.t] in {Failed, Blocked, Cancelled, NotStarted};
    var i :| 0 <= i < |ps| && ps[i] == p;
    assert OutcomeOf(v, ps[i]).0 == PredFailed;
    hide OutcomeOf, NamesFailed, ViewOk, PredsOk, Scan;
    ScanAllFindsFailure(v, ps);
  }

  /** Parked while one may still be. */
  lemma PlacedBeforeDone(a: Sched, b: Sched, st: TaskId, scan: PredScan)
    requires Readable(a, st) && PlacedBy(a, b, st, scan) && !a.draining
    requires NamesOnly(a, st, {Done, Skipped, Pending, Running, Empty, Incomplete})
    requires NamesOneIn(a, st, {Pending, Running, Empty, Incomplete})
    ensures b.phase[st] == PhaseParked
  {
    var v, ps := V(a), a.named[st];
    var p :| p in ps && p.OnTask? && p.t < |a.state| && a.state[p.t] in {Pending, Running, Empty, Incomplete};
    var i :| 0 <= i < |ps| && ps[i] == p;
    assert OutcomeOf(v, ps[i]).0 == PredPending;
    forall q | q in ps ensures OutcomeOf(v, q).0 != PredFailed {
    }
    hide OutcomeOf, NamesOneIn, NamesOnly, ViewOk, PredsOk, Scan;
    ScanSucceeds(v, ps, scan);
    if Scan(v, ps, scan).0 == PredFailed {
      ScanFails(v, ps, scan);
      assert false;
    }
  }

  lemma PlacedOnceDone(a: Sched, b: Sched, st: TaskId, scan: PredScan)
    requires Readable(a, st) && PlacedBy(a, b, st, scan)
    ensures NamesDone(a, st) ==> st < |b.phase| && b.phase[st] == PhaseQueued
  {
    hide NamesDone, Readable, Scan;
    if NamesDone(a, st) {
      PlacedAfterDone(a, b, st, scan);
    }
  }

  /** While draining, a Task nobody will hand in keeps whoever names it from starting. */
  lemma PlacedUndefined(a: Sched, b: Sched, st: TaskId)
    requires Readable(a, st) && PlacedBy(a, b, st, ScanAll) && a.draining && NamesUnsubmitted(a, st)
    ensures b.state[st] == NotStarted
  {
    var v, ps := V(a), a.named[st];
    var p :| p in ps && NeverSubmitted(a, st, p);
    var i :| 0 <= i < |ps| && ps[i] == p;
    assert OutcomeOf(v, ps[i]).0 == PredFailed;
    hide OutcomeOf, NamesUnsubmitted, ViewOk, PredsOk, Scan;
    ScanAllFindsFailure(v, ps);
  }

  /** Whatever Task a running Task named is Done or Skipped. */
  lemma RunningAfterDone(s: Sched, x: TaskId, t: TaskId)
    requires Quiet(s) && x < |s.phase| && s.phase[x] == PhaseRunning && x < |s.named| && OnTask(t) in s.named[x]
    ensures t < |s.state| && s.state[t] in {Done, Skipped}
  {
    hide Static, Tree, Members, Life, NamedOk, Memory, Tallies, Located, Edges, Led, QueueOk, Counts, Holds,
        StartsPast, NoGate, GatesAlone;
    assert Secured(OnTask(t), s.startedAt[x], s.state, s.tally);
  }

  /** Whatever Task a parked Task is listed under has not resolved. */
  lemma ParkedBeforeDone(s: Sched, x: TaskId, t: TaskId)
    requires Quiet(s) && x < |s.loc| && s.loc[x] == AtTask(t)
    ensures t < |s.state| && s.state[t] in {Pending, Running, Empty, Incomplete}
  {
    hide Static, Tree, Members, Life, NamedOk, Memory, Tallies, Located, Led, QueueOk, Counts, Holds, Started,
        StartsPast, NoGate, GatesAlone;
    assert EdgeAt(V(s), x, s.loc[x], s.edge[x], -1);
  }

  // ---- no lost wakeup -----------------------------------------------------

  /** x's edge was filed while draining on a membership that sealed only later:
      it waits for every member, though it now reads no further than the seal. */
  ghost predicate LateSealed(s: Sched, x: TaskId) {
    && x < |s.loc| && x < |s.edge|
    && s.loc[x].AtClosed? && s.edge[x].OnCol? && s.edge[x].c < |s.tally|
    && var t := s.tally[s.edge[x].c];
       s.draining && s.edge[x].through == 0 && t.sealed && ParkedTask(x, THROUGH_ALL) in t.parked
  }

  /** x waits on a membership that a pending builder re-opened. */
  ghost predicate HeldOpen(s: Sched, x: TaskId) {
    && x < |s.loc| && x < |s.edge|
    && s.loc[x].AtClosed? && s.edge[x].OnCol? && s.edge[x].c < |s.tally| && s.tally[s.edge[x].c].holds > 0
  }

  /** x waits open on a membership sealed before its builder was Defined: when that
      builder concluded the seal was refused, and nobody was woken. */
  ghost predicate Stranded(s: Sched, x: TaskId) {
    && x < |s.loc| && s.loc[x].AtOpen? && s.loc[x].c < |s.tally|
    && s.tally[s.loc[x].c].sealed && s.tally[s.loc[x].c].holds <= 0
  }

  ghost predicate Listed(s: Sched, x: TaskId) {
    && x < |s.loc|
    && (forall tag: Loc :: tag != Off ==> ListAt(ListsOf(s), tag)[x] == if s.loc[x] == tag then 1 else 0)
  }

  lemma ParkedIsListed(s: Sched, x: TaskId)
    requires Located(ListsOf(s), s.loc, s.phase) && x < |s.phase| && Awaiting(s.phase[x])
    ensures Listed(s, x)
  {
    forall tag: Loc | tag != Off ensures ListAt(ListsOf(s), tag)[x] == if s.loc[x] == tag then 1 else 0 {
      assert ListOk(ListAt(ListsOf(s), tag), tag, s.loc, s.phase);
    }
  }

  lemma AtOpenPending(s: Sched, x: TaskId, c: nat)
    requires Tallies(s.tally, s.state, s.cols, -1, s.draining) && |s.phase| == |s.state|
    requires x < |s.loc| && x < |s.edge| && s.loc[x] == AtOpen(c) && EdgeAt(V(s), x, s.loc[x], s.edge[x], -1)
    requires x in s.tally[c].open && !Stranded(s, x)
    ensures DirectlyPending(V(s), s.edge[x])
  {
    assert TallyAt(s.tally[c], |s.state|, s.draining);
  }

  lemma AtClosedPending(s: Sched, x: TaskId, c: nat)
    requires Tallies(s.tally, s.state, s.cols, -1, s.draining) && |s.phase| == |s.state|
    requires x < |s.loc| && x < |s.edge| && s.loc[x] == AtClosed(c) && EdgeAt(V(s), x, s.loc[x], s.edge[x], -1)
    requires x in Sts(s.tally[c].parked)
    ensures s.tally[c].holds <= 0 && !LateSealed(s, x) ==> DirectlyPending(V(s), s.edge[x])
  {
    var t := s.tally[c];
    assert TallyAt(t, |s.state|, s.draining);
    var i :| 0 <= i < |t.parked| && Sts(t.parked)[i] == x;
    assert t.parked[i].st == x && ClosedPending(t, t.parked[i].cursor);
    assert t.parked[i] == ParkedTask(x, t.parked[i].cursor);
  }

  /** At rest, every parked Task is on exactly one list, once, and the
      predecessor it is listed under still reads pending, so the settle that
      decides that predecessor will find it. A pending builder re-opens closed
      edges meanwhile, a seal during the drain leaves an edge filed too far, and a
      builder Defined after its container was sealed wakes nobody. */
  lemma NoLostWakeup(s: Sched, x: TaskId)
    requires Quiet(s) && x < |s.phase| && s.phase[x] == PhaseParked
    ensures Listed(s, x) && Waits(s.loc[x])
    ensures x < |s.edge| && x < |s.preds| && exists p :: p in s.preds[x] && Leads(s.entry, p, s.edge[x])
    ensures !LateSealed(s, x) && !HeldOpen(s, x) && !Stranded(s, x) ==> DirectlyPending(V(s), s.edge[x])
  {
    hide Static, Tree, Members, Life, NamedOk, Memory, Tallies, QueueOk, Counts, Holds, Started,
        StartsPast, NoGate, GatesAlone, Located, LateSealed, HeldOpen, Stranded, Listed, DirectlyPending;
    ParkedIsListed(s, x);
    ParkedWaits(s, x);
    AtRest(s, x);
    assert EdgeAt(V(s), x, s.loc[x], s.edge[x], -1);
    match s.loc[x]
    case AtTask(t) => AtTaskPending(s, x, t);
    case AtOpen(c) =>
      if !Stranded(s, x) {
        AtOpenPending(s, x, c);
      }
    case AtClosed(c) => AtClosedPending(s, x, c); NotHeld(s, x, c);
    case _ =>
  }

  lemma NotHeld(s: Sched, x: TaskId, c: nat)
    requires x < |s.loc| && x < |s.edge| && s.loc[x] == AtClosed(c) && c < |s.tally| && s.edge[x].OnCol? && s.edge[x].c == c
    ensures HeldOpen(s, x) <==> s.tally[c].holds > 0
  {
  }

  lemma AtTaskPending(s: Sched, x: TaskId, t: nat)
    requires |s.phase| == |s.state|
    requires x < |s.loc| && x < |s.edge| && s.loc[x] == AtTask(t) && EdgeAt(V(s), x, s.loc[x], s.edge[x], -1)
    ensures DirectlyPending(V(s), s.edge[x])
  {
  }

  lemma ParkedWaits(s: Sched, x: TaskId)
    requires Located(ListsOf(s), s.loc, s.phase) && x < |s.phase| && s.phase[x] == PhaseParked
    requires Hands(s.loc, s.phase) == {} && s.woken == [] && Listed(s, x)
    ensures Waits(s.loc[x])
  {
    assert x !in Hands(s.loc, s.phase);
    assert ListAt(ListsOf(s), InWoken)[x] == 0;
  }

  lemma AtRest(s: Sched, x: TaskId)
    requires Listed(s, x)
    ensures s.loc[x].AtOpen? && s.loc[x].c < |s.tally| ==> x in s.tally[s.loc[x].c].open
    ensures s.loc[x].AtClosed? && s.loc[x].c < |s.tally| ==> x in Sts(s.tally[s.loc[x].c].parked)
  {
    if s.loc[x] != Off {
      assert ListAt(ListsOf(s), s.loc[x])[x] == 1;
    }
  }

  /** The drain's late seal, exactly: such an edge reads pending if and only if
      some member declared through the seal is undecided and none failed. */
  lemma LateSealedPending(s: Sched, x: TaskId)
    requires Quiet(s) && LateSealed(s, x) && !HeldOpen(s, x)
    ensures DirectlyPending(V(s), s.edge[x]) <==>
      var t := s.tally[s.edge[x].c];
      !t.builderFailed && Fold(MembersThrough(t.members, t.sealedThrough), s.state) == PredPending
  {
    hide Static, Tree, Members, Life, NamedOk, Memory, QueueOk, Counts, Holds, Started, StartsPast,
        NoGate, GatesAlone, Located;
    var t := s.tally[s.edge[x].c];
    assert Current(t, s.state);
    ReadingIsFold(t, s.state, t.sealedThrough);
  }

  lemma NoneFailed(t: Tally, state: seq<EntityState>)
    requires Current(t, state)
    ensures t.firstFailed == 0 <==> forall i :: 0 <= i < |t.members| ==> !FailedIn(t.members[i], state)
  {
    FailedThroughMeans(t, state, THROUGH_ALL);
    if t.firstFailed != 0 {
      var i :| 0 <= i < |t.members| && t.members[i].declaration == t.firstFailed && FailedIn(t.members[i], state);
    }
  }

  /** A re-opened edge, exactly: it reads pending if and only if no member failed. */
  lemma HeldOpenPending(s: Sched, x: TaskId)
    requires Quiet(s) && x < |s.phase| && s.phase[x] == PhaseParked && HeldOpen(s, x)
    ensures DirectlyPending(V(s), s.edge[x]) <==>
      var t := s.tally[s.edge[x].c];
      forall i :: 0 <= i < |t.members| ==> !FailedIn(t.members[i], s.state)
  {
    hide Static, Tree, Members, Life, NamedOk, Memory, QueueOk, Counts, Holds, GatesKnown, Started, StartsPast, NoGate,
        GatesAlone, Located, Led, FailedIn;
    var c := s.edge[x].c;
    var t := s.tally[c];
    assert EdgeAt(V(s), x, s.loc[x], s.edge[x], -1);
    ParkedIsListed(s, x);
    AtRest(s, x);
    assert TallyAt(t, |s.state|, s.draining) && Current(t, s.state);
    assert x in Sts(t.parked);
    NoneFailed(t, s.state);
  }

  /** The last release wakes nobody parked on a closed edge: each reads pending again,
      through its own cursor. */
  lemma ReleaseKeepsClosed(t: Tally, seal: bool, cursor: nat)
    requires WaitersPending(t) && t.holds == 1
    ensures var u := Released(t, seal, cursor);
      && u.holds == 0 && u.parked == t.parked
      && forall i :: 0 <= i < |u.parked| ==> ClosedPending(u, u.parked[i].cursor)
    ensures multiset(ReleaseWakes(t, seal)) <= multiset(t.open)
  {
  }

  // ---- what one step may change -------------------------------------------

  /** Task x moved as a cascade moves it, or is one of those settled as to before
      it started. */
  ghost predicate SweptTask(a: Sched, b: Sched, x: nat, batch: iset<nat>, to: EntityState)
    requires x < |a.state| == |a.phase| == |b.state| == |b.phase|
  {
    || CascadedTask(a, b, x)
    || (x in batch && !Halted(a.state[x], a.phase[x]) && b.state[x] == to && b.phase[x] == AbandonedPhase(a.phase[x]))
  }

  /** The Tasks that had neither started nor been resolved. */
  ghost function Unstarted(s: Sched): iset<nat> {
    iset x: nat | !HaltedTask(s, x)
  }

  lemma StillUnstarted(a: Sched, b: Sched, x: TaskId)
    requires HaltsKept(a, b)
    ensures HaltedTask(b, x) || x in Unstarted(a)
  {
  }

  ghost predicate Swept(a: Sched, b: Sched, batch: iset<nat>, to: EntityState) {
    && SameFrame(a, b) && FailuresLast(a, b)
    && (forall x :: 0 <= x < |a.state| ==> SweptTask(a, b, x, batch, to))
    && (forall c :: 0 <= c < |a.tally| ==> TallyGrows(a.tally[c], b.tally[c], a.declSeq))
  }

  lemma SweepTwice(a: Sched, b: Sched, c: Sched, batch: iset<nat>, to: EntityState)
    requires Life(a.state, a.phase) && IsTerminal(to) && Whole(b)
    requires Swept(a, b, batch, to) && Swept(b, c, batch, to)
    ensures Swept(a, c, batch, to)
  {
    hide Inv, FailuresLast, Doomed, TallyGrows;
    WholeBounded(b);
    FailuresLastTwice(a, b, c);
    forall x | 0 <= x < |a.state| ensures SweptTask(a, c, x, batch, to) {
      assert SweptTask(a, b, x, batch, to) && SweptTask(b, c, x, batch, to);
      if Doomed(b, x) {
        DoomedLasts(b, c, x);
      }
    }
    TalliesGrow(a, b, c);
  }

  lemma SweepNone(a: Sched, batch: iset<nat>, to: EntityState)
    requires |a.phase| == |a.state|
    ensures Swept(a, a, batch, to)
  {
  }

  lemma SweptByCascade(a: Sched, b: Sched, batch: iset<nat>, to: EntityState)
    requires Cascaded(a, b, -1)
    ensures Swept(a, b, batch, to)
  {
    hide Doomed, FailuresLast;
    forall x | 0 <= x < |a.state| ensures SweptTask(a, b, x, batch, to) {
      assert CascadedTask(a, b, x);
    }
  }

  lemma SweptBySettle(a: Sched, b: Sched, st: TaskId, batch: iset<nat>, to: EntityState)
    requires st < |a.state| && st < |a.phase| && Cascaded(a, b, st) && st in batch && !Halted(a.state[st], a.phase[st])
    requires FailuresLast(a, b) && b.state[st] == to && b.phase[st] == AbandonedPhase(a.phase[st])
    ensures Swept(a, b, batch, to)
  {
    hide Doomed, FailuresLast;
    forall x | 0 <= x < |a.state| ensures SweptTask(a, b, x, batch, to) {
      assert x != st ==> CascadedTask(a, b, x);
    }
  }

  /** Every step that starts nothing: what is terminal stays terminal, what ran
      before the step is all that runs after it, submitted Tasks keep the
      predecessors they named, and no collection forgets a member or moves a seal. */
  ghost predicate Advances(a: Sched, b: Sched) {
    && a.info <= b.info && a.cols <= b.cols && a.declSeq <= b.declSeq && a.lateEntry <= b.lateEntry
    && |a.phase| == |a.state| && |b.phase| == |b.state|
    && TerminalStays(a.state, b.state)
    && (forall x :: 0 <= x < |b.phase| && b.phase[x] == PhaseRunning ==> x < |a.phase| && a.phase[x] == PhaseRunning)
    && (forall x :: 0 <= x < |a.phase| && a.phase[x] == PhaseRunning ==> x < |b.phase| && b.phase[x] == PhaseRunning)
    && (forall x :: 0 <= x < |a.phase| && a.phase[x] != PhaseDeclared ==> x < |b.phase| && b.phase[x] != PhaseDeclared)
    && (forall x :: 0 <= x < |a.phase| && a.phase[x] == PhaseAbandoned ==> x < |b.phase| && b.phase[x] == PhaseAbandoned)
    && b.inflight <= a.inflight
    && NamesKept(a, b)
    && (a.cancelled ==> b.cancelled) && (a.draining ==> b.draining && b.drainAt == a.drainAt)
    && |a.tally| <= |b.tally|
    && (forall c :: 0 <= c < |a.tally| ==> TallyAdvances(a.tally[c], b.tally[c]))
    && SealsFrom(a, b, a.declSeq)
  }

  /** What was sealed since takes at least the members declared by then. */
  ghost predicate SealsFrom(a: Sched, b: Sched, declSeq: nat) {
    && |a.tally| <= |b.tally|
    && forall c :: 0 <= c < |a.tally| && !a.tally[c].sealed && b.tally[c].sealed ==> b.tally[c].sealedThrough >= declSeq
  }

  ghost predicate NamesKept(a: Sched, b: Sched) {
    && |a.named| == |a.phase| <= |b.named| == |b.phase|
    && forall x :: 0 <= x < |a.named| ==>
         && a.named[x] <= b.named[x]
         && (IsSubmitted(a.phase[x]) && IsSubmitted(b.phase[x]) ==> b.named[x] == a.named[x])
  }

  ghost predicate TallyAdvances(a: Tally, b: Tally) {
    && a.members <= b.members
    && (a.sealed ==> b.sealed && b.sealedThrough == a.sealedThrough)
  }

  /** What ran or was resolved still is. */
  lemma SweptKeepsHalts(a: Sched, b: Sched, batch: iset<nat>, to: EntityState)
    requires Life(a.state, a.phase) && IsTerminal(to) && Swept(a, b, batch, to)
    ensures HaltsKept(a, b)
  {
    hide Doomed, FailuresLast;
    forall x | HaltedTask(a, x) ensures HaltedTask(b, x) {
      assert SweptTask(a, b, x, batch, to);
    }
  }

  lemma SweptAdvances(a: Sched, b: Sched, batch: iset<nat>, to: EntityState)
    requires Life(a.state, a.phase) && IsTerminal(to) && Swept(a, b, batch, to) && |a.named| == |a.phase|
    ensures Advances(a, b)
  {
    hide Doomed, FailuresLast;
    forall x | 0 <= x < |a.phase| ensures a.phase[x] == PhaseAbandoned ==> b.phase[x] == PhaseAbandoned
      ensures a.phase[x] == PhaseRunning ==> b.phase[x] == PhaseRunning
    {
      assert SweptTask(a, b, x, batch, to);
    }
    forall x | 0 <= x < |a.state| && IsTerminal(a.state[x]) ensures b.state[x] == a.state[x] {
      assert SweptTask(a, b, x, batch, to);
    }
    forall x | 0 <= x < |b.phase| && b.phase[x] == PhaseRunning ensures x < |a.phase| && a.phase[x] == PhaseRunning {
      assert SweptTask(a, b, x, batch, to);
    }
    forall x | 0 <= x < |a.phase| && a.phase[x] != PhaseDeclared ensures b.phase[x] != PhaseDeclared {
      assert SweptTask(a, b, x, batch, to);
    }
    forall c | 0 <= c < |a.tally| ensures TallyAdvances(a.tally[c], b.tally[c]) {
      assert TallyGrows(a.tally[c], b.tally[c], a.declSeq);
    }
  }

  lemma SealsFromTwice(a: Sched, b: Sched, c: Sched, declSeq: nat)
    requires SealsFrom(a, b, declSeq) && Advances(b, c) && declSeq <= b.declSeq
    ensures SealsFrom(a, c, declSeq)
  {
    forall d | 0 <= d < |a.tally| && !a.tally[d].sealed && c.tally[d].sealed ensures c.tally[d].sealedThrough >= declSeq {
      assert TallyAdvances(b.tally[d], c.tally[d]);
    }
  }

  lemma AdvancesTwice(a: Sched, b: Sched, c: Sched)
    requires Advances(a, b) && Advances(b, c)
    ensures Advances(a, c)
  {
    forall x | 0 <= x < |a.named| ensures a.named[x] <= c.named[x] {
      assert a.named[x] <= b.named[x] && b.named[x] <= c.named[x];
    }
    forall d | 0 <= d < |a.tally| ensures TallyAdvances(a.tally[d], c.tally[d]) {
      assert TallyAdvances(a.tally[d], b.tally[d]) && TallyAdvances(b.tally[d], c.tally[d]);
    }
  }

  lemma SweepOn(a: Sched, b: Sched, c: Sched, batch: iset<nat>, to: EntityState)
    requires Quiet(a) && Quiet(b) && IsTerminal(to) && Swept(a, b, batch, to) && Swept(b, c, batch, to)
    ensures Swept(a, c, batch, to) && HaltsKept(b, c) && HaltsKept(a, c)
  {
    hide Static, Tree, Members, NamedOk, Memory, Tallies, Located, Edges, Led, QueueOk, Counts, Holds, Started,
        StartsPast, NoGate, GatesAlone, Swept, HaltsKept;
    SweepTwice(a, b, c, batch, to);
    SweptKeepsHalts(b, c, batch, to);
    SweptKeepsHalts(a, c, batch, to);
  }

  /** The Tasks StopFollowers looks at: members after the step, and all of them. */
  lemma OwnTaskFollows(s: Sched, c: nat, branch: nat, i: nat)
    requires Whole(s) && c < |s.cols| && c < |s.colTasks| && i < |s.colTasks[c]| && s.cols[c].sequential
    ensures s.colTasks[c][i] < |s.info| == |s.state|
    ensures s.info[s.colTasks[c][i]].decl > branch ==> AfterStep(s, s.colTasks[c][i], c, branch)
  {
    hide Members, Life, NamedOk, Memory, Tallies, Located, Edges, Led, QueueOk, Counts, Holds, Started, StartsPast,
        NoGate, GatesAlone, Tree;
    OwnTasks(s, c, s.colTasks[c][i]);
    assert OnChain(s.cols, c, c);
  }

  lemma ChildTasksFollow(s: Sched, c: nat, branch: nat, k: nat, below: seq<TaskId>)
    requires Whole(s) && c < |s.cols| && c < |s.colChildren| && k < |s.colChildren[c]| && s.cols[c].sequential
    requires below == Descendants(s, s.colChildren[c][k])
    ensures s.colChildren[c][k] < |s.cols|
    ensures forall i :: 0 <= i < |below| ==>
        && below[i] < |s.info| == |s.state|
        && (s.cols[s.colChildren[c][k]].decl > branch ==> AfterStep(s, below[i], c, branch))
  {
    hide Members, Life, NamedOk, Memory, Tallies, Located, Edges, Led, QueueOk, Counts, Holds, Started, StartsPast,
        NoGate, GatesAlone;
    var d := s.colChildren[c][k];
    ChildOf(s, c, d);
    forall i | 0 <= i < |below| ensures below[i] < |s.info| && (s.cols[d].decl > branch ==> AfterStep(s, below[i], c, branch)) {
      ChildMembersStep(s, c, d, below[i]);
    }
  }

  /** Halting c's own later Tasks and the members of its later containers halts
      everything after the step. */
  lemma FollowersHalted(a: Sched, b: Sched, c: nat, branch: nat)
    requires Whole(a) && c < |a.cols| && c < |a.colTasks| && c < |a.colChildren|
    requires b.info == a.info && b.cols == a.cols
    requires forall j :: 0 <= j < |a.colTasks[c]| && a.colTasks[c][j] < |a.info| && a.info[a.colTasks[c][j]].decl > branch ==>
      HaltedTask(b, a.colTasks[c][j])
    requires forall k :: 0 <= k < |a.colChildren[c]| ==> HaltedChild(a, b, a.colChildren[c][k], branch)
    ensures forall x :: AfterStep(b, x, c, branch) ==> HaltedTask(b, x)
  {
    hide Members, Life, NamedOk, Memory, Tallies, Located, Edges, Led, QueueOk, Counts, Holds, Started, StartsPast,
        NoGate, GatesAlone;
    forall x: nat | AfterStep(b, x, c, branch) ensures HaltedTask(b, x) {
      assert AfterStep(a, x, c, branch);
      LaterMembers(a, c, branch, x);
      if x in a.colTasks[c] && a.info[x].decl > branch {
        var j :| 0 <= j < |a.colTasks[c]| && a.colTasks[c][j] == x;
      } else {
        var d: nat :| d in a.colChildren[c] && d < |a.cols| && a.cols[d].decl > branch && x in Descendants(a, d);
        var k :| 0 <= k < |a.colChildren[c]| && a.colChildren[c][k] == d;
        assert HaltedChild(a, b, d, branch);
      }
    }
  }

  ghost predicate HaltedChild(a: Sched, b: Sched, d: nat, branch: nat) {
    d < |a.cols| && a.cols[d].decl > branch ==> forall x :: x in Descendants(a, d) ==> HaltedTask(b, x)
  }

  lemma SweptFrame(a: Sched, b: Sched, batch: iset<nat>, to: EntityState)
    requires Swept(a, b, batch, to)
    ensures SameFrame(a, b)
  {
  }

  lemma HaltsOn(a: Sched, b: Sched)
    requires HaltsKept(a, b)
    ensures forall x :: HaltedTask(a, x) ==> HaltedTask(b, x)
  {
  }

  lemma ChildrenOn(tree: Sched, a: Sched, b: Sched, branch: nat)
    requires HaltsKept(a, b)
    ensures forall d: nat :: HaltedChild(tree, a, d, branch) ==> HaltedChild(tree, b, d, branch)
  {
  }

  lemma ChildHalted(tree: Sched, b: Sched, d: nat, branch: nat, below: seq<TaskId>)
    requires d < |tree.cols| && below == Descendants(tree, d)
    requires tree.cols[d].decl > branch ==> forall i :: 0 <= i < |below| ==> HaltedTask(b, below[i])
    ensures HaltedChild(tree, b, d, branch)
  {
  }

  // ---- the walk that stops followers --------------------------------------

  /** a with the stops of b. */
  ghost function Restopped(a: Sched, b: Sched): Sched { a.(stoppedAfter := b.stoppedAfter) }

  /** The Tasks a memo-free walk from failed reaches. */
  ghost function Following(s: Sched, failed: nat): iset<nat> {
    iset x: nat | Follows(s, failed, x)
  }

  function Stopping(s: Sched, c: nat, branch: nat): Sched
    requires c < |s.stoppedAfter|
  {
    s.(stoppedAfter := s.stoppedAfter[c := branch])
  }

  lemma StopFrame(s: Sched, c: nat, branch: nat)
    requires Quiet(s) && c < |s.stoppedAfter|
    ensures Quiet(Stopping(s, c, branch))
  {
    hide Static, Tree, Members, Life, NamedOk, Memory, Tallies, Located, Edges, Led, QueueOk, Counts, Holds,
        Started, StartsPast, NoGate, GatesAlone;
  }

  /** Before its followers are stopped, Sequence c takes the step as its stop. */
  lemma StopsHere(s: Sched, failed: nat, c: nat, branch: nat)
    requires Quiet(s) && Walked(s, failed, c) && StoppedBut(s, -1) && s.cols[c].sequential
    requires c < |s.stoppedAfter| && branch == StepOf(s, failed, c) && !(s.stoppedAfter[c] != 0 && branch >= s.stoppedAfter[c])
    ensures var r := Stopping(s, c, branch);
      && Quiet(r) && Walked(r, failed, s.cols[c].parent) && StoppedBut(r, c)
      && forall x :: AfterStep(r, x, c, branch) ==> Follows(s, failed, x)
  {
    hide Tree, Members, Life, NamedOk, Memory, Tallies, Located, Edges, Led, QueueOk, Counts, Holds, Started,
        StartsPast, NoGate, GatesAlone, Walked, StoppedBut;
    StopFrame(s, c, branch);
    BranchPositive(s, failed, c);
    WalkStops(s, failed, c);
    var r := Stopping(s, c, branch);
    forall x | AfterStep(r, x, c, branch) ensures Follows(s, failed, x) {
      OnTheWalk(s, failed, c);
      assert AfterStep(s, x, c, branch);
    }
  }

  lemma OnTheWalk(s: Sched, failed: nat, c: nat)
    requires Walked(s, failed, c)
    ensures Below(s.info, s.cols, failed, c)
  {
  }

  lemma BranchPositive(s: Sched, failed: nat, c: nat)
    requires Whole(s) && Walked(s, failed, c)
    ensures StepOf(s, failed, c) > 0 && -1 <= s.cols[c].parent < c
  {
    hide Tree, Members, Life, NamedOk, Memory, Tallies, Located, Edges, Led, QueueOk, Counts, Holds, Started,
        StartsPast, NoGate, GatesAlone;
    StepPositive(s, s.info[failed].home, s.info[failed].decl, c);
  }

  /** Afterwards nothing is left to stop at c, and the walk goes on above it. */
  lemma StoppedOnce(r: Sched, t: Sched, failed: nat, c: nat, p: int, batch: iset<nat>)
    requires Quiet(r) && Walked(r, failed, p) && StoppedBut(r, c) && c < |r.stoppedAfter|
    requires Swept(r, t, batch, NotStarted)
    requires forall x :: AfterStep(t, x, c, r.stoppedAfter[c]) ==> HaltedTask(t, x)
    ensures Walked(t, failed, p) && StoppedBut(t, -1)
  {
    hide Static, Tree, Members, NamedOk, Memory, Tallies, Located, Edges, Led, QueueOk, Counts, Holds, Started,
        StartsPast, NoGate, GatesAlone, Walked, StoppedBut, HaltsKept, AfterStep, HaltedTask;
    SweptKeepsHalts(r, t, batch, NotStarted);
    SweptStops(r, t, batch);
    WalkedKept(r, t, failed, p);
    StoppedKept(r, t, c);
    StoppedHere(t, c);
  }

  lemma SweptStops(r: Sched, t: Sched, batch: iset<nat>)
    requires Swept(r, t, batch, NotStarted)
    ensures t.stoppedAfter == r.stoppedAfter && t.info == r.info && t.cols == r.cols
  {
  }

  lemma SweptAcrossStop(s0: Sched, s: Sched, r: Sched, t: Sched, batch: iset<nat>)
    requires Quiet(s0) && Quiet(r) && |s.stoppedAfter| == |s0.stoppedAfter|
    requires Swept(Restopped(s0, s), s, batch, NotStarted) && r == s.(stoppedAfter := r.stoppedAfter)
    requires Swept(r, t, batch, NotStarted)
    ensures Swept(Restopped(s0, t), t, batch, NotStarted)
  {
    hide Static, Tree, Members, NamedOk, Memory, Tallies, Located, Edges, Led, QueueOk, Counts, Holds, Started,
        StartsPast, NoGate, GatesAlone, SweptTask, Doomed, FailuresLast;
    var a := Restopped(s0, t);
    FailuresLastSame(Restopped(s0, s), s, a, r);
    assert Swept(a, r, batch, NotStarted) by {
      forall x | 0 <= x < |a.state| ensures SweptTask(a, r, x, batch, NotStarted) {
        SweptTaskCong(Restopped(s0, s), s, a, r, x, batch);
      }
    }
    SweepTwice(a, r, t, batch, NotStarted);
  }

  lemma SweptTaskCong(a: Sched, b: Sched, a': Sched, b': Sched, x: nat, batch: iset<nat>)
    requires x < |a.state| == |a.phase| == |b.state| == |b.phase| && SweptTask(a, b, x, batch, NotStarted)
    requires a'.state == a.state && a'.phase == a.phase && b'.state == b.state && b'.phase == b.phase
    requires V(b') == V(b) && b'.named == b.named
    ensures SweptTask(a', b', x, batch, NotStarted)
  {
  }

  lemma WalkFrom(s: Sched, failed: nat)
    requires Good(s) && failed < |s.info|
    ensures -1 <= s.info[failed].home < |s.cols| == |s.stoppedAfter|
    ensures Walked(s, failed, s.info[failed].home) && StoppedBut(s, -1)
    ensures s.info[failed].home >= 0 ==> StepOf(s, failed, s.info[failed].home) == s.info[failed].decl
    ensures Swept(Restopped(s, s), s, Following(s, failed), NotStarted)
  {
    hide Tree, Members, Life, NamedOk, Memory, Tallies, Located, Edges, Led, QueueOk, Counts, Holds, Started,
        StartsPast, NoGate, GatesAlone, Stops;
    WalkStarts(s, failed);
    StopsBut(s);
    assert Restopped(s, s) == s;
    SweepNone(s, Following(s, failed), NotStarted);
  }

  lemma StopsBut(s: Sched)
    requires Stops(s)
    ensures StoppedBut(s, -1)
  {
  }

  lemma WalkOn(s: Sched, failed: nat, c: nat)
    requires Quiet(s) && Walked(s, failed, c)
    ensures -1 <= s.cols[c].parent < c
    ensures s.cols[c].parent >= 0 ==> StepOf(s, failed, s.cols[c].parent) == s.cols[c].decl
    ensures !s.cols[c].sequential ==> Walked(s, failed, s.cols[c].parent)
  {
    hide Tree, Members, Life, NamedOk, Memory, Tallies, Located, Edges, Led, QueueOk, Counts, Holds, Started,
        StartsPast, NoGate, GatesAlone;
    if s.cols[c].parent >= 0 {
      NextStep(s, failed, c);
    }
    if !s.cols[c].sequential {
      WalkPastGroup(s, failed, c);
    }
  }

  lemma FollowsSame(a: Sched, b: Sched, failed: nat)
    requires b.info == a.info && b.cols == a.cols
    ensures forall x :: Follows(b, failed, x) <==> Follows(a, failed, x)
  {
    forall x ensures Follows(b, failed, x) <==> Follows(a, failed, x) {
      if Follows(a, failed, x) {
        var d: nat :| d < |a.cols| && Below(a.info, a.cols, failed, d) && AfterStep(a, x, d, StepOf(a, failed, d));
        assert AfterStep(b, x, d, StepOf(b, failed, d));
      }
      if Follows(b, failed, x) {
        var d: nat :| d < |b.cols| && Below(b.info, b.cols, failed, d) && AfterStep(b, x, d, StepOf(b, failed, d));
        assert AfterStep(a, x, d, StepOf(a, failed, d));
      }
    }
  }

  /** The walk is over: what follows failed is halted, and the stops agree. */
  lemma WalkDone(s0: Sched, s: Sched, failed: nat)
    requires Quiet(s) && Walked(s, failed, -1) && StoppedBut(s, -1)
    requires Swept(Restopped(s0, s), s, Following(s0, failed), NotStarted)
    ensures Good(s)
    ensures forall x :: Follows(s0, failed, x) ==> HaltedTask(s, x)
  {
    hide Whole, Walked, StoppedBut, Follows, HaltedTask, Stops;
    WalkEnds(s, failed);
    FollowsSame(s0, s, failed);
  }

  // ---- steps made of one settle or one cascade ----------------------------

  lemma CascadeKeepsHalts(a: Sched, b: Sched, but: int)
    requires Life(a.state, a.phase) && Cascaded(a, b, but)
    requires 0 <= but < |a.state| ==> HaltedTask(b, but)
    ensures HaltsKept(a, b)
  {
    forall x | HaltedTask(a, x) ensures HaltedTask(b, x) {
      assert x != but ==> CascadedTask(a, b, x);
    }
  }

  lemma LifeOf(s: Sched)
    requires Whole(s)
    ensures Life(s.state, s.phase) && |s.named| == |s.phase| == |s.state| == |s.info| == |s.loc|
  {
  }

  lemma GoodAfter(a: Sched, b: Sched, but: int)
    requires Good(a) && Quiet(b) && Cascaded(a, b, but)
    requires 0 <= but < |a.state| ==> HaltedTask(b, but)
    ensures Good(b)
  {
    hide Inv, HaltsKept, Stops, Cascaded;
    LifeOf(a);
    CascadeKeepsHalts(a, b, but);
    StopsKept(a, b);
  }

  lemma GoodAfterSweep(a: Sched, b: Sched, batch: iset<nat>, to: EntityState)
    requires Good(a) && Quiet(b) && Swept(a, b, batch, to) && IsTerminal(to)
    ensures Good(b)
  {
    hide Inv, HaltsKept, Stops, Swept;
    LifeOf(a);
    SweptKeepsHalts(a, b, batch, to);
    StopsKept(a, b);
  }

  lemma SettleAdvances(a: Sched, b: Sched, st: TaskId)
    requires Life(a.state, a.phase) && Cascaded(a, b, st) && |a.named| == |a.phase|
    requires st < |a.state| && !IsTerminal(a.state[st]) && b.phase[st] == AbandonedPhase(a.phase[st])
    ensures Advances(a, b) && b.inflight == a.inflight
  {
    hide Doomed, FailuresLast;
    forall x | 0 <= x < |a.state| && IsTerminal(a.state[x]) ensures b.state[x] == a.state[x] {
      assert CascadedTask(a, b, x);
    }
    forall x | 0 <= x < |b.phase| ensures b.phase[x] == PhaseRunning ==> a.phase[x] == PhaseRunning {
      assert x != st ==> CascadedTask(a, b, x);
    }
    forall x | 0 <= x < |b.phase|
      ensures a.phase[x] != PhaseDeclared ==> b.phase[x] != PhaseDeclared
      ensures a.phase[x] == PhaseAbandoned ==> b.phase[x] == PhaseAbandoned
      ensures a.phase[x] == PhaseRunning ==> b.phase[x] == PhaseRunning
    {
      assert x != st ==> CascadedTask(a, b, x);
    }
    forall c | 0 <= c < |a.tally| ensures TallyAdvances(a.tally[c], b.tally[c]) {
      assert TallyGrows(a.tally[c], b.tally[c], a.declSeq);
    }
  }

  lemma CascadeAdvances(a: Sched, b: Sched)
    requires Life(a.state, a.phase) && Cascaded(a, b, -1) && |a.named| == |a.phase|
    ensures Advances(a, b) && b.inflight == a.inflight
  {
    SweptByCascade(a, b, iset{}, NotStarted);
    SweptAdvances(a, b, iset{}, NotStarted);
  }

  /** A failure and the walk after it, as one step. */
  lemma FailureThenWalk(a: Sched, m: Sched, b: Sched, st: TaskId)
    requires Life(a.state, a.phase) && Whole(m) && |a.named| == |a.phase|
    requires st < |a.state| && !IsTerminal(a.state[st])
    requires Cascaded(a, m, st) && m.phase[st] == AbandonedPhase(a.phase[st]) && IsTerminal(m.state[st])
    requires Swept(Restopped(m, b), b, Following(m, st), NotStarted)
    ensures |b.state| == |b.phase| == |a.state| && b.state[st] == m.state[st]
    ensures forall x :: 0 <= x < |a.state| && x != st ==> SweptTask(a, b, x, Following(a, st), NotStarted)
    ensures Advances(a, b) && b.inflight == a.inflight
    ensures forall x :: Follows(a, st, x) <==> Follows(m, st, x)
  {
    hide Follows, Inv, FailuresLast, Doomed;
    FollowsSame(a, m, st);
    LifeOf(m);
    WholeBounded(m);
    var r := Restopped(m, b);
    assert SweptTask(r, b, st, Following(m, st), NotStarted);
    forall x | 0 <= x < |a.state| && x != st ensures SweptTask(a, b, x, Following(a, st), NotStarted) {
      assert CascadedTask(a, m, x) && SweptTask(r, b, x, Following(m, st), NotStarted);
      if Doomed(m, x) {
        DoomedSame(m, r, x);
        DoomedLasts(r, b, x);
      }
    }
    SettleAdvances(a, m, st);
    SweptAdvances(r, b, Following(m, st), NotStarted);
    AdvancesRestopped(m, b);
    AdvancesTwice(a, m, b);
  }

  lemma AdvancesRestopped(a: Sched, b: Sched)
    requires Advances(Restopped(a, b), b)
    ensures Advances(a, b)
  {
  }

  /** When every Task ran or was resolved, the scheduler holds nobody. */
  lemma AllHalted(s: Sched)
    requires Whole(s) && forall x :: 0 <= x < |s.state| ==> HaltedTask(s, x)
    ensures s.parked == 0 && s.wg == s.executing
  {
    hide Static, Tree, Members, NamedOk, Memory, Tallies, Located, Edges, Led, QueueOk, Holds, Started, StartsPast,
        NoGate, GatesAlone;
    forall x | 0 <= x < |s.phase| ensures s.phase[x] != PhaseParked && s.phase[x] != PhaseQueued {
      assert HaltedTask(s, x);
    }
    NoneCounted(s.phase, PhaseParked);
    NoneCounted(s.phase, PhaseQueued);
  }

  lemma {:induction false} NoneCounted(phase: seq<Phase>, p: Phase)
    requires forall x :: 0 <= x < |phase| ==> phase[x] != p
    ensures CountPhase(phase, p) == 0
  {
    if phase != [] {
      NoneCounted(phase[1..], p);
    }
  }

  predicate IsSubmitted(p: Phase) {
    p == PhaseQueued || p == PhaseParked || p == PhaseRunning
  }

  /** What settling st as to may do to another Task x: wake or refuse it as a
      cascade does, or, when that fails submitted work, stop it for following st. */
  ghost predicate SettledBy(a: Sched, b: Sched, st: TaskId, x: nat, to: EntityState) {
    && x < |a.state| == |a.phase| == |b.state| == |b.phase| && st < |a.phase|
    && (if IsSubmitted(a.phase[st]) && StateOutcome(to) == PredFailed
        then SweptTask(a, b, x, Following(a, st), NotStarted) else CascadedTask(a, b, x))
  }

  lemma SettledByWalk(a: Sched, b: Sched, st: TaskId, to: EntityState)
    requires |a.state| == |a.phase| == |b.state| == |b.phase| && st < |a.phase|
    requires IsSubmitted(a.phase[st]) && StateOutcome(to) == PredFailed
    requires forall x :: 0 <= x < |a.state| && x != st ==> SweptTask(a, b, x, Following(a, st), NotStarted)
    ensures forall x :: 0 <= x < |a.state| && x != st ==> SettledBy(a, b, st, x, to)
  {
  }

  lemma SettledByCascade(a: Sched, b: Sched, st: TaskId, to: EntityState)
    requires |a.state| == |a.phase| && st < |a.phase| && Cascaded(a, b, st)
    requires !(IsSubmitted(a.phase[st]) && StateOutcome(to) == PredFailed)
    ensures forall x :: 0 <= x < |a.state| && x != st ==> SettledBy(a, b, st, x, to)
  {
  }

  lemma SweptSlots(a: Sched, b: Sched, batch: iset<nat>)
    requires Swept(a, b, batch, NotStarted)
    ensures b.inflight == a.inflight
  {
  }

  lemma TallyKept(a: Sched, b: Sched, c: nat)
    requires Cascaded(a, b, -1) && c < |a.tally|
    ensures c < |b.tally| && TallyGrows(a.tally[c], b.tally[c], a.declSeq) && b.declSeq == a.declSeq
  {
  }

  lemma CancelFrame(s: Sched)
    requires Good(s)
    ensures Good(s.(cancelled := true)) && Advances(s, s.(cancelled := true))
  {
    hide Static, Tree, Members, Life, NamedOk, Memory, Tallies, Located, Edges, Led, QueueOk, Counts, Holds,
        Started, StartsPast, NoGate, GatesAlone;
    StopsKept(s, s.(cancelled := true));
  }
}
