/** The run's scheduler (eligibility.go, execution.go, builder.go, declare.go,
    settle.go, interrupt.go). Output is the object the source keeps under one
    lock; each of its methods is one critical section, so the invariant its
    methods keep holds in every state of every interleaving of them.

    Per-Task and per-container records are held field by field, indexed by the
    Task and the container. */
module Run {
  import opened Outcomes
  import opened CollectionTally
  import opened Topology
  import opened Eligibility
  import opened WaitLists
  import opened RunState
  import opened Placing
  import opened Settling
  import opened Failures
  import opened Cascades
  import opened Starting
  import opened Followers
  import opened Rest
  import opened Draining
  import opened Declaring
  import opened Growing
  import opened Waiting
  import opened Rings
  import opened Safety
  import opened Lineage
  import opened Tracing
  import opened Weaving
  import Cycles
  import DepthFirst
  import Order = LedgerOrder

  // ---- the scheduler ------------------------------------------------------

  class Output {
    /** The concurrency ceiling: how many callbacks may run at once. */
    const ceiling: nat

    /** Every Task, container and scheduling field, guarded by the one lock. */
    var sched: Sched

    /** What holds whenever the lock is free. */
    ghost predicate Resting()
      reads this
    {
      Good(sched) && Traced(sched) && sched.inflight <= ceiling
    }

    /** A run with nothing declared. */
    constructor (slots: nat)
      ensures Resting() && Blank(sched) && ceiling == slots
    {
      ceiling := slots;
      sched := Sched([], [], [], [], [], [], [], [], [], [], [], [], [], [], [], 0, 0, 0, 0, 0, false, false, false, [], [], [], [], {}, 0, {});
      new;
      hide Good, Traced;
      BlankOk(sched);
      BlankTraced(sched);
    }

    // ---- scanning and placing ---------------------------------------------

    /** Folds st's predecessors into one outcome, forgetting the Tasks among them
        that succeeded. The outcome is that of every predecessor st ever named. */
    method PredsOutcome(st: TaskId, scan: PredScan) returns (verdict: Outcome, blocker: Pred)
      requires Whole(sched) && st < |sched.preds| && st < |sched.loc| && !Waits(sched.loc[st])
      modifies this
      ensures st < |sched.preds| && st < old(|sched.preds|)
      ensures sched == Scanned(old(sched), st, sched.preds[st]) && Whole(sched)
      ensures Readable(sched, st) && PredsOk(sched.preds[st], |sched.state|, |sched.tally|)
      ensures (verdict, blocker) == Scan(V(sched), sched.named[st], scan)
      ensures (verdict, blocker) == Scan(V(sched), sched.preds[st], scan)
    {
      hide Inv, Traced;
      ghost var s0 := sched;
      ViewOfWhole(s0, st);
      var kept;
      verdict, blocker, kept := FoldPreds(V(sched), sched.preds[st], scan);
      sched := sched.(preds := sched.preds[st := kept]);
      ScannedOk(s0, st, kept, -1, -1, -1);
      ViewOfWhole(sched, st);
      ForgettingPreservesMeaning(V(sched), sched.named[st], s0.preds[st], scan);
      ForgettingPreservesMeaning(V(sched), sched.named[st], kept, scan);
    }

    /** Moves st to phase to, keeping the parked count true. */
    method EnterPhase(st: TaskId, to: Phase)
      requires st < |sched.phase|
      modifies this
      ensures st < old(|sched.phase|)
      ensures sched == old(sched).(phase := old(sched.phase)[st := to],
                                   parked := old(sched.parked) + ParkedDelta(old(sched.phase)[st], to))
    {
      if sched.phase[st] == PhaseParked {
        sched := sched.(parked := sched.parked - 1);
      }
      if to == PhaseParked {
        sched := sched.(parked := sched.parked + 1);
      }
      sched := sched.(phase := sched.phase[st := to]);
    }

    /** Queues st by declaration. */
    method Enqueue(st: TaskId)
      requires st < |sched.phase| && st < |sched.loc| && Order.Sorted(sched.queue, ByDecl(sched.info))
      modifies this
      ensures st < old(|sched.phase|) && st < old(|sched.loc|) && sched == Enqueued(old(sched), st)
    {
      EnterPhase(st, PhaseQueued);
      var queue := Order.InsertAfterOrder(sched.queue, st, ByDecl(sched.info));
      sched := sched.(queue := queue, loc := sched.loc[st := InQueue]);
    }

    /** Parks st on the one pending predecessor it is blocked by. */
    method Park(st: TaskId, blocker: Pred)
      requires st < |sched.phase| && st < |sched.loc| && st < |sched.edge|
      requires PredOk(blocker, |sched.dependents|, |sched.tally|) && !blocker.Missing?
      modifies this
      ensures st < old(|sched.phase|) && st < old(|sched.loc|) && st < old(|sched.edge|)
      ensures PredOk(blocker, old(|sched.dependents|), old(|sched.tally|))
      ensures sched == ParkedAt(old(sched), st, blocker)
    {
      var tag := ParkTag(V(sched), blocker);
      EnterPhase(st, PhaseParked);
      sched := sched.(loc := sched.loc[st := tag], edge := sched.edge[st := blocker]);
      match blocker
      case OnTask(t) =>
        sched := sched.(dependents := sched.dependents[t := sched.dependents[t] + [st]]);
      case OnCol(c, through) =>
        var (cursor, open) := EdgeCursor(sched.tally[c], through, sched.draining);
        sched := sched.(tally := sched.tally[c := ParkedOn(sched.tally[c], st, cursor, open)]);
    }

    /** Routes submitted st by what its predecessors say: queued when all
        succeeded, parked on the first one still pending, and settled NotStarted
        when one can never succeed. */
    method Place(st: TaskId, scan: PredScan)
      requires Whole(sched) && InHand(sched, st)
      requires !sched.waking ==> sched.woken == []
      modifies this
      ensures Whole(sched) && Cascaded(old(sched), sched, -1)
      ensures InHands(sched) == InHands(old(sched)) - {st} && HandsStill(old(sched), sched)
      ensures sched.waking == old(sched.waking) && (!sched.waking ==> sched.woken == [])
      ensures Unresolved(sched.state) < old(Unresolved(sched.state))
           || (sched.state == old(sched.state) && sched.woken == old(sched.woken))
      ensures Readable(old(sched), st) && PlacedBy(old(sched), sched, st, scan)
      ensures NamesDone(old(sched), st) ==> sched.phase[st] == PhaseQueued
      decreases Unresolved(sched.state), 3
    {
      hide Inv, Traced, Readable, Cascaded, Hands, GateConcluded, Scan, ViewOk, PredsOk, PlacedBy, FailuresLast,
          NamesDone;
      ghost var s0 := sched;
      Shaped(s0, -1, -1, -1);
      ReadableNow(s0, st);
      ViewOfWhole(s0, st);
      var verdict, blocker := PredsOutcome(st, scan);
      ghost var s1 := sched;
      ReadableNow(s1, st);
      match verdict {
        case PredSucceeded =>
          EnqueueKeeps(s0, s1, st, scan);
          Enqueue(st);
        case PredPending =>
          ParkKeeps(s0, s1, st, blocker, scan);
          Park(st, blocker);
        case PredFailed =>
          StillUnresolved(s1, st);
          Settle(st, NotStarted);
          RefusalKeeps(s0, s1, sched, st, scan);
      }
      PlacedOnceDone(s0, sched, st, scan);
    }

    // ---- settling ---------------------------------------------------------

    /** Moves st to terminal state to. What that owes is owed in the same step:
        the scheduler's hold on unstarted work, the collections above st, and a
        new look for every Task parked on it or on a collection it decided. */
    method Settle(st: TaskId, to: EntityState)
      requires Whole(sched) && st < |sched.state| && !IsTerminal(sched.state[st]) && IsTerminal(to)
      requires !sched.waking ==> sched.woken == []
      modifies this
      ensures st < |sched.state| && st < |sched.phase| && st < old(|sched.phase|)
      ensures Whole(sched) && Cascaded(old(sched), sched, st)
      ensures sched.state[st] == to && sched.phase[st] == AbandonedPhase(old(sched.phase[st]))
      ensures InHands(sched) == InHands(old(sched)) - {st} && HandsStill(old(sched), sched)
      ensures sched.waking == old(sched.waking) && (!sched.waking ==> sched.woken == [])
      ensures old(sched.waking) ==>
        sched.state == old(sched.state)[st := to] && sched.phase == old(sched.phase)[st := AbandonedPhase(old(sched.phase[st]))]
      ensures Unresolved(sched.state) < old(Unresolved(sched.state))
      ensures StateOutcome(to) == PredFailed ==> FailuresLast(old(sched), sched)
      ensures GateConcluded(old(sched), sched, st, to)
      decreases Unresolved(sched.state), 2
    {
      hide Inv, Traced, Cascaded, Hands, FailuresLast, Owes, Concludes, HandsStill, Decided;
      ghost var s0 := sched;
      DecidedFrame(s0, st, to);
      Shaped(s0, -1, -1, -1);
      DecidedOk(s0, st, to);
      UnresolvedDrops(s0.state, st, to);
      GateSits(s0, st);
      OwesAll(s0, st, to);
      Decide(st, to);
      ghost var s1 := sched;
      if sched.info[st].gateFor >= 0 {
        ghost var at := ConcludeGate(st);
        assert GateConcluded(s0, sched, st, to);
      } else {
        Propagate(st, s0.state);
        CascadeBut(s1, sched, st);
      }
      CascadeAfterDecided(s0, sched, st, to);
      StillAfterDecided(s0, sched, st, to);
    }

    /** The state st settles in, and the hold work that had not started gives back. */
    method Decide(st: TaskId, to: EntityState)
      requires st < |sched.state| && st < |sched.phase| && st < |sched.loc|
      modifies this
      ensures st < |old(sched).state| && st < |old(sched).phase| && st < |old(sched).loc|
      ensures sched == Decided(old(sched), st, to)
    {
      ghost var s0 := sched;
      sched := sched.(state := sched.state[st := to]);
      if Awaiting(sched.phase[st]) {
        Abandon(st);
      }
      assert s0.phase[st := s0.phase[st]] == s0.phase;
    }

    /** Releases the scheduler's hold on submitted work that settled before it
        started. */
    method Abandon(st: TaskId)
      requires st < |sched.phase| && st < |sched.loc|
      modifies this
      ensures st < old(|sched.phase|) && st < old(|sched.loc|)
      ensures sched == old(sched).(phase := old(sched.phase)[st := PhaseAbandoned], loc := old(sched.loc)[st := Off],
                parked := old(sched.parked) - (if old(sched.phase)[st] == PhaseParked then 1 else 0), wg := old(sched.wg) - 1)
    {
      EnterPhase(st, PhaseAbandoned);
      sched := sched.(wg := sched.wg - 1, loc := sched.loc[st := Off]);
    }

    /** Tells st's dependents and its collections that st settled. was is how every
        Task stood just before. */
    method Propagate(st: TaskId, ghost was: seq<EntityState>)
      requires st < |sched.info| && st < |sched.dependents| && sched.info[st].gateFor == -1
      requires Inv(sched, st, sched.info[st].home, -1) && Owes(sched, st, was, sched.info[st].home)
      requires !sched.waking ==> sched.woken == []
      modifies this
      ensures Whole(sched) && Cascaded(old(sched), sched, -1)
      ensures InHands(sched) == InHands(old(sched)) && HandsStill(old(sched), sched)
      ensures sched.waking == old(sched.waking) && (!sched.waking ==> sched.woken == [])
      ensures old(sched.waking) ==> sched.state == old(sched.state) && sched.phase == old(sched.phase)
      ensures Unresolved(sched.state) <= old(Unresolved(sched.state))
      decreases Unresolved(sched.state), 6
    {
      hide Inv, Traced, Cascaded, Hands, GateConcluded, Owes;
      ghost var s0 := sched;
      HomeOf(s0, st);
      assert s0.info[st].home >= 0 ==> OnChain(s0.cols, s0.info[st].home, s0.info[st].home);
      DependentsWokenKeeps(s0, st, s0.info[st].home, was);
      sched := DependentsWoken(sched, st);
      var c := sched.info[st].home;
      while c >= 0
        invariant -1 <= c < |sched.cols| && |sched.tally| == |sched.cols| && st < |sched.info|
        invariant Inv(sched, -1, c, -1) && Cascaded(s0, sched, -1)
        invariant Owes(sched, st, was, c) && (c >= 0 ==> Below(sched.info, sched.cols, st, c))
        invariant InHands(sched) == InHands(s0) && sched.waking == s0.waking
        invariant sched.state == s0.state && sched.phase == s0.phase
      {
        SettlesHere(sched, st, was, c, -1);
        RecountKeeps(s0, sched, c, st, was);
        SettleTally(c, st, was);
        c := sched.cols[c].parent;
      }
      ghost var s1 := sched;
      Wake();
      CascadeTwice(s0, s1, sched, -1);
    }

    /** Settles st in collection c's tally and collects the Tasks it wakes: no other
        member is looked at beyond the prefix st completes, and it is the recount. */
    method SettleTally(c: nat, st: TaskId, ghost was: seq<EntityState>)
      requires c < |sched.tally| && st < |sched.info|
      requires Current(sched.tally[c], was) && WaitersPending(sched.tally[c])
      requires SettledOnly(sched.tally[c], Member(st, sched.info[st].decl), sched.state, was)
      modifies this
      ensures c < |old(sched).tally| && sched == Recount(old(sched), c)
    {
      hide Refreshed, Recounted, Current, WaitersPending, SettledOnly, NowDecided, Sts, ShrunkLoc;
      ghost var s0 := sched;
      var tally := new CollectionTally.Of(sched.tally[c]);
      var woken := tally.Settle(Member(st, sched.info[st].decl), sched.state, was);
      // Which list each woken Task leaves is proof state.
      sched := sched.(tally := sched.tally[c := tally.Value()], woken := sched.woken + woken, loc := Recount(sched, c).loc);
    }

    /** A gate's tail of a settle: the builder's outcome is recorded, its holds on
        the container and everything above are released, as in at, and everybody
        waiting on them is placed again. */
    method ConcludeGate(st: TaskId) returns (ghost at: Sched)
      requires st < |sched.info| && st < |sched.state| && 0 <= sched.info[st].gateFor < |sched.tally| && IsTerminal(sched.state[st])
      requires Inv(sched, st, -1, sched.info[st].gateFor)
      requires !sched.waking ==> sched.woken == []
      modifies this
      ensures st < |sched.state| == |old(sched).state| == |sched.phase| == |old(sched).phase|
      ensures Whole(sched) && Cascaded(old(sched), sched, st)
      ensures sched.state[st] == old(sched).state[st] && sched.phase[st] == old(sched).phase[st]
      ensures StateOutcome(sched.state[st]) == PredFailed ==> FailuresLast(old(sched), sched)
      ensures InHands(sched) == InHands(old(sched)) && HandsStill(old(sched), sched)
      ensures sched.waking == old(sched.waking) && (!sched.waking ==> sched.woken == [])
      ensures old(sched.waking) ==> sched.state == old(sched.state) && sched.phase == old(sched.phase)
      ensures Unresolved(sched.state) <= old(Unresolved(sched.state))
      ensures Concludes(old(sched), at, st) && Cascaded(at, sched, -1)
      decreases Unresolved(sched.state), 6
    {
      hide Inv, Traced, Cascaded, Hands, GateConcluded, FailuresLast, Concluding, Concludes, BuildersKept,
          BuilderOutcome, FailedCol, ReleasedCol, StateOutcome, OnChain;
      ghost var s0 := sched;
      Shaped(s0, st, -1, s0.info[st].gateFor);
      GateHasNoDependents(s0, st);
      var col, done := sched.info[st].gateFor, sched.state[st] == Done;
      ghost var but: int := if done then st else -1;
      var concluded := BuilderOutcome(sched.state[st]);
      ConcludingStarts(s0, st);
      BuilderFrame(s0, s0.builder[col := concluded], col, but);
      sched := sched.(builder := sched.builder[col := concluded]);
      var c := col;
      while c >= 0
        invariant -1 <= c <= col < |sched.cols| && |sched.tally| == |sched.cols|
        invariant Inv(sched, -1, -1, c) && Cascaded(s0, sched, but)
        invariant InHands(sched) == InHands(s0) && sched.waking == s0.waking
        invariant sched.state == s0.state && sched.phase == s0.phase && sched.cols == s0.cols
        invariant Concluding(s0, sched, st, c)
      {
        HoldKeeps(s0, sched, c, done, c == col, but);
        ConcludingNext(s0, sched, st, c);
        if !done {
          sched := FailedCol(sched, c);
        }
        sched := ReleasedCol(sched, c, c == col);
        c := sched.cols[c].parent;
      }
      at := sched;
      Wake();
      ConcludingEnds(s0, at, sched, st, but);
    }

    // ---- waking -----------------------------------------------------------

    /** Places every woken Task again, unless a step further out will. */
    method Wake()
      requires Whole(sched)
      modifies this
      ensures Whole(sched) && Cascaded(old(sched), sched, -1)
      ensures InHands(sched) == InHands(old(sched)) && HandsStill(old(sched), sched)
      ensures sched.waking == old(sched.waking) && (!sched.waking ==> sched.woken == [])
      ensures old(sched.waking) || old(sched.woken) == [] ==> sched == old(sched)
      ensures Unresolved(sched.state) <= old(Unresolved(sched.state))
      decreases Unresolved(sched.state), 5
    {
      hide Inv, Traced, Cascaded, Hands, GateConcluded;
      Shaped(sched, -1, -1, -1);
      CascadeNone(sched, -1);
      if !sched.waking {
        Drain();
      }
    }

    /** The worklist loop. A woken Task that settles NotStarted adds its own
        dependents; that can happen no more often than there are unresolved Tasks,
        so the cascade ends however long the chain. */
    method Drain()
      requires Whole(sched)
      modifies this
      ensures Whole(sched) && Cascaded(old(sched), sched, -1)
      ensures InHands(sched) == InHands(old(sched)) && HandsStill(old(sched), sched)
      ensures !sched.waking && sched.woken == []
      ensures !old(sched.waking) && old(sched.woken) == [] ==> sched == old(sched)
      ensures Unresolved(sched.state) <= old(Unresolved(sched.state))
      decreases Unresolved(sched.state), 4
    {
      hide Inv, Traced, Cascaded, Hands, GateConcluded;
      ghost var s0 := sched;
      WakingFrame(s0, true);
      sched := sched.(waking := true);
      while sched.woken != []
        invariant Whole(sched) && Cascaded(s0, sched, -1)
        invariant InHands(sched) == InHands(s0) && HandsStill(s0, sched)
        invariant sched.waking && Unresolved(sched.state) <= Unresolved(s0.state)
        invariant s0.woken == [] ==> sched == s0.(waking := true)
        decreases Unresolved(sched.state), |sched.woken|
      {
        var st := sched.woken[0];
        PopKeeps(s0, sched);
        sched := PoppedWoken(sched);
        if sched.phase[st] == PhaseParked && !IsTerminal(sched.state[st]) {
          ghost var s1 := sched;
          Place(st, ScanToBlocker);
          CascadeTwice(s0, s1, sched, -1);
        }
      }
      ghost var s2 := sched;
      WakingFrame(s2, false);
      sched := sched.(waking := false);
      CascadeTwice(s0, s2, sched, -1);
    }

    // ---- stopping followers -----------------------------------------------

    /** Settles st NotStarted unless it already started or resolved. */
    method StopUnstarted(st: TaskId, ghost batch: iset<nat>)
      requires Quiet(sched) && st < |sched.state| && (HaltedTask(sched, st) || st in batch)
      modifies this
      ensures Quiet(sched) && Swept(old(sched), sched, batch, NotStarted) && HaltedTask(sched, st)
    {
      hide Inv, Traced, Cascaded, Hands, GateConcluded, Swept;
      Shaped(sched, -1, -1, -1);
      if IsTerminal(sched.state[st]) || sched.phase[st] == PhaseRunning {
        SweepNone(sched, batch, NotStarted);
        return;
      }
      Settle(st, NotStarted);
      SweptBySettle(old(sched), sched, st, batch, NotStarted);
    }

    /** Settles NotStarted every unstarted Task of tasks. */
    method StopEach(tasks: seq<TaskId>, ghost batch: iset<nat>)
      requires Quiet(sched) && forall i :: 0 <= i < |tasks| ==> tasks[i] < |sched.state| && tasks[i] in batch
      modifies this
      ensures Quiet(sched) && Swept(old(sched), sched, batch, NotStarted)
      ensures forall i :: 0 <= i < |tasks| ==> HaltedTask(sched, tasks[i])
    {
      hide Inv, Traced, Cascaded, Hands, GateConcluded, Swept;
      ghost var s0 := sched;
      Shaped(s0, -1, -1, -1);
      SweepNone(s0, batch, NotStarted);
      for i := 0 to |tasks|
        invariant Quiet(sched) && Swept(s0, sched, batch, NotStarted) && |sched.state| == |s0.state|
        invariant forall j :: 0 <= j < i ==> HaltedTask(sched, tasks[j])
      {
        ghost var s1 := sched;
        StopUnstarted(tasks[i], batch);
        SweepOn(s0, s1, sched, batch, NotStarted);
        SweptFrame(s0, sched, batch, NotStarted);
      }
    }

    /** Settles NotStarted every unstarted member of Sequence c's steps declared
        after branch. */
    method StopFollowers(c: nat, branch: nat, ghost batch: iset<nat>)
      requires Quiet(sched) && c < |sched.cols| && sched.cols[c].sequential
      requires forall x :: AfterStep(sched, x, c, branch) ==> x in batch
      modifies this
      ensures Quiet(sched) && Swept(old(sched), sched, batch, NotStarted)
      ensures forall x :: AfterStep(sched, x, c, branch) ==> HaltedTask(sched, x)
    {
      hide Inv, Traced, Cascaded, Hands, GateConcluded, Swept, AfterStep, HaltedChild, HaltsKept, HaltedTask;
      ghost var s0 := sched;
      Shaped(s0, -1, -1, -1);
      SweepNone(s0, batch, NotStarted);
      var tree := sched;
      var own, children := tree.colTasks[c], tree.colChildren[c];
      for i := 0 to |own|
        invariant Quiet(sched) && Swept(s0, sched, batch, NotStarted)
        invariant forall j :: 0 <= j < i && own[j] < |tree.info| && tree.info[own[j]].decl > branch ==> HaltedTask(sched, own[j])
      {
        OwnTaskFollows(s0, c, branch, i);
        if tree.info[own[i]].decl > branch {
          ghost var s1 := sched;
          SweptFrame(s0, sched, batch, NotStarted);
          StopUnstarted(own[i], batch);
          SweepOn(s0, s1, sched, batch, NotStarted);
          HaltsOn(s1, sched);
        }
      }
      for k := 0 to |children|
        invariant Quiet(sched) && Swept(s0, sched, batch, NotStarted)
        invariant forall j :: 0 <= j < |own| && own[j] < |tree.info| && tree.info[own[j]].decl > branch ==> HaltedTask(sched, own[j])
        invariant forall j :: 0 <= j < k ==> HaltedChild(tree, sched, children[j], branch)
      {
        var below := Descendants(tree, children[k]);
        ChildTasksFollow(s0, c, branch, k, below);
        ghost var s1 := sched;
        if tree.cols[children[k]].decl > branch {
          SweptFrame(s0, sched, batch, NotStarted);
          StopEach(below, batch);
          SweepOn(s0, s1, sched, batch, NotStarted);
          HaltsOn(s1, sched);
          ChildrenOn(tree, s1, sched, branch);
        }
        ChildHalted(tree, sched, children[k], branch, below);
      }
      SweptFrame(s0, sched, batch, NotStarted);
      FollowersHalted(s0, sched, c, branch);
    }

    /** Settles NotStarted every step declared after the one failed belongs to, in
        each Sequence it sits under, that has not started. A Sequence that already
        stopped at or before that step ends the walk: the walk that reads no memo
        would find nothing more to stop. */
    method FailSequenceFollowers(failed: TaskId)
      requires Good(sched) && failed < |sched.info|
      modifies this
      ensures Good(sched)
      ensures Swept(Restopped(old(sched), sched), sched, Following(old(sched), failed), NotStarted)
      ensures forall x :: Follows(old(sched), failed, x) ==> HaltedTask(sched, x)
    {
      hide Inv, Traced, Cascaded, Hands, GateConcluded, Swept, Stops, Walked, StoppedBut, AfterStep, Follows,
          HaltedTask;
      ghost var s0 := sched;
      ghost var batch := Following(s0, failed);
      WalkFrom(s0, failed);
      var c, branch := sched.info[failed].home, sched.info[failed].decl;
      while c >= 0
        invariant -1 <= c < |sched.cols| && failed < |sched.info|
        invariant Quiet(sched) && Swept(Restopped(s0, sched), sched, batch, NotStarted)
        invariant |sched.stoppedAfter| == |s0.stoppedAfter| == |sched.cols| && sched.info == s0.info && sched.cols == s0.cols
        invariant Walked(sched, failed, c) && StoppedBut(sched, -1)
        invariant c >= 0 ==> branch == StepOf(sched, failed, c)
      {
        ghost var s1 := sched;
        WalkOn(s1, failed, c);
        if sched.cols[c].sequential {
          if sched.stoppedAfter[c] != 0 && branch >= sched.stoppedAfter[c] {
            WalkCutShort(s1, failed, c);
            WalkDone(s0, s1, failed);
            return;
          }
          StopsHere(s1, failed, c, branch);
          FollowsSame(s0, s1, failed);
          sched := Stopping(sched, c, branch);
          ghost var s2 := sched;
          StopFollowers(c, branch, batch);
          StoppedOnce(s2, sched, failed, c, s1.cols[c].parent, batch);
          SweptAcrossStop(s0, s1, s2, sched, batch);
          SweptStops(s2, sched, batch);
        }
        branch, c := sched.cols[c].decl, sched.cols[c].parent;
      }
      WalkDone(s0, sched, failed);
    }

    // ---- resolving --------------------------------------------------------

    /** A Task's verb, from the program or from the scheduler reporting what the
        callback returned. Once the work is submitted only the scheduler may call
        it a success; a failure stops the Sequence steps after it in the same
        step. */
    method Resolve(st: TaskId, to: EntityState, byScheduler: bool) returns (settled: bool)
      requires Resting() && st < |sched.info| && st < |sched.state| && st < |sched.phase| && IsTerminal(to)
      modifies this
      ensures Resting() && Advances(old(sched), sched)
      ensures !settled ==> sched == old(sched)
      ensures settled == (old(sched).state[st] in {Pending, Running, Empty, Incomplete}
        && (byScheduler || old(sched).phase[st] !in {PhaseQueued, PhaseParked, PhaseRunning}
          || to in {Failed, Blocked, Cancelled, NotStarted}))
      ensures settled ==> st < |sched.state| && sched.state[st] == to
      ensures settled ==> forall x :: 0 <= x < |old(sched).state| && x != st ==> SettledBy(old(sched), sched, st, x, to)
      ensures settled && IsSubmitted(old(sched).phase[st]) && StateOutcome(to) == PredFailed ==>
        forall x :: Follows(old(sched), st, x) ==> HaltedTask(sched, x)
    {
      hide Inv, Traced, Cascaded, Hands, GateConcluded, Swept, Stops, Follows, Advances, Life, HaltsKept, CascadedTask;
      ghost var s0 := sched;
      LifeOf(s0);
      OpenStates(s0.state[st]);
      FailingStates(to);
      if IsTerminal(sched.state[st]) || (IsSubmitted(sched.phase[st]) && !byScheduler && StateOutcome(to) == PredSucceeded) {
        CascadeNone(s0, -1);
        CascadeAdvances(s0, s0);
        return false;
      }
      var submitted := IsSubmitted(sched.phase[st]);
      Settle(st, to);
      settled := true;
      ghost var s1 := sched;
      LifeOf(s1);
      GoodAfter(s0, s1, st);
      if submitted && StateOutcome(to) == PredFailed {
        FailSequenceFollowers(st);
        FailureThenWalk(s0, s1, sched, st);
        SettledByWalk(s0, sched, st, to);
        WalkTraced(s0, s1, sched, st, Following(s1, st));
      } else {
        SettleAdvances(s0, s1, st);
        SettledByCascade(s0, s1, st, to);
        CascadeTraced(s0, s1, st);
      }
    }

    /** Settles a container builder's gate by how the builder returned. */
    method ConcludeBuilder(gate: TaskId, panicked: bool)
      requires Resting() && gate < |sched.info| && sched.info[gate].gateFor >= 0
      requires gate < |sched.phase| && gate < |sched.state| && sched.phase[gate] == PhaseRunning && !IsTerminal(sched.state[gate])
      modifies this
      ensures Resting() && Advances(old(sched), sched) && Cascaded(old(sched), sched, gate)
      ensures sched.state[gate] == if panicked then Failed else Done
      ensures GateConcluded(old(sched), sched, gate, if panicked then Failed else Done)
    {
      hide Inv, Traced, Cascaded, Hands, GateConcluded, Stops, Advances, Life, HaltsKept, CascadedTask;
      LifeOf(sched);
      Settle(gate, if panicked then Failed else Done);
      GoodAfter(old(sched), sched, gate);
      SettleAdvances(old(sched), sched, gate);
      CascadeTraced(old(sched), sched, gate);
    }

    // ---- submitting and starting ------------------------------------------

    /** Define: hands st's work to the scheduler, once, if nothing resolved it. After
        an interrupt it is refused a start at once; otherwise every predecessor is
        read, so one that already failed settles it here. */
    method Submit(st: TaskId) returns (ok: bool)
      requires Resting()
      modifies this
      ensures Resting() && Advances(old(sched), sched)
      ensures ok == (st < |old(sched).state| == |old(sched).phase|
        && old(sched).state[st] in {Pending, Running, Empty, Incomplete}
        && old(sched).phase[st] !in {PhaseQueued, PhaseParked, PhaseRunning})
      ensures !ok ==> sched == old(sched)
      ensures ok && sched.cancelled ==> st < |sched.state| && sched.state[st] == NotStarted
      ensures ok && !sched.cancelled ==>
        st < |old(sched).phase| && Readable(SubmittedTask(old(sched), st), st)
        && PlacedBy(SubmittedTask(old(sched), st), sched, st, ScanAll)
      ensures ok && !sched.cancelled && NamesDone(old(sched), st) ==>
        st < |sched.phase| && sched.phase[st] == PhaseQueued
      ensures ok && NamesFailed(old(sched), st) ==>
        st < |sched.state| && sched.state[st] == NotStarted
      ensures ok && !sched.cancelled && !sched.draining && MayStartLater(old(sched), st) ==>
        st < |sched.phase| && sched.phase[st] == PhaseParked
      ensures ok && sched.draining && NamesUnsubmitted(old(sched), st) ==> st < |sched.state| && sched.state[st] == NotStarted
    {
      hide Inv, Traced, Cascaded, Hands, GateConcluded, Stops, Advances, HaltsKept, CascadedTask, Scan, ViewOk,
          PlacedBy, Readable, NamesDone, NamesFailed, NamesUnsubmitted, MayStartLater;
      ghost var s0 := sched;
      LifeOf(s0);
      if st < |sched.state| {
        OpenStates(sched.state[st]);
      }
      if st >= |sched.state| || IsTerminal(sched.state[st]) || IsSubmitted(sched.phase[st]) {
        CascadeNone(s0, -1);
        CascadeAdvances(s0, s0);
        return false;
      }
      ok := true;
      SubmitStarts(s0, st);
      sched := SubmittedTask(sched, st);
      ghost var s1 := sched;
      if sched.cancelled {
        Settle(st, NotStarted);
      } else {
        Place(st, ScanAll);
        PlacedNotRunning(s1, sched, st, ScanAll);
        SubmittedByStates(s0, sched, st);
      }
      SubmitEnds(s0, sched, st);
      CancelledKept(s1, sched, st);
      SubmitTraced(s0, sched, st);
    }

    /** Drops the stale entries at the head of the queue. */
    method Head() returns (found: bool, st: TaskId)
      requires Quiet(sched)
      modifies this
      ensures Quiet(sched) && Cascaded(old(sched), sched, -1)
      ensures sched == old(sched).(queue := sched.queue) && |sched.queue| <= |old(sched).queue|
      ensures found ==> HeadOf(sched, st)
      ensures !found ==> sched.queue == []
    {
      hide Inv, Traced, Cascaded, Hands, GateConcluded;
      ghost var s0 := sched;
      Shaped(s0, -1, -1, -1);
      CascadeNone(s0, -1);
      found, st := false, 0;
      while sched.queue != []
        invariant Quiet(sched) && Cascaded(s0, sched, -1)
        invariant sched == s0.(queue := sched.queue) && |sched.queue| <= |s0.queue|
        decreases |sched.queue|
      {
        HeadLive(sched);
        st := sched.queue[0];
        if sched.phase[st] == PhaseQueued && !IsTerminal(sched.state[st]) {
          return true, st;
        }
        CascadeTwice(s0, sched, DroppedHead(sched), -1);
        sched := DroppedHead(sched);
      }
    }

    /** The earliest queued Task that may start now. An entry that lost its
        eligibility since it was queued is placed again on the way. */
    method NextEligible() returns (found: bool, st: TaskId)
      requires Quiet(sched)
      modifies this
      ensures Quiet(sched) && Cascaded(old(sched), sched, -1)
      ensures found ==> HeadOf(sched, st) && AllSucceeded(sched, st)
      ensures !found ==> sched.queue == []
    {
      hide Inv, Traced, Cascaded, Hands, GateConcluded, Scan, ViewOk, AllSucceeded, CascadedTask, Readable;
      ghost var s0 := sched;
      Shaped(s0, -1, -1, -1);
      CascadeNone(s0, -1);
      found := true;
      while true
        invariant Quiet(sched) && Cascaded(s0, sched, -1) && found
        decreases Unresolved(sched.state), |sched.queue|
      {
        ghost var s1 := sched;
        found, st := Head();
        CascadeTwice(s0, s1, sched, -1);
        if !found {
          return;
        }
        ghost var s2 := sched;
        HeadShape(s2, st);
        var verdict, blocker := PredsOutcome(st, ScanToBlocker);
        ghost var s3 := sched;
        ScannedQuiet(s2, s3, st);
        CascadeTwice(s0, s2, s3, -1);
        if verdict == PredSucceeded {
          AllReadSucceeded(s3, st, ScanToBlocker);
          return;
        }
        HeadDropped(s3, st);
        CascadeTwice(s0, s3, DroppedHead(s3), -1);
        sched := DroppedHead(sched);
        ghost var s4 := sched;
        Place(st, ScanToBlocker);
        PlacedAgain(s4, sched, st, verdict, blocker);
        CascadeTwice(s0, s4, sched, -1);
      }
    }

    /** Starts the earliest-declared Task that may start, if a slot is free: never
        after an interrupt, never above the ceiling, and never before every
        predecessor the Task named reads succeeded. With a slot free it leaves
        nobody queued unless it starts one. */
    method TakeEligible() returns (found: bool, st: TaskId, ghost at: Sched)
      requires Resting()
      modifies this
      ensures Resting()
      ensures if found then Starts(old(sched), at, sched, st, ceiling) else Advances(old(sched), sched)
      ensures !found && !old(sched).cancelled && old(sched).inflight < ceiling ==>
        sched.queue == [] && forall x :: 0 <= x < |sched.phase| ==> sched.phase[x] != PhaseQueued
      ensures old(sched).cancelled || old(sched).inflight >= ceiling ==> !found && sched == old(sched)
    {
      hide Inv, Traced, Cascaded, Hands, GateConcluded, Stops, AllSucceeded, Advances;
      ghost var s0 := sched;
      Shaped(s0, -1, -1, -1);
      CascadeNone(s0, -1);
      at, found, st := s0, false, 0;
      LifeOf(s0);
      if sched.cancelled || sched.inflight >= ceiling {
        CascadeAdvances(s0, s0);
        return;
      }
      found, st := NextEligible();
      at := sched;
      GoodAfter(s0, at, -1);
      CascadeAdvances(s0, at);
      CascadeTraced(s0, at, -1);
      if found {
        forall y | 0 <= y < |at.phase| && at.phase[y] == PhaseQueued
          ensures y < |at.info| && st < |at.info| && at.info[st].decl <= at.info[y].decl
        {
          HeadIsEarliest(at, st, y);
        }
        ClaimedGood(at, st);
        TracedStart(at, st);
        sched := sched.(inflight := sched.inflight + 1);
        Claim(st);
      } else {
        NobodyQueued(at);
      }
    }

    /** Marks st's callback as started. */
    method Claim(st: TaskId)
      requires st < |sched.info| && st < |sched.state| && st < |sched.phase| && st < |sched.loc| && st < |sched.startedAt|
      modifies this
      ensures st < |old(sched).info| && st < |old(sched).state| && st < |old(sched).phase|
      ensures st < |old(sched).loc| && st < |old(sched).startedAt|
      ensures old(sched).phase[st] != PhaseParked ==>
        sched == ClaimedTask(old(sched), st).(inflight := old(sched).inflight)
    {
      EnterPhase(st, PhaseRunning);
      sched := sched.(executing := sched.executing + 1, claimed := sched.claimed + {st}, loc := sched.loc[st := Off],
                      startedAt := sched.startedAt[st := sched.declSeq]);
      if sched.info[st].gateFor < 0 && sched.state[st] == Pending {
        sched := sched.(state := sched.state[st := Running]);
      }
    }

    /** The tail of a claimed callback: its slot and its hold on the drain. */
    method FinishClaimed(st: TaskId)
      requires Resting() && st in sched.claimed
      modifies this
      ensures Resting() && Advances(old(sched), sched) && sched == FinishedTask(old(sched), st)
    {
      hide Inv, Traced, Stops, Advances, Hands;
      FinishedGood(sched, st);
      sched := sched.(inflight := sched.inflight - 1, claimed := sched.claimed - {st});
      sched := sched.(executing := sched.executing - 1);
      sched := sched.(wg := sched.wg - 1);
      FinishTraced(old(sched), st);
    }

    // ---- sealing, interrupting, draining ----------------------------------

    /** Takes c's membership as declared, unless a builder below it is pending: a
        Task open on it reads only the members declared so far. */
    method SealCollection(c: nat)
      requires Good(sched) && c < |sched.cols|
      modifies this
      ensures Good(sched) && Cascaded(old(sched), sched, -1) && Advances(old(sched), sched)
      ensures old(Traced(sched)) ==> Traced(sched)
      ensures old(sched).draining ==> sched == SealedCol(old(sched), c)
      ensures c < |sched.tally| && c < |old(sched).tally|
      ensures !GatePending(old(sched), c) ==> sched.tally[c].sealed
      ensures !GatePending(old(sched), c) && !old(sched).tally[c].sealed ==> sched.tally[c].sealedThrough == sched.declSeq
      ensures GatePending(old(sched), c) ==> sched == old(sched)
    {
      hide Inv, Traced, Cascaded, Hands, GateConcluded, Stops, Advances, Life, GatePending;
      ghost var s0 := sched;
      Shaped(s0, -1, -1, -1);
      HoldsMeans(s0, c);
      SealKeeps(s0, c);
      DrainingWakesNobody(s0, c);
      sched := SealedCol(sched, c);
      ghost var s1 := sched;
      Wake();
      CascadeTwice(s0, s1, sched, -1);
      GoodAfter(s0, sched, -1);
      LifeOf(s0);
      CascadeAdvances(s0, sched);
      TallyKept(s1, sched, c);
      if Traced(s0) {
        CascadeTraced(s0, sched, -1);
      }
    }

    /** The first signal: nothing starts from here on. */
    method Interrupt()
      requires Resting()
      modifies this
      ensures Resting() && sched == old(sched).(cancelled := true) && Advances(old(sched), sched)
    {
      CancelFrame(sched);
      sched := sched.(cancelled := true);
      InterruptTraced(old(sched));
    }

    /** Settles NotStarted every Task, and then every builder's gate, that had not
        begun. Whatever the run was doing, only started work is left unresolved. */
    method AbandonQueuedWork()
      requires Resting()
      modifies this
      ensures Resting() && Swept(old(sched), sched, Unstarted(old(sched)), NotStarted) && Advances(old(sched), sched)
      ensures forall x :: 0 <= x < |sched.state| ==> HaltedTask(sched, x)
      ensures sched.parked == 0 && sched.wg == sched.executing
    {
      hide Inv, Traced, Cascaded, Hands, GateConcluded, Stops, Swept, Advances, HaltedTask, HaltsKept;
      ghost var s0 := sched;
      ghost var batch := Unstarted(s0);
      Shaped(s0, -1, -1, -1);
      SweepNone(s0, batch, NotStarted);
      LifeOf(s0);
      SweptKeepsHalts(s0, s0, batch, NotStarted);
      var info := sched.info;
      for i := 0 to |info|
        invariant Quiet(sched) && Swept(s0, sched, batch, NotStarted) && |sched.state| == |info| && HaltsKept(s0, sched)
        invariant forall j :: 0 <= j < i && info[j].gateFor < 0 ==> HaltedTask(sched, j)
      {
        if info[i].gateFor < 0 {
          ghost var s1 := sched;
          StillUnstarted(s0, s1, i);
          StopUnstarted(i, batch);
          SweepOn(s0, s1, sched, batch, NotStarted);
          HaltsOn(s1, sched);
          SweptFrame(s0, sched, batch, NotStarted);
        }
      }
      for i := 0 to |info|
        invariant Quiet(sched) && Swept(s0, sched, batch, NotStarted) && |sched.state| == |info| && HaltsKept(s0, sched)
        invariant forall j :: 0 <= j < |info| && info[j].gateFor < 0 ==> HaltedTask(sched, j)
        invariant forall j :: 0 <= j < i && info[j].gateFor >= 0 ==> HaltedTask(sched, j)
      {
        if info[i].gateFor >= 0 {
          ghost var s1 := sched;
          StillUnstarted(s0, s1, i);
          StopUnstarted(i, batch);
          SweepOn(s0, s1, sched, batch, NotStarted);
          HaltsOn(s1, sched);
          SweptFrame(s0, sched, batch, NotStarted);
        }
      }
      GoodAfterSweep(s0, sched, batch, NotStarted);
      LifeOf(s0);
      SweptAdvances(s0, sched, batch, NotStarted);
      SweptSlots(s0, sched, batch);
      SweepTraced(s0, sched, batch, NotStarted);
      AllHalted(sched);
    }

    /** Finish starts running the queue to empty: every parked Task is placed
        again, reading every predecessor. */
    method StartDrain()
      requires Resting()
      modifies this
      ensures Resting() && Advances(old(sched), sched) && sched.draining
      ensures Cascaded(Drained(old(sched)), sched, -1)
      ensures forall x :: 0 <= x < |old(sched).phase| && old(sched).phase[x] == PhaseParked ==>
        Rescanned(Drained(old(sched)), sched, x)
      ensures forall x | 0 <= x < |old(sched).phase| && old(sched).phase[x] == PhaseParked ::
        NamesFailed(old(sched), x) || NamesUnsubmitted(old(sched), x) ==> x < |sched.state| && sched.state[x] == NotStarted
    {
      hide Inv, Traced, AllParked, Drained, Cascaded, Hands, GateConcluded, Stops, Advances, HandsStill, Rescanned,
          Readable, PlacedBy, NamesFailed, NamesUnsubmitted;
      ghost var s0 := sched;
      DrainStarts(s0);
      AllParkedOk(s0);
      var parked := AllParked(sched);
      sched := Drained(sched);
      ghost var s1 := sched;
      Shaped(s1, -1, -1, -1);
      CascadeNone(s1, -1);
      for i := 0 to |parked|
        invariant Whole(sched) && Cascaded(s1, sched, -1) && HandsStill(s1, sched)
        invariant !sched.waking && sched.woken == []
        invariant forall x: nat :: x in InHands(sched) <==> x in parked[i..]
        invariant forall j :: 0 <= j < i ==> Rescanned(s1, sched, parked[j])
      {
        var st := parked[i];
        ghost var s2 := sched;
        assert parked[i..] == [st] + parked[i + 1..];
        assert st in parked && st in parked[i..];
        StillInHand(s1, s2, st);
        if sched.phase[st] == PhaseParked && !IsTerminal(sched.state[st]) {
          Place(st, ScanAll);
          RescannedNext(s1, s2, sched, parked, i);
          CascadeTwice(s1, s2, sched, -1);
          StillTwice(s1, s2, sched);
        }
      }
      assert parked[|parked|..] == [];
      assert InHands(sched) == {};
      DrainEnds(s0, sched);
      DrainTraced(s0, sched);
      LifeOf(s0);
      forall x | 0 <= x < |s0.phase| && s0.phase[x] == PhaseParked && (NamesFailed(s0, x) || NamesUnsubmitted(s0, x))
        ensures x < |sched.state| && sched.state[x] == NotStarted
      {
        RescanRefuses(s0, sched, x);
      }
    }

    // ---- naming predecessors ----------------------------------------------

    /** p as an edge takes it: naming a populated collection takes the Tasks
        declared into it so far as its membership. */
    method CloseMembership(p: Pred) returns (closed: Pred)
      requires Good(sched) && PredOk(p, |sched.state|, |sched.cols|)
      modifies this
      ensures Good(sched) && Cascaded(old(sched), sched, -1)
      ensures closed == Closed(old(sched), p)
      ensures !Closing(old(sched), p) ==> sched == old(sched)
      ensures Closing(old(sched), p) ==> p.c < |sched.tally| && sched.tally[p.c].sealed
      ensures p.OnCol? && p.through == 0 && Populated(old(sched), p.c) && !GatePending(old(sched), p.c) ==>
        closed == OnCol(p.c, old(sched).declSeq) && p.c < |sched.tally| && sched.tally[p.c].sealed
      ensures !p.OnCol? || p.through != 0 || !Populated(old(sched), p.c) || GatePending(old(sched), p.c) ==>
        closed == p && sched == old(sched)
    {
      hide Inv, Traced, Cascaded, Hands, GateConcluded, Stops, Populated, GatePending;
      Shaped(sched, -1, -1, -1);
      CascadeNone(sched, -1);
      ClosingMeans(sched, p);
      if !p.OnCol? || p.through != 0 || |sched.tally[p.c].members| == 0 || sched.tally[p.c].holds > 0 {
        return p;
      }
      closed := p.(through := sched.declSeq);
      SealCollection(p.c);
    }

    /** Appends what the next step declared into c starts after, closing the
        populated collections among them. */
    method AppendStepPreds(preds: seq<Pred>, c: nat) returns (r: seq<Pred>)
      requires Good(sched) && c < |sched.cols| && Nameable(sched, preds)
      modifies this
      ensures Good(sched) && Cascaded(old(sched), sched, -1) && Nameable(sched, r)
      ensures c < |old(sched).cols| && c < |old(sched).lastStep| && c < |old(sched).entry|
      ensures r == preds + NextStepPreds(old(sched), c)
      ensures Sealing(old(sched), sched, NextStepPreds(old(sched), c))
    {
      hide Inv, Traced, Cascaded, Hands, GateConcluded, Stops, Nameable;
      ghost var s0 := sched;
      StepPredsNameable(s0, c);
      Shaped(s0, -1, -1, -1);
      CascadeNone(s0, -1);
      var next := NextStepPreds(sched, c);
      NameableEach(s0, next);
      r := preds;
      for i := 0 to |next|
        invariant Good(sched) && Cascaded(s0, sched, -1) && r == preds + next[..i]
        invariant TakenAsDeclared(s0, sched, next[..i])
        invariant |sched.state| == |s0.state| && |sched.cols| == |s0.cols|
      {
        ghost var s1 := sched;
        var closed := CloseMembership(next[i]);
        r := r + [next[i]];
        TakenNext(s0, s1, sched, next, i);
        CascadeTwice(s0, s1, sched, -1);
        CascadeFrame(s0, sched);
      }
      assert next[..|next|] == next;
      NameableBoth(s0, preds, next);
      NameableKept(s0, sched, r);
      TakenMeans(s0, sched, next);
    }

    /** Orders what is declared into c after every Sequence above that already moved
        past the step holding c and took its membership as declared. The Sequences
        it passed take it as their latest step. */
    method JoinPassedSequences(preds: seq<Pred>, c: nat) returns (r: seq<Pred>, passed: seq<nat>)
      requires Good(sched) && c < |sched.cols| && Nameable(sched, preds)
      modifies this
      ensures Good(sched) && Cascaded(old(sched), sched, -1) && Nameable(sched, r)
      ensures preds <= r && Joined(old(sched), c, passed, r) && Gathered(old(sched), sched, c, passed, preds, r)
    {
      hide Inv, Traced, Cascaded, Hands, GateConcluded, Stops, Nameable, Joining, Joined, NextStepPreds, Gathered;
      ghost var s0 := sched;
      JoinStarts(s0, c, preds);
      GatheredNone(s0, c, preds);
      r, passed := preds, [];
      var step, q := c, sched.cols[c].parent;
      while q >= 0
        invariant 0 <= step < |sched.cols| && -1 <= q < step && q == sched.cols[step].parent
        invariant sched.cols == s0.cols && |sched.tally| == |sched.lastStep| == |sched.cols|
        invariant Good(sched) && Cascaded(s0, sched, -1) && Nameable(sched, r) && preds <= r
        invariant Joining(s0, sched, c, step, passed, r) && Gathered(s0, sched, c, passed, preds, r)
        decreases q
      {
        ghost var s1 := sched;
        JoinNext(s0, s1, c, step, passed, r);
        if sched.cols[q].sequential && sched.tally[step].sealed && !IsLastStep(sched.lastStep[q], step) {
          ghost var r1 := r;
          JoinHere(s0, s1, c, step, passed, r);
          GatheredMore(s0, s1, c, step, passed, preds, r);
          r := AppendStepPreds(r, q);
          SealsCascaded(s1, sched, -1);
          GatheredOn(s0, s1, sched, c, passed + [q], preds, r);
          JoinTakes(s0, s1, sched, c, step, passed, r1, r);
          passed := passed + [q];
          CascadeTwice(s0, s1, sched, -1);
        } else {
          JoinSkips(s0, s1, c, step, passed, r);
        }
        step, q := q, sched.cols[q].parent;
      }
      JoinEnds(s0, sched, c, step, passed, r);
    }

    /** What is declared into home next starts after, and the Sequences whose latest
        step it becomes. */
    method StepInto(home: nat) returns (preds: seq<Pred>, steps: seq<nat>)
      requires Good(sched) && home < |sched.cols|
      modifies this
      ensures Good(sched) && Cascaded(old(sched), sched, -1) && Nameable(sched, preds)
      ensures StepsTaken(old(sched), sched, home, steps, preds)
    {
      hide Inv, Traced, Cascaded, Hands, GateConcluded, Stops, Nameable, Joined, NextStepPreds, Gathered, StepsTaken;
      ghost var s0 := sched;
      NothingNamed(s0);
      preds := AppendStepPreds([], home);
      ghost var s1, own := sched, preds;
      CascadeFrame(s0, s1);
      preds, steps := JoinPassedSequences(preds, home);
      ghost var passed := steps;
      CascadeTwice(s0, s1, sched, -1);
      CascadeFrame(s0, sched);
      JoinedSince(s0, s1, home, steps, preds);
      GatheredSince(s0, s1, sched, home, steps, own, preds);
      if sched.cols[home].sequential {
        JoinedOwn(s0, home, steps, preds);
        steps := steps + [home];
      }
      CascadeSelfShape(s0);
      StepsTakenFrom(s0, sched, home, passed, steps, own, preds);
    }

    // ---- declaring --------------------------------------------------------

    /** lastStep with each of steps taking self as its latest step. */
    method RecordSteps(lastStep: seq<seq<Pred>>, steps: seq<nat>, self: Pred) returns (r: seq<seq<Pred>>)
      requires forall i :: 0 <= i < |steps| ==> steps[i] < |lastStep|
      ensures Stepped(lastStep, r, self)
      ensures forall c :: 0 <= c < |r| ==> r[c] == if c in steps then [self] else lastStep[c]
    {
      r := lastStep;
      for i := 0 to |steps|
        invariant |r| == |lastStep|
        invariant forall c :: 0 <= c < |r| ==> r[c] == if c in steps[..i] then [self] else lastStep[c]
      {
        assert steps[..i + 1] == steps[..i] + [steps[i]];
        r := r[steps[i] := [self]];
      }
      assert steps[..|steps|] == steps;
    }

    /** Counts a newly declared member in every collection it sits under. */
    method TallyDeclared(home: int, m: Member) returns (tally: seq<Tally>)
      requires Whole(sched) && -1 <= home < |sched.cols|
      ensures TalliesJoined(sched.tally, tally, sched.cols, TaskInfo(home, m.declaration, -1), m)
    {
      hide Inv, Traced;
      StaticParts(sched);
      Shaped(sched, -1, -1, -1);
      tally := sched.tally;
      var c := home;
      if home >= 0 {
        ChainIsAbove(sched, home);
      }
      while c >= 0
        invariant -1 <= c < |sched.cols| && |tally| == |sched.tally| == |sched.cols|
        invariant c >= 0 ==> OnChain(sched.cols, home, c)
        invariant forall d :: 0 <= d < |tally| ==>
          tally[d] == if OnChain(sched.cols, home, d) && d > c then Declared(sched.tally[d], m) else sched.tally[d]
      {
        NextOnChain(sched, home, c);
        tally := tally[c := Declared(tally[c], m)];
        c := sched.cols[c].parent;
      }
    }

    /** A Task declared after a failure already stopped the Sequence step it belongs
        to is settled at once. */
    method StopIfFollower(st: TaskId)
      requires Quiet(sched) && StopsBar(sched, st) && st < |sched.info|
      modifies this
      ensures Good(sched) && Swept(old(sched), sched, iset{st}, NotStarted)
      ensures !FollowsAStop(old(sched), st) ==> sched == old(sched)
    {
      hide Inv, Traced, Cascaded, Hands, GateConcluded, Swept, Stops, StopsBar, Unstopped, HaltedTask, HaltsKept,
          FollowsAStop;
      ghost var s0 := sched;
      Shaped(s0, -1, -1, -1);
      StaticParts(s0);
      LifeOf(s0);
      SweepNone(s0, iset{st}, NotStarted);
      UnstoppedStarts(s0, st);
      var c, branch := sched.info[st].home, sched.info[st].decl;
      while c >= 0
        invariant -1 <= c < |sched.cols| == |sched.stoppedAfter| && sched == s0
        invariant Unstopped(s0, st, c)
        invariant c >= 0 ==> branch == StepOf(s0, st, c)
      {
        if sched.cols[c].sequential && sched.stoppedAfter[c] != 0 && branch > sched.stoppedAfter[c] {
          StopFound(s0, st, c);
          StopUnstarted(st, iset{st});
          SweptKeepsHalts(s0, sched, iset{st}, NotStarted);
          StopsHalted(s0, sched, st);
          return;
        }
        UnstoppedNext(s0, st, c);
        branch, c := sched.cols[c].decl, sched.cols[c].parent;
      }
      UnstoppedEnds(s0, st);
      StopsWithout(s0, st);
    }

    /** Declares a Task into container home, or at the root. It starts after the
        step before it, and after the latest step of every Sequence above that had
        moved on; it is counted in every container above; and it is stopped when the
        step it is in is stopped already. */
    method DeclareTask(home: int) returns (st: TaskId)
      requires Resting() && -1 <= home < |sched.cols| && sched.declSeq + 1 < THROUGH_ALL
      modifies this
      ensures Resting() && Advances(old(sched), sched)
      ensures st == |old(sched).info| && sched.info == old(sched).info + [TaskInfo(home, old(sched).declSeq + 1, -1)]
      ensures sched.cols == old(sched).cols && st < |sched.named| && st < |sched.state|
      ensures home >= 0 ==> StepsAfter(old(sched), sched, home, OnTask(st), sched.named[st])
      ensures home < 0 ==> sched.named[st] == []
      ensures SealsFrom(old(sched), sched, sched.declSeq) && sched.declSeq == old(sched).declSeq + 1
      ensures IsTerminal(sched.state[st]) <==> FollowsAStop(sched, st)
    {
      hide Inv, Traced, SealsFrom, Cascaded, Hands, GateConcluded, Stops, Nameable, Swept, Advances, Fresh,
          FollowsAStop,
          HaltedTask, StopsBar,
          GrowsBy, TalliesJoined, StepsTaken, StepsAfter, Stepped, IsTerminal;
      ghost var s0 := sched;
      BumpedOk(s0);
      sched := Bumped(sched);
      ghost var s1 := sched;
      CascadeSelf(s1);
      NothingNamed(s1);
      st := |sched.info|;
      var preds: seq<Pred>, steps: seq<nat> := [], [];
      if home >= 0 {
        preds, steps := StepInto(home);
      }
      ghost var s2 := sched;
      StepsInRange(s1, s2, home, steps, preds);
      var lastStep := RecordSteps(sched.lastStep, steps, OnTask(st));
      var tally := TallyDeclared(home, Member(st, sched.declSeq));
      var colTasks := if home >= 0 then sched.colTasks[home := sched.colTasks[home] + [st]] else sched.colTasks;
      var t := TaskInfo(home, sched.declSeq, -1);
      GrowsOk(s2, t, preds, tally, colTasks, lastStep);
      GrownGood(s2, t, preds, tally, colTasks, lastStep);
      sched := Grown(sched, t, preds, tally, colTasks, lastStep);
      ghost var s3 := sched;
      TaskJoined(s0, s1, s2, s3);
      TaskOnRecord(s0, s1, s2, t, preds, tally, colTasks, lastStep, steps);
      if home >= 0 {
        SealsJoined(s2, s3, t, Member(st, s3.declSeq));
        StepsRecorded(s0, s1, s2, s3, home, steps, preds, OnTask(st));
        StopIfFollower(st);
        TaskStopped(s0, s3, sched, home, st);
        StopTraced(s3, sched, iset{st});
        SealsFromTwice(s0, s3, sched, s3.declSeq);
      } else {
        RootFollowsNothing(s3, st);
      }
      DeclaredState(s3, sched, st);
    }

    /** Declares a Group or Sequence into container parent, or at the root. */
    method DeclareContainer(parent: int, sequential: bool) returns (c: nat)
      requires Resting() && -1 <= parent < |sched.cols| && sched.declSeq + 1 < THROUGH_ALL
      modifies this
      ensures Resting() && Advances(old(sched), sched)
      ensures c == |old(sched).cols| && sched.cols == old(sched).cols + [ColInfo(parent, old(sched).declSeq + 1, sequential)]
      ensures sched.info == old(sched).info && c < |sched.entry| && c < |sched.tally| && sched.tally[c] == EMPTY_TALLY
      ensures parent >= 0 ==> StepsAfter(old(sched), sched, parent, OnCol(c, 0), sched.entry[c])
      ensures parent < 0 ==> sched.entry[c] == []
    {
      hide Inv, Traced, Cascaded, Hands, GateConcluded, Stops, Nameable, Advances, Fresh, GrowsByCol, StepsTaken,
          StepsAfter, Stepped;
      ghost var s0 := sched;
      BumpedOk(s0);
      sched := Bumped(sched);
      ghost var s1 := sched;
      CascadeSelf(s1);
      NothingNamed(s1);
      c := |sched.cols|;
      var entry: seq<Pred>, steps: seq<nat> := [], [];
      if parent >= 0 {
        entry, steps := StepInto(parent);
      }
      ghost var s2 := sched;
      StepsInRange(s1, s2, parent, steps, entry);
      var lastStep := RecordSteps(sched.lastStep, steps, OnCol(c, 0));
      var colChildren := if parent >= 0 then sched.colChildren[parent := sched.colChildren[parent] + [c]] else sched.colChildren;
      var ci := ColInfo(parent, sched.declSeq, sequential);
      GrowsByColOk(s2, ci, entry, lastStep, colChildren);
      GrownColGood(s2, ci, entry, lastStep, colChildren);
      sched := GrownCol(sched, ci, entry, lastStep, colChildren);
      TaskJoined(s0, s1, s2, sched);
      ColOnRecord(s0, s1, s2, ci, entry, lastStep, colChildren, steps);
      if parent >= 0 {
        StepsRecorded(s0, s1, s2, s2.(lastStep := lastStep), parent, steps, entry, OnCol(c, 0));
        StepsAfterOn(s0, s2.(lastStep := lastStep), sched, parent, OnCol(c, 0), entry);
      }
    }

    /** Task.After: st names more predecessors, unless its work was submitted. */
    method After(st: TaskId, handles: seq<Pred>) returns (ok: bool)
      requires Resting() && Nameable(sched, handles) && Unclosed(handles)
      modifies this
      ensures Resting() && Advances(old(sched), sched)
      ensures ok == (st < |old(sched).phase| && old(sched).phase[st] !in {PhaseQueued, PhaseParked, PhaseRunning})
      ensures !ok ==> sched == old(sched)
      ensures ok ==> st < |sched.named| && st < |old(sched).named|
      ensures ok ==> |sched.named[st]| == |old(sched).named[st]| + |handles| && old(sched).named[st] <= sched.named[st]
      ensures ok ==> HandlesTaken(old(sched), sched, handles, sched.named[st][|old(sched).named[st]|..])
    {
      hide Inv, Traced, Cascaded, Hands, GateConcluded, Stops, Nameable, Advances, NamedAs, Forgets, CascadedTask,
          HandlesTaken;
      ghost var s0 := sched;
      CascadeSelf(s0);
      AdvancesSelf(s0);
      if st >= |sched.phase| || IsSubmitted(sched.phase[st]) {
        return false;
      }
      ok := true;
      NameableEach(s0, handles);
      for i := 0 to |handles|
        invariant Good(sched) && Traced(sched) && Advances(s0, sched) && sched.inflight == s0.inflight
        invariant |sched.state| == |s0.state| && |sched.cols| == |s0.cols| && st < |sched.named| && st < |s0.named| && st < |sched.preds|
        invariant st < |sched.phase| && !IsSubmitted(sched.phase[st])
        invariant Naming(s0, sched, st, handles, i) && (i == 0 ==> sched == s0)
      {
        ghost var s1 := sched;
        var closed := CloseMembership(handles[i]);
        ghost var s2 := sched;
        NamingCloses(s0, s1, s2, st, handles, i, closed);
        NamingTraced(s1, s2, st, handles, i, closed);
        sched := sched.(preds := sched.preds[st := sched.preds[st] + [closed]], named := sched.named[st := sched.named[st] + [closed]]);
        NamingMore(s0, s1, s2, st, handles, i, closed);
      }
      NameablePreds(s0, handles);
      NamingEnds(s0, sched, st, handles);
    }

    /** Group.After and Sequence.After: container c starts after more, until it has a
        builder or a child. It may only start after what was declared before it. */
    method ContainerAfter(c: nat, handles: seq<Pred>) returns (ok: bool)
      requires Resting() && Nameable(sched, handles) && PredsOk(handles, |sched.state|, c) && Unclosed(handles)
      modifies this
      ensures Resting() && Advances(old(sched), sched)
      ensures ok == (c < |old(sched).cols| && Untouched(old(sched), c))
      ensures !ok ==> sched == old(sched)
      ensures ok ==> c < |sched.entry| && c < |old(sched).entry|
      ensures ok ==> |sched.entry[c]| == |old(sched).entry[c]| + |handles| && old(sched).entry[c] <= sched.entry[c]
      ensures ok ==> HandlesTaken(old(sched), sched, handles, sched.entry[c][|old(sched).entry[c]|..])
    {
      hide Inv, Traced, Cascaded, Hands, GateConcluded, Stops, Nameable, Advances, NamedAs, PredsOk, HandlesTaken;
      ghost var s0 := sched;
      CascadeSelf(s0);
      AdvancesSelf(s0);
      UndefinedMeans(s0, c);
      if c >= |sched.cols| || !Undefined(sched, c) {
        return false;
      }
      ok := true;
      NameableEach(s0, handles);
      for i := 0 to |handles|
        invariant Good(sched) && Traced(sched) && Advances(s0, sched) && sched.inflight == s0.inflight && Undefined(sched, c)
        invariant |sched.state| == |s0.state| && |sched.cols| == |s0.cols| && c < |sched.entry| && c < |s0.entry|
        invariant Entering(s0, sched, c, handles, i) && (i == 0 ==> sched == s0)
      {
        ghost var s1 := sched;
        var closed := CloseMembership(handles[i]);
        ghost var s2 := sched;
        EntryCloses(s0, s1, s2, c, handles, i, closed);
        EnteringTraced(s1, s2, c, handles, i, closed);
        sched := sched.(entry := sched.entry[c := sched.entry[c] + [closed]],
                        lateEntry := sched.lateEntry + if sched.tally[c].sealed || sched.draining then {c} else {});
      }
      NameablePreds(s0, handles);
      EnteringEnds(s0, sched, c, handles);
    }

    /** Defers container c's children to a builder, which waits for what c starts
        after. Until it settles, c and every container above it stay open. */
    method DefineBuilder(c: nat) returns (ok: bool, gate: TaskId)
      requires Resting() && sched.declSeq + 1 < THROUGH_ALL
      modifies this
      ensures Resting() && Advances(old(sched), sched)
      ensures ok == (c < |old(sched).cols| && Untouched(old(sched), c))
      ensures !ok ==> sched == old(sched)
      ensures ok ==> gate == |old(sched).info| && sched.info == old(sched).info + [TaskInfo(-1, old(sched).declSeq + 1, c)]
      ensures ok ==> c < |old(sched).entry| && gate < |sched.named| && sched.named[gate] == old(sched).entry[c]
      ensures ok && sched.cancelled ==> gate < |sched.state| && sched.state[gate] == NotStarted
      ensures ok && !sched.cancelled ==>
        exists at: Sched :: at.named == sched.named && Held(old(sched), at, c)
          && Readable(at, gate) && PlacedBy(at, sched, gate, ScanAll)
    {
      hide Inv, Traced, Cascaded, Hands, GateConcluded, Stops, Advances, Fresh, GrowsBy, TalliesJoined, HaltsKept,
          CascadedTask, Scan,
          ViewOk, PlacedBy, Readable, Held, HandsStill, InHand, StopsBar;
      ghost var s0 := sched;
      CascadeSelf(s0);
      AdvancesSelf(s0);
      UndefinedMeans(s0, c);
      if c >= |sched.cols| || !Undefined(sched, c) {
        return false, 0;
      }
      ok, gate := true, |sched.info|;
      BumpedOk(s0);
      sched := Bumped(sched);
      ghost var s1 := sched;
      var tally := TallyHeld(c);
      GateJoins(s0, c, tally);
      sched := sched.(builder := sched.builder[c := BuilderPending]);
      sched := Grown(sched, TaskInfo(-1, sched.declSeq, c), sched.entry[c], tally, sched.colTasks, sched.lastStep);
      ghost var s3 := sched;
      SubmitStarts(s3, gate);
      sched := SubmittedTask(sched, gate);
      ghost var s4 := sched;
      if sched.cancelled {
        Settle(gate, NotStarted);
      } else {
        HeldFrom(s0, s1, tally, s4, c);
        Place(gate, ScanAll);
        PlacedNotRunning(s4, sched, gate, ScanAll);
      }
      SubmitEnds(s3, sched, gate);
      SubmitTraced(s3, sched, gate);
      GateFrame(s4, sched, gate);
      AdvancesTwice(s0, s3, sched);
    }

    /** One more pending builder, on container c and everything above it. */
    method TallyHeld(c: nat) returns (tally: seq<Tally>)
      requires Whole(sched) && c < |sched.cols|
      ensures TalliesJoined(sched.tally, tally, sched.cols, TaskInfo(-1, sched.declSeq, c), Member(|sched.state|, sched.declSeq))
    {
      hide Inv, Traced, OnChain, TalliesJoined;
      StaticParts(sched);
      Shaped(sched, -1, -1, -1);
      tally := sched.tally;
      var d: int := c;
      OwnChain(sched, c);
      ChainIsAbove(sched, c);
      while d >= 0
        invariant -1 <= d < |sched.cols| && |tally| == |sched.tally| == |sched.cols|
        invariant d >= 0 ==> OnChain(sched.cols, c, d)
        invariant forall e :: 0 <= e < |tally| ==>
          tally[e] == if OnChain(sched.cols, c, e) && e > d then sched.tally[e].(holds := sched.tally[e].holds + 1) else sched.tally[e]
      {
        NextOnChain(sched, c, d);
        tally := tally[d := tally[d].(holds := tally[d].holds + 1)];
        d := sched.cols[d].parent;
      }
      HoldsJoined(sched, tally, c);
    }

    // ---- After cycles -----------------------------------------------------

    /** Settles Blocked every Task on an After cycle that the search reports: it can
        never start. The search reports an edge of every cycle, so no ring of parked
        Tasks survives, but not every vertex of one. Every wake waits until all of
        them are settled, so none cascades NotStarted into another before its own
        turn. */
    method BlockCycles() returns (cycles: seq<seq<Node>>)
      requires Resting()
      modifies this
      ensures Resting() && Advances(old(sched), sched)
      ensures Legible(old(sched)) && |old(sched).info| == |old(sched).phase| == |old(sched).state|
      ensures cycles == SearchOf(old(sched)).cycles
      ensures BlockedExactly(old(sched), sched) && RingsBroken(old(sched), sched) && LoneRingsBlocked(old(sched), sched)
      ensures cycles == [] <==> !DepthFirst.CycleReachable(EdgesOf(old(sched)), AllNodes(old(sched)), RootsOf(old(sched)))
      ensures Cycles.Sound(EdgesOf(old(sched)), AllNodes(old(sched)), RootsOf(old(sched)), cycles)
      ensures forall t :: t in Caught(cycles) ==> t < |sched.state| && sched.state[t] == Blocked
      ensures Swept(old(sched), sched, Caught(cycles), Blocked)
    {
      hide Inv, Traced, Cycles.Sound, DepthFirst.CycleReachable, Cascaded, Hands, GateConcluded, Stops, Swept, Advances,
          WaitsFor, HaltsKept, HaltedTask,
          Caught, CaughtBy,
          BlockedOnly, AllCaught, Legible, DepthFirst.Graph, DepthFirst.All, SearchOf, DepthFirst.Search,
          Cycles.Complete, BlockedExactly, RingsBroken, LoneRingsBlocked, RootsOf, AllNodes;
      ghost var s0 := sched;
      Shaped(s0, -1, -1, -1);
      LegibleWhole(s0);
      SearchIs(s0);
      RootsAre(s0);
      if sched.parked == 0 {
        NoRoots(s0);
        NothingCaught(s0);
        NothingSearched(s0);
        BlocksExactly(s0, s0, []);
        BreaksRings(s0, s0, []);
        return [];
      }
      var roots := ParkedRoots(sched.info, sched.phase, |sched.info|);
      cycles := Cycles.DependencyCycles(EdgesOf(sched), roots, AllNodes(s0));
      WakesHeld(s0, Caught(cycles));
      sched := sched.(waking := true);
      ghost var s1 := sched;
      for k := 0 to |cycles|
        invariant Whole(sched) && sched.waking && InHands(sched) == {} && Swept(s1, sched, Caught(cycles), Blocked)
        invariant BlockedOnly(s1, sched) && AllCaught(sched, cycles, k, 0)
      {
        for i := 0 to |cycles[k]|
          invariant Whole(sched) && sched.waking && InHands(sched) == {} && Swept(s1, sched, Caught(cycles), Blocked)
          invariant BlockedOnly(s1, sched) && AllCaught(sched, cycles, k, i)
        {
          ghost var s2 := sched;
          CaughtIn(s0, s1, s2, cycles, k, i);
          if cycles[k][i].TaskNode? {
            var st := cycles[k][i].t;
            if sched.phase[st] == PhaseParked && !IsTerminal(sched.state[st]) {
              Settle(st, Blocked);
              SettledBlocked(s1, s2, sched, cycles, k, i);
            }
          }
          CaughtOn(s1, s2, sched, cycles, k, i);
        }
        CaughtRow(sched, cycles, k);
      }
      ghost var s3 := sched;
      Drain();
      CaughtDrained(s0, s1, s3, sched, cycles);
      SweepTraced(s0, sched, Caught(cycles), Blocked);
      BlocksExactly(s0, sched, cycles);
      BreaksRings(s0, sched, cycles);
    }
  }
}
