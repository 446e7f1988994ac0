/** The steps that put a submitted Task somewhere: the ready queue, the list of
    the predecessor it is blocked by, or off a list into hand. Each is a function
    of the whole state with a proof that it keeps the invariant. */
module Placing {
  import opened Outcomes
  import opened CollectionTally
  import opened Topology
  import opened Eligibility
  import opened WaitLists
  import opened RunState
  import Order = LedgerOrder

  /** x is submitted and off every list. */
  ghost predicate InHand(s: Sched, x: TaskId) {
    x < |s.loc| == |s.phase| && s.loc[x] == Off && Awaiting(s.phase[x])
  }

  function ParkedDelta(was: Phase, now: Phase): int {
    (if now == PhaseParked then 1 else 0) - (if was == PhaseParked then 1 else 0)
  }

  // ---- group frames -------------------------------------------------------

  /** A Task that is submitted before and after reads the same to everybody. */
  lemma EdgesRephase(v: View, loc: seq<Loc>, edge: seq<Pred>, e: int, x: TaskId, q: Phase, l: Loc, p: Pred)
    requires Edges(v, loc, edge, e) && x < |loc|
    requires v.phase[x] != PhaseDeclared && q != PhaseDeclared
    requires EdgeAt(v, x, l, p, e)
    ensures Edges(v.(phase := v.phase[x := q]), loc[x := l], edge[x := p], e)
  {
    var v' := v.(phase := v.phase[x := q]);
    var loc', edge' := loc[x := l], edge[x := p];
    forall y | 0 <= y < |loc'| ensures EdgeAt(v', y, loc'[y], edge'[y], e) {
      assert EdgeAt(v, y, loc[y], edge[y], e);
    }
  }

  lemma CountsRephase(phase: seq<Phase>, parked: int, wg: int, executing: int, inflight: int, claimed: set<TaskId>,
      x: TaskId, q: Phase)
    requires Counts(phase, parked, wg, executing, inflight, claimed) && x < |phase|
    requires Awaiting(phase[x]) && Awaiting(q)
    ensures Counts(phase[x := q], parked + ParkedDelta(phase[x], q), wg, executing, inflight, claimed)
  {
    CountPhaseUpdate(phase, x, q, PhaseParked);
    CountPhaseUpdate(phase, x, q, PhaseQueued);
  }

  lemma StartedRephase(named: seq<seq<Pred>>, phase: seq<Phase>, startedAt: seq<nat>, state: seq<EntityState>,
      tally: seq<Tally>, x: TaskId, q: Phase)
    requires Started(named, phase, startedAt, state, tally) && x < |phase| && q != PhaseRunning
    ensures Started(named, phase[x := q], startedAt, state, tally)
  {
  }

  lemma LifeRephase(state: seq<EntityState>, phase: seq<Phase>, x: TaskId, q: Phase)
    requires Life(state, phase) && x < |phase| && Awaiting(phase[x]) && Awaiting(q)
    ensures Life(state, phase[x := q])
  {
  }

  /** What moving a Task in hand between the queue and parked keeps. */
  lemma Rephased(s: Sched, x: TaskId, q: Phase, e: int, top: int, htop: int)
    requires Inv(s, e, top, htop) && InHand(s, x) && Awaiting(q)
    ensures Life(s.state, s.phase[x := q])
    ensures Counts(s.phase[x := q], s.parked + ParkedDelta(s.phase[x], q), s.wg, s.executing, s.inflight, s.claimed)
    ensures Started(s.named, s.phase[x := q], s.startedAt, s.state, s.tally)
  {
    LifeRephase(s.state, s.phase, x, q);
    CountsRephase(s.phase, s.parked, s.wg, s.executing, s.inflight, s.claimed, x, q);
    StartedRephase(s.named, s.phase, s.startedAt, s.state, s.tally, x, q);
  }

  /** t and u differ in their waiting Tasks only. */
  predicate SameButWaiters(t: Tally, u: Tally) {
    u == t.(open := u.open, parked := u.parked)
  }

  lemma TallySwap(s: Sched, c: nat, u: Tally, e: int, top: int, htop: int)
    requires Inv(s, e, top, htop)
    requires c < |s.tally| && SameButWaiters(s.tally[c], u) && TallyAt(u, |s.state|, s.draining)
    ensures var tally' := s.tally[c := u];
      && Members(s.info, s.cols, tally')
      && Tallies(tally', s.state, s.cols, top, s.draining)
      && Holds(s.info, s.cols, s.state, tally', htop)
      && StartsPast(s.startedAt, tally', s.declSeq)
  {
    hide Static, Tree, Life, NamedOk, Memory, Located, Edges, Led, QueueOk, Counts, Started, NoGate, GatesAlone;
  }

  lemma StartedSwap(s: Sched, c: nat, u: Tally, phase: seq<Phase>)
    requires Started(s.named, phase, s.startedAt, s.state, s.tally)
    requires c < |s.tally| && SameButWaiters(s.tally[c], u)
    ensures Started(s.named, phase, s.startedAt, s.state, s.tally[c := u])
  {
    forall x, p | 0 <= x < |phase| && phase[x] == PhaseRunning && p in s.named[x]
      ensures Secured(p, s.startedAt[x], s.state, s.tally[c := u])
    {
      assert Secured(p, s.startedAt[x], s.state, s.tally);
    }
  }

  // ---- the ready queue ----------------------------------------------------

  function Enqueued(s: Sched, x: TaskId): Sched
    requires x < |s.phase| && x < |s.loc|
  {
    s.(phase := s.phase[x := PhaseQueued],
       parked := s.parked + ParkedDelta(s.phase[x], PhaseQueued),
       queue := Order.Inserted(s.queue, x, ByDecl(s.info)),
       loc := s.loc[x := InQueue])
  }

  lemma EnqueuedOk(s: Sched, x: TaskId, e: int, top: int, htop: int)
    requires Inv(s, e, top, htop) && InHand(s, x)
    ensures Inv(Enqueued(s, x), e, top, htop)
  {
    hide Static, Tree, Members, NamedOk, Memory, Tallies, Located, Edges, Holds, Started, StartsPast,
        Counts, Life, QueueOk, Led, NoGate, GatesAlone;
    var s' := Enqueued(s, x);
    QueueGrows(s.info, s.queue, x);
    LedQueued(s.entry, s.preds, s.loc, s.edge, x);
    forall g ensures ListAt(ListsOf(s'), g) == ListAt(ListsOf(s), g) + if g == InQueue then multiset{x} else multiset{} {}
    Join(ListsOf(s), ListsOf(s'), x, InQueue, s.loc, s.phase, PhaseQueued);
    EdgesRephase(V(s), s.loc, s.edge, e, x, PhaseQueued, InQueue, s.edge[x]);
    assert s.edge[x := s.edge[x]] == s.edge;
    Rephased(s, x, PhaseQueued, e, top, htop);
  }

  lemma LedQueued(entry: seq<seq<Pred>>, preds: seq<seq<Pred>>, loc: seq<Loc>, edge: seq<Pred>, x: TaskId)
    requires Led(entry, preds, loc, edge) && x < |loc|
    ensures Led(entry, preds, loc[x := InQueue], edge)
  {
    forall y | 0 <= y < |loc| && Waits(loc[x := InQueue][y]) ensures exists p :: p in preds[y] && Leads(entry, p, edge[y]) {
      assert Waits(loc[y]);
    }
  }

  lemma QueueGrows(info: seq<TaskInfo>, queue: seq<TaskId>, x: TaskId)
    requires QueueOk(info, queue) && x < |info|
    ensures QueueOk(info, Order.Inserted(queue, x, ByDecl(info)))
    ensures multiset(Order.Inserted(queue, x, ByDecl(info))) == multiset(queue) + multiset{x}
  {
    Order.InsertedSorted(queue, x, ByDecl(info));
    var q := Order.Inserted(queue, x, ByDecl(info));
    forall i | 0 <= i < |q| ensures q[i] < |info| {
      assert q[i] in multiset(q);
    }
  }

  // ---- the wait lists -----------------------------------------------------

  function ParkTag(v: View, b: Pred): Loc
    requires b.OnCol? ==> b.c < |v.tally|
  {
    match b
    case Missing => Off
    case OnTask(t) => AtTask(t)
    case OnCol(c, through) => if EdgeCursor(v.tally[c], through, v.draining).1 then AtOpen(c) else AtClosed(c)
  }

  ghost function ParkedAt(s: Sched, x: TaskId, b: Pred): Sched
    requires x < |s.phase| && x < |s.loc| && x < |s.edge|
    requires PredOk(b, |s.dependents|, |s.tally|)
  {
    var r := s.(phase := s.phase[x := PhaseParked],
       parked := s.parked + ParkedDelta(s.phase[x], PhaseParked),
       loc := s.loc[x := ParkTag(V(s), b)],
       edge := s.edge[x := b]);
    match b
    case Missing => r
    case OnTask(t) => r.(dependents := s.dependents[t := s.dependents[t] + [x]])
    case OnCol(c, through) =>
      var (cursor, open) := EdgeCursor(s.tally[c], through, s.draining);
      r.(tally := s.tally[c := ParkedOn(s.tally[c], x, cursor, open)])
  }

  lemma LedJoins(entry: seq<seq<Pred>>, preds: seq<seq<Pred>>, loc: seq<Loc>, edge: seq<Pred>, x: TaskId, l: Loc,
      b: Pred)
    requires Led(entry, preds, loc, edge) && x < |loc|
    requires exists p :: p in preds[x] && Leads(entry, p, b)
    ensures Led(entry, preds, loc[x := l], edge[x := b])
  {
    forall y | 0 <= y < |loc| && Waits(loc[x := l][y])
      ensures exists p :: p in preds[y] && Leads(entry, p, edge[x := b][y])
    {
      if y != x {
        assert Waits(loc[y]);
      }
    }
  }

  lemma JoinDependents(w: Lists, w': Lists, t: TaskId, x: TaskId)
    requires t < |w.dependents| && w' == w.(dependents := w.dependents[t := w.dependents[t] + [x]])
    ensures forall g :: ListAt(w', g) == ListAt(w, g) + if g == AtTask(t) then multiset{x} else multiset{}
  {
  }

  lemma ParkedAtTaskOk(s: Sched, x: TaskId, b: Pred, e: int, top: int, htop: int)
    requires Inv(s, e, top, htop) && InHand(s, x)
    requires b.OnTask? && b.t < |s.info| && s.info[b.t].gateFor < 0
    requires b.OnTask? && PredOk(b, |s.state|, |s.tally|) && DirectlyPending(V(s), b)
    requires exists p :: p in s.preds[x] && Leads(s.entry, p, b)
    ensures Inv(ParkedAt(s, x, b), e, top, htop)
  {
    hide Static, Tree, Members, NamedOk, Memory, Tallies, Holds, Started, StartsPast, Counts, Life,
        Led, QueueOk;
    var w, w' := ListsOf(s), ListsOf(ParkedAt(s, x, b));
    JoinDependents(w, w', b.t, x);
    Join(w, w', x, AtTask(b.t), s.loc, s.phase, PhaseParked);
    EdgesRephase(V(s), s.loc, s.edge, e, x, PhaseParked, AtTask(b.t), b);
    LedJoins(s.entry, s.preds, s.loc, s.edge, x, AtTask(b.t), b);
    Rephased(s, x, PhaseParked, e, top, htop);
  }

  /** Parking on a pending edge leaves the tally's waiters pending and in order. */
  lemma ParkedOnOk(t: Tally, n: nat, x: TaskId, through: nat, draining: bool)
    requires TallyAt(t, n, draining) && !t.builderFailed
    requires var (cursor, open) := EdgeCursor(t, through, draining);
             if open then t.firstFailed == 0 else ClosedPending(t, cursor)
    ensures var (cursor, open) := EdgeCursor(t, through, draining);
            TallyAt(ParkedOn(t, x, cursor, open), n, draining)
  {
    var (cursor, open) := EdgeCursor(t, through, draining);
    if !open {
      var u := ParkedOn(t, x, cursor, open);
      var at := Order.InsertedAt(t.parked, ParkedTask(x, cursor), CursorOf);
      SameReading(t, u);
    }
  }

  lemma InsertedSts(parked: seq<ParkedTask>, p: ParkedTask)
    requires Order.Sorted(parked, CursorOf)
    ensures multiset(Sts(Order.Inserted(parked, p, CursorOf))) == multiset(Sts(parked)) + multiset{p.st}
  {
    var at := Order.InsertedAt(parked, p, CursorOf);
    assert Sts(Order.Inserted(parked, p, CursorOf)) == Sts(parked)[..at] + [p.st] + Sts(parked)[at..];
    assert Sts(parked) == Sts(parked)[..at] + Sts(parked)[at..];
  }

  lemma JoinTally(w: Lists, w': Lists, c: nat, x: TaskId, cursor: int, open: bool)
    requires c < |w.tally| && w' == w.(tally := w.tally[c := ParkedOn(w.tally[c], x, cursor, open)])
    requires Order.Sorted(w.tally[c].parked, CursorOf)
    ensures forall g :: ListAt(w', g) == ListAt(w, g)
              + if g == (if open then AtOpen(c) else AtClosed(c)) then multiset{x} else multiset{}
  {
    if !open {
      InsertedSts(w.tally[c].parked, ParkedTask(x, cursor));
    }
  }

  /** Parking x files it under the cursor its edge reads, and refiles nobody. */
  lemma FiledOn(t: Tally, x: TaskId, through: nat, draining: bool)
    requires Order.Sorted(t.parked, CursorOf)
    requires !EdgeCursor(t, through, draining).1
    ensures var u := ParkedOn(t, x, EdgeCursor(t, through, draining).0, false);
      && (x !in Sts(t.parked) ==> FiledRight(u, x, through, draining))
      && (forall y, th :: y != x && FiledRight(t, y, th, draining) ==> FiledRight(u, y, th, draining))
  {
    var cursor := EdgeCursor(t, through, draining).0;
    var u := ParkedOn(t, x, cursor, false);
    var at := Order.InsertedAt(t.parked, ParkedTask(x, cursor), CursorOf);
    forall i | 0 <= i < |u.parked|
      ensures i == at || (0 <= (if i < at then i else i - 1) < |t.parked| && u.parked[i] == t.parked[if i < at then i else i - 1])
    {
    }
    if x !in Sts(t.parked) {
      assert forall j :: 0 <= j < |t.parked| ==> Sts(t.parked)[j] != x;
    }
  }

  lemma EdgesParkedAtCol(v: View, x: TaskId, b: Pred, e: int, loc: seq<Loc>, edge: seq<Pred>, open: bool, cursor: int)
    requires Edges(v, loc, edge, e) && x < |loc| && v.phase[x] != PhaseDeclared
    requires b.OnCol? && b.c < |v.tally| && (cursor, open) == EdgeCursor(v.tally[b.c], b.through, v.draining)
    requires Order.Sorted(v.tally[b.c].parked, CursorOf)
    requires !open ==> x !in Sts(v.tally[b.c].parked)
    ensures Edges(v.(phase := v.phase[x := PhaseParked], tally := v.tally[b.c := ParkedOn(v.tally[b.c], x, cursor, open)]),
                  loc[x := if open then AtOpen(b.c) else AtClosed(b.c)], edge[x := b], e)
  {
    var v' := v.(phase := v.phase[x := PhaseParked], tally := v.tally[b.c := ParkedOn(v.tally[b.c], x, cursor, open)]);
    var loc', edge' := loc[x := if open then AtOpen(b.c) else AtClosed(b.c)], edge[x := b];
    if !open {
      FiledOn(v.tally[b.c], x, b.through, v.draining);
    }
    forall y | 0 <= y < |loc'| ensures EdgeAt(v', y, loc'[y], edge'[y], e) {
      assert EdgeAt(v, y, loc[y], edge[y], e);
    }
  }

  lemma OffTheList(w: Lists, x: TaskId, c: nat, loc: seq<Loc>, phase: seq<Phase>)
    requires Located(w, loc, phase) && x < |loc| && loc[x] == Off && Awaiting(phase[x]) && c < |w.tally|
    ensures x !in Sts(w.tally[c].parked)
  {
    assert ListOk(ListAt(w, AtClosed(c)), AtClosed(c), loc, phase);
    assert x !in multiset(Sts(w.tally[c].parked));
  }

  lemma LocatedParkedAtCol(w: Lists, w': Lists, x: TaskId, c: nat, cursor: int, open: bool, loc: seq<Loc>,
      phase: seq<Phase>)
    requires Located(w, loc, phase) && x < |loc| && loc[x] == Off && Awaiting(phase[x])
    requires c < |w.tally| && w' == w.(tally := w.tally[c := ParkedOn(w.tally[c], x, cursor, open)])
    requires Order.Sorted(w.tally[c].parked, CursorOf)
    ensures Located(w', loc[x := if open then AtOpen(c) else AtClosed(c)], phase[x := PhaseParked])
  {
    JoinTally(w, w', c, x, cursor, open);
    Join(w, w', x, if open then AtOpen(c) else AtClosed(c), loc, phase, PhaseParked);
  }

  lemma ListsParkedAtCol(s: Sched, x: TaskId, b: Pred, e: int, top: int, htop: int)
    requires Inv(s, e, top, htop) && InHand(s, x)
    requires b.OnCol? && b.c < |s.tally|
    requires exists p :: p in s.preds[x] && Leads(s.entry, p, b)
    ensures var s' := ParkedAt(s, x, b);
      && Located(ListsOf(s'), s'.loc, s'.phase)
      && Edges(V(s'), s'.loc, s'.edge, e)
      && Led(s'.entry, s'.preds, s'.loc, s'.edge)
  {
    var (cursor, open) := EdgeCursor(s.tally[b.c], b.through, s.draining);
    var s' := ParkedAt(s, x, b);
    LocatedParkedAtCol(ListsOf(s), ListsOf(s'), x, b.c, cursor, open, s.loc, s.phase);
    OffTheList(ListsOf(s), x, b.c, s.loc, s.phase);
    EdgesParkedAtCol(V(s), x, b, e, s.loc, s.edge, open, cursor);
    LedJoins(s.entry, s.preds, s.loc, s.edge, x, ParkTag(V(s), b), b);
  }

  lemma ParkedAtColOk(s: Sched, x: TaskId, b: Pred, e: int, top: int, htop: int)
    requires Inv(s, e, top, htop) && InHand(s, x)
    requires b.OnCol? && b.c < |s.tally| && DirectlyPending(V(s), b)
    requires exists p :: p in s.preds[x] && Leads(s.entry, p, b)
    ensures Inv(ParkedAt(s, x, b), e, top, htop)
  {
    hide Order.Inserted, OutcomeOf, Located, Edges, Led, Static, Tree, Members, Life, NamedOk, Memory, QueueOk,
        Counts, Holds, Started, StartsPast, NoGate, GatesAlone;
    var (cursor, open) := EdgeCursor(s.tally[b.c], b.through, s.draining);
    var u := ParkedOn(s.tally[b.c], x, cursor, open);
    ListsParkedAtCol(s, x, b, e, top, htop);
    ParkedOnOk(s.tally[b.c], |s.state|, x, b.through, s.draining);
    TallySwap(s, b.c, u, e, top, htop);
    Rephased(s, x, PhaseParked, e, top, htop);
    StartedSwap(s, b.c, u, s.phase[x := PhaseParked]);
  }

  // ---- off a list ---------------------------------------------------------

  function PoppedWoken(s: Sched): Sched
    requires s.woken != [] && s.woken[0] < |s.loc|
  {
    s.(woken := s.woken[1..], loc := Taken(s.loc, s.woken[0], InWoken))
  }

  function DroppedHead(s: Sched): Sched
    requires s.queue != [] && s.queue[0] < |s.loc|
  {
    s.(queue := s.queue[1..], loc := Taken(s.loc, s.queue[0], InQueue))
  }

  lemma EdgesTaken(v: View, loc: seq<Loc>, edge: seq<Pred>, e: int, x: TaskId, tag: Loc)
    requires Edges(v, loc, edge, e) && x < |loc|
    ensures Edges(v, Taken(loc, x, tag), edge, e)
  {
    var loc' := Taken(loc, x, tag);
    forall y | 0 <= y < |loc'| ensures EdgeAt(v, y, loc'[y], edge[y], e) {
      assert EdgeAt(v, y, loc[y], edge[y], e);
    }
  }

  lemma LedTaken(entry: seq<seq<Pred>>, preds: seq<seq<Pred>>, loc: seq<Loc>, edge: seq<Pred>, x: TaskId, tag: Loc)
    requires Led(entry, preds, loc, edge) && x < |loc|
    ensures Led(entry, preds, Taken(loc, x, tag), edge)
  {
    var loc' := Taken(loc, x, tag);
    forall y | 0 <= y < |loc'| && Waits(loc'[y]) ensures exists p :: p in preds[y] && Leads(entry, p, edge[y]) {
      assert Waits(loc[y]);
    }
  }

  lemma PoppedWokenOk(s: Sched, e: int, top: int, htop: int)
    requires Inv(s, e, top, htop) && s.woken != []
    ensures s.woken[0] < |s.loc| && Inv(PoppedWoken(s), e, top, htop)
    ensures InHand(PoppedWoken(s), s.woken[0]) <==> Awaiting(s.phase[s.woken[0]])
  {
    hide Static, Tree, Members, NamedOk, Memory, Tallies, Edges, Led, Holds, Started, StartsPast,
        Counts, Life;
    var w, x := ListsOf(s), s.woken[0];
    var w' := w.(woken := s.woken[1..]);
    assert s.woken == [x] + s.woken[1..];
    assert ListOk(ListAt(w, InWoken), InWoken, s.loc, s.phase);
    Take(w, w', x, InWoken, s.loc, s.phase);
    EdgesTaken(V(s), s.loc, s.edge, e, x, InWoken);
    LedTaken(s.entry, s.preds, s.loc, s.edge, x, InWoken);
  }

  lemma QueueTail(info: seq<TaskInfo>, queue: seq<TaskId>)
    requires QueueOk(info, queue) && queue != []
    ensures QueueOk(info, queue[1..])
  {
  }

  lemma DroppedHeadOk(s: Sched, e: int, top: int, htop: int)
    requires Inv(s, e, top, htop) && s.queue != []
    ensures s.queue[0] < |s.loc| && Inv(DroppedHead(s), e, top, htop)
    ensures InHand(DroppedHead(s), s.queue[0]) <==> Awaiting(s.phase[s.queue[0]])
  {
    hide Static, Tree, Members, NamedOk, Memory, Tallies, Edges, Led, Holds, Started, StartsPast,
        Counts, Life, QueueOk;
    QueueTail(s.info, s.queue);
    var w, x := ListsOf(s), s.queue[0];
    var w' := w.(queue := s.queue[1..]);
    assert s.queue == [x] + s.queue[1..];
    assert ListOk(ListAt(w, InQueue), InQueue, s.loc, s.phase);
    Take(w, w', x, InQueue, s.loc, s.phase);
    EdgesTaken(V(s), s.loc, s.edge, e, x, InQueue);
    LedTaken(s.entry, s.preds, s.loc, s.edge, x, InQueue);
  }

  // ---- forgetting while scanning ------------------------------------------

  ghost function Scanned(s: Sched, x: TaskId, kept: seq<Pred>): Sched
    requires x < |s.preds|
  {
    s.(preds := s.preds[x := kept])
  }

  lemma ScannedOk(s: Sched, x: TaskId, kept: seq<Pred>, e: int, top: int, htop: int)
    requires Inv(s, e, top, htop) && x < |s.preds| && !Waits(s.loc[x])
    requires Forgets(s.preds[x], kept, s.state)
    ensures Inv(Scanned(s, x, kept), e, top, htop)
  {
    hide Static, Tree, Members, NamedOk, Tallies, Located, Edges, Led, Holds, Started, StartsPast,
        Counts, Life, QueueOk;
    ForgetsTransitive(s.named[x], s.preds[x], kept, s.state);
    LedScanned(s.entry, s.preds, s.loc, s.edge, x, kept);
  }

  lemma LedScanned(entry: seq<seq<Pred>>, preds: seq<seq<Pred>>, loc: seq<Loc>, edge: seq<Pred>, x: TaskId,
      kept: seq<Pred>)
    requires Led(entry, preds, loc, edge) && x < |loc| && !Waits(loc[x])
    ensures Led(entry, preds[x := kept], loc, edge)
  {
    forall y | 0 <= y < |loc| && Waits(loc[y])
      ensures exists p :: p in preds[x := kept][y] && Leads(entry, p, edge[y])
    {
      assert preds[x := kept][y] == preds[y];
    }
  }
}
