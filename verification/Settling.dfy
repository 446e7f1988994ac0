/** The steps of a settle: a Task's terminal transition, the wakeups it owes its
    dependents, each collection above it recounting, and a builder's holds. Each
    is a function of the whole state with a proof of what it keeps. */
module Settling {
  import opened Outcomes
  import opened CollectionTally
  import opened Topology
  import opened Eligibility
  import opened WaitLists
  import opened RunState
  import opened Placing

  // ---- the terminal transition --------------------------------------------

  function AbandonedPhase(p: Phase): Phase {
    if Awaiting(p) then PhaseAbandoned else p
  }

  /** x settles in st; submitted work that never started is abandoned. */
  function Decided(s: Sched, x: TaskId, st: EntityState): Sched
    requires x < |s.state| && x < |s.phase| && x < |s.loc|
  {
    s.(state := s.state[x := st],
       phase := s.phase[x := AbandonedPhase(s.phase[x])],
       parked := s.parked - (if s.phase[x] == PhaseParked then 1 else 0),
       wg := s.wg - (if Awaiting(s.phase[x]) then 1 else 0),
       loc := if Awaiting(s.phase[x]) then s.loc[x := Off] else s.loc)
  }

  lemma {:induction false} DecidedPrefixLen(members: seq<Member>, state: seq<EntityState>, x: TaskId, st: EntityState)
    requires x < |state| && forall i :: 0 <= i < |members| ==> members[i].id != x
    ensures PrefixLen(members, state[x := st]) == PrefixLen(members, state)
    ensures EarliestFailed(members, state[x := st]) == EarliestFailed(members, state)
  {
    if members != [] {
      DecidedPrefixLen(members[1..], state, x, st);
    }
  }

  /** A settle leaves every collection the Task is not below current. */
  lemma TalliesDecided(s: Sched, x: TaskId, st: EntityState)
    requires Tallies(s.tally, s.state, s.cols, -1, s.draining) && Members(s.info, s.cols, s.tally)
    requires x < |s.state| == |s.info|
    ensures Tallies(s.tally, s.state[x := st], s.cols, s.info[x].home, s.draining)
  {
    forall c | 0 <= c < |s.tally| && !OnChain(s.cols, s.info[x].home, c)
      ensures Current(s.tally[c], s.state[x := st])
    {
      var t := s.tally[c];
      assert MembersAt(s.info, s.cols, t, c);
      forall i | 0 <= i < |t.members| ensures t.members[i].id != x {
        assert t.members[i].id in Ids(t.members);
      }
      DecidedPrefixLen(t.members, s.state, x, st);
    }
  }

  lemma MemoryDecided(named: seq<seq<Pred>>, preds: seq<seq<Pred>>, state: seq<EntityState>, x: TaskId, st: EntityState)
    requires Memory(named, preds, state) && x < |state| && !IsTerminal(state[x])
    ensures Memory(named, preds, state[x := st])
  {
    forall y | 0 <= y < |named| ensures Forgets(named[y], preds[y], state[x := st]) {
      ForgetsLater(named[y], preds[y], state, state[x := st]);
    }
  }

  lemma EdgesDecided(v: View, loc: seq<Loc>, edge: seq<Pred>, x: TaskId, st: EntityState)
    requires Edges(v, loc, edge, -1) && x < |loc|
    ensures Edges(v.(state := v.state[x := st], phase := v.phase[x := AbandonedPhase(v.phase[x])]),
                  if Awaiting(v.phase[x]) then loc[x := Off] else loc, edge, x)
  {
    var v' := v.(state := v.state[x := st], phase := v.phase[x := AbandonedPhase(v.phase[x])]);
    var loc' := if Awaiting(v.phase[x]) then loc[x := Off] else loc;
    forall y | 0 <= y < |loc'| ensures EdgeAt(v', y, loc'[y], edge[y], x) {
      assert EdgeAt(v, y, loc[y], edge[y], -1);
    }
  }

  lemma LedDecided(entry: seq<seq<Pred>>, preds: seq<seq<Pred>>, loc: seq<Loc>, edge: seq<Pred>, x: TaskId)
    requires Led(entry, preds, loc, edge) && x < |loc|
    ensures Led(entry, preds, loc[x := Off], edge)
  {
    forall y | 0 <= y < |loc| && Waits(loc[x := Off][y]) ensures exists p :: p in preds[y] && Leads(entry, p, edge[y]) {
      assert Waits(loc[y]);
    }
  }

  lemma LocatedDecided(w: Lists, loc: seq<Loc>, phase: seq<Phase>, x: TaskId)
    requires Located(w, loc, phase) && x < |loc|
    ensures Located(w, if Awaiting(phase[x]) then loc[x := Off] else loc, phase[x := AbandonedPhase(phase[x])])
  {
    if Awaiting(phase[x]) {
      Depart(w, x, loc, phase, PhaseAbandoned);
    } else {
      assert phase[x := phase[x]] == phase;
    }
  }

  lemma CountsDecided(phase: seq<Phase>, parked: int, wg: int, executing: int, inflight: int, claimed: set<TaskId>,
      x: TaskId)
    requires Counts(phase, parked, wg, executing, inflight, claimed) && x < |phase|
    ensures Counts(phase[x := AbandonedPhase(phase[x])],
                   parked - (if phase[x] == PhaseParked then 1 else 0),
                   wg - (if Awaiting(phase[x]) then 1 else 0), executing, inflight, claimed)
  {
    CountPhaseUpdate(phase, x, AbandonedPhase(phase[x]), PhaseParked);
    CountPhaseUpdate(phase, x, AbandonedPhase(phase[x]), PhaseQueued);
  }

  lemma StartedDecided(s: Sched, x: TaskId, st: EntityState)
    requires Started(s.named, s.phase, s.startedAt, s.state, s.tally)
    requires x < |s.state| == |s.phase| && !IsTerminal(s.state[x])
    ensures Started(s.named, s.phase[x := AbandonedPhase(s.phase[x])], s.startedAt, s.state[x := st], s.tally)
  {
    var phase' := s.phase[x := AbandonedPhase(s.phase[x])];
    forall y, p | 0 <= y < |phase'| && phase'[y] == PhaseRunning && p in s.named[y]
      ensures Secured(p, s.startedAt[y], s.state[x := st], s.tally)
    {
      assert Secured(p, s.startedAt[y], s.state, s.tally);
    }
  }

  lemma {:induction false} GatesDecided(info: seq<TaskInfo>, cols: seq<ColInfo>, state: seq<EntityState>, c: int,
      n: nat, x: TaskId, st: EntityState)
    requires n <= |info| == |state| && x < |state| && !IsTerminal(state[x]) && IsTerminal(st)
    ensures PendingGates(info, cols, state[x := st], c, n)
         == PendingGates(info, cols, state, c, n) - (if x < n && OnChain(cols, info[x].gateFor, c) then 1 else 0)
  {
    if n > 0 {
      GatesDecided(info, cols, state, c, n - 1, x, st);
    }
  }

  lemma HoldsDecided(info: seq<TaskInfo>, cols: seq<ColInfo>, state: seq<EntityState>, tally: seq<Tally>, x: TaskId,
      st: EntityState)
    requires Holds(info, cols, state, tally, -1) && x < |state| && !IsTerminal(state[x]) && IsTerminal(st)
    ensures Holds(info, cols, state[x := st], tally, info[x].gateFor)
  {
    forall c | 0 <= c < |cols|
      ensures tally[c].holds == PendingGates(info, cols, state[x := st], c, |info|) + (if OnChain(cols, info[x].gateFor, c) then 1 else 0)
    {
      GatesDecided(info, cols, state, c, |info|, x, st);
    }
  }

  /** After the transition, only x's dependents, the collections above x, and the
      containers whose builder x gated are still owed anything. */
  lemma DecidedOk(s: Sched, x: TaskId, st: EntityState)
    requires Whole(s) && x < |s.state| && !IsTerminal(s.state[x]) && IsTerminal(st)
    ensures Inv(Decided(s, x, st), x, s.info[x].home, s.info[x].gateFor)
  {
    hide Static, Tree, Members, NamedOk, Memory, Tallies, Located, Edges, Led, Holds, Started, StartsPast, Counts,
        QueueOk;
    TalliesDecided(s, x, st);
    MemoryDecided(s.named, s.preds, s.state, x, st);
    EdgesDecided(V(s), s.loc, s.edge, x, st);
    LedDecided(s.entry, s.preds, s.loc, s.edge, x);
    LocatedDecided(ListsOf(s), s.loc, s.phase, x);
    CountsDecided(s.phase, s.parked, s.wg, s.executing, s.inflight, s.claimed, x);
    StartedDecided(s, x, st);
    HoldsDecided(s.info, s.cols, s.state, s.tally, x, st);
  }

  // ---- batches to the worklist --------------------------------------------

  lemma EdgesMoved(v: View, loc: seq<Loc>, edge: seq<Pred>, e: int, tag: Loc, batch: multiset<TaskId>)
    requires Edges(v, loc, edge, e)
    ensures Edges(v, Moved(loc, tag, batch), edge, e)
  {
    var loc' := Moved(loc, tag, batch);
    forall y | 0 <= y < |loc'| ensures EdgeAt(v, y, loc'[y], edge[y], e) {
      assert EdgeAt(v, y, loc[y], edge[y], e);
    }
  }

  lemma LedMoved(entry: seq<seq<Pred>>, preds: seq<seq<Pred>>, loc: seq<Loc>, edge: seq<Pred>, tag: Loc,
      batch: multiset<TaskId>)
    requires Led(entry, preds, loc, edge)
    ensures Led(entry, preds, Moved(loc, tag, batch), edge)
  {
    var loc' := Moved(loc, tag, batch);
    forall y | 0 <= y < |loc'| && Waits(loc'[y]) ensures exists p :: p in preds[y] && Leads(entry, p, edge[y]) {
      assert Waits(loc[y]);
    }
  }

  /** Everybody parked on x is owed a new look. */
  function DependentsWoken(s: Sched, x: TaskId): Sched
    requires x < |s.dependents|
  {
    s.(dependents := s.dependents[x := []],
       woken := s.woken + s.dependents[x],
       loc := Moved(s.loc, AtTask(x), multiset(s.dependents[x])))
  }

  lemma NoneLeftAt(w: Lists, loc: seq<Loc>, phase: seq<Phase>, tag: Loc)
    requires Located(w, loc, phase) && tag != Off && ListAt(w, tag) == multiset{}
    ensures forall x :: 0 <= x < |loc| ==> loc[x] != tag
  {
    assert ListOk(ListAt(w, tag), tag, loc, phase);
  }

  lemma EdgesSettled(v: View, loc: seq<Loc>, edge: seq<Pred>, x: TaskId)
    requires Edges(v, loc, edge, x) && forall y :: 0 <= y < |loc| ==> loc[y] != AtTask(x)
    ensures Edges(v, loc, edge, -1)
  {
    forall y | 0 <= y < |loc| ensures EdgeAt(v, y, loc[y], edge[y], -1) {
      assert EdgeAt(v, y, loc[y], edge[y], x);
    }
  }

  lemma DependentsWokenOk(s: Sched, x: TaskId, top: int, htop: int)
    requires Inv(s, x, top, htop) && x < |s.dependents|
    ensures Inv(DependentsWoken(s, x), -1, top, htop)
  {
    hide Static, Tree, Members, NamedOk, Memory, Tallies, Located, Edges, Led, Holds, Started,
        StartsPast, Counts, Life, QueueOk;
    var s' := DependentsWoken(s, x);
    var batch := multiset(s.dependents[x]);
    Move(ListsOf(s), ListsOf(s'), AtTask(x), batch, s.loc, s.phase);
    EdgesMoved(V(s), s.loc, s.edge, x, AtTask(x), batch);
    NoneLeftAt(ListsOf(s'), s'.loc, s'.phase, AtTask(x));
    EdgesSettled(V(s'), s'.loc, s'.edge, x);
    LedMoved(s.entry, s.preds, s.loc, s.edge, AtTask(x), batch);
  }

  // ---- a tally that lets waiting Tasks go ---------------------------------

  function ShrunkLoc(loc: seq<Loc>, c: nat, freed: seq<TaskId>, decided: seq<TaskId>): (r: seq<Loc>)
    ensures |r| == |loc|
  {
    Moved(Moved(loc, AtOpen(c), multiset(freed)), AtClosed(c), multiset(decided))
  }

  /** u is t with the Tasks freed and decided let go. */
  ghost predicate Shrinks(t: Tally, u: Tally, freed: seq<TaskId>, decided: seq<TaskId>) {
    && multiset(u.open) + multiset(freed) == multiset(t.open)
    && multiset(Sts(u.parked)) + multiset(decided) == multiset(Sts(t.parked))
    && (forall p :: p in u.parked ==> p in t.parked)
    && u.members == t.members
    && (t.sealed ==> u.sealed && u.sealedThrough == t.sealedThrough)
  }

  /** The whole state after collection c's tally became u. */
  function Shrunk(s: Sched, c: nat, u: Tally, freed: seq<TaskId>, decided: seq<TaskId>): Sched
    requires c < |s.tally|
  {
    s.(tally := s.tally[c := u],
       woken := s.woken + (freed + decided),
       loc := ShrunkLoc(s.loc, c, freed, decided))
  }

  lemma LocatedShrunk(w: Lists, c: nat, u: Tally, freed: seq<TaskId>, decided: seq<TaskId>, loc: seq<Loc>,
      phase: seq<Phase>)
    requires Located(w, loc, phase) && c < |w.tally| && Shrinks(w.tally[c], u, freed, decided)
    ensures Located(w.(tally := w.tally[c := u], woken := w.woken + (freed + decided)), ShrunkLoc(loc, c, freed, decided), phase)
  {
    hide Located;
    var mid := w.(tally := w.tally[c := w.tally[c].(open := u.open)], woken := w.woken + freed);
    var end := w.(tally := w.tally[c := u], woken := w.woken + (freed + decided));
    Move(w, mid, AtOpen(c), multiset(freed), loc, phase);
    assert w.woken + (freed + decided) == w.woken + freed + decided;
    Move(mid, end, AtClosed(c), multiset(decided), Moved(loc, AtOpen(c), multiset(freed)), phase);
  }

  lemma FiledRightShrunk(t: Tally, u: Tally, freed: seq<TaskId>, decided: seq<TaskId>, y: TaskId, through: nat,
      draining: bool)
    requires Shrinks(t, u, freed, decided) && FiledRight(t, y, through, draining)
    ensures FiledRight(u, y, through, draining)
  {
    forall i | 0 <= i < |u.parked| && u.parked[i].st == y ensures Fits(u, through, u.parked[i].cursor, draining) {
      assert u.parked[i] in t.parked;
    }
  }

  lemma EdgesShrunk(v: View, loc: seq<Loc>, edge: seq<Pred>, e: int, c: nat, u: Tally, freed: seq<TaskId>,
      decided: seq<TaskId>)
    requires Edges(v, loc, edge, e) && c < |v.tally| && Shrinks(v.tally[c], u, freed, decided)
    requires u.holds > 0 || u.sealed || u.holds == v.tally[c].holds
          || forall y :: 0 <= y < |loc| ==> ShrunkLoc(loc, c, freed, decided)[y] != AtOpen(c)
    ensures Edges(v.(tally := v.tally[c := u]), ShrunkLoc(loc, c, freed, decided), edge, e)
  {
    var v', loc' := v.(tally := v.tally[c := u]), ShrunkLoc(loc, c, freed, decided);
    forall y | 0 <= y < |loc'| ensures EdgeAt(v', y, loc'[y], edge[y], e) {
      assert EdgeAt(v, y, loc[y], edge[y], e);
      if loc'[y] == AtClosed(c) {
        FiledRightShrunk(v.tally[c], u, freed, decided, y, edge[y].through, v.draining);
      }
    }
  }

  lemma LedShrunk(entry: seq<seq<Pred>>, preds: seq<seq<Pred>>, loc: seq<Loc>, edge: seq<Pred>, c: nat,
      freed: seq<TaskId>, decided: seq<TaskId>)
    requires Led(entry, preds, loc, edge)
    ensures Led(entry, preds, ShrunkLoc(loc, c, freed, decided), edge)
  {
    LedMoved(entry, preds, loc, edge, AtOpen(c), multiset(freed));
    LedMoved(entry, preds, Moved(loc, AtOpen(c), multiset(freed)), edge, AtClosed(c), multiset(decided));
  }

  lemma MembersShrunk(info: seq<TaskInfo>, cols: seq<ColInfo>, tally: seq<Tally>, c: nat, u: Tally)
    requires Members(info, cols, tally) && c < |tally| && u.members == tally[c].members
    ensures Members(info, cols, tally[c := u])
  {
    var tally' := tally[c := u];
    forall d | 0 <= d < |cols| ensures MembersAt(info, cols, tally'[d], d) {
      assert MembersAt(info, cols, tally[d], d);
    }
  }

  /** Sealing a membership after a Task started holds that Task to nothing new. */
  lemma StartedShrunk(s: Sched, c: nat, u: Tally)
    requires Started(s.named, s.phase, s.startedAt, s.state, s.tally) && StartsPast(s.startedAt, s.tally, s.declSeq)
    requires c < |s.tally| && u.members == s.tally[c].members
    requires if s.tally[c].sealed then u.sealed && u.sealedThrough == s.tally[c].sealedThrough
             else u.sealed ==> u.sealedThrough == s.declSeq
    ensures Started(s.named, s.phase, s.startedAt, s.state, s.tally[c := u])
  {
    forall x, p | 0 <= x < |s.phase| && s.phase[x] == PhaseRunning && p in s.named[x]
      ensures Secured(p, s.startedAt[x], s.state, s.tally[c := u])
    {
      assert Secured(p, s.startedAt[x], s.state, s.tally);
      if p.OnCol? && p.c == c {
        assert HeldThrough(u, p.through, s.startedAt[x]) == HeldThrough(s.tally[c], p.through, s.startedAt[x]);
      }
    }
  }

  // ---- the collections above a settled Task -------------------------------

  /** Collection c recounts and wakes whoever its edge decided. */
  function Recount(s: Sched, c: nat): Sched
    requires c < |s.tally|
  {
    var t := s.tally[c];
    var u := Recounted(t, s.state);
    Shrunk(s, c, Refreshed(t, s.state), if u.firstFailed != 0 then t.open else [], Sts(NowDecided(t.parked, u)))
  }

  lemma RefreshedShrinks(t: Tally, state: seq<EntityState>)
    ensures var u := Recounted(t, state);
      Shrinks(t, Refreshed(t, state), if u.firstFailed != 0 then t.open else [], Sts(NowDecided(t.parked, u)))
  {
    var u := Recounted(t, state);
    StsPartition(t.parked, u);
    PartitionKeepsAll(t.parked, u);
  }

  lemma TalliesRecounted(tally: seq<Tally>, state: seq<EntityState>, cols: seq<ColInfo>, c: nat, draining: bool)
    requires Tallies(tally, state, cols, c, draining) && c < |tally| && cols[c].parent < c
    ensures Tallies(tally[c := Refreshed(tally[c], state)], state, cols, cols[c].parent, draining)
  {
    RefreshedOk(tally[c], state);
  }

  lemma HoldsSame(info: seq<TaskInfo>, cols: seq<ColInfo>, state: seq<EntityState>, tally: seq<Tally>, htop: int,
      c: nat, u: Tally)
    requires Holds(info, cols, state, tally, htop) && c < |tally| && u.holds == tally[c].holds
    ensures Holds(info, cols, state, tally[c := u], htop)
  {
  }

  lemma RecountOk(s: Sched, c: nat, htop: int)
    requires Inv(s, -1, c, htop) && c < |s.cols|
    ensures Inv(Recount(s, c), -1, s.cols[c].parent, htop)
  {
    hide ShrunkLoc, Recounted, StillPending, NowDecided, GatesKnown, NoGate, GatesAlone, Static, Tree, Members,
        NamedOk, Memory, Tallies, Located, Edges, Led, Holds, Started, Counts, Life, QueueOk,
        Shrinks, Refreshed, StartsPast;
    ParentBelow(s.info, s.cols, s.declSeq, s.entry, s.lastStep, c);
    var t := s.tally[c];
    var u := Recounted(t, s.state);
    var freed, decided := if u.firstFailed != 0 then t.open else [], Sts(NowDecided(t.parked, u));
    var r := Refreshed(t, s.state);
    RefreshedKeeps(t, s.state);
    RefreshedShrinks(t, s.state);
    LocatedShrunk(ListsOf(s), c, r, freed, decided, s.loc, s.phase);
    EdgesShrunk(V(s), s.loc, s.edge, -1, c, r, freed, decided);
    LedShrunk(s.entry, s.preds, s.loc, s.edge, c, freed, decided);
    MembersShrunk(s.info, s.cols, s.tally, c, r);
    TalliesRecounted(s.tally, s.state, s.cols, c, s.draining);
    HoldsSame(s.info, s.cols, s.state, s.tally, htop, c, r);
    StartsPastOf(s.startedAt, s.tally, s.declSeq, c);
    StartsPastSealed(s.startedAt, s.tally, s.declSeq, c, r);
    StartedShrunk(s, c, r);
  }

  lemma ParentBelow(info: seq<TaskInfo>, cols: seq<ColInfo>, declSeq: nat, entry: seq<seq<Pred>>,
      lastStep: seq<seq<Pred>>, c: nat)
    requires Static(info, cols, declSeq, entry, lastStep) && c < |cols|
    ensures -1 <= cols[c].parent < c
  {
  }

  lemma RefreshedKeeps(t: Tally, state: seq<EntityState>)
    ensures var r := Refreshed(t, state);
      r.members == t.members && r.holds == t.holds && r.sealed == t.sealed && r.sealedThrough == t.sealedThrough
      && r.builderFailed == t.builderFailed
  {
  }

  // ---- sealing ------------------------------------------------------------

  function SealedCol(s: Sched, c: nat): Sched
    requires c < |s.tally|
  {
    Shrunk(s, c, Sealed(s.tally[c], s.declSeq), SealWakes(s.tally[c]), [])
  }

  lemma TalliesKept(tally: seq<Tally>, state: seq<EntityState>, cols: seq<ColInfo>, top: int, draining: bool, c: nat,
      u: Tally)
    requires Tallies(tally, state, cols, top, draining) && c < |tally|
    requires TallyAt(tally[c], |state|, draining) ==> TallyAt(u, |state|, draining)
    requires u.members == tally[c].members && u.succeededPrefix == tally[c].succeededPrefix && u.firstFailed == tally[c].firstFailed
    ensures Tallies(tally[c := u], state, cols, top, draining)
  {
  }

  lemma SealedColOk(s: Sched, c: nat, top: int, htop: int)
    requires Inv(s, -1, top, htop) && c < |s.cols|
    requires htop == -1
    ensures Inv(SealedCol(s, c), -1, top, htop)
  {
    hide Static, Tree, Members, NamedOk, Memory, Tallies, Located, Edges, Led, Holds, Started, Counts, Life, QueueOk,
        StartsPast, Shrinks, TallyAt;
    var t := s.tally[c];
    var u := Sealed(t, s.declSeq);
    SealShrinks(t, |s.state|, s.declSeq, s.draining);
    StartsPastOf(s.startedAt, s.tally, s.declSeq, c);
    StartsPastSealed(s.startedAt, s.tally, s.declSeq, c, u);
    LocatedShrunk(ListsOf(s), c, u, SealWakes(t), [], s.loc, s.phase);
    EdgesShrunk(V(s), s.loc, s.edge, -1, c, u, SealWakes(t), []);
    LedShrunk(s.entry, s.preds, s.loc, s.edge, c, SealWakes(t), []);
    MembersShrunk(s.info, s.cols, s.tally, c, u);
    TalliesKept(s.tally, s.state, s.cols, top, s.draining, c, u);
    HoldsSame(s.info, s.cols, s.state, s.tally, htop, c, u);
    StartedShrunk(s, c, u);
  }

  lemma SealShrinks(t: Tally, n: nat, cursor: nat, draining: bool)
    ensures Shrinks(t, Sealed(t, cursor), SealWakes(t), [])
    ensures TallyAt(t, n, draining) ==> TallyAt(Sealed(t, cursor), n, draining)
  {
  }

  // ---- a concluded builder ------------------------------------------------

  /** Container c drops the concluded builder's hold; seal when it ran the builder. */
  function ReleasedCol(s: Sched, c: nat, seal: bool): Sched
    requires c < |s.tally|
  {
    Shrunk(s, c, Released(s.tally[c], seal, s.declSeq), ReleaseWakes(s.tally[c], seal), [])
  }

  /** Container c learns that a builder below it never declared its children. */
  function FailedCol(s: Sched, c: nat): Sched
    requires c < |s.tally|
  {
    Shrunk(s, c, BuilderFailed(s.tally[c]), s.tally[c].open, Sts(s.tally[c].parked))
  }

  lemma FailedColOk(s: Sched, c: nat, top: int, htop: int)
    requires Inv(s, -1, top, htop) && c < |s.cols|
    ensures Inv(FailedCol(s, c), -1, top, htop)
  {
    hide Static, Tree, Members, NamedOk, Memory, Tallies, Located, Edges, Led, Holds, Started, Counts, Life, QueueOk;
    var t := s.tally[c];
    var u := BuilderFailed(t);
    assert Sts(u.parked) == [];
    LocatedShrunk(ListsOf(s), c, u, t.open, Sts(t.parked), s.loc, s.phase);
    EdgesShrunk(V(s), s.loc, s.edge, -1, c, u, t.open, Sts(t.parked));
    LedShrunk(s.entry, s.preds, s.loc, s.edge, c, t.open, Sts(t.parked));
    MembersShrunk(s.info, s.cols, s.tally, c, u);
    TalliesKept(s.tally, s.state, s.cols, top, s.draining, c, u);
    HoldsSame(s.info, s.cols, s.state, s.tally, htop, c, u);
    StartedShrunk(s, c, u);
  }

  lemma HoldsReleased(info: seq<TaskInfo>, cols: seq<ColInfo>, state: seq<EntityState>, tally: seq<Tally>, c: nat,
      u: Tally)
    requires Holds(info, cols, state, tally, c) && c < |tally| && u.holds == tally[c].holds - 1
    requires cols[c].parent < c
    ensures Holds(info, cols, state, tally[c := u], cols[c].parent)
  {
    forall d | 0 <= d < |cols|
      ensures tally[c := u][d].holds == PendingGates(info, cols, state, d, |info|) + (if OnChain(cols, cols[c].parent, d) then 1 else 0)
    {
      if d == c && OnChain(cols, cols[c].parent, d) {
        ChainBounds(cols, cols[c].parent, d);
      }
    }
  }

  /** Releasing a hold wakes everybody on the open membership it closes or
      re-opens, unless the container was sealed already. */
  lemma ReleasedTally(t: Tally, n: nat, seal: bool, cursor: nat, draining: bool)
    requires TallyAt(t, n, draining)
    ensures TallyAt(Released(t, seal, cursor), n, draining)
    ensures Released(t, seal, cursor).holds <= 0 && !Released(t, seal, cursor).sealed ==> Released(t, seal, cursor).open == []
  {
  }

  lemma StartsPastSealed(startedAt: seq<nat>, tally: seq<Tally>, declSeq: nat, c: nat, u: Tally)
    requires StartsPast(startedAt, tally, declSeq) && c < |tally| && u.sealedThrough <= declSeq
    ensures StartsPast(startedAt, tally[c := u], declSeq)
  {
  }

  lemma ReleasedColOk(s: Sched, c: nat, seal: bool)
    requires Inv(s, -1, -1, c) && c < |s.cols|
    ensures Inv(ReleasedCol(s, c, seal), -1, -1, s.cols[c].parent)
  {
    hide Tree, Members, NamedOk, Memory, Tallies, Located, Edges, Led, Holds, Started, Counts, Life, QueueOk,
        StartsPast, Shrinks, TallyAt;
    var t := s.tally[c];
    var u := Released(t, seal, s.declSeq);
    var s' := ReleasedCol(s, c, seal);
    ReleaseShrinks(t, seal, s.declSeq);
    TallyOf(s.tally, s.state, s.cols, -1, s.draining, c);
    ReleasedTally(t, |s.state|, seal, s.declSeq, s.draining);
    LocatedShrunk(ListsOf(s), c, u, ReleaseWakes(t, seal), [], s.loc, s.phase);
    if u.holds <= 0 && !u.sealed {
      NoneLeftAt(ListsOf(s'), s'.loc, s'.phase, AtOpen(c));
    }
    EdgesShrunk(V(s), s.loc, s.edge, -1, c, u, ReleaseWakes(t, seal), []);
    LedShrunk(s.entry, s.preds, s.loc, s.edge, c, ReleaseWakes(t, seal), []);
    MembersShrunk(s.info, s.cols, s.tally, c, u);
    TalliesKept(s.tally, s.state, s.cols, -1, s.draining, c, u);
    HoldsReleased(s.info, s.cols, s.state, s.tally, c, u);
    StartsPastOf(s.startedAt, s.tally, s.declSeq, c);
    StartsPastSealed(s.startedAt, s.tally, s.declSeq, c, u);
    StartedShrunk(s, c, u);
  }

  lemma ReleaseShrinks(t: Tally, seal: bool, cursor: nat)
    ensures Shrinks(t, Released(t, seal, cursor), ReleaseWakes(t, seal), [])
    ensures var u := Released(t, seal, cursor);
      && u.holds == t.holds - 1 && u.succeededPrefix == t.succeededPrefix && u.firstFailed == t.firstFailed
      && (if t.sealed then u.sealed && u.sealedThrough == t.sealedThrough
          else u.sealedThrough == if u.sealed then cursor else t.sealedThrough)
  {
  }

  lemma StartsPastOf(startedAt: seq<nat>, tally: seq<Tally>, declSeq: nat, c: nat)
    requires StartsPast(startedAt, tally, declSeq) && c < |tally|
    ensures tally[c].sealedThrough <= declSeq
  {
  }

  lemma TallyOf(tally: seq<Tally>, state: seq<EntityState>, cols: seq<ColInfo>, top: int, draining: bool, c: nat)
    requires Tallies(tally, state, cols, top, draining) && c < |tally|
    ensures TallyAt(tally[c], |state|, draining)
  {
  }
}
