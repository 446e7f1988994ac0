/** The scheduler's whole state as one value, and what every step keeps.
    Each group of the invariant reads only the parts it is about. */
module RunState {
  import opened Outcomes
  import opened CollectionTally
  import opened Topology
  import opened Eligibility
  import opened WaitLists
  import Order = LedgerOrder

  /** Where a container's topology builder stands (builder.go). */
  datatype BuilderPhase = NoBuilder | BuilderPending | BuilderDone | BuilderNotStarted | BuilderPanicked

  datatype Sched = Sched(
    info: seq<TaskInfo>,
    state: seq<EntityState>,
    phase: seq<Phase>,
    preds: seq<seq<Pred>>,
    dependents: seq<seq<TaskId>>,
    cols: seq<ColInfo>,
    tally: seq<Tally>,
    entry: seq<seq<Pred>>,
    lastStep: seq<seq<Pred>>,
    colTasks: seq<seq<TaskId>>,
    colChildren: seq<seq<nat>>,
    stoppedAfter: seq<nat>,
    builder: seq<BuilderPhase>,
    queue: seq<TaskId>,
    woken: seq<TaskId>,
    parked: int,
    wg: int,
    executing: int,
    inflight: int,
    declSeq: nat,
    waking: bool,
    draining: bool,
    cancelled: bool,
    // Proof state: every predecessor each Task ever named, the list it is on,
    // the predecessor it is parked on, the declaration cursor it started at,
    // the Tasks whose callback is running, the declaration cursor the drain
    // began at, and the containers told to start after more once a Task may
    // have started after them.
    named: seq<seq<Pred>>,
    loc: seq<Loc>,
    edge: seq<Pred>,
    startedAt: seq<nat>,
    claimed: set<TaskId>,
    drainAt: nat,
    lateEntry: set<nat>)

  function V(s: Sched): View { View(s.state, s.phase, s.tally, s.entry, s.draining) }

  function ListsOf(s: Sched): Lists { Lists(s.queue, s.woken, s.dependents, s.tally) }

  // ---- the groups ---------------------------------------------------------

  ghost predicate Shape(s: Sched) {
    var n, m := |s.state|, |s.cols|;
    && |s.info| == |s.phase| == |s.preds| == |s.dependents| == n
    && |s.named| == |s.loc| == |s.edge| == |s.startedAt| == n
    && |s.tally| == |s.entry| == |s.lastStep| == m
    && |s.colTasks| == |s.colChildren| == |s.stoppedAfter| == |s.builder| == m
  }

  ghost predicate EachPredsOk(pss: seq<seq<Pred>>, tasks: nat, cols: nat) {
    forall x {:trigger pss[x]} :: 0 <= x < |pss| ==> PredsOk(pss[x], tasks, cols)
  }

  /** An edge's cursor was the declaration cursor of some moment. */
  ghost predicate CursorsPast(pss: seq<seq<Pred>>, declSeq: nat) {
    forall x, p {:trigger p in pss[x]} :: 0 <= x < |pss| && p in pss[x] && p.OnCol? ==> p.through <= declSeq
  }

  ghost predicate Static(info: seq<TaskInfo>, cols: seq<ColInfo>, declSeq: nat, entry: seq<seq<Pred>>,
      lastStep: seq<seq<Pred>>) {
    && ColsOk(cols) && TasksOk(info, cols)
    && DeclaredThrough(info, cols, declSeq) && declSeq < THROUGH_ALL
    && EntriesOk(entry, |info|) && CursorsPast(entry, declSeq)
    && EachPredsOk(lastStep, |info|, |cols|) && CursorsPast(lastStep, declSeq)
  }

  ghost predicate TasksAt(info: seq<TaskInfo>, own: seq<TaskId>, c: int) {
    forall x: nat :: x in own <==> x < |info| && info[x].home == c
  }

  ghost predicate ChildrenAt(cols: seq<ColInfo>, own: seq<nat>, c: int) {
    forall d: nat :: d in own <==> d < |cols| && cols[d].parent == c
  }

  /** Each container lists its own Tasks and containers. */
  ghost predicate Tree(info: seq<TaskInfo>, cols: seq<ColInfo>, colTasks: seq<seq<TaskId>>,
      colChildren: seq<seq<nat>>) {
    && |colTasks| == |colChildren| == |cols|
    && forall c {:trigger colTasks[c]} {:trigger colChildren[c]} :: 0 <= c < |cols| ==>
         TasksAt(info, colTasks[c], c) && ChildrenAt(cols, colChildren[c], c)
  }

  ghost function Ids(members: seq<Member>): set<TaskId> {
    set i | 0 <= i < |members| :: members[i].id
  }

  /** A tally's members are the Tasks below its container, at any depth. */
  ghost predicate MembersAt(info: seq<TaskInfo>, cols: seq<ColInfo>, t: Tally, c: nat) {
    && (forall i :: 0 <= i < |t.members| ==>
      t.members[i].id < |info| && t.members[i].declaration == info[t.members[i].id].decl)
    && (forall x :: x in Ids(t.members) <==> Below(info, cols, x, c))
  }

  ghost predicate Members(info: seq<TaskInfo>, cols: seq<ColInfo>, tally: seq<Tally>) {
    && |tally| == |cols|
    && forall c {:trigger tally[c]} :: 0 <= c < |cols| ==> MembersAt(info, cols, tally[c], c)
  }

  /** Only unresolved work awaits a start; only resolved work is abandoned. */
  ghost predicate Life(state: seq<EntityState>, phase: seq<Phase>) {
    && |phase| == |state|
    && forall x :: 0 <= x < |state| ==>
         && (Awaiting(phase[x]) ==> !IsTerminal(state[x]))
         && (phase[x] == PhaseAbandoned ==> IsTerminal(state[x]))
  }

  ghost predicate NamedOk(named: seq<seq<Pred>>, cols: nat, declSeq: nat) {
    EachPredsOk(named, |named|, cols) && CursorsPast(named, declSeq)
  }

  /** What a Task's predecessors forgot has succeeded. */
  ghost predicate Memory(named: seq<seq<Pred>>, preds: seq<seq<Pred>>, state: seq<EntityState>) {
    && |preds| == |named| == |state|
    && forall x {:trigger preds[x]} :: 0 <= x < |named| ==> Forgets(named[x], preds[x], state)
  }

  ghost predicate TallyAt(t: Tally, n: nat, draining: bool) {
    && MembersOk(t.members, n)
    && WaitersPending(t)
    && (t.open != [] ==> t.holds > 0 || t.sealed || !draining)
  }

  /** Every tally is current, but those on the chain from top, which a settle in
      progress has still to reach. */
  ghost predicate Tallies(tally: seq<Tally>, state: seq<EntityState>, cols: seq<ColInfo>, top: int, draining: bool) {
    && |tally| == |cols|
    && forall c {:trigger tally[c]} :: 0 <= c < |tally| ==>
         && TallyAt(tally[c], |state|, draining)
         && (OnChain(cols, top, c) || Current(tally[c], state))
  }

  /** The cursor a parked edge was filed under is the one it reads through; the
      one exception is an edge filed while draining on a membership that is
      sealed only later. */
  ghost predicate Fits(t: Tally, through: nat, cursor: int, draining: bool) {
    if through != 0 then cursor == through
    else (t.sealed && cursor == t.sealedThrough) || (draining && cursor == THROUGH_ALL)
  }

  ghost predicate FiledRight(t: Tally, x: TaskId, through: nat, draining: bool) {
    forall i :: 0 <= i < |t.parked| && t.parked[i].st == x ==> Fits(t, through, t.parked[i].cursor, draining)
  }

  ghost predicate EdgeAt(v: View, x: TaskId, l: Loc, p: Pred, e: int)
    requires |v.state| == |v.phase|
  {
    match l
    case AtTask(t) => p == OnTask(t) && t < |v.state| && (t == e || TaskOutcome(v, t) == PredPending)
    case AtOpen(c) => p.OnCol? && p.c == c < |v.tally| && (v.tally[c].holds > 0 || v.tally[c].sealed || p.through == 0)
    case AtClosed(c) => p.OnCol? && p.c == c < |v.tally| && FiledRight(v.tally[c], x, p.through, v.draining)
    case _ => true
  }

  /** Each waiting Task's edge is the one its list is for, and e apart the Task
      it waits on is pending. */
  ghost predicate Edges(v: View, loc: seq<Loc>, edge: seq<Pred>, e: int) {
    && |v.state| == |v.phase| == |loc| == |edge|
    && forall x {:trigger loc[x]} :: 0 <= x < |loc| ==> EdgeAt(v, x, loc[x], edge[x], e)
  }

  predicate Waits(l: Loc) { l.AtTask? || l.AtOpen? || l.AtClosed? }

  /** A waiting Task's edge is one of its predecessors, or one that an empty
      collection among them answers for. */
  ghost predicate Led(entry: seq<seq<Pred>>, preds: seq<seq<Pred>>, loc: seq<Loc>, edge: seq<Pred>) {
    && |preds| == |loc| == |edge|
    && forall x {:trigger loc[x]} :: 0 <= x < |loc| && Waits(loc[x]) ==>
         exists p :: p in preds[x] && Leads(entry, p, edge[x])
  }

  function CountPhase(phase: seq<Phase>, p: Phase): nat {
    if phase == [] then 0 else (if phase[0] == p then 1 else 0) + CountPhase(phase[1..], p)
  }

  ghost predicate Counts(phase: seq<Phase>, parked: int, wg: int, executing: int, inflight: int, claimed: set<TaskId>) {
    && parked == CountPhase(phase, PhaseParked)
    && wg == CountPhase(phase, PhaseQueued) + CountPhase(phase, PhaseParked) + executing
    && executing == inflight == |claimed|
    && forall x :: x in claimed ==> x < |phase| && phase[x] == PhaseRunning
  }

  function ByDecl(info: seq<TaskInfo>): TaskId -> int {
    (x: nat) => if x < |info| then info[x].decl else 0
  }

  ghost predicate QueueOk(info: seq<TaskInfo>, queue: seq<TaskId>) {
    && Order.Sorted(queue, ByDecl(info))
    && forall i :: 0 <= i < |queue| ==> queue[i] < |info|
  }

  /** The builder gates not yet settled at or below c. */
  ghost function PendingGates(info: seq<TaskInfo>, cols: seq<ColInfo>, state: seq<EntityState>, c: int, n: nat): nat
    requires n <= |info| == |state|
  {
    if n == 0 then 0 else
      PendingGates(info, cols, state, c, n - 1)
      + (if !IsTerminal(state[n - 1]) && OnChain(cols, info[n - 1].gateFor, c) then 1 else 0)
  }

  /** holds counts exactly the pending builders at or below each container; a
      gate being concluded has still to release the chain from htop. */
  ghost predicate Holds(info: seq<TaskInfo>, cols: seq<ColInfo>, state: seq<EntityState>, tally: seq<Tally>,
      htop: int) {
    && |info| == |state| && |tally| == |cols|
    && forall c {:trigger tally[c]} :: 0 <= c < |cols| ==>
      tally[c].holds == PendingGates(info, cols, state, c, |info|) + (if OnChain(cols, htop, c) then 1 else 0)
  }

  /** A gate's container has a builder. */
  ghost predicate GatesKnown(info: seq<TaskInfo>, builder: seq<BuilderPhase>) {
    forall g {:trigger info[g]} :: 0 <= g < |info| && 0 <= info[g].gateFor < |builder| ==>
      builder[info[g].gateFor] != NoBuilder
  }

  /** The cursor a collection edge held a Task to, when that Task started with
      the declaration cursor at. */
  function HeldThrough(t: Tally, through: nat, at: nat): nat {
    if through != 0 then through
    else if t.sealed && t.sealedThrough < at then t.sealedThrough
    else at
  }

  /** Predecessor p of a Task started at that cursor has succeeded for good. */
  ghost predicate Secured(p: Pred, at: nat, state: seq<EntityState>, tally: seq<Tally>) {
    match p
    case Missing => false
    case OnTask(t) => Satisfied(p, state)
    case OnCol(c, through) =>
      && c < |tally|
      && forall i {:trigger tally[c].members[i]} ::
           0 <= i < |tally[c].members| && tally[c].members[i].declaration <= HeldThrough(tally[c], through, at) ==>
           SucceededIn(tally[c].members[i], state)
  }

  /** Every Task that ever started had, and has, all its predecessors secured. */
  ghost predicate Started(named: seq<seq<Pred>>, phase: seq<Phase>, startedAt: seq<nat>, state: seq<EntityState>,
      tally: seq<Tally>) {
    && |named| == |phase| == |startedAt|
    && forall x, p {:trigger p in named[x]} :: 0 <= x < |phase| && phase[x] == PhaseRunning && p in named[x] ==>
      Secured(p, startedAt[x], state, tally)
  }

  ghost predicate StartsPast(startedAt: seq<nat>, tally: seq<Tally>, declSeq: nat) {
    && (forall x :: 0 <= x < |startedAt| ==> startedAt[x] <= declSeq)
    && (forall c {:trigger tally[c]} :: 0 <= c < |tally| ==> tally[c].sealedThrough <= declSeq)
  }

  /** No handle names a builder's gate, so no edge does. */
  ghost predicate NoGate(info: seq<TaskInfo>, pss: seq<seq<Pred>>) {
    forall x, p {:trigger p in pss[x]} :: 0 <= x < |pss| && p in pss[x] && p.OnTask? ==> p.t < |info| && info[p.t].gateFor < 0
  }

  ghost predicate GatesAlone(info: seq<TaskInfo>, dependents: seq<seq<TaskId>>) {
    && |dependents| == |info|
    && forall g {:trigger dependents[g]} :: 0 <= g < |info| && info[g].gateFor >= 0 ==> dependents[g] == []
  }

  ghost predicate Inv(s: Sched, e: int, top: int, htop: int) {
    && Shape(s)
    && Static(s.info, s.cols, s.declSeq, s.entry, s.lastStep)
    && Tree(s.info, s.cols, s.colTasks, s.colChildren)
    && Members(s.info, s.cols, s.tally)
    && Life(s.state, s.phase)
    && NamedOk(s.named, |s.cols|, s.declSeq)
    && Memory(s.named, s.preds, s.state)
    && Tallies(s.tally, s.state, s.cols, top, s.draining)
    && Located(ListsOf(s), s.loc, s.phase)
    && Edges(V(s), s.loc, s.edge, e)
    && Led(s.entry, s.preds, s.loc, s.edge)
    && QueueOk(s.info, s.queue)
    && Counts(s.phase, s.parked, s.wg, s.executing, s.inflight, s.claimed)
    && Holds(s.info, s.cols, s.state, s.tally, htop)
    && GatesKnown(s.info, s.builder)
    && Started(s.named, s.phase, s.startedAt, s.state, s.tally)
    && StartsPast(s.startedAt, s.tally, s.declSeq)
    && NoGate(s.info, s.named) && NoGate(s.info, s.entry) && NoGate(s.info, s.lastStep)
    && GatesAlone(s.info, s.dependents)
  }

  /** Between steps: nothing is half done. */
  ghost predicate Whole(s: Sched) { Inv(s, -1, -1, -1) }

  /** At rest: no wakeup is owed, and no Task is in anybody's hand. */
  ghost predicate Quiet(s: Sched) {
    Whole(s) && !s.waking && s.woken == [] && Hands(s.loc, s.phase) == {}
  }

  // ---- counting -----------------------------------------------------------

  lemma {:induction false} CountPhaseUpdate(phase: seq<Phase>, x: nat, q: Phase, p: Phase)
    requires x < |phase|
    ensures CountPhase(phase[x := q], p) + (if phase[x] == p then 1 else 0)
         == CountPhase(phase, p) + (if q == p then 1 else 0)
  {
    if x > 0 {
      CountPhaseUpdate(phase[1..], x - 1, q, p);
      assert phase[x := q][1..] == phase[1..][x - 1 := q];
    } else {
      assert phase[x := q][1..] == phase[1..];
    }
  }

  lemma {:induction false} CountPhaseAppend(phase: seq<Phase>, q: Phase, p: Phase)
    ensures CountPhase(phase + [q], p) == CountPhase(phase, p) + (if q == p then 1 else 0)
  {
    if phase != [] {
      CountPhaseAppend(phase[1..], q, p);
      assert (phase + [q])[1..] == phase[1..] + [q];
    }
  }

  /** How many Tasks are still unresolved: the wake cascade's measure. */
  function Unresolved(state: seq<EntityState>): nat {
    if state == [] then 0 else (if IsTerminal(state[0]) then 0 else 1) + Unresolved(state[1..])
  }

  lemma {:induction false} UnresolvedDrops(state: seq<EntityState>, x: nat, st: EntityState)
    requires x < |state| && !IsTerminal(state[x]) && IsTerminal(st)
    ensures Unresolved(state[x := st]) == Unresolved(state) - 1
  {
    if x > 0 {
      UnresolvedDrops(state[1..], x - 1, st);
      assert state[x := st][1..] == state[1..][x - 1 := st];
    } else {
      assert state[x := st][1..] == state[1..];
    }
  }
}
