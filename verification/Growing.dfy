/** What adding one Task or one container to the run keeps (declare.go): every
    invariant of the scheduler, for everybody already waiting or started. */
module Growing {
  import opened Outcomes
  import opened CollectionTally
  import opened Topology
  import opened Eligibility
  import opened WaitLists
  import opened RunState
  import opened Placing
  import opened Settling
  import opened Cascades
  import opened Followers
  import opened Rest
  import Order = LedgerOrder

  // ---- a fresh declaration cursor -----------------------------------------

  /** The cursor was just advanced: nothing is declared, named or started at it. */
  ghost predicate Fresh(s: Sched) {
    && s.declSeq > 0
    && DeclaredThrough(s.info, s.cols, s.declSeq - 1)
    && CursorsPast(s.named, s.declSeq - 1)
    && (forall x :: 0 <= x < |s.startedAt| ==> s.startedAt[x] < s.declSeq)
  }

  function Bumped(s: Sched): Sched { s.(declSeq := s.declSeq + 1) }

  lemma BumpedOk(s: Sched)
    requires Good(s) && s.declSeq + 1 < THROUGH_ALL
    ensures Good(Bumped(s)) && Fresh(Bumped(s)) && InHands(Bumped(s)) == InHands(s) && Advances(s, Bumped(s))
  {
    hide Tree, Members, Life, Memory, Tallies, Located, Edges, Led, QueueOk, Counts, Holds, Started,
        NoGate, GatesAlone;
    StopsKept(s, Bumped(s));
  }

  // ---- one more Task ------------------------------------------------------

  /** What declaring Task x into the tree does to the tally of one container. */
  function JoinedTally(t: Tally, member: bool, gate: bool, m: Member): Tally {
    if member then Declared(t, m) else if gate then t.(holds := t.holds + 1) else t
  }

  ghost predicate TalliesJoined(a: seq<Tally>, b: seq<Tally>, cols: seq<ColInfo>, t: TaskInfo, m: Member) {
    && |b| == |a| == |cols|
    && forall c {:trigger b[c]} :: 0 <= c < |a| ==> b[c] == JoinedTally(a[c], OnChain(cols, t.home, c), OnChain(cols, t.gateFor, c), m)
  }

  ghost predicate Appended(a: seq<seq<nat>>, b: seq<seq<nat>>, at: int, x: nat) {
    && |b| == |a|
    && forall c {:trigger b[c]} :: 0 <= c < |a| ==> b[c] == if c == at then a[c] + [x] else a[c]
  }

  /** Some containers take self as their latest step; the others keep theirs. */
  ghost predicate Stepped(a: seq<seq<Pred>>, b: seq<seq<Pred>>, self: Pred) {
    && |b| == |a|
    && forall c {:trigger b[c]} :: 0 <= c < |a| ==> b[c] == a[c] || b[c] == [self]
  }

  /** A Task record t naming ps joins every array. */
  function Grown(s: Sched, t: TaskInfo, ps: seq<Pred>, tally: seq<Tally>, colTasks: seq<seq<TaskId>>,
      lastStep: seq<seq<Pred>>): Sched {
    s.(info := s.info + [t], state := s.state + [Pending], phase := s.phase + [PhaseDeclared],
       preds := s.preds + [ps], named := s.named + [ps], dependents := s.dependents + [[]],
       loc := s.loc + [Off], edge := s.edge + [Missing], startedAt := s.startedAt + [0],
       tally := tally, colTasks := colTasks, lastStep := lastStep)
  }

  ghost predicate GrowsBy(s: Sched, t: TaskInfo, ps: seq<Pred>, tally: seq<Tally>, colTasks: seq<seq<TaskId>>,
      lastStep: seq<seq<Pred>>) {
    && -1 <= t.home < |s.cols| && -1 <= t.gateFor < |s.cols| && (t.gateFor >= 0 ==> t.home == -1)
    && t.decl == s.declSeq
    && PredsOk(ps, |s.state|, |s.cols|)
    && (forall p :: p in ps && p.OnCol? ==> p.through <= s.declSeq)
    && (forall p :: p in ps && p.OnTask? ==> p.t < |s.info| && s.info[p.t].gateFor < 0)
    && TalliesJoined(s.tally, tally, s.cols, t, Member(|s.state|, t.decl))
    && Appended(s.colTasks, colTasks, t.home, |s.state|)
    && Stepped(s.lastStep, lastStep, OnTask(|s.state|))
    && (t.gateFor >= 0 ==> lastStep == s.lastStep && t.gateFor < |s.builder| && s.builder[t.gateFor] != NoBuilder)
  }

  lemma StaticGrown(s: Sched, t: TaskInfo, lastStep: seq<seq<Pred>>)
    requires Static(s.info, s.cols, s.declSeq, s.entry, s.lastStep) && Fresh(s)
    requires -1 <= t.home < |s.cols| && -1 <= t.gateFor < |s.cols| && (t.gateFor >= 0 ==> t.home == -1) && t.decl == s.declSeq
    requires Stepped(s.lastStep, lastStep, OnTask(|s.info|))
    ensures Static(s.info + [t], s.cols, s.declSeq, s.entry, lastStep)
  {
    forall c | 0 <= c < |lastStep| ensures PredsOk(lastStep[c], |s.info| + 1, |s.cols|) {
    }
    forall c | 0 <= c < |s.entry| ensures PredsOk(s.entry[c], |s.info| + 1, c) {
    }
    CursorsStepped(s.lastStep, lastStep, |s.info|, s.declSeq);
  }

  lemma CursorsStepped(lastStep: seq<seq<Pred>>, lastStep': seq<seq<Pred>>, n: nat, declSeq: nat)
    requires CursorsPast(lastStep, declSeq) && Stepped(lastStep, lastStep', OnTask(n))
    ensures CursorsPast(lastStep', declSeq)
  {
  }

  lemma TreeGrown(info: seq<TaskInfo>, cols: seq<ColInfo>, colTasks: seq<seq<TaskId>>, colChildren: seq<seq<nat>>,
      t: TaskInfo, colTasks': seq<seq<TaskId>>)
    requires Tree(info, cols, colTasks, colChildren) && t.home < |cols|
    requires Appended(colTasks, colTasks', t.home, |info|)
    ensures Tree(info + [t], cols, colTasks', colChildren)
  {
    forall c | 0 <= c < |cols| ensures TasksAt(info + [t], colTasks'[c], c) {
      assert TasksAt(info, colTasks[c], c);
    }
  }

  lemma BelowGrown(info: seq<TaskInfo>, cols: seq<ColInfo>, t: TaskInfo, x: nat, c: int)
    ensures Below(info + [t], cols, x, c) <==> Below(info, cols, x, c) || (x == |info| && OnChain(cols, t.home, c))
  {
  }

  lemma MembersAtGrown(info: seq<TaskInfo>, cols: seq<ColInfo>, t: TaskInfo, a: Tally, c: nat)
    requires MembersAt(info, cols, a, c)
    ensures MembersAt(info + [t], cols, if OnChain(cols, t.home, c) then Declared(a, Member(|info|, t.decl)) else a, c)
  {
    var m := Member(|info|, t.decl);
    var b := if OnChain(cols, t.home, c) then Declared(a, m) else a;
    forall x ensures x in Ids(b.members) <==> Below(info + [t], cols, x, c) {
      IdsAppend(a.members, m, x);
      BelowGrown(info, cols, t, x, c);
    }
  }

  lemma IdsAppend(members: seq<Member>, m: Member, x: TaskId)
    ensures x in Ids(members + [m]) <==> x in Ids(members) || x == m.id
  {
    if x in Ids(members) {
      var i :| 0 <= i < |members| && members[i].id == x;
      assert (members + [m])[i].id == x;
    }
    assert (members + [m])[|members|] == m;
  }

  lemma MembersGrown(info: seq<TaskInfo>, cols: seq<ColInfo>, tally: seq<Tally>, t: TaskInfo, tally': seq<Tally>)
    requires Members(info, cols, tally) && TalliesJoined(tally, tally', cols, t, Member(|info|, t.decl))
    ensures Members(info + [t], cols, tally')
  {
    forall c | 0 <= c < |cols| ensures MembersAt(info + [t], cols, tally'[c], c) {
      assert MembersAt(info, cols, tally[c], c);
      MembersAtGrown(info, cols, t, tally[c], c);
    }
  }

  lemma {:induction false} CountersGrown(members: seq<Member>, state: seq<EntityState>)
    requires forall i :: 0 <= i < |members| ==> members[i].id < |state|
    ensures PrefixLen(members, state + [Pending]) == PrefixLen(members, state)
    ensures EarliestFailed(members, state + [Pending]) == EarliestFailed(members, state)
  {
    if members != [] {
      CountersGrown(members[1..], state);
    }
  }

  lemma TallyLonger(a: Tally, state: seq<EntityState>, draining: bool)
    requires TallyAt(a, |state|, draining) && Current(a, state)
    ensures TallyAt(a, |state| + 1, draining) && Current(a, state + [Pending])
  {
    hide WaitersPending;
    CountersGrown(a.members, state);
  }

  lemma HeldTally(a: Tally, n: nat, draining: bool)
    requires TallyAt(a, n, draining)
    ensures TallyAt(a.(holds := a.holds + 1), n, draining)
  {
    SameReading(a, a.(holds := a.holds + 1));
  }

  /** One tally, with the new Task declared into it or above. */
  lemma TallyGrown(a: Tally, state: seq<EntityState>, draining: bool, decl: nat, member: bool, gate: bool)
    requires TallyAt(a, |state|, draining) && Current(a, state) && 0 < decl < THROUGH_ALL
    requires forall i :: 0 <= i < |a.members| ==> a.members[i].declaration < decl && a.members[i].id < |state|
    ensures var b := JoinedTally(a, member, gate, Member(|state|, decl));
            TallyAt(b, |state| + 1, draining) && Current(b, state + [Pending])
  {
    hide WaitersPending, PrefixLen, EarliestFailed, MembersOk;
    TallyLonger(a, state, draining);
    if member {
      DeclaredOk(a, Member(|state|, decl), state + [Pending]);
    } else if gate {
      HeldTally(a, |state| + 1, draining);
    }
  }

  lemma EarlierMembers(s: Sched, c: nat, decl: nat)
    requires Members(s.info, s.cols, s.tally) && c < |s.tally|
    requires 0 < decl && DeclaredThrough(s.info, s.cols, decl - 1)
    ensures forall i :: 0 <= i < |s.tally[c].members| ==>
      s.tally[c].members[i].declaration < decl && s.tally[c].members[i].id < |s.info|
  {
    assert MembersAt(s.info, s.cols, s.tally[c], c);
  }

  lemma TalliesGrown(s: Sched, t: TaskInfo, tally: seq<Tally>)
    requires Tallies(s.tally, s.state, s.cols, -1, s.draining) && Members(s.info, s.cols, s.tally)
    requires |s.info| == |s.state| && 0 < t.decl < THROUGH_ALL && DeclaredThrough(s.info, s.cols, t.decl - 1)
    requires TalliesJoined(s.tally, tally, s.cols, t, Member(|s.state|, t.decl))
    ensures Tallies(tally, s.state + [Pending], s.cols, -1, s.draining)
  {
    hide TallyAt, Current, Members, DeclaredThrough;
    forall c | 0 <= c < |tally| ensures TallyAt(tally[c], |s.state| + 1, s.draining) && Current(tally[c], s.state + [Pending]) {
      EarlierMembers(s, c, t.decl);
      TallyGrown(s.tally[c], s.state, s.draining, t.decl, OnChain(s.cols, t.home, c), OnChain(s.cols, t.gateFor, c));
    }
  }

  lemma LocatedGrown(w: Lists, w': Lists, loc: seq<Loc>, phase: seq<Phase>)
    requires Located(w, loc, phase)
    requires w'.queue == w.queue && w'.woken == w.woken && w'.dependents == w.dependents + [[]] && |w'.tally| == |w.tally|
    requires forall c :: 0 <= c < |w.tally| ==> w'.tally[c].open == w.tally[c].open && w'.tally[c].parked == w.tally[c].parked
    ensures Located(w', loc + [Off], phase + [PhaseDeclared])
  {
    Grow(w, w', loc, phase);
  }

  lemma EdgesGrown(v: View, v': View, loc: seq<Loc>, edge: seq<Pred>)
    requires Edges(v, loc, edge, -1)
    requires v'.state == v.state + [Pending] && v'.phase == v.phase + [PhaseDeclared] && v'.draining == v.draining
    requires |v'.tally| >= |v.tally|
    requires forall c :: 0 <= c < |v.tally| ==>
      && v'.tally[c].parked == v.tally[c].parked && v'.tally[c].sealed == v.tally[c].sealed
      && v'.tally[c].sealedThrough == v.tally[c].sealedThrough && v'.tally[c].holds >= v.tally[c].holds
    ensures Edges(v', loc + [Off], edge + [Missing], -1)
  {
    var loc', edge' := loc + [Off], edge + [Missing];
    forall y | 0 <= y < |loc'| ensures EdgeAt(v', y, loc'[y], edge'[y], -1) {
      if y < |loc| {
        assert EdgeAt(v, y, loc[y], edge[y], -1);
      }
    }
  }

  lemma LedGrown(entry: seq<seq<Pred>>, preds: seq<seq<Pred>>, loc: seq<Loc>, edge: seq<Pred>, ps: seq<Pred>)
    requires Led(entry, preds, loc, edge)
    ensures Led(entry, preds + [ps], loc + [Off], edge + [Missing])
  {
    var preds', loc', edge' := preds + [ps], loc + [Off], edge + [Missing];
    forall y | 0 <= y < |loc'| && Waits(loc'[y]) ensures exists p :: p in preds'[y] && Leads(entry, p, edge'[y]) {
      assert Waits(loc[y]);
      assert preds'[y] == preds[y] && edge'[y] == edge[y];
    }
  }

  lemma QueueGrown(info: seq<TaskInfo>, queue: seq<TaskId>, t: TaskInfo)
    requires QueueOk(info, queue)
    ensures QueueOk(info + [t], queue)
  {
    forall i | 0 <= i < |queue| ensures ByDecl(info + [t])(queue[i]) == ByDecl(info)(queue[i]) {
    }
  }

  lemma CountsGrown(phase: seq<Phase>, parked: int, wg: int, executing: int, inflight: int, claimed: set<TaskId>)
    requires Counts(phase, parked, wg, executing, inflight, claimed)
    ensures Counts(phase + [PhaseDeclared], parked, wg, executing, inflight, claimed)
  {
    CountPhaseAppend(phase, PhaseDeclared, PhaseParked);
    CountPhaseAppend(phase, PhaseDeclared, PhaseQueued);
  }

  lemma {:induction false} GatesGrown(info: seq<TaskInfo>, cols: seq<ColInfo>, state: seq<EntityState>, c: int,
      n: nat, t: TaskInfo)
    requires n <= |info| == |state|
    ensures PendingGates(info + [t], cols, state + [Pending], c, n) == PendingGates(info, cols, state, c, n)
  {
    if n > 0 {
      GatesGrown(info, cols, state, c, n - 1, t);
    }
  }

  lemma HoldsGrown(s: Sched, t: TaskInfo, tally: seq<Tally>, m: Member)
    requires Holds(s.info, s.cols, s.state, s.tally, -1) && TalliesJoined(s.tally, tally, s.cols, t, m)
    requires t.gateFor >= 0 ==> t.home == -1
    ensures Holds(s.info + [t], s.cols, s.state + [Pending], tally, -1)
  {
    var n := |s.info|;
    forall c | 0 <= c < |s.cols|
      ensures tally[c].holds == PendingGates(s.info + [t], s.cols, s.state + [Pending], c, n + 1)
    {
      GatesGrown(s.info, s.cols, s.state, c, n, t);
      assert PendingGates(s.info + [t], s.cols, s.state + [Pending], c, n + 1)
          == PendingGates(s.info, s.cols, s.state, c, n) + (if OnChain(s.cols, t.gateFor, c) then 1 else 0);
    }
  }

  lemma SecuredGrown(p: Pred, at: nat, s: Sched, t: TaskInfo, tally: seq<Tally>, m: Member)
    requires Secured(p, at, s.state, s.tally) && TalliesJoined(s.tally, tally, s.cols, t, m)
    requires at < m.declaration && (p.OnCol? ==> p.through < m.declaration)
    ensures Secured(p, at, s.state + [Pending], tally)
  {
    if p.OnCol? {
      var a, b := s.tally[p.c], tally[p.c];
      forall i | 0 <= i < |b.members| && b.members[i].declaration <= HeldThrough(b, p.through, at)
        ensures SucceededIn(b.members[i], s.state + [Pending])
      {
        assert i < |a.members| && b.members[i] == a.members[i];
      }
    }
  }

  lemma StartedGrown(s: Sched, t: TaskInfo, ps: seq<Pred>, tally: seq<Tally>)
    requires Started(s.named, s.phase, s.startedAt, s.state, s.tally) && Fresh(s) && t.decl == s.declSeq
    requires TalliesJoined(s.tally, tally, s.cols, t, Member(|s.state|, t.decl))
    ensures Started(s.named + [ps], s.phase + [PhaseDeclared], s.startedAt + [0], s.state + [Pending], tally)
  {
    var named', phase', at' := s.named + [ps], s.phase + [PhaseDeclared], s.startedAt + [0];
    forall y, p: Pred | 0 <= y < |phase'| && phase'[y] == PhaseRunning && p in named'[y] ensures Secured(p, at'[y], s.state + [Pending], tally) {
      assert y < |s.phase| && named'[y] == s.named[y] && p in s.named[y];
      SecuredGrown(p, s.startedAt[y], s, t, tally, Member(|s.state|, t.decl));
    }
  }

  lemma MemoryGrown(named: seq<seq<Pred>>, preds: seq<seq<Pred>>, state: seq<EntityState>, ps: seq<Pred>)
    requires Memory(named, preds, state)
    ensures Memory(named + [ps], preds + [ps], state + [Pending])
  {
    var named', preds', state' := named + [ps], preds + [ps], state + [Pending];
    ForgetsNothing(ps, state');
    forall y | 0 <= y < |named'| ensures Forgets(named'[y], preds'[y], state') {
      if y < |named| {
        ForgetsLater(named[y], preds[y], state, state');
      }
    }
  }

  lemma NamedGrown(s: Sched, ps: seq<Pred>)
    requires NamedOk(s.named, |s.cols|, s.declSeq) && |s.named| == |s.state| && PredsOk(ps, |s.state|, |s.cols|)
    requires forall p :: p in ps && p.OnCol? ==> p.through <= s.declSeq
    ensures NamedOk(s.named + [ps], |s.cols|, s.declSeq)
  {
    var named' := s.named + [ps];
    forall y | 0 <= y < |named'| ensures PredsOk(named'[y], |named'|, |s.cols|) {
      if y < |s.named| {
        assert PredsOk(s.named[y], |s.named|, |s.cols|);
      }
    }
    forall y, p: Pred | 0 <= y < |named'| && p in named'[y] && p.OnCol? ensures p.through <= s.declSeq {
      if y < |s.named| {
        assert p in s.named[y];
      }
    }
  }

  lemma NoGateGrown(info: seq<TaskInfo>, pss: seq<seq<Pred>>, pss': seq<seq<Pred>>, t: TaskInfo)
    requires NoGate(info, pss)
    requires forall y, p {:trigger p in pss'[y]} :: 0 <= y < |pss'| && p in pss'[y] && p.OnTask? ==>
      || (y < |pss| && p in pss[y])
      || (p.t < |info| && info[p.t].gateFor < 0)
      || (p.t == |info| && t.gateFor < 0)
    ensures NoGate(info + [t], pss')
  {
    forall y, p: Pred | 0 <= y < |pss'| && p in pss'[y] && p.OnTask? ensures p.t < |info + [t]| && (info + [t])[p.t].gateFor < 0 {
      if y < |pss| && p in pss[y] {
        assert p.t < |info| && info[p.t].gateFor < 0;
      }
    }
  }

  lemma GatesAloneGrown(info: seq<TaskInfo>, dependents: seq<seq<TaskId>>, t: TaskInfo)
    requires GatesAlone(info, dependents)
    ensures GatesAlone(info + [t], dependents + [[]])
  {
    var d' := dependents + [[]];
    forall g | 0 <= g < |d'| && (info + [t])[g].gateFor >= 0 ensures d'[g] == [] {
      if g < |info| {
        assert dependents[g] == [];
      }
    }
  }

  lemma StartsPastGrown(s: Sched, t: TaskInfo, tally: seq<Tally>, m: Member)
    requires StartsPast(s.startedAt, s.tally, s.declSeq) && TalliesJoined(s.tally, tally, s.cols, t, m)
    ensures StartsPast(s.startedAt + [0], tally, s.declSeq)
  {
  }

  lemma LifeGrown(state: seq<EntityState>, phase: seq<Phase>)
    requires Life(state, phase)
    ensures Life(state + [Pending], phase + [PhaseDeclared])
  {
  }

  lemma WaitersJoined(a: seq<Tally>, b: seq<Tally>, cols: seq<ColInfo>, t: TaskInfo, m: Member)
    requires TalliesJoined(a, b, cols, t, m)
    ensures |b| == |a|
    ensures forall c :: 0 <= c < |a| ==>
      && b[c].open == a[c].open && b[c].parked == a[c].parked && b[c].sealed == a[c].sealed
      && b[c].sealedThrough == a[c].sealedThrough && b[c].holds >= a[c].holds && a[c].members <= b[c].members
  {
  }

  lemma NamesNoGate(s: Sched, t: TaskInfo, ps: seq<Pred>, lastStep: seq<seq<Pred>>)
    requires NoGate(s.info, s.named) && NoGate(s.info, s.entry) && NoGate(s.info, s.lastStep)
    requires forall p :: p in ps && p.OnTask? ==> p.t < |s.info| && s.info[p.t].gateFor < 0
    requires Stepped(s.lastStep, lastStep, OnTask(|s.info|)) && (t.gateFor >= 0 ==> lastStep == s.lastStep)
    ensures NoGate(s.info + [t], s.named + [ps]) && NoGate(s.info + [t], s.entry) && NoGate(s.info + [t], lastStep)
  {
    NoGateGrown(s.info, s.named, s.named + [ps], t);
    NoGateGrown(s.info, s.entry, s.entry, t);
    NoGateGrown(s.info, s.lastStep, lastStep, t);
  }

  /** The new Task is counted wherever it sits, and changes nothing for anybody
      already waiting or started. */
  lemma GrownOk(s: Sched, t: TaskInfo, ps: seq<Pred>, tally: seq<Tally>, colTasks: seq<seq<TaskId>>,
      lastStep: seq<seq<Pred>>)
    requires Whole(s) && Fresh(s) && GrowsBy(s, t, ps, tally, colTasks, lastStep)
    ensures Whole(Grown(s, t, ps, tally, colTasks, lastStep))
  {
    hide Static, Tree, Members, Life, NamedOk, Memory, Tallies, Located, Edges, Led, QueueOk, Counts, Holds,
        Started, StartsPast, NoGate, GatesAlone, TalliesJoined, PredsOk, Stepped, Appended;
    var m := Member(|s.state|, t.decl);
    DeclaredBounds(s);
    StaticGrown(s, t, lastStep);
    TreeGrown(s.info, s.cols, s.colTasks, s.colChildren, t, colTasks);
    MembersGrown(s.info, s.cols, s.tally, t, tally);
    TalliesGrown(s, t, tally);
    WaitersJoined(s.tally, tally, s.cols, t, m);
    var r := Grown(s, t, ps, tally, colTasks, lastStep);
    LocatedGrown(ListsOf(s), ListsOf(r), s.loc, s.phase);
    EdgesGrown(V(s), V(r), s.loc, s.edge);
    LedGrown(s.entry, s.preds, s.loc, s.edge, ps);
    QueueGrown(s.info, s.queue, t);
    CountsGrown(s.phase, s.parked, s.wg, s.executing, s.inflight, s.claimed);
    HoldsGrown(s, t, tally, m);
    StartedGrown(s, t, ps, tally);
    MemoryGrown(s.named, s.preds, s.state, ps);
    NamedGrown(s, ps);
    NamesNoGate(s, t, ps, lastStep);
    GatesAloneGrown(s.info, s.dependents, t);
    StartsPastGrown(s, t, tally, m);
    LifeGrown(s.state, s.phase);
    SteppedLen(s, t, colTasks, lastStep);
  }

  lemma DeclaredBounds(s: Sched)
    requires Whole(s) && Fresh(s)
    ensures 0 < s.declSeq < THROUGH_ALL && DeclaredThrough(s.info, s.cols, s.declSeq - 1)
  {
    hide Tree, Members, Life, NamedOk, Memory, Tallies, Located, Edges, Led, QueueOk, Counts, Holds, Started,
        StartsPast, NoGate, GatesAlone;
  }

  lemma SteppedLen(s: Sched, t: TaskInfo, colTasks: seq<seq<TaskId>>, lastStep: seq<seq<Pred>>)
    requires Appended(s.colTasks, colTasks, t.home, |s.state|) && Stepped(s.lastStep, lastStep, OnTask(|s.state|))
    ensures |colTasks| == |s.colTasks| && |lastStep| == |s.lastStep|
  {
  }

  // ---- the stops and a new Task -------------------------------------------

  /** Every stopped Sequence has halted what follows its stop, Task x apart. */
  ghost predicate StopsBar(s: Sched, x: nat) {
    && (forall a: nat, y: nat :: a < |s.stoppedAfter| && y != x && s.stoppedAfter[a] != 0 && AfterStep(s, y, a, s.stoppedAfter[a]) ==>
      HaltedTask(s, y))
    && (forall c: nat, a: nat :: AboveStopped(s, c, a))
  }

  /** Some Sequence above x stopped before the step x is in. */
  ghost predicate FollowsAStop(s: Sched, x: nat) {
    exists a: nat :: a < |s.stoppedAfter| && s.stoppedAfter[a] != 0 && AfterStep(s, x, a, s.stoppedAfter[a])
  }

  lemma StopsGrown(s: Sched, r: Sched, t: TaskInfo)
    requires Stops(s) && r.info == s.info + [t] && r.cols == s.cols && r.stoppedAfter == s.stoppedAfter
    requires s.state <= r.state && s.phase <= r.phase && |s.info| == |s.state| == |s.phase|
    ensures StopsBar(r, |s.info|)
  {
    forall a: nat, y: nat | a < |r.stoppedAfter| && y != |s.info| && r.stoppedAfter[a] != 0 && AfterStep(r, y, a, r.stoppedAfter[a])
      ensures HaltedTask(r, y)
    {
      assert AfterStep(s, y, a, s.stoppedAfter[a]);
      assert StoppedAt(s, a);
      assert HaltedTask(s, y);
    }
    forall c: nat, a: nat ensures AboveStopped(r, c, a) {
      assert AboveStopped(s, c, a);
    }
  }

  lemma StopsWithout(s: Sched, x: nat)
    requires StopsBar(s, x) && !FollowsAStop(s, x)
    ensures Stops(s)
  {
    forall a: nat ensures StoppedAt(s, a) {
      forall y: nat | a < |s.stoppedAfter| && s.stoppedAfter[a] != 0 && AfterStep(s, y, a, s.stoppedAfter[a]) ensures HaltedTask(s, y) {
      }
    }
  }

  lemma StopsHalted(s: Sched, t: Sched, x: nat)
    requires StopsBar(s, x) && HaltsKept(s, t) && HaltedTask(t, x)
    ensures Stops(t)
  {
    forall a: nat ensures StoppedAt(t, a) {
      forall y: nat | a < |t.stoppedAfter| && t.stoppedAfter[a] != 0 && AfterStep(t, y, a, t.stoppedAfter[a]) ensures HaltedTask(t, y) {
        assert AfterStep(s, y, a, s.stoppedAfter[a]);
      }
    }
    forall c: nat, a: nat ensures AboveStopped(t, c, a) {
      assert AboveStopped(s, c, a);
    }
  }

  /** The walk up from x has met no stop before its step. */
  ghost predicate Unstopped(s: Sched, x: nat, c: int) {
    && x < |s.info| && |s.stoppedAfter| == |s.cols| && -1 <= c < |s.cols|
    && (c >= 0 ==> OnChain(s.cols, s.info[x].home, c))
    && forall a: nat :: Passed(s, x, c, a) && s.stoppedAfter[a] != 0 ==> !AfterStep(s, x, a, s.stoppedAfter[a])
  }

  lemma UnstoppedStarts(s: Sched, x: nat)
    requires x < |s.info| && |s.stoppedAfter| == |s.cols| && -1 <= s.info[x].home < |s.cols|
    ensures Unstopped(s, x, s.info[x].home)
    ensures s.info[x].home >= 0 ==> StepOf(s, x, s.info[x].home) == s.info[x].decl
  {
    forall a: nat | Passed(s, x, s.info[x].home, a) ensures false {
      ChainBounds(s.cols, s.info[x].home, a);
    }
  }

  lemma UnstoppedNext(s: Sched, x: nat, c: nat)
    requires ColsOk(s.cols) && Unstopped(s, x, c)
    requires !(s.cols[c].sequential && s.stoppedAfter[c] != 0 && StepOf(s, x, c) > s.stoppedAfter[c])
    ensures Unstopped(s, x, s.cols[c].parent)
    ensures s.cols[c].parent >= 0 ==> StepOf(s, x, s.cols[c].parent) == s.cols[c].decl
  {
    var p := s.cols[c].parent;
    if p >= 0 {
      NextStep(s, x, c);
    }
    forall a: nat | Passed(s, x, p, a) && s.stoppedAfter[a] != 0 ensures !AfterStep(s, x, a, s.stoppedAfter[a]) {
      PassedNext(s, x, c, a);
    }
  }

  lemma UnstoppedEnds(s: Sched, x: nat)
    requires Unstopped(s, x, -1)
    ensures !FollowsAStop(s, x)
  {
    forall a: nat | a < |s.stoppedAfter| && s.stoppedAfter[a] != 0 ensures !AfterStep(s, x, a, s.stoppedAfter[a]) {
      if Below(s.info, s.cols, x, a) {
        assert Passed(s, x, -1, a);
      }
    }
  }

  lemma StopFound(s: Sched, x: nat, c: nat)
    requires Unstopped(s, x, c) && s.cols[c].sequential && s.stoppedAfter[c] != 0 && StepOf(s, x, c) > s.stoppedAfter[c]
    ensures FollowsAStop(s, x)
  {
    assert AfterStep(s, x, c, s.stoppedAfter[c]);
  }

  // ---- one more container -------------------------------------------------

  function GrownCol(s: Sched, ci: ColInfo, es: seq<Pred>, lastStep: seq<seq<Pred>>, colChildren: seq<seq<nat>>): Sched {
    s.(cols := s.cols + [ci], tally := s.tally + [EMPTY_TALLY], entry := s.entry + [es],
       lastStep := lastStep + [[]], colTasks := s.colTasks + [[]], colChildren := colChildren + [[]],
       stoppedAfter := s.stoppedAfter + [0], builder := s.builder + [NoBuilder])
  }

  ghost predicate GrowsByCol(s: Sched, ci: ColInfo, es: seq<Pred>, lastStep: seq<seq<Pred>>,
      colChildren: seq<seq<nat>>) {
    && -1 <= ci.parent < |s.cols| && ci.decl == s.declSeq
    && PredsOk(es, |s.state|, |s.cols|)
    && (forall p :: p in es && p.OnCol? ==> p.through <= s.declSeq)
    && (forall p :: p in es && p.OnTask? ==> p.t < |s.info| && s.info[p.t].gateFor < 0)
    && Appended(s.colChildren, colChildren, ci.parent, |s.cols|)
    && Stepped(s.lastStep, lastStep, OnCol(|s.cols|, 0))
  }

  lemma ColsGrown(s: Sched, ci: ColInfo)
    requires ColsOk(s.cols) && ci.decl > 0 && DeclaredThrough(s.info, s.cols, ci.decl - 1) && -1 <= ci.parent < |s.cols|
    ensures ColsOk(s.cols + [ci])
  {
  }

  lemma StaticGrownCol(s: Sched, ci: ColInfo, es: seq<Pred>, lastStep: seq<seq<Pred>>)
    requires Static(s.info, s.cols, s.declSeq, s.entry, s.lastStep) && Fresh(s) && |s.entry| == |s.cols|
    requires -1 <= ci.parent < |s.cols| && ci.decl == s.declSeq && PredsOk(es, |s.info|, |s.cols|)
    requires forall p :: p in es && p.OnCol? ==> p.through <= s.declSeq
    requires Stepped(s.lastStep, lastStep, OnCol(|s.cols|, 0))
    ensures Static(s.info, s.cols + [ci], s.declSeq, s.entry + [es], lastStep + [[]])
  {
    ColsGrown(s, ci);
    var entry', last' := s.entry + [es], lastStep + [[]];
    forall c | 0 <= c < |entry'| ensures PredsOk(entry'[c], |s.info|, c) {
      if c < |s.entry| {
        assert entry'[c] == s.entry[c];
      }
    }
    forall c | 0 <= c < |last'| ensures PredsOk(last'[c], |s.info|, |s.cols| + 1) {
      if c < |lastStep| && lastStep[c] == s.lastStep[c] {
        assert PredsOk(s.lastStep[c], |s.info|, |s.cols|);
      }
    }
    EntryCursors(s.entry, es, s.declSeq);
    StepCursors(s.lastStep, lastStep, |s.cols|, s.declSeq);
  }

  lemma EntryCursors(entry: seq<seq<Pred>>, es: seq<Pred>, declSeq: nat)
    requires CursorsPast(entry, declSeq) && forall p :: p in es && p.OnCol? ==> p.through <= declSeq
    ensures CursorsPast(entry + [es], declSeq)
  {
    var entry' := entry + [es];
    forall c, p: Pred | 0 <= c < |entry'| && p in entry'[c] && p.OnCol? ensures p.through <= declSeq {
      assert c < |entry| ==> p in entry[c];
    }
  }

  lemma StepCursors(lastStep: seq<seq<Pred>>, lastStep': seq<seq<Pred>>, m: nat, declSeq: nat)
    requires CursorsPast(lastStep, declSeq) && Stepped(lastStep, lastStep', OnCol(m, 0))
    ensures CursorsPast(lastStep' + [[]], declSeq)
  {
  }

  lemma TreeGrownCol(s: Sched, ci: ColInfo, colChildren: seq<seq<nat>>)
    requires Tree(s.info, s.cols, s.colTasks, s.colChildren) && Appended(s.colChildren, colChildren, ci.parent, |s.cols|)
    requires ColsOk(s.cols) && TasksOk(s.info, s.cols) && ci.parent < |s.cols|
    ensures Tree(s.info, s.cols + [ci], s.colTasks + [[]], colChildren + [[]])
  {
    var cols', own', kids' := s.cols + [ci], s.colTasks + [[]], colChildren + [[]];
    forall c | 0 <= c < |cols'| ensures TasksAt(s.info, own'[c], c) && ChildrenAt(cols', kids'[c], c) {
      if c < |s.cols| {
        assert TasksAt(s.info, s.colTasks[c], c) && ChildrenAt(s.cols, s.colChildren[c], c);
      }
    }
  }

  /** Nothing sits in the new container yet, and all else sits where it did. */
  lemma ChainGrown(cols: seq<ColInfo>, ci: ColInfo, c: int, d: int)
    requires ColsOk(cols) && c < |cols|
    ensures OnChain(cols + [ci], c, d) == OnChain(cols, c, d)
    ensures d >= |cols| ==> !OnChain(cols + [ci], c, d)
  {
    ChainStable(cols, ci, c, d);
    if OnChain(cols + [ci], c, d) {
      ChainBounds(cols + [ci], c, d);
    }
  }

  lemma BelowGrownCol(info: seq<TaskInfo>, cols: seq<ColInfo>, ci: ColInfo, x: nat, d: int)
    requires ColsOk(cols) && TasksOk(info, cols)
    ensures Below(info, cols + [ci], x, d) == Below(info, cols, x, d)
    ensures d >= |cols| ==> !Below(info, cols + [ci], x, d)
  {
    if x < |info| {
      ChainGrown(cols, ci, info[x].home, d);
    }
  }

  lemma MembersGrownCol(info: seq<TaskInfo>, cols: seq<ColInfo>, tally: seq<Tally>, ci: ColInfo)
    requires Members(info, cols, tally) && ColsOk(cols) && TasksOk(info, cols)
    ensures Members(info, cols + [ci], tally + [EMPTY_TALLY])
  {
    var cols', tally' := cols + [ci], tally + [EMPTY_TALLY];
    forall c | 0 <= c < |cols'| ensures MembersAt(info, cols', tally'[c], c) {
      forall x: nat ensures Below(info, cols', x, c) == Below(info, cols, x, c) && (c == |cols| ==> !Below(info, cols', x, c)) {
        BelowGrownCol(info, cols, ci, x, c);
      }
      if c < |cols| {
        assert MembersAt(info, cols, tally[c], c);
      }
    }
  }

  lemma TalliesGrownCol(tally: seq<Tally>, state: seq<EntityState>, cols: seq<ColInfo>, draining: bool, ci: ColInfo)
    requires Tallies(tally, state, cols, -1, draining)
    ensures Tallies(tally + [EMPTY_TALLY], state, cols + [ci], -1, draining)
  {
    assert TallyAt(EMPTY_TALLY, |state|, draining) && Current(EMPTY_TALLY, state);
  }

  lemma LocatedGrownCol(w: Lists, loc: seq<Loc>, phase: seq<Phase>)
    requires Located(w, loc, phase)
    ensures Located(w.(tally := w.tally + [EMPTY_TALLY]), loc, phase)
  {
    var w' := w.(tally := w.tally + [EMPTY_TALLY]);
    forall g: Loc | g != Off ensures ListOk(ListAt(w', g), g, loc, phase) {
      assert Sts(EMPTY_TALLY.parked) == [];
      assert ListAt(w', g) == ListAt(w, g);
      assert ListOk(ListAt(w, g), g, loc, phase);
    }
  }

  lemma EdgesGrownCol(v: View, loc: seq<Loc>, edge: seq<Pred>, entry: seq<seq<Pred>>)
    requires Edges(v, loc, edge, -1)
    ensures Edges(v.(tally := v.tally + [EMPTY_TALLY], entry := entry), loc, edge, -1)
  {
    var v' := v.(tally := v.tally + [EMPTY_TALLY], entry := entry);
    forall y | 0 <= y < |loc| ensures EdgeAt(v', y, loc[y], edge[y], -1) {
      assert EdgeAt(v, y, loc[y], edge[y], -1);
    }
  }

  /** Containers only gain what they start after. */
  ghost predicate EntriesGrow(a: seq<seq<Pred>>, b: seq<seq<Pred>>) {
    |a| <= |b| && forall c, e {:trigger e in a[c]} :: 0 <= c < |a| && e in a[c] ==> e in b[c]
  }

  lemma {:induction false} LeadsGrows(a: seq<seq<Pred>>, b: seq<seq<Pred>>, p: Pred, q: Pred)
    requires EntriesGrow(a, b) && Leads(a, p, q)
    ensures Leads(b, p, q)
    decreases Rank(p)
  {
    if p != q {
      var e :| e in a[p.c] && Rank(e) < Rank(p) && Leads(a, e, q);
      LeadsGrows(a, b, e, q);
      assert e in b[p.c];
    }
  }

  lemma LedGrows(a: seq<seq<Pred>>, b: seq<seq<Pred>>, preds: seq<seq<Pred>>, loc: seq<Loc>, edge: seq<Pred>)
    requires Led(a, preds, loc, edge) && EntriesGrow(a, b)
    ensures Led(b, preds, loc, edge)
  {
    forall y | 0 <= y < |loc| && Waits(loc[y]) ensures exists p :: p in preds[y] && Leads(b, p, edge[y]) {
      var p :| p in preds[y] && Leads(a, p, edge[y]);
      LeadsGrows(a, b, p, edge[y]);
    }
  }

  lemma {:induction false} GatesGrownCol(info: seq<TaskInfo>, cols: seq<ColInfo>, state: seq<EntityState>, c: int,
      n: nat, ci: ColInfo)
    requires n <= |info| == |state| && ColsOk(cols) && TasksOk(info, cols)
    ensures PendingGates(info, cols + [ci], state, c, n) == PendingGates(info, cols, state, c, n)
    ensures c >= |cols| ==> PendingGates(info, cols + [ci], state, c, n) == 0
  {
    if n > 0 {
      GatesGrownCol(info, cols, state, c, n - 1, ci);
      ChainGrown(cols, ci, info[n - 1].gateFor, c);
    }
  }

  lemma HoldsGrownCol(info: seq<TaskInfo>, cols: seq<ColInfo>, state: seq<EntityState>, tally: seq<Tally>, ci: ColInfo)
    requires Holds(info, cols, state, tally, -1) && ColsOk(cols) && TasksOk(info, cols)
    ensures Holds(info, cols + [ci], state, tally + [EMPTY_TALLY], -1)
  {
    var tally' := tally + [EMPTY_TALLY];
    forall c | 0 <= c <= |cols|
      ensures tally'[c].holds == PendingGates(info, cols + [ci], state, c, |info|) + (if OnChain(cols + [ci], -1, c) then 1 else 0)
    {
      GatesGrownCol(info, cols, state, c, |info|, ci);
    }
  }

  lemma StartedGrownCol(s: Sched)
    requires Started(s.named, s.phase, s.startedAt, s.state, s.tally)
    ensures Started(s.named, s.phase, s.startedAt, s.state, s.tally + [EMPTY_TALLY])
  {
    forall y, p: Pred | 0 <= y < |s.phase| && s.phase[y] == PhaseRunning && p in s.named[y]
      ensures Secured(p, s.startedAt[y], s.state, s.tally + [EMPTY_TALLY])
    {
      assert Secured(p, s.startedAt[y], s.state, s.tally);
    }
  }

  lemma NamedGrownCol(named: seq<seq<Pred>>, cols: nat, declSeq: nat)
    requires NamedOk(named, cols, declSeq)
    ensures NamedOk(named, cols + 1, declSeq)
  {
    forall y | 0 <= y < |named| ensures PredsOk(named[y], |named|, cols + 1) {
      assert PredsOk(named[y], |named|, cols);
    }
  }

  lemma EntriesNoGate(info: seq<TaskInfo>, entry: seq<seq<Pred>>, es: seq<Pred>)
    requires NoGate(info, entry) && forall p :: p in es && p.OnTask? ==> p.t < |info| && info[p.t].gateFor < 0
    ensures NoGate(info, entry + [es])
  {
    var entry' := entry + [es];
    forall c, p: Pred | 0 <= c < |entry'| && p in entry'[c] && p.OnTask? ensures p.t < |info| && info[p.t].gateFor < 0 {
      assert c < |entry| ==> p in entry[c];
    }
  }

  lemma StepsNoGate(info: seq<TaskInfo>, lastStep: seq<seq<Pred>>, lastStep': seq<seq<Pred>>, m: nat)
    requires NoGate(info, lastStep) && Stepped(lastStep, lastStep', OnCol(m, 0))
    ensures NoGate(info, lastStep' + [[]])
  {
  }

  lemma StartsPastGrownCol(startedAt: seq<nat>, tally: seq<Tally>, declSeq: nat)
    requires StartsPast(startedAt, tally, declSeq)
    ensures StartsPast(startedAt, tally + [EMPTY_TALLY], declSeq)
  {
  }

  lemma StaticParts(s: Sched)
    requires Whole(s)
    ensures ColsOk(s.cols) && TasksOk(s.info, s.cols)
  {
  }

  lemma GrownColOk(s: Sched, ci: ColInfo, es: seq<Pred>, lastStep: seq<seq<Pred>>, colChildren: seq<seq<nat>>)
    requires Whole(s) && Fresh(s) && GrowsByCol(s, ci, es, lastStep, colChildren)
    ensures Whole(GrownCol(s, ci, es, lastStep, colChildren))
  {
    hide Static, Tree, Members, Life, NamedOk, Memory, Tallies, Located, Edges, Led, QueueOk, Counts, Holds,
        Started, StartsPast, NoGate, GatesAlone, PredsOk, Stepped, Appended, ColsOk, TasksOk,
        EntriesGrow;
    StaticParts(s);
    DeclaredBounds(s);
    StaticGrownCol(s, ci, es, lastStep);
    TreeGrownCol(s, ci, colChildren);
    MembersGrownCol(s.info, s.cols, s.tally, ci);
    TalliesGrownCol(s.tally, s.state, s.cols, s.draining, ci);
    LocatedGrownCol(ListsOf(s), s.loc, s.phase);
    EdgesGrownCol(V(s), s.loc, s.edge, s.entry + [es]);
    EntryAppended(s.entry, es);
    LedGrows(s.entry, s.entry + [es], s.preds, s.loc, s.edge);
    HoldsGrownCol(s.info, s.cols, s.state, s.tally, ci);
    StartedGrownCol(s);
    StartsPastGrownCol(s.startedAt, s.tally, s.declSeq);
    NamedGrownCol(s.named, |s.cols|, s.declSeq);
    EntriesNoGate(s.info, s.entry, es);
    StepsNoGate(s.info, s.lastStep, lastStep, |s.cols|);
    SteppedColLen(s, ci, lastStep, colChildren);
  }

  lemma EntryAppended(entry: seq<seq<Pred>>, es: seq<Pred>)
    ensures EntriesGrow(entry, entry + [es])
  {
  }

  lemma SteppedColLen(s: Sched, ci: ColInfo, lastStep: seq<seq<Pred>>, colChildren: seq<seq<nat>>)
    requires Appended(s.colChildren, colChildren, ci.parent, |s.cols|) && Stepped(s.lastStep, lastStep, OnCol(|s.cols|, 0))
    ensures |colChildren| == |s.colChildren| && |lastStep| == |s.lastStep|
  {
  }

  lemma {:induction false} StepGrownCol(cols: seq<ColInfo>, ci: ColInfo, c: int, branch: nat, a: int)
    requires ColsOk(cols) && c < |cols|
    ensures StepDecl(cols + [ci], c, branch, a) == StepDecl(cols, c, branch, a)
    decreases c
  {
    if 0 <= c && c != a {
      StepGrownCol(cols, ci, cols[c].parent, cols[c].decl, a);
    }
  }

  /** A new container stops nobody and is stopped by nobody. */
  lemma StopsGrownCol(s: Sched, ci: ColInfo, r: Sched)
    requires Stops(s) && ColsOk(s.cols) && TasksOk(s.info, s.cols) && |s.stoppedAfter| == |s.cols|
    requires r.cols == s.cols + [ci] && r.stoppedAfter == s.stoppedAfter + [0]
    requires r.info == s.info && r.state == s.state && r.phase == s.phase
    ensures Stops(r)
  {
    forall a: nat ensures StoppedAt(r, a) {
      assert StoppedAt(s, a);
      forall y: nat | a < |r.stoppedAfter| && AfterStep(r, y, a, r.stoppedAfter[a]) && r.stoppedAfter[a] != 0 ensures HaltedTask(r, y) {
        BelowGrownCol(s.info, s.cols, ci, y, a);
        StepGrownCol(s.cols, ci, s.info[y].home, s.info[y].decl, a);
        assert AfterStep(s, y, a, s.stoppedAfter[a]);
        assert HaltedTask(s, y);
      }
    }
    forall c: nat, a: nat ensures AboveStopped(r, c, a) {
      assert AboveStopped(s, c, a);
      if c < |s.cols| {
        ChainGrown(s.cols, ci, c, a);
        StepGrownCol(s.cols, ci, s.cols[c].parent, s.cols[c].decl, a);
      }
    }
  }
}
