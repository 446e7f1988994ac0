/** Declaration (declare.go, sequence.go, builder.go): a new Task, container or
    builder's gate joins the run, counted in every container above it. */
module Declaring {
  import opened Outcomes
  import opened CollectionTally
  import opened Topology
  import opened Eligibility
  import opened WaitLists
  import opened RunState
  import opened Placing
  import opened Settling
  import opened Failures
  import opened Cascades
  import opened Followers
  import opened Rest
  import opened Growing
  import Order = LedgerOrder

  // ---- a declaration as one step ------------------------------------------

  lemma GrownGood(s: Sched, t: TaskInfo, ps: seq<Pred>, tally: seq<Tally>, colTasks: seq<seq<TaskId>>,
      lastStep: seq<seq<Pred>>)
    requires Good(s) && Fresh(s) && GrowsBy(s, t, ps, tally, colTasks, lastStep)
    ensures var r := Grown(s, t, ps, tally, colTasks, lastStep);
      && Quiet(r) && StopsBar(r, |s.state|) && Advances(s, r) && r.inflight == s.inflight
      && (t.home < 0 ==> Good(r))
  {
    hide Static, Tree, Members, Life, NamedOk, Memory, Tallies, Located, Edges, Led, QueueOk, Counts, Holds,
        Started, StartsPast, NoGate, GatesAlone, Stops, StopsBar, Fresh;
    GrownOk(s, t, ps, tally, colTasks, lastStep);
    var r := Grown(s, t, ps, tally, colTasks, lastStep);
    StopsGrown(s, r, t);
    WaitersJoined(s.tally, tally, s.cols, t, Member(|s.state|, t.decl));
    forall y ensures y !in InHands(r) {
      assert y !in InHands(s);
    }
    if t.home < 0 {
      assert !FollowsAStop(r, |s.state|);
      StopsWithout(r, |s.state|);
    }
  }

  lemma GrownColGood(s: Sched, ci: ColInfo, es: seq<Pred>, lastStep: seq<seq<Pred>>, colChildren: seq<seq<nat>>)
    requires Good(s) && Fresh(s) && GrowsByCol(s, ci, es, lastStep, colChildren)
    ensures var r := GrownCol(s, ci, es, lastStep, colChildren);
      Good(r) && Advances(s, r) && r.inflight == s.inflight
  {
    hide Static, Tree, Members, Life, NamedOk, Memory, Tallies, Located, Edges, Led, QueueOk, Counts, Holds,
        Started, StartsPast, NoGate, GatesAlone, Stops, Fresh;
    GrownColOk(s, ci, es, lastStep, colChildren);
    StaticParts(s);
    StopsGrownCol(s, ci, GrownCol(s, ci, es, lastStep, colChildren));
  }

  lemma BuilderSet(s: Sched, builder: seq<BuilderPhase>)
    requires Good(s) && |builder| == |s.builder| && forall c :: 0 <= c < |builder| && builder[c] == NoBuilder ==> s.builder[c] == NoBuilder
    ensures Good(s.(builder := builder)) && Advances(s, s.(builder := builder))
    ensures Fresh(s) ==> Fresh(s.(builder := builder))
  {
    hide Static, Tree, Members, Life, NamedOk, Memory, Tallies, Located, Edges, Led, QueueOk, Counts, Holds,
        Started, StartsPast, NoGate, GatesAlone;
    StopsKept(s, s.(builder := builder));
  }

  // ---- predecessors -------------------------------------------------------

  /** Naming p now takes its membership as declared. */
  predicate Closing(s: Sched, p: Pred) {
    p.OnCol? && p.c < |s.tally| && p.through == 0 && |s.tally[p.c].members| != 0 && s.tally[p.c].holds <= 0
  }

  /** Some Task sits below c, at any depth. */
  ghost predicate Populated(s: Sched, c: nat) { exists x: nat :: Below(s.info, s.cols, x, c) }

  /** A builder at or below c has not settled. */
  ghost predicate GatePending(s: Sched, c: nat) { exists g: nat :: PendingGate(s, g, c) }

  ghost predicate PendingGate(s: Sched, g: nat, c: nat) {
    && g < |s.info| && g < |s.state| && s.state[g] in {Pending, Running, Empty, Incomplete}
    && OnChain(s.cols, s.info[g].gateFor, c)
  }

  lemma {:induction false} GatesCounted(info: seq<TaskInfo>, cols: seq<ColInfo>, state: seq<EntityState>, c: int,
      n: nat)
    requires n <= |info| == |state|
    ensures PendingGates(info, cols, state, c, n) == 0 <==>
      forall g: nat :: g < n ==> IsTerminal(state[g]) || !OnChain(cols, info[g].gateFor, c)
  {
    if n > 0 {
      GatesCounted(info, cols, state, c, n - 1);
    }
  }

  lemma HoldsMeans(s: Sched, c: nat)
    requires Whole(s) && c < |s.cols|
    ensures c < |s.tally| && (s.tally[c].holds > 0 <==> GatePending(s, c))
  {
    hide Static, Tree, Members, Life, NamedOk, Memory, Tallies, Located, Edges, Led, QueueOk, Counts, Started,
        StartsPast, NoGate, GatesAlone, OnChain;
    assert !OnChain(s.cols, -1, c) by { NotOnChain(s.cols, c); }
    GatesCounted(s.info, s.cols, s.state, c, |s.info|);
    if s.tally[c].holds > 0 {
      var g: nat :| g < |s.info| && !IsTerminal(s.state[g]) && OnChain(s.cols, s.info[g].gateFor, c);
      OpenStates(s.state[g]);
      assert PendingGate(s, g, c);
    }
    if GatePending(s, c) {
      var g: nat :| PendingGate(s, g, c);
      assert !IsTerminal(s.state[g]);
    }
  }

  lemma OpenStates(st: EntityState)
    ensures IsTerminal(st) <==> st !in {Pending, Running, Empty, Incomplete}
  {
  }

  lemma FailingStates(st: EntityState)
    ensures StateOutcome(st) == PredFailed <==> st in {Failed, Blocked, Cancelled, NotStarted}
    ensures IsTerminal(st) ==> StateOutcome(st) != PredPending
  {
  }

  lemma NotOnChain(cols: seq<ColInfo>, c: nat)
    ensures !OnChain(cols, -1, c)
  {
  }

  lemma MembersMean(s: Sched, c: nat)
    requires Whole(s) && c < |s.cols|
    ensures c < |s.tally| && (s.tally[c].members != [] <==> Populated(s, c))
  {
    hide Static, Tree, Life, NamedOk, Memory, Tallies, Located, Edges, Led, QueueOk, Counts, Holds, Started,
        StartsPast, NoGate, GatesAlone, Below;
    var t := s.tally[c];
    assert MembersAt(s.info, s.cols, t, c);
    if t.members != [] {
      assert t.members[0].id in Ids(t.members);
    }
    if Populated(s, c) {
      var x: nat :| Below(s.info, s.cols, x, c);
      assert x in Ids(t.members);
    }
  }

  /** A handle takes the membership as declared exactly when some Task sits below
      the collection it names and no builder there is still to run. */
  lemma ClosingMeans(s: Sched, p: Pred)
    requires Whole(s) && PredOk(p, |s.state|, |s.cols|)
    ensures Closing(s, p) <==> p.OnCol? && p.through == 0 && Populated(s, p.c) && !GatePending(s, p.c)
  {
    hide Inv, Populated, GatePending;
    if p.OnCol? {
      HoldsMeans(s, p.c);
      MembersMean(s, p.c);
    }
  }

  /** What naming h on the way from a to b made of it. A handle on a collection reads
      the members declared so far, and takes them as the membership, when there are
      some and no builder there is pending; otherwise the edge is the handle. */
  ghost predicate EdgeTaken(a: Sched, b: Sched, h: Pred, edge: Pred) {
    if h.OnCol? && h.through == 0 then
      && (Populated(a, h.c) && !GatePending(a, h.c) ==>
           edge == OnCol(h.c, a.declSeq) && h.c < |b.tally| && b.tally[h.c].sealed)
      && (!Populated(a, h.c) || GatePending(b, h.c) ==> edge == h)
      && (edge == h || edge == OnCol(h.c, a.declSeq))
    else edge == h
  }

  /** The edges from named in turn: the first is read before anything moved. */
  ghost predicate HandlesTaken(a: Sched, b: Sched, hs: seq<Pred>, edges: seq<Pred>) {
    && |edges| == |hs|
    && (forall i :: 0 <= i < |hs| ==> EdgeTaken(a, b, hs[i], edges[i]))
    && (hs != [] && hs[0].OnCol? && GatePending(a, hs[0].c) ==> edges[0] == hs[0])
  }

  /** p as an edge takes it. */
  function Closed(s: Sched, p: Pred): Pred {
    if Closing(s, p) then p.(through := s.declSeq) else p
  }

  /** What a child declared in c now starts after: in a Sequence the step before
      it, and otherwise what c itself starts after. */
  function NextStepPreds(s: Sched, c: nat): seq<Pred>
    requires c < |s.cols| && c < |s.lastStep| && c < |s.entry|
  {
    if s.cols[c].sequential && s.lastStep[c] != [] then s.lastStep[c] else s.entry[c]
  }

  /** Those of ps that named a populated membership have taken it as declared. */
  ghost predicate TakenAsDeclared(a: Sched, b: Sched, ps: seq<Pred>) {
    forall i :: 0 <= i < |ps| && Closing(a, ps[i]) ==> ps[i].c < |b.tally| && b.tally[ps[i].c].sealed
  }

  /** So has every one that names a collection with a Task below it and no builder
      still to run. */
  ghost predicate Sealing(a: Sched, b: Sched, ps: seq<Pred>) {
    forall c: nat :: OnCol(c, 0) in ps && Populated(a, c) && !GatePending(a, c) ==> c < |b.tally| && b.tally[c].sealed
  }

  lemma TakenMeans(a: Sched, b: Sched, ps: seq<Pred>)
    requires Whole(a) && PredsOk(ps, |a.state|, |a.cols|) && TakenAsDeclared(a, b, ps)
    ensures Sealing(a, b, ps)
  {
    hide Inv, Populated, GatePending, Closing;
    forall c: nat | OnCol(c, 0) in ps && Populated(a, c) && !GatePending(a, c) ensures c < |b.tally| && b.tally[c].sealed {
      var i :| 0 <= i < |ps| && ps[i] == OnCol(c, 0);
      ClosingMeans(a, ps[i]);
    }
  }

  lemma TakenNext(a: Sched, s: Sched, t: Sched, ps: seq<Pred>, i: nat)
    requires i < |ps| && Cascaded(a, s, -1) && Cascaded(s, t, -1) && TakenAsDeclared(a, s, ps[..i])
    requires Closing(s, ps[i]) ==> ps[i].c < |t.tally| && t.tally[ps[i].c].sealed
    ensures TakenAsDeclared(a, t, ps[..i + 1])
  {
    hide FailuresLast, CascadedTask;
    forall j | 0 <= j < i + 1 && Closing(a, ps[j]) ensures ps[j].c < |t.tally| && t.tally[ps[j].c].sealed {
      assert TallyGrows(a.tally[ps[j].c], s.tally[ps[j].c], a.declSeq) && TallyGrows(s.tally[ps[j].c], t.tally[ps[j].c], s.declSeq);
      if j < i {
        assert ps[..i][j] == ps[j];
      }
    }
  }

  predicate IsLastStep(last: seq<Pred>, step: nat) {
    |last| == 1 && last[0].OnCol? && last[0].c == step
  }

  /** ps may be named: declared things, closed no later than now, and no gates. */
  ghost predicate Nameable(s: Sched, ps: seq<Pred>) {
    && PredsOk(ps, |s.state|, |s.cols|)
    && (forall p :: p in ps && p.OnCol? ==> p.through <= s.declSeq)
    && (forall p :: p in ps && p.OnTask? ==> p.t < |s.info| && s.info[p.t].gateFor < 0)
  }

  /** Handles carry no cursor: an edge takes one when it is named. */
  ghost predicate Unclosed(ps: seq<Pred>) { forall p :: p in ps && p.OnCol? ==> p.through == 0 }

  lemma NameableKept(a: Sched, b: Sched, ps: seq<Pred>)
    requires Nameable(a, ps) && Cascaded(a, b, -1)
    ensures Nameable(b, ps)
  {
  }

  lemma NameableBoth(s: Sched, ps: seq<Pred>, qs: seq<Pred>)
    requires Nameable(s, ps) && Nameable(s, qs)
    ensures Nameable(s, ps + qs)
  {
    forall i | 0 <= i < |ps + qs| ensures PredOk((ps + qs)[i], |s.state|, |s.cols|) {
      if i >= |ps| {
        assert PredOk(qs[i - |ps|], |s.state|, |s.cols|);
      }
    }
  }

  lemma StepPredsNameable(s: Sched, c: nat)
    requires Whole(s) && c < |s.cols|
    ensures c < |s.lastStep| && c < |s.entry| && |s.tally| == |s.cols|
    ensures Nameable(s, NextStepPreds(s, c))
  {
    hide Tree, Members, Life, NamedOk, Memory, Tallies, Located, Edges, Led, QueueOk, Counts, Holds, Started,
        StartsPast, GatesAlone;
    var ps := NextStepPreds(s, c);
    if ps == s.lastStep[c] {
      assert PredsOk(s.lastStep[c], |s.info|, |s.cols|);
      forall p: Pred | p in ps ensures p in s.lastStep[c] {}
    } else {
      assert PredsOk(s.entry[c], |s.info|, c);
      forall i | 0 <= i < |ps| ensures PredOk(ps[i], |s.state|, |s.cols|) {
        assert PredOk(s.entry[c][i], |s.info|, c);
      }
      forall p: Pred | p in ps ensures p in s.entry[c] {}
    }
  }

  lemma NameableEach(s: Sched, ps: seq<Pred>)
    requires Nameable(s, ps)
    ensures forall i :: 0 <= i < |ps| ==> PredOk(ps[i], |s.state|, |s.cols|)
  {
  }

  lemma NameablePreds(s: Sched, ps: seq<Pred>)
    requires Nameable(s, ps)
    ensures PredsOk(ps, |s.state|, |s.cols|)
  {
  }

  lemma CascadeFrame(a: Sched, b: Sched)
    requires Cascaded(a, b, -1)
    ensures SameFrame(a, b)
  {
  }

  /** The Sequence above step moved on past it and took its membership as declared. */
  predicate PassedBy(s: Sched, step: nat) {
    && step < |s.cols| && step < |s.tally| && 0 <= s.cols[step].parent < |s.cols|
    && s.cols[step].parent < |s.lastStep| && s.cols[step].parent < |s.entry|
    && s.cols[s.cols[step].parent].sequential && s.tally[step].sealed
    && !IsLastStep(s.lastStep[s.cols[step].parent], step)
  }

  ghost predicate JoinedAfter(s: Sched, step: nat, passed: seq<nat>, r: seq<Pred>) {
    PassedBy(s, step) && s.cols[step].parent in passed
    && forall p :: p in NextStepPreds(s, s.cols[step].parent) ==> p in r
  }

  /** r names the latest step of every Sequence above c that moved on past its
      step, and passed lists those Sequences and only Sequences above c. */
  ghost predicate Joined(s: Sched, c: nat, passed: seq<nat>, r: seq<Pred>) {
    && (forall i :: 0 <= i < |passed| ==> passed[i] < |s.cols|)
    && (forall step: nat :: OnChain(s.cols, c, step) && PassedBy(s, step) ==> JoinedAfter(s, step, passed, r))
  }

  /** In s, step is one of Sequence q's and not its latest; by t its membership is
      taken as declared. */
  ghost predicate PassedOver(s: Sched, t: Sched, step: nat, q: nat) {
    && step < |s.cols| && s.cols[step].parent == q < |s.lastStep|
    && step < |t.tally| && t.tally[step].sealed && !IsLastStep(s.lastStep[q], step)
  }

  /** Sequence q holds c in a step it has passed. */
  ghost predicate HoldsStep(s: Sched, t: Sched, c: nat, q: nat) {
    && q < |s.cols| && q < |s.lastStep| && q < |s.entry| && s.cols[q].sequential
    && exists step: nat :: OnChain(s.cols, c, step) && PassedOver(s, t, step, q)
  }

  ghost predicate SealsKept(s: Sched, t: Sched) {
    |s.tally| <= |t.tally| && forall c :: 0 <= c < |s.tally| && s.tally[c].sealed ==> t.tally[c].sealed
  }

  lemma SealsCascaded(s: Sched, t: Sched, but: int)
    requires Cascaded(s, t, but)
    ensures SealsKept(s, t)
  {
    forall c | 0 <= c < |s.tally| && s.tally[c].sealed ensures t.tally[c].sealed {
      assert TallyGrows(s.tally[c], t.tally[c], s.declSeq);
    }
  }

  lemma SealsJoined(s: Sched, t: Sched, info: TaskInfo, m: Member)
    requires TalliesJoined(s.tally, t.tally, s.cols, info, m)
    ensures SealsKept(s, t)
  {
    hide OnChain;
  }

  lemma HoldsOn(s: Sched, t: Sched, u: Sched, c: nat, q: nat)
    requires HoldsStep(s, t, c, q) && SealsKept(t, u)
    ensures HoldsStep(s, u, c, q)
  {
    var step: nat :| OnChain(s.cols, c, step) && PassedOver(s, t, step, q);
    assert PassedOver(s, u, step, q);
  }

  ghost predicate TakenFrom(s: Sched, t: Sched, c: nat, q: nat, r: seq<Pred>) {
    HoldsStep(s, t, c, q) && forall p :: p in NextStepPreds(s, q) ==> p in r
  }

  /** r is preds and what the next step of each of passed starts after, no less and
      no more. */
  ghost predicate Gathered(s: Sched, t: Sched, c: nat, passed: seq<nat>, preds: seq<Pred>, r: seq<Pred>) {
    && (forall p :: p in preds ==> p in r)
    && (forall q :: q in passed ==> TakenFrom(s, t, c, q, r))
    && (forall p :: p in r ==> p in preds || exists q :: q in passed && TakenFrom(s, t, c, q, r) && p in NextStepPreds(s, q))
  }

  lemma GatheredOn(s: Sched, t: Sched, u: Sched, c: nat, passed: seq<nat>, preds: seq<Pred>, r: seq<Pred>)
    requires Gathered(s, t, c, passed, preds, r) && SealsKept(t, u)
    ensures Gathered(s, u, c, passed, preds, r)
  {
    hide OnChain, NextStepPreds, SealsKept;
    forall q | TakenFrom(s, t, c, q, r) ensures TakenFrom(s, u, c, q, r) {
      HoldsOn(s, t, u, c, q);
    }
    forall p | p in r ensures p in preds || exists q :: q in passed && TakenFrom(s, u, c, q, r) && p in NextStepPreds(s, q) {
      if p !in preds {
        var q :| q in passed && TakenFrom(s, t, c, q, r) && p in NextStepPreds(s, q);
        assert TakenFrom(s, u, c, q, r);
      }
    }
  }

  lemma GatheredMore(s0: Sched, s: Sched, c: nat, step: nat, passed: seq<nat>, preds: seq<Pred>, r: seq<Pred>)
    requires Gathered(s0, s, c, passed, preds, r) && Joining(s0, s, c, step, passed, r)
    requires s0.cols[step].parent >= 0 && s0.cols[s0.cols[step].parent].sequential
    requires step < |s.tally| && s.tally[step].sealed && !IsLastStep(s0.lastStep[s0.cols[step].parent], step)
    ensures var q := s0.cols[step].parent;
      q < |s.cols| && q < |s.lastStep| && q < |s.entry| && NextStepPreds(s, q) == NextStepPreds(s0, q)
      && Gathered(s0, s, c, passed + [q], preds, r + NextStepPreds(s0, q))
  {
    hide OnChain, NextStepPreds;
    var q := s0.cols[step].parent;
    var more := NextStepPreds(s0, q);
    assert NextStepPreds(s, q) == more by { SameNext(s0, s, q); }
    assert PassedOver(s0, s, step, q);
    assert HoldsStep(s0, s, c, q);
    assert TakenFrom(s0, s, c, q, r + more);
    forall d | d in passed + [q] ensures TakenFrom(s0, s, c, d, r + more) {
      assert d in passed ==> TakenFrom(s0, s, c, d, r);
    }
    forall p | p in r + more ensures p in preds || exists d :: d in passed + [q] && TakenFrom(s0, s, c, d, r + more) && p in NextStepPreds(s0, d) {
      if p in more {
        assert q in passed + [q];
      } else if p !in preds {
        var d :| d in passed && TakenFrom(s0, s, c, d, r) && p in NextStepPreds(s0, d);
        assert d in passed + [q];
      }
    }
  }

  lemma SameNext(a: Sched, b: Sched, q: nat)
    requires SameFrame(a, b) && q < |a.cols| && q < |a.lastStep| && q < |a.entry|
    ensures NextStepPreds(b, q) == NextStepPreds(a, q)
  {
  }

  lemma GatheredSince(a: Sched, b: Sched, t: Sched, c: nat, passed: seq<nat>, preds: seq<Pred>, r: seq<Pred>)
    requires SameFrame(a, b) && Gathered(b, t, c, passed, preds, r)
    ensures Gathered(a, t, c, passed, preds, r)
  {
    hide OnChain, NextStepPreds;
    forall q: nat | q < |a.cols| && q < |a.lastStep| && q < |a.entry| ensures NextStepPreds(b, q) == NextStepPreds(a, q) {
      SameNext(a, b, q);
    }
    forall q, ps | TakenFrom(b, t, c, q, ps) ensures TakenFrom(a, t, c, q, ps) {
      var step: nat :| OnChain(b.cols, c, step) && PassedOver(b, t, step, q);
      assert PassedOver(a, t, step, q);
    }
    forall p | p in r ensures p in preds || exists q :: q in passed && TakenFrom(a, t, c, q, r) && p in NextStepPreds(a, q) {
      if p !in preds {
        var q :| q in passed && TakenFrom(b, t, c, q, r) && p in NextStepPreds(b, q);
        assert TakenFrom(a, t, c, q, r);
      }
    }
  }

  /** The walk up from c has reached step. */
  ghost predicate Joining(s0: Sched, s: Sched, c: nat, step: nat, passed: seq<nat>, r: seq<Pred>) {
    && SameFrame(s0, s) && ColsOk(s0.cols) && step < |s0.cols| && OnChain(s0.cols, c, step)
    && |s0.tally| == |s0.lastStep| == |s0.entry| == |s0.cols|
    && (forall i :: 0 <= i < |passed| ==> passed[i] < |s0.cols|)
    && (forall d: nat :: d > step && OnChain(s0.cols, c, d) && PassedBy(s0, d) ==> JoinedAfter(s0, d, passed, r))
  }

  lemma JoinStarts(s: Sched, c: nat, r: seq<Pred>)
    requires Good(s) && c < |s.cols|
    ensures Cascaded(s, s, -1) && Joining(s, s, c, c, [], r) && |s.tally| == |s.lastStep| == |s.cols| && -1 <= s.cols[c].parent < c
  {
    hide Tree, Members, Life, NamedOk, Memory, Tallies, Located, Edges, Led, QueueOk, Counts, Holds, Started,
        StartsPast, NoGate, GatesAlone, Stops;
    assert OnChain(s.cols, c, c);
    ChainIsAbove(s, c);
  }

  lemma GatheredNone(s: Sched, c: nat, preds: seq<Pred>)
    ensures Gathered(s, s, c, [], preds, preds)
  {
  }

  lemma JoinHere(s0: Sched, s: Sched, c: nat, step: nat, passed: seq<nat>, r: seq<Pred>)
    requires Joining(s0, s, c, step, passed, r)
    ensures s.cols == s0.cols && s0.cols[step].parent < step < |s0.cols|
  {
  }

  lemma CascadeSelfShape(s: Sched)
    requires Whole(s)
    ensures ColsOk(s.cols) && |s.lastStep| == |s.entry| == |s.cols|
  {
  }

  lemma JoinNext(s0: Sched, s: Sched, c: nat, step: nat, passed: seq<nat>, r: seq<Pred>)
    requires Joining(s0, s, c, step, passed, r) && s0.cols[step].parent >= 0
    ensures s.cols == s0.cols && s.lastStep == s0.lastStep && |s.tally| == |s0.tally|
    ensures -1 <= s.cols[s.cols[step].parent].parent < s.cols[step].parent
  {
  }

  lemma JoinTakes(s0: Sched, s: Sched, t: Sched, c: nat, step: nat, passed: seq<nat>, r: seq<Pred>, r': seq<Pred>)
    requires Joining(s0, s, c, step, passed, r) && s0.cols[step].parent >= 0 && Cascaded(s, t, -1)
    requires s.cols[step].parent < |s.lastStep| && s.cols[step].parent < |s.entry|
    requires r' == r + NextStepPreds(s, s.cols[step].parent)
    ensures Joining(s0, t, c, s0.cols[step].parent, passed + [s0.cols[step].parent], r')
    ensures |t.tally| == |t.lastStep| == |t.cols| && t.cols == s.cols && r <= r'
  {
    UpTheChain(s0, c, step);
    assert SameFrame(s0, t);
    ChainDown(s0, c, step, passed, r, passed + [s0.cols[step].parent], r');
  }

  lemma JoinSkips(s0: Sched, s: Sched, c: nat, step: nat, passed: seq<nat>, r: seq<Pred>)
    requires Joining(s0, s, c, step, passed, r) && s0.cols[step].parent >= 0 && Cascaded(s0, s, -1)
    requires var q := s.cols[step].parent;
      q < |s.cols| && q < |s.lastStep| && step < |s.tally|
      && !(s.cols[q].sequential && s.tally[step].sealed && !IsLastStep(s.lastStep[q], step))
    ensures Joining(s0, s, c, s0.cols[step].parent, passed, r)
  {
    UpTheChain(s0, c, step);
    SealKept(s0, s, step);
    ChainDown(s0, c, step, passed, r, passed, r);
  }

  lemma JoinEnds(s0: Sched, s: Sched, c: nat, step: nat, passed: seq<nat>, r: seq<Pred>)
    requires Joining(s0, s, c, step, passed, r) && s0.cols[step].parent < 0
    ensures Joined(s0, c, passed, r)
  {
    LastOnChain(s0, c, step);
  }

  lemma UpTheChain(s: Sched, c: nat, step: nat)
    requires ColsOk(s.cols) && step < |s.cols| && OnChain(s.cols, c, step) && s.cols[step].parent >= 0
    ensures OnChain(s.cols, c, s.cols[step].parent) && s.cols[step].parent != c && s.cols[step].parent < step
  {
    var p := s.cols[step].parent;
    assert OnChain(s.cols, p, p);
    assert OnChain(s.cols, step, p);
    ChainTransitive(s.cols, c, step, p);
    ChainBounds(s.cols, c, step);
  }

  lemma ChainIsAbove(s: Sched, c: nat)
    ensures forall d: nat :: OnChain(s.cols, c, d) ==> d <= c
  {
    forall d: nat | OnChain(s.cols, c, d) ensures d <= c {
      ChainBounds(s.cols, c, d);
    }
  }

  lemma SealKept(a: Sched, b: Sched, step: nat)
    requires Cascaded(a, b, -1) && step < |a.tally|
    ensures a.tally[step].sealed ==> b.tally[step].sealed
  {
    assert TallyGrows(a.tally[step], b.tally[step], a.declSeq);
  }

  lemma ChainDown(s: Sched, c: nat, step: nat, passed: seq<nat>, r: seq<Pred>, passed': seq<nat>, r': seq<Pred>)
    requires ColsOk(s.cols) && step < |s.cols| && OnChain(s.cols, c, step) && s.cols[step].parent >= 0
    requires passed <= passed' && r <= r'
    requires forall d: nat :: d > step && OnChain(s.cols, c, d) && PassedBy(s, d) ==> JoinedAfter(s, d, passed, r)
    requires PassedBy(s, step) ==> JoinedAfter(s, step, passed', r')
    ensures forall d: nat :: d > s.cols[step].parent && OnChain(s.cols, c, d) && PassedBy(s, d) ==> JoinedAfter(s, d, passed', r')
  {
    forall d: nat | d > s.cols[step].parent && OnChain(s.cols, c, d) && PassedBy(s, d) ensures JoinedAfter(s, d, passed', r') {
      if d < step {
        ChainSplit(s.cols, c, step, d);
        ChainBounds(s.cols, s.cols[step].parent, d);
        assert false;
      }
    }
  }

  lemma LastOnChain(s: Sched, c: nat, step: nat)
    requires ColsOk(s.cols) && step < |s.cols| && OnChain(s.cols, c, step) && s.cols[step].parent < 0
    ensures !PassedBy(s, step)
    ensures forall d: nat :: OnChain(s.cols, c, d) ==> d >= step
  {
    forall d: nat | OnChain(s.cols, c, d) ensures d >= step {
      if d < step {
        ChainSplit(s.cols, c, step, d);
      }
    }
  }

  lemma NextOnChain(s: Sched, home: nat, c: nat)
    requires ColsOk(s.cols) && c < |s.cols| && OnChain(s.cols, home, c)
    ensures -1 <= s.cols[c].parent < c
    ensures s.cols[c].parent >= 0 ==> OnChain(s.cols, home, s.cols[c].parent)
    ensures forall d: nat :: OnChain(s.cols, home, d) && d > s.cols[c].parent ==> d >= c
  {
    if s.cols[c].parent >= 0 {
      UpTheChain(s, home, c);
    }
    forall d: nat | OnChain(s.cols, home, d) && d > s.cols[c].parent ensures d >= c {
      if d < c {
        ChainSplit(s.cols, home, c, d);
        if s.cols[c].parent >= 0 {
          ChainBounds(s.cols, s.cols[c].parent, d);
        }
      }
    }
  }

  lemma OwnChain(s: Sched, c: nat)
    requires c < |s.cols|
    ensures OnChain(s.cols, c, c)
  {
  }

  lemma HoldsJoined(s: Sched, tally: seq<Tally>, c: nat)
    requires |tally| == |s.tally| == |s.cols|
    requires forall e :: 0 <= e < |tally| ==>
      tally[e] == if OnChain(s.cols, c, e) then s.tally[e].(holds := s.tally[e].holds + 1) else s.tally[e]
    ensures TalliesJoined(s.tally, tally, s.cols, TaskInfo(-1, s.declSeq, c), Member(|s.state|, s.declSeq))
  {
  }

  lemma NothingNamed(s: Sched)
    ensures Nameable(s, [])
  {
  }

  /** self starts after what home's next step starts after and after every Sequence
      that had passed its step, and is the latest step of them all; it starts after
      nothing else, and is the latest step of nothing else. */
  ghost predicate StepsAfter(a: Sched, b: Sched, home: nat, self: Pred, named: seq<Pred>) {
    && home < |a.cols| && home < |a.lastStep| && home < |a.entry| && |a.lastStep| <= |b.lastStep|
    && NextStepPreds(a, home) <= named
    && (a.cols[home].sequential ==> b.lastStep[home] == [self])
    && (forall step: nat :: OnChain(a.cols, home, step) && PassedBy(a, step) ==>
         var q := a.cols[step].parent;
         b.lastStep[q] == [self] && forall p :: p in NextStepPreds(a, q) ==> p in named)
    && (forall p :: p in named ==> p in NextStepPreds(a, home) || exists q: nat :: TakenBy(a, b, home, q, self) && p in NextStepPreds(a, q))
    && (forall q: nat :: q < |a.lastStep| && b.lastStep[q] != a.lastStep[q] ==> q == home || TakenBy(a, b, home, q, self))
  }

  /** Sequence q, which has passed the step that holds home, has self as its latest. */
  ghost predicate TakenBy(a: Sched, b: Sched, home: nat, q: nat, self: Pred) {
    HoldsStep(a, b, home, q) && q < |b.lastStep| && b.lastStep[q] == [self]
  }

  lemma PassedSince(a: Sched, b: Sched, step: nat)
    requires Cascaded(a, b, -1) && PassedBy(a, step)
    ensures PassedBy(b, step) && NextStepPreds(b, a.cols[step].parent) == NextStepPreds(a, a.cols[step].parent)
  {
    assert TallyGrows(a.tally[step], b.tally[step], a.declSeq);
  }

  lemma JoinedSince(a: Sched, b: Sched, home: nat, steps: seq<nat>, ps: seq<Pred>)
    requires Cascaded(a, b, -1) && Joined(b, home, steps, ps)
    ensures Joined(a, home, steps, ps)
  {
    forall step: nat | OnChain(a.cols, home, step) && PassedBy(a, step) ensures JoinedAfter(a, step, steps, ps) {
      PassedSince(a, b, step);
    }
  }

  lemma JoinedOwn(s: Sched, home: nat, steps: seq<nat>, ps: seq<Pred>)
    requires Joined(s, home, steps, ps) && home < |s.cols|
    ensures Joined(s, home, steps + [home], ps)
  {
    forall step: nat | OnChain(s.cols, home, step) && PassedBy(s, step) ensures JoinedAfter(s, step, steps + [home], ps) {
      assert JoinedAfter(s, step, steps, ps);
    }
  }

  /** What steps into home next: its predecessors, and the Sequences it is the
      latest step of. */
  ghost predicate StepsTaken(s: Sched, t: Sched, home: nat, steps: seq<nat>, ps: seq<Pred>) {
    && home < |s.cols| && home < |s.lastStep| && home < |s.entry|
    && NextStepPreds(s, home) <= ps && Joined(s, home, steps, ps)
    && (s.cols[home].sequential ==> home in steps)
    && (forall q :: q in steps ==> q < |s.cols| && (q == home || TakenFrom(s, t, home, q, ps)))
    && (home in steps ==> s.cols[home].sequential)
    && (forall p :: p in ps ==> p in NextStepPreds(s, home) || exists q :: q in steps && TakenFrom(s, t, home, q, ps) && p in NextStepPreds(s, q))
  }

  lemma NotItsOwnStep(s: Sched, t: Sched, c: nat)
    requires ColsOk(s.cols)
    ensures !HoldsStep(s, t, c, c)
  {
    forall step: nat | OnChain(s.cols, c, step) && step < |s.cols| ensures s.cols[step].parent != c {
      ChainBounds(s.cols, c, step);
    }
  }

  lemma StepsTakenFrom(s: Sched, t: Sched, home: nat, passed: seq<nat>, steps: seq<nat>, preds: seq<Pred>,
      ps: seq<Pred>)
    requires home < |s.cols| && home < |s.lastStep| && home < |s.entry| && ColsOk(s.cols)
    requires preds == NextStepPreds(s, home) && preds <= ps && Joined(s, home, steps, ps) && Gathered(s, t, home, passed, preds, ps)
    requires steps == if s.cols[home].sequential then passed + [home] else passed
    ensures StepsTaken(s, t, home, steps, ps)
  {
    hide OnChain, NextStepPreds, Joined;
    NotItsOwnStep(s, t, home);
    forall p | p in ps ensures p in preds || exists q :: q in steps && TakenFrom(s, t, home, q, ps) && p in NextStepPreds(s, q) {
      if p !in preds {
        var q :| q in passed && TakenFrom(s, t, home, q, ps) && p in NextStepPreds(s, q);
        assert q in steps;
      }
    }
  }

  lemma CascadeSelf(s: Sched)
    requires Good(s)
    ensures Cascaded(s, s, -1) && Shape(s) && StaticBounds(s)
  {
    hide Tree, Members, Life, NamedOk, Memory, Tallies, Located, Edges, Led, QueueOk, Counts, Holds, Started,
        StartsPast, NoGate, GatesAlone, Stops;
  }

  ghost predicate StaticBounds(s: Sched) { ColsOk(s.cols) && TasksOk(s.info, s.cols) }

  lemma StepsInRange(a: Sched, b: Sched, home: int, steps: seq<nat>, ps: seq<Pred>)
    requires Good(b) && Cascaded(a, b, -1) && Shape(a) && Fresh(a)
    requires if home >= 0 then StepsTaken(a, b, home, steps, ps) else steps == []
    ensures forall i :: 0 <= i < |steps| ==> steps[i] < |b.lastStep|
    ensures Shape(b) && Fresh(b) && b.cols == a.cols && b.info == a.info && b.declSeq == a.declSeq && b.lastStep == a.lastStep
  {
    hide Static, Tree, Members, Life, NamedOk, Memory, Tallies, Located, Edges, Led, QueueOk, Counts, Holds,
        Started, StartsPast, NoGate, GatesAlone, Stops;
  }

  /** From the cursor's advance to the Task's joining, as one step. */
  lemma TaskJoined(s0: Sched, s1: Sched, s2: Sched, s3: Sched)
    requires Good(s1) && Advances(s0, s1) && Cascaded(s1, s2, -1) && Advances(s2, s3)
    requires s1 == Bumped(s0) && s3.inflight == s2.inflight
    ensures Advances(s0, s3) && s3.inflight == s0.inflight && SealsFrom(s0, s3, s0.declSeq + 1)
  {
    hide Inv, Stops, Cascaded, Advances;
    LifeOf(s1);
    CascadeAdvances(s1, s2);
    AdvancesTwice(s1, s2, s3);
    SealsOfAdvance(s1, s3);
    AdvancesTwice(s0, s1, s2);
    AdvancesTwice(s0, s2, s3);
  }

  lemma SealsOfAdvance(a: Sched, b: Sched)
    requires Advances(a, b)
    ensures SealsFrom(a, b, a.declSeq)
  {
  }

  lemma BumpedNext(s: Sched, q: nat)
    requires q < |s.cols| && q < |s.lastStep| && q < |s.entry|
    ensures NextStepPreds(Bumped(s), q) == NextStepPreds(s, q)
  {
  }

  lemma StepsRecorded(s0: Sched, s1: Sched, s2: Sched, s3: Sched, home: nat, steps: seq<nat>, ps: seq<Pred>, self: Pred)
    requires s1 == Bumped(s0) && SealsKept(s2, s3) && StepsTaken(s1, s2, home, steps, ps) && |s3.lastStep| == |s1.lastStep| == |s1.cols|
    requires forall c :: 0 <= c < |s3.lastStep| ==> s3.lastStep[c] == if c in steps then [self] else s1.lastStep[c]
    ensures StepsAfter(s0, s3, home, self, ps)
  {
    hide OnChain, NextStepPreds;
    forall q: nat | q < |s0.cols| && q < |s0.lastStep| && q < |s0.entry| ensures NextStepPreds(s1, q) == NextStepPreds(s0, q) {
      BumpedNext(s0, q);
    }
    forall q: nat | q in steps && q != home ensures TakenBy(s0, s3, home, q, self) {
      assert TakenFrom(s1, s2, home, q, ps);
      HoldsOn(s1, s2, s3, home, q);
      var step: nat :| OnChain(s1.cols, home, step) && PassedOver(s1, s3, step, q);
      assert PassedOver(s0, s3, step, q);
    }
    forall p | p in ps ensures p in NextStepPreds(s0, home) || exists q: nat :: TakenBy(s0, s3, home, q, self) && p in NextStepPreds(s0, q) {
      if p !in NextStepPreds(s0, home) {
        var q :| q in steps && TakenFrom(s1, s2, home, q, ps) && p in NextStepPreds(s1, q);
        assert q != home;
      }
    }
    forall step: nat | OnChain(s0.cols, home, step) && PassedBy(s0, step)
      ensures var q := s0.cols[step].parent;
         s3.lastStep[q] == [self] && forall p :: p in NextStepPreds(s0, q) ==> p in ps
    {
      assert PassedBy(s1, step) && JoinedAfter(s1, step, steps, ps);
    }
  }

  lemma SealsSwept(s: Sched, t: Sched, batch: iset<nat>, to: EntityState)
    requires Swept(s, t, batch, to)
    ensures SealsKept(s, t)
  {
    forall c | 0 <= c < |s.tally| && s.tally[c].sealed ensures t.tally[c].sealed {
      assert TallyGrows(s.tally[c], t.tally[c], s.declSeq);
    }
  }

  lemma TaskStopped(s0: Sched, s3: Sched, s4: Sched, home: nat, x: TaskId)
    requires Quiet(s3) && Advances(s0, s3) && x < |s3.named|
    requires Swept(s3, s4, iset{x}, NotStarted)
    ensures Advances(s0, s4) && Advances(s3, s4) && s4.inflight == s3.inflight && s4.declSeq == s3.declSeq
    ensures s4.info == s3.info && s4.cols == s3.cols && s4.named == s3.named
    ensures FollowsAStop(s3, x) <==> FollowsAStop(s4, x)
    ensures |s4.state| == |s3.state| && |s4.phase| == |s3.phase| && x < |s3.phase| && x < |s3.info|
    ensures s3.phase[x] == PhaseDeclared ==> s4.phase[x] != PhaseRunning
    ensures forall ps :: StepsAfter(s0, s3, home, OnTask(x), ps) ==> StepsAfter(s0, s4, home, OnTask(x), ps)
  {
    hide Inv, Advances, StepsAfter, FollowsAStop;
    LifeOf(s3);
    SweptAdvances(s3, s4, iset{x}, NotStarted);
    AdvancesTwice(s0, s3, s4);
    FollowsSameStop(s3, s4, x);
    assert SweptTask(s3, s4, x, iset{x}, NotStarted);
    SealsSwept(s3, s4, iset{x}, NotStarted);
    forall ps | StepsAfter(s0, s3, home, OnTask(x), ps) ensures StepsAfter(s0, s4, home, OnTask(x), ps) {
      StepsAfterOn(s0, s3, s4, home, OnTask(x), ps);
    }
  }

  lemma StepsAfterOn(s0: Sched, s: Sched, t: Sched, home: nat, self: Pred, ps: seq<Pred>)
    requires StepsAfter(s0, s, home, self, ps) && s.lastStep <= t.lastStep && SealsKept(s, t)
    ensures StepsAfter(s0, t, home, self, ps)
  {
    hide OnChain, NextStepPreds, SealsKept;
    forall q: nat | TakenBy(s0, s, home, q, self) ensures TakenBy(s0, t, home, q, self) {
      HoldsOn(s0, s, t, home, q);
    }
    forall p | p in ps ensures p in NextStepPreds(s0, home) || exists q: nat :: TakenBy(s0, t, home, q, self) && p in NextStepPreds(s0, q) {
      if p !in NextStepPreds(s0, home) {
        var q: nat :| TakenBy(s0, s, home, q, self) && p in NextStepPreds(s0, q);
        assert TakenBy(s0, t, home, q, self);
      }
    }
    forall q: nat | q < |s0.lastStep| && t.lastStep[q] != s0.lastStep[q] ensures q == home || TakenBy(s0, t, home, q, self) {
      assert s.lastStep[q] == t.lastStep[q];
    }
  }

  lemma GrowsOk(s: Sched, t: TaskInfo, ps: seq<Pred>, tally: seq<Tally>, colTasks: seq<seq<TaskId>>,
      lastStep: seq<seq<Pred>>)
    requires Shape(s) && -1 <= t.home < |s.cols| && t.gateFor == -1 && t.decl == s.declSeq && Nameable(s, ps)
    requires TalliesJoined(s.tally, tally, s.cols, t, Member(|s.state|, t.decl))
    requires colTasks == if t.home >= 0 then s.colTasks[t.home := s.colTasks[t.home] + [|s.state|]] else s.colTasks
    requires Stepped(s.lastStep, lastStep, OnTask(|s.state|))
    ensures GrowsBy(s, t, ps, tally, colTasks, lastStep)
  {
  }

  lemma FollowsSameStop(a: Sched, b: Sched, x: nat)
    requires SameFrame(a, b)
    ensures FollowsAStop(a, x) <==> FollowsAStop(b, x)
  {
    if FollowsAStop(a, x) {
      var c: nat :| c < |a.stoppedAfter| && a.stoppedAfter[c] != 0 && AfterStep(a, x, c, a.stoppedAfter[c]);
      assert AfterStep(b, x, c, b.stoppedAfter[c]);
    }
    if FollowsAStop(b, x) {
      var c: nat :| c < |b.stoppedAfter| && b.stoppedAfter[c] != 0 && AfterStep(b, x, c, b.stoppedAfter[c]);
      assert AfterStep(a, x, c, a.stoppedAfter[c]);
    }
  }

  lemma RootFollowsNothing(s: Sched, x: nat)
    requires x < |s.info| && s.info[x].home < 0
    ensures !FollowsAStop(s, x)
  {
  }

  /** The new Task is stopped exactly when its step is. */
  lemma DeclaredState(s: Sched, t: Sched, x: TaskId)
    requires x < |s.state| && s.state[x] == Pending && x < |t.state| && x < |t.phase|
    requires Good(t) && (FollowsAStop(s, x) <==> FollowsAStop(t, x))
    requires !FollowsAStop(s, x) ==> t == s
    requires FollowsAStop(t, x) ==> t.phase[x] != PhaseRunning
    ensures IsTerminal(t.state[x]) <==> FollowsAStop(t, x)
  {
    hide Inv;
    if FollowsAStop(t, x) {
      var a: nat :| a < |t.stoppedAfter| && t.stoppedAfter[a] != 0 && AfterStep(t, x, a, t.stoppedAfter[a]);
      assert StoppedAt(t, a);
      assert HaltedTask(t, x);
    }
  }

  lemma GrowsByColOk(s: Sched, ci: ColInfo, es: seq<Pred>, lastStep: seq<seq<Pred>>, colChildren: seq<seq<nat>>)
    requires Shape(s) && -1 <= ci.parent < |s.cols| && ci.decl == s.declSeq && Nameable(s, es)
    requires colChildren == if ci.parent >= 0 then s.colChildren[ci.parent := s.colChildren[ci.parent] + [|s.cols|]] else s.colChildren
    requires Stepped(s.lastStep, lastStep, OnCol(|s.cols|, 0))
    ensures GrowsByCol(s, ci, es, lastStep, colChildren)
  {
  }

  lemma AdvancesSelf(s: Sched)
    requires Good(s)
    ensures Advances(s, s)
  {
    hide Static, Tree, Members, Life, NamedOk, Memory, Tallies, Located, Edges, Led, QueueOk, Counts, Holds,
        Started, StartsPast, NoGate, GatesAlone, Stops;
  }

  // ---- After --------------------------------------------------------------

  /** The edge closed is what naming h on the way from a to b made of it. */
  ghost predicate NamedAs(a: Sched, b: Sched, h: Pred, closed: Pred) {
    && (Closing(a, h) ==> closed == Closed(a, h) && h.c < |b.tally| && b.tally[h.c].sealed)
    && (closed == h || (h.OnCol? && h.through == 0 && closed == OnCol(h.c, a.declSeq)
         && h.c < |a.tally| && |a.tally[h.c].members| != 0 && h.c < |b.tally| && b.tally[h.c].holds <= 0))
  }

  ghost predicate FirstNamed(a: Sched, hs: seq<Pred>, edge: Pred) {
    hs != [] && !Closing(a, hs[0]) ==> edge == hs[0]
  }

  lemma NamedMeans(a: Sched, b: Sched, h: Pred, closed: Pred)
    requires Whole(a) && Whole(b) && |b.cols| == |a.cols| && PredOk(h, |a.state|, |a.cols|) && NamedAs(a, b, h, closed)
    ensures EdgeTaken(a, b, h, closed)
  {
    hide Inv, Populated, GatePending;
    ClosingMeans(a, h);
    if h.OnCol? {
      MembersMean(a, h.c);
      HoldsMeans(b, h.c);
    }
  }

  lemma NamedAll(a: Sched, b: Sched, hs: seq<Pred>, edges: seq<Pred>)
    requires Whole(a) && Whole(b) && |b.cols| == |a.cols| && PredsOk(hs, |a.state|, |a.cols|) && |edges| == |hs|
    requires forall i :: 0 <= i < |hs| ==> NamedAs(a, b, hs[i], edges[i])
    requires hs != [] ==> FirstNamed(a, hs, edges[0])
    ensures HandlesTaken(a, b, hs, edges)
  {
    hide Inv, NamedAs, EdgeTaken, Populated, GatePending;
    forall i | 0 <= i < |hs| ensures EdgeTaken(a, b, hs[i], edges[i]) {
      NamedMeans(a, b, hs[i], edges[i]);
    }
    if hs != [] {
      ClosingMeans(a, hs[0]);
    }
  }

  /** The first n handles have been named. */
  ghost predicate Naming(s0: Sched, s: Sched, st: TaskId, handles: seq<Pred>, n: nat) {
    && n <= |handles| && st < |s.named| && st < |s0.named|
    && |s.named[st]| == |s0.named[st]| + n && s0.named[st] <= s.named[st]
    && (forall i :: 0 <= i < n ==> NamedAs(s0, s, handles[i], s.named[st][|s0.named[st]| + i]))
    && (n > 0 ==> FirstNamed(s0, handles, s.named[st][|s0.named[st]|]))
    && Nameable(s, handles) && s.declSeq == s0.declSeq && |s.tally| == |s0.tally|
    && (forall c :: 0 <= c < |s.tally| ==> TallyGrows(s0.tally[c], s.tally[c], s0.declSeq))
  }

  function NamedMore(s: Sched, x: TaskId, p: Pred): Sched
    requires x < |s.preds| && x < |s.named|
  {
    s.(preds := s.preds[x := s.preds[x] + [p]], named := s.named[x := s.named[x] + [p]])
  }

  lemma NamedMoreOk(s: Sched, x: TaskId, p: Pred)
    requires Good(s) && x < |s.phase| && !IsSubmitted(s.phase[x]) && Nameable(s, [p])
    ensures x < |s.preds| && x < |s.named|
    ensures Good(NamedMore(s, x, p)) && Advances(s, NamedMore(s, x, p))
  {
    hide Static, Tree, Members, Life, Memory, Tallies, Located, Edges, Led, QueueOk, Counts, Holds, Started,
        StartsPast, NoGate, GatesAlone, Stops;
    var r := NamedMore(s, x, p);
    assert PredOk([p][0], |s.state|, |s.cols|);
    ForgetsMore(s.named, s.preds, s.state, x, p);
    NotWaiting(s, x);
    LedScanned(s.entry, s.preds, s.loc, s.edge, x, s.preds[x] + [p]);
    StartedMore(s, x, p);
    NoGateMore(s.info, s.named, x, p);
    NamedOkMore(s.named, |s.cols|, s.declSeq, x, p);
    StopsKept(s, r);
  }

  lemma NotWaiting(s: Sched, x: TaskId)
    requires LocPhase(s.loc, s.phase) || Located(ListsOf(s), s.loc, s.phase)
    requires x < |s.phase| && !IsSubmitted(s.phase[x])
    ensures x < |s.loc| && !Waits(s.loc[x])
  {
  }

  lemma ForgetsMore(named: seq<seq<Pred>>, preds: seq<seq<Pred>>, state: seq<EntityState>, x: TaskId, p: Pred)
    requires Memory(named, preds, state) && x < |state|
    ensures Memory(named[x := named[x] + [p]], preds[x := preds[x] + [p]], state)
  {
    ForgetsAppend(named[x], preds[x], p, state);
  }

  lemma StartedMore(s: Sched, x: TaskId, p: Pred)
    requires Started(s.named, s.phase, s.startedAt, s.state, s.tally) && x < |s.phase| && s.phase[x] != PhaseRunning
    ensures Started(s.named[x := s.named[x] + [p]], s.phase, s.startedAt, s.state, s.tally)
  {
  }

  lemma NoGateMore(info: seq<TaskInfo>, named: seq<seq<Pred>>, x: TaskId, p: Pred)
    requires NoGate(info, named) && x < |named| && (p.OnTask? ==> p.t < |info| && info[p.t].gateFor < 0)
    ensures NoGate(info, named[x := named[x] + [p]])
  {
    var named' := named[x := named[x] + [p]];
    forall y, q: Pred | 0 <= y < |named'| && q in named'[y] && q.OnTask? ensures q.t < |info| && info[q.t].gateFor < 0 {
      assert q in named[y] || q == p;
    }
  }

  lemma NamedOkMore(named: seq<seq<Pred>>, cols: nat, declSeq: nat, x: TaskId, p: Pred)
    requires NamedOk(named, cols, declSeq) && x < |named| && PredOk(p, |named|, cols) && (p.OnCol? ==> p.through <= declSeq)
    ensures NamedOk(named[x := named[x] + [p]], cols, declSeq)
  {
    var named' := named[x := named[x] + [p]];
    forall y | 0 <= y < |named'| ensures PredsOk(named'[y], |named'|, cols) {
      assert PredsOk(named[y], |named|, cols);
    }
    forall y, q: Pred | 0 <= y < |named'| && q in named'[y] && q.OnCol? ensures q.through <= declSeq {
      assert q in named[y] || q == p;
    }
  }

  lemma ClosedNameable(s: Sched, t: Sched, handles: seq<Pred>, i: nat)
    requires Nameable(s, handles) && i < |handles| && Cascaded(s, t, -1)
    ensures Nameable(t, [Closed(s, handles[i])]) && Nameable(t, handles)
  {
    assert handles[i] in handles;
    assert PredOk(handles[i], |s.state|, |s.cols|);
  }

  lemma NamingCloses(s0: Sched, s1: Sched, s2: Sched, st: TaskId, handles: seq<Pred>, i: nat, closed: Pred)
    requires Good(s1) && Good(s2) && Advances(s0, s1) && Cascaded(s1, s2, -1) && st < |s1.phase| && !IsSubmitted(s1.phase[st])
    requires Naming(s0, s1, st, handles, i) && i < |handles| && closed == Closed(s1, handles[i])
    ensures Advances(s0, s2) && s2.inflight == s1.inflight && |s2.state| == |s1.state| && |s2.cols| == |s1.cols|
    ensures st < |s2.phase| && s2.phase[st] == s1.phase[st]
    ensures st < |s2.preds| && st < |s2.named| && s2.named == s1.named
    ensures Good(NamedMore(s2, st, closed)) && Advances(s0, NamedMore(s2, st, closed))
  {
    hide Inv, Stops, Advances, Nameable;
    LifeOf(s1);
    LifeOf(s2);
    CascadeAdvances(s1, s2);
    AdvancesTwice(s0, s1, s2);
    assert CascadedTask(s1, s2, st);
    ClosedNameable(s1, s2, handles, i);
    NamedMoreOk(s2, st, closed);
    AdvancesTwice(s0, s2, NamedMore(s2, st, closed));
  }

  lemma NamingMore(s0: Sched, s1: Sched, s2: Sched, st: TaskId, handles: seq<Pred>, i: nat, closed: Pred)
    requires Cascaded(s1, s2, -1) && Naming(s0, s1, st, handles, i) && i < |handles| && closed == Closed(s1, handles[i])
    requires Closing(s1, handles[i]) ==> handles[i].c < |s2.tally| && s2.tally[handles[i].c].sealed
    requires i == 0 ==> s1 == s0
    requires st < |s2.preds| && st < |s2.named| && s2.named == s1.named
    ensures Naming(s0, NamedMore(s2, st, closed), st, handles, i + 1)
  {
    hide Nameable, Closed, NamedAs, CascadedTask, FailuresLast;
    var r := NamedMore(s2, st, closed);
    ClosedNameable(s1, s2, handles, i);
    NameableMore(s2, st, closed, handles);
    TallyTwice(s0, s1, s2, r);
    NamedAsNow(s0, s1, r, handles[i]);
    forall k | 0 <= k < i + 1 ensures NamedAs(s0, r, handles[k], r.named[st][|s0.named[st]| + k]) {
      if k < i {
        assert NamedAs(s0, s1, handles[k], s1.named[st][|s0.named[st]| + k]);
        NamedAsLater(s0, s1, r, handles[k], s1.named[st][|s0.named[st]| + k]);
      }
    }
    FirstClosed(s0, handles);
  }

  lemma FirstClosed(s: Sched, handles: seq<Pred>)
    ensures handles != [] ==> FirstNamed(s, handles, Closed(s, handles[0]))
  {
  }

  lemma TallyTwice(s0: Sched, s1: Sched, s2: Sched, r: Sched)
    requires Cascaded(s1, s2, -1) && |s1.tally| == |s0.tally| && s1.declSeq == s0.declSeq
    requires r.tally == s2.tally && r.declSeq == s2.declSeq
    requires forall c :: 0 <= c < |s1.tally| ==> TallyGrows(s0.tally[c], s1.tally[c], s0.declSeq)
    ensures |r.tally| == |s1.tally| && r.declSeq == s1.declSeq
    ensures forall c :: 0 <= c < |s1.tally| ==> TallyGrows(s1.tally[c], r.tally[c], s1.declSeq)
    ensures forall c :: 0 <= c < |s0.tally| ==> TallyGrows(s0.tally[c], r.tally[c], s0.declSeq)
  {
    hide CascadedTask, FailuresLast;
    forall c | 0 <= c < |r.tally| ensures TallyGrows(s0.tally[c], r.tally[c], s0.declSeq) {
      assert TallyGrows(s0.tally[c], s1.tally[c], s0.declSeq) && TallyGrows(s1.tally[c], s2.tally[c], s1.declSeq);
    }
  }

  lemma NameableMore(s: Sched, st: TaskId, p: Pred, handles: seq<Pred>)
    requires st < |s.preds| && st < |s.named| && Nameable(s, handles)
    ensures Nameable(NamedMore(s, st, p), handles)
  {
  }

  /** A handle just named, at s1 by now r. */
  lemma NamedAsNow(s0: Sched, s1: Sched, r: Sched, h: Pred)
    requires |r.tally| == |s1.tally| == |s0.tally| && s1.declSeq == s0.declSeq
    requires forall c :: 0 <= c < |s1.tally| ==> TallyGrows(s0.tally[c], s1.tally[c], s0.declSeq)
    requires forall c :: 0 <= c < |s1.tally| ==> TallyGrows(s1.tally[c], r.tally[c], s1.declSeq)
    requires Closing(s1, h) ==> h.c < |r.tally| && r.tally[h.c].sealed
    ensures NamedAs(s0, r, h, Closed(s1, h))
  {
  }

  lemma NamedAsLater(s0: Sched, s1: Sched, r: Sched, h: Pred, closed: Pred)
    requires NamedAs(s0, s1, h, closed) && |r.tally| == |s1.tally| == |s0.tally|
    requires forall c :: 0 <= c < |s1.tally| ==> TallyGrows(s1.tally[c], r.tally[c], s1.declSeq)
    ensures NamedAs(s0, r, h, closed)
  {
  }

  lemma NamingEnds(s0: Sched, s: Sched, st: TaskId, handles: seq<Pred>)
    requires Whole(s0) && Whole(s) && Naming(s0, s, st, handles, |handles|) && |s.cols| == |s0.cols|
    requires PredsOk(handles, |s0.state|, |s0.cols|)
    ensures |s.named[st]| == |s0.named[st]| + |handles| && s0.named[st] <= s.named[st]
    ensures HandlesTaken(s0, s, handles, s.named[st][|s0.named[st]|..])
  {
    hide Inv, HandlesTaken, NamedAs, FirstNamed, Nameable, TallyGrows;
    NamedAll(s0, s, handles, s.named[st][|s0.named[st]|..]);
  }

  // ---- After, and Define, of a container ----------------------------------

  /** c has no builder and no child yet. */
  predicate Undefined(s: Sched, c: nat) {
    && c < |s.builder| && c < |s.colTasks| && c < |s.colChildren|
    && s.builder[c] == NoBuilder && |s.colTasks[c]| + |s.colChildren[c]| == 0
  }

  /** No builder was Defined for c, and nothing is declared into it. */
  ghost predicate Untouched(s: Sched, c: nat) {
    && c < |s.builder| && s.builder[c] == NoBuilder
    && (forall x :: 0 <= x < |s.info| ==> s.info[x].home != c)
    && forall d :: 0 <= d < |s.cols| ==> s.cols[d].parent != c
  }

  lemma UndefinedMeans(s: Sched, c: nat)
    requires Whole(s)
    ensures c < |s.cols| ==> (Undefined(s, c) <==> Untouched(s, c))
  {
    hide Static, Members, Life, NamedOk, Memory, Tallies, Located, Edges, Led, QueueOk, Counts, Holds, Started,
        StartsPast, NoGate, GatesAlone;
    if c < |s.cols| {
      assert TasksAt(s.info, s.colTasks[c], c) && ChildrenAt(s.cols, s.colChildren[c], c);
      if s.colTasks[c] != [] {
        assert s.colTasks[c][0] in s.colTasks[c];
      }
      if s.colChildren[c] != [] {
        assert s.colChildren[c][0] in s.colChildren[c];
      }
    }
  }

  function EntryMore(s: Sched, c: nat, p: Pred): Sched
    requires c < |s.entry| && c < |s.tally|
  {
    s.(entry := s.entry[c := s.entry[c] + [p]], lateEntry := s.lateEntry + if s.tally[c].sealed || s.draining then {c} else {})
  }

  ghost predicate Entering(s0: Sched, s: Sched, c: nat, handles: seq<Pred>, n: nat) {
    && n <= |handles| && c < |s.entry| && c < |s0.entry| && c < |s.tally|
    && |s.entry[c]| == |s0.entry[c]| + n && s0.entry[c] <= s.entry[c]
    && (forall i :: 0 <= i < n ==> NamedAs(s0, s, handles[i], s.entry[c][|s0.entry[c]| + i]))
    && (n > 0 ==> FirstNamed(s0, handles, s.entry[c][|s0.entry[c]|]))
    && Nameable(s, handles) && PredsOk(handles, |s.state|, c) && s.declSeq == s0.declSeq && |s.tally| == |s0.tally|
    && (forall d :: 0 <= d < |s.tally| ==> TallyGrows(s0.tally[d], s.tally[d], s0.declSeq))
  }

  lemma EntriesMore(entry: seq<seq<Pred>>, tasks: nat, c: nat, p: Pred)
    requires EntriesOk(entry, tasks) && c < |entry| && PredOk(p, tasks, c)
    ensures EntriesOk(entry[c := entry[c] + [p]], tasks)
  {
  }

  lemma StaticMore(s: Sched, c: nat, p: Pred)
    requires Static(s.info, s.cols, s.declSeq, s.entry, s.lastStep) && c < |s.entry|
    requires PredOk(p, |s.info|, c) && (p.OnCol? ==> p.through <= s.declSeq)
    ensures Static(s.info, s.cols, s.declSeq, s.entry[c := s.entry[c] + [p]], s.lastStep)
  {
    EntriesMore(s.entry, |s.info|, c, p);
    var entry' := s.entry[c := s.entry[c] + [p]];
    forall y, q: Pred | 0 <= y < |entry'| && q in entry'[y] && q.OnCol? ensures q.through <= s.declSeq {
      assert q in s.entry[y] || q == p;
    }
  }

  lemma EdgesEntry(v: View, loc: seq<Loc>, edge: seq<Pred>, entry: seq<seq<Pred>>)
    requires Edges(v, loc, edge, -1)
    ensures Edges(v.(entry := entry), loc, edge, -1)
  {
    forall y | 0 <= y < |loc| ensures EdgeAt(v.(entry := entry), y, loc[y], edge[y], -1) {
      assert EdgeAt(v, y, loc[y], edge[y], -1);
    }
  }

  lemma EntryMoreOk(s: Sched, c: nat, p: Pred)
    requires Good(s) && c < |s.entry| && Nameable(s, [p]) && PredOk(p, |s.state|, c)
    ensures Good(EntryMore(s, c, p)) && Advances(s, EntryMore(s, c, p))
  {
    hide Static, Tree, Members, Life, NamedOk, Memory, Tallies, Located, Edges, Led, QueueOk, Counts, Holds,
        Started, StartsPast, NoGate, GatesAlone, Stops, EntriesGrow;
    StaticMore(s, c, p);
    EdgesEntry(V(s), s.loc, s.edge, s.entry[c := s.entry[c] + [p]]);
    EntryGrows(s.entry, c, p);
    LedGrows(s.entry, s.entry[c := s.entry[c] + [p]], s.preds, s.loc, s.edge);
    NoGateMore(s.info, s.entry, c, p);
    StopsKept(s, EntryMore(s, c, p));
  }

  lemma EntryGrows(entry: seq<seq<Pred>>, c: nat, p: Pred)
    requires c < |entry|
    ensures EntriesGrow(entry, entry[c := entry[c] + [p]])
  {
  }

  lemma EntryCloses(s0: Sched, s1: Sched, s2: Sched, c: nat, handles: seq<Pred>, i: nat, closed: Pred)
    requires Good(s1) && Good(s2) && Advances(s0, s1) && Cascaded(s1, s2, -1)
    requires Entering(s0, s1, c, handles, i) && i < |handles| && closed == Closed(s1, handles[i])
    requires Closing(s1, handles[i]) ==> handles[i].c < |s2.tally| && s2.tally[handles[i].c].sealed
    requires i == 0 ==> s1 == s0
    ensures c < |s2.entry| && c < |s2.tally| && s2.inflight == s1.inflight && |s2.state| == |s1.state| && |s2.cols| == |s1.cols|
    ensures Good(EntryMore(s2, c, closed)) && Advances(s0, EntryMore(s2, c, closed))
    ensures Entering(s0, EntryMore(s2, c, closed), c, handles, i + 1)
  {
    hide Inv, Stops, Advances, Nameable;
    LifeOf(s1);
    CascadeAdvances(s1, s2);
    AdvancesTwice(s0, s1, s2);
    ClosedNameable(s1, s2, handles, i);
    assert PredOk(handles[i], |s1.state|, c);
    EntryMoreOk(s2, c, closed);
    AdvancesTwice(s0, s2, EntryMore(s2, c, closed));
    EnteringMore(s0, s1, s2, c, handles, i, closed);
  }

  lemma EnteringMore(s0: Sched, s1: Sched, s2: Sched, c: nat, handles: seq<Pred>, i: nat, closed: Pred)
    requires Cascaded(s1, s2, -1) && Entering(s0, s1, c, handles, i) && i < |handles| && closed == Closed(s1, handles[i])
    requires Closing(s1, handles[i]) ==> handles[i].c < |s2.tally| && s2.tally[handles[i].c].sealed
    requires i == 0 ==> s1 == s0
    requires Nameable(s2, handles) && c < |s2.entry| && c < |s2.tally|
    ensures Entering(s0, EntryMore(s2, c, closed), c, handles, i + 1)
  {
    hide Closed, NamedAs, CascadedTask, FailuresLast;
    var r := EntryMore(s2, c, closed);
    assert Nameable(r, handles);
    TallyTwice(s0, s1, s2, r);
    NamedAsNow(s0, s1, r, handles[i]);
    forall k | 0 <= k < i + 1 ensures NamedAs(s0, r, handles[k], r.entry[c][|s0.entry[c]| + k]) {
      if k < i {
        assert NamedAs(s0, s1, handles[k], s1.entry[c][|s0.entry[c]| + k]);
        NamedAsLater(s0, s1, r, handles[k], s1.entry[c][|s0.entry[c]| + k]);
      }
    }
    FirstClosed(s0, handles);
  }

  lemma EnteringEnds(s0: Sched, s: Sched, c: nat, handles: seq<Pred>)
    requires Whole(s0) && Whole(s) && Entering(s0, s, c, handles, |handles|) && |s.cols| == |s0.cols|
    requires PredsOk(handles, |s0.state|, |s0.cols|)
    ensures |s.entry[c]| == |s0.entry[c]| + |handles| && s0.entry[c] <= s.entry[c]
    ensures HandlesTaken(s0, s, handles, s.entry[c][|s0.entry[c]|..])
  {
    hide Inv, HandlesTaken, NamedAs, FirstNamed, Nameable, TallyGrows;
    NamedAll(s0, s, handles, s.entry[c][|s0.entry[c]|..]);
  }

  /** b is a with one more builder pending on container c. */
  ghost predicate Held(a: Sched, b: Sched, c: nat) {
    && |b.tally| == |a.tally| == |a.cols|
    && forall d {:trigger b.tally[d]} :: 0 <= d < |a.tally| ==>
         b.tally[d] == if OnChain(a.cols, c, d) then a.tally[d].(holds := a.tally[d].holds + 1) else a.tally[d]
  }

  lemma HeldFrom(s0: Sched, s1: Sched, tally: seq<Tally>, s: Sched, c: nat)
    requires s1 == Bumped(s0) && s.tally == tally
    requires TalliesJoined(s1.tally, tally, s1.cols, TaskInfo(-1, s1.declSeq, c), Member(|s1.state|, s1.declSeq))
    ensures Held(s0, s, c)
  {
  }

  lemma GateGrowsOk(s: Sched, t: TaskInfo, tally: seq<Tally>)
    requires Good(s) && t.home == -1 && 0 <= t.gateFor < |s.cols| && t.decl == s.declSeq
    requires t.gateFor < |s.builder| && s.builder[t.gateFor] != NoBuilder
    requires TalliesJoined(s.tally, tally, s.cols, t, Member(|s.state|, t.decl))
    ensures t.gateFor < |s.entry| && GrowsBy(s, t, s.entry[t.gateFor], tally, s.colTasks, s.lastStep)
  {
    hide Tree, Members, Life, NamedOk, Memory, Tallies, Located, Edges, Led, QueueOk, Counts, Holds, Started,
        StartsPast, GatesAlone, Stops, TalliesJoined;
    var es := s.entry[t.gateFor];
    forall i | 0 <= i < |es| ensures PredOk(es[i], |s.state|, |s.cols|) {
      assert PredOk(s.entry[t.gateFor][i], |s.info|, t.gateFor);
    }
    forall p: Pred | p in es ensures p in s.entry[t.gateFor] {}
  }

  lemma GateFrame(a: Sched, b: Sched, but: int)
    requires Cascaded(a, b, but)
    ensures b.info == a.info && b.named == a.named && b.cancelled == a.cancelled
  {
  }
}
