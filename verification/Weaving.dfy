/** How declaring and naming keep what Tasks start after on record. */
module Weaving {
  import opened Outcomes
  import opened CollectionTally
  import opened Topology
  import opened Eligibility
  import opened WaitLists
  import opened RunState
  import opened Cascades
  import opened Followers
  import opened Rest
  import opened Growing
  import opened Declaring
  import opened Lineage
  import opened Tracing

  // ---- one more Task or container -------------------------------------------

  /** r is s with n, which names ps and is now the latest step of each of steps. */
  ghost predicate Adds(s: Sched, r: Sched, n: Node, ps: seq<Pred>, self: Pred, steps: seq<nat>) {
    && Shape(s) && Shape(r) && s.info <= r.info && s.cols <= r.cols
    && (forall m :: NodeAt(r, m) <==> NodeAt(s, m) || m == n)
    && (forall m :: NodeAt(s, m) ==> SameNode(s, r, m) && HomeAt(s, m) < |s.cols| && DeclAt(s, m) < DeclAt(r, n))
    && (forall c :: 0 <= c < |s.cols| ==> r.cols[c] == s.cols[c] && r.entry[c] == s.entry[c])
    && (forall c :: 0 <= c < |s.cols| ==> r.lastStep[c] == if c in steps then [self] else s.lastStep[c])
    && (forall c :: |s.cols| <= c < |r.cols| ==> r.lastStep[c] == [])
    && PredsAt(r, n) == ps && On(self, n) && StartsAfter(WebOf(r), self) == ps && Wider(WebOf(s), WebOf(r))
    && -1 <= HomeAt(r, n) < |s.cols|
    && (HomeAt(r, n) >= 0 ==> Takes(s, HomeAt(r, n), ps))
    && (InSequence(r, n, HomeAt(r, n)) ==> HomeAt(r, n) in steps)
    && (forall q :: q in steps ==>
      && q < |s.cols| && s.cols[q].sequential && Takes(s, q, ps)
      && (q == HomeAt(r, n) || HasStep(s, q)) && Within(r, q, self))
  }

  ghost predicate SameNode(s: Sched, r: Sched, m: Node) {
    HomeAt(r, m) == HomeAt(s, m) && DeclAt(r, m) == DeclAt(s, m) && PredsAt(r, m) == PredsAt(s, m)
  }

  ghost predicate Takes(s: Sched, q: nat, ps: seq<Pred>) {
    && q < |s.cols| && q < |s.lastStep| && q < |s.entry|
    && forall p :: p in NextStepPreds(s, q) ==> p in ps
  }

  /** What sits in a container goes on sitting in it. */
  lemma InsideGrown(s: Sched, r: Sched, c: int)
    requires s.info <= r.info && s.cols <= r.cols
    ensures Inside(s, c) <= Inside(r, c)
  {
    forall p | p in Inside(s, c) ensures p in Inside(r, c) {
      match p
      case Missing =>
      case OnTask(t) => ChainLonger(s.cols, r.cols, s.info[t].home, c);
      case OnCol(d, _) => ChainLonger(s.cols, r.cols, d, c);
    }
  }

  /** What q's next step starts after leads to what q starts after. */
  lemma TakesEntry(s: Sched, r: Sched, q: nat, ps: seq<Pred>, e: Pred)
    requires Lines(s) && Takes(s, q, ps) && Wider(WebOf(s), WebOf(r)) && e in s.entry[q]
    requires s.info <= r.info && s.cols <= r.cols
    ensures From(WebOf(r), ps, e, Inside(r, q))
  {
    assert Latest(s, q);
    InsideGrown(s, r, q);
    if s.cols[q].sequential && s.lastStep[q] != [] {
      FromGrows(WebOf(s), WebOf(r), s.lastStep[q], ps, e, Inside(s, q), Inside(r, q));
    } else {
      FromHere(WebOf(r), ps, e, Inside(r, q));
    }
  }

  /** And to every step q has. */
  lemma TakesSteps(s: Sched, r: Sched, q: nat, ps: seq<Pred>, m: Node)
    requires Lines(s) && Takes(s, q, ps) && Wider(WebOf(s), WebOf(r)) && InSequence(s, m, q)
    requires s.info <= r.info && s.cols <= r.cols
    ensures Meets(WebOf(r), ps, m, Inside(r, q))
  {
    assert Latest(s, q);
    assert StepKnown(s, q, m);
    InsideGrown(s, r, q);
    MeetsGrows(WebOf(s), WebOf(r), s.lastStep[q], ps, m, Inside(s, q), Inside(r, q));
  }

  lemma MeetsGrows(w: Web, v: Web, ps: seq<Pred>, qs: seq<Pred>, m: Node, via: iset<Pred>, wider: iset<Pred>)
    requires Wider(w, v) && Meets(w, ps, m, via) && via <= wider && forall p :: p in ps ==> p in qs
    ensures Meets(v, qs, m, wider)
  {
    var e :| From(w, ps, e, via) && On(e, m);
    FromGrows(w, v, ps, qs, e, via, wider);
  }

  lemma InheritsAdded(s: Sched, r: Sched, n: Node, ps: seq<Pred>, self: Pred, steps: seq<nat>, m: Node)
    requires Lines(s) && Adds(s, r, n, ps, self, steps) && NodeAt(r, m)
    ensures Inherits(r, m)
  {
    hide Inside, From;
    var a := HomeAt(r, m);
    if 0 <= a < |r.entry| {
      assert m != n ==> NodeAt(s, m) && SameNode(s, r, m) && Inherits(s, m);
      InsideGrown(s, r, a);
      forall e | e in r.entry[a] ensures From(WebOf(r), PredsAt(r, m), e, Inside(r, a)) {
        if m == n {
          TakesEntry(s, r, a, ps, e);
        } else {
          FromGrows(WebOf(s), WebOf(r), PredsAt(s, m), PredsAt(s, m), e, Inside(s, a), Inside(r, a));
        }
      }
    }
  }

  lemma OrderAdded(s: Sched, r: Sched, n: Node, ps: seq<Pred>, self: Pred, steps: seq<nat>, x: Node, y: Node)
    requires Lines(s) && Adds(s, r, n, ps, self, steps)
    ensures InOrder(r, x, y)
  {
    hide Inside, From, Meets;
    var a := HomeAt(r, x);
    if InSequence(r, x, a) && InSequence(r, y, a) && DeclAt(r, y) < DeclAt(r, x) {
      assert x != n ==> NodeAt(s, x) && SameNode(s, r, x);
      assert y != n ==> NodeAt(s, y) && SameNode(s, r, y);
      assert y != n;
      assert InSequence(s, y, a);
      if x == n {
        TakesSteps(s, r, a, ps, y);
      } else {
        assert InOrder(s, x, y);
        InsideGrown(s, r, a);
        MeetsGrows(WebOf(s), WebOf(r), PredsAt(s, x), PredsAt(s, x), y, Inside(s, a), Inside(r, a));
      }
    }
  }

  lemma LatestAdded(s: Sched, r: Sched, n: Node, ps: seq<Pred>, self: Pred, steps: seq<nat>, a: nat)
    requires Lines(s) && Adds(s, r, n, ps, self, steps)
    ensures Latest(r, a)
  {
    hide Inside, From, Meets;
    if a < |s.cols| && a in steps {
      LatestTaken(s, r, n, ps, self, steps, a);
    } else {
      assert Latest(s, a);
      InsideGrown(s, r, a);
      forall m ensures StepKnown(r, a, m) {
        if InSequence(r, m, a) {
          assert m != n ==> NodeAt(s, m) && SameNode(s, r, m);
          assert m != n && InSequence(s, m, a) && StepKnown(s, a, m);
          MeetsGrows(WebOf(s), WebOf(r), s.lastStep[a], s.lastStep[a], m, Inside(s, a), Inside(r, a));
        }
      }
      if a < |s.cols| && s.lastStep[a] != [] {
        var m :| InSequence(s, m, a);
        assert SameNode(s, r, m) && InSequence(r, m, a);
        forall e | e in r.entry[a] ensures From(WebOf(r), r.lastStep[a], e, Inside(r, a)) {
          FromGrows(WebOf(s), WebOf(r), s.lastStep[a], s.lastStep[a], e, Inside(s, a), Inside(r, a));
        }
      }
    }
  }

  lemma LatestTaken(s: Sched, r: Sched, n: Node, ps: seq<Pred>, self: Pred, steps: seq<nat>, a: nat)
    requires Lines(s) && Adds(s, r, n, ps, self, steps) && a in steps
    ensures Latest(r, a)
  {
    hide From;
    var w, via := WebOf(r), Inside(r, a);
    assert self in via;
    FromHere(w, [self], self, via);
    forall m ensures StepKnown(r, a, m) {
      if InSequence(r, m, a) && m != n {
        assert NodeAt(s, m) && SameNode(s, r, m) && InSequence(s, m, a);
        TakesSteps(s, r, a, ps, m);
        var e :| From(w, ps, e, via) && On(e, m);
        FromOn(w, [self], self, e, via);
      }
    }
    if HasStep(s, a) {
      var m :| InSequence(s, m, a);
      assert SameNode(s, r, m) && InSequence(r, m, a);
    } else {
      assert InSequence(r, n, a);
    }
    forall e | e in r.entry[a] ensures From(w, [self], e, via) {
      TakesEntry(s, r, a, ps, e);
      FromOn(w, [self], self, e, via);
    }
  }

  /** Closed edges copied from closed edges are closed. */
  lemma NextClosed(s: Sched, q: nat, p: Pred)
    requires Lines(s) && q < |s.cols| && p in NextStepPreds(s, q)
    ensures ClosedOver(p, s.tally)
  {
    assert p in s.lastStep[q] || p in s.entry[q];
  }

  lemma LinesAdded(s: Sched, r: Sched, n: Node, ps: seq<Pred>, self: Pred, steps: seq<nat>)
    requires Lines(s) && Adds(s, r, n, ps, self, steps)
    requires (forall g: nat :: GateWaits(r, g)) && (forall q: nat, p :: LatestHeld(r, q, p))
    requires EachClosed(r.named, r.tally) && EachClosed(r.entry, r.tally) && EachClosed(r.lastStep, r.tally)
    requires r.draining ==> r.drainAt <= r.declSeq
    ensures Lines(r)
  {
    hide Adds, InOrder, Inherits, Latest, GateWaits, EachClosed, LatestHeld;
    assert Shape(r) by { AddsShape(s, r, n, ps, self, steps); }
    forall m | NodeAt(r, m) ensures Inherits(r, m) {
      InheritsAdded(s, r, n, ps, self, steps, m);
    }
    forall x, y ensures InOrder(r, x, y) {
      OrderAdded(s, r, n, ps, self, steps, x, y);
    }
    forall a: nat ensures Latest(r, a) {
      LatestAdded(s, r, n, ps, self, steps, a);
    }
  }

  lemma AddsShape(s: Sched, r: Sched, n: Node, ps: seq<Pred>, self: Pred, steps: seq<nat>)
    requires Adds(s, r, n, ps, self, steps)
    ensures Shape(r)
  {
  }

  // ---- what is reached was declared before -----------------------------------

  /** What a started Task starts after was named by somebody, and closed by now. */
  lemma ReachedOk(s: Sched, x: nat, e: Pred, via: iset<Pred>)
    requires Lines(s) && CursorsPast(s.named, s.declSeq) && CursorsPast(s.entry, s.declSeq)
    requires x < |s.named| && From(WebOf(s), s.named[x], e, via)
    ensures ClosedOver(e, s.tally) && (e.OnCol? ==> e.through <= s.declSeq)
  {
    var path: seq<Pred> :| Along(WebOf(s), s.named[x], path, e, via);
    var n := |path| - 1;
    if n == 0 {
      assert e in s.named[x];
    } else {
      assert path[n - 1 + 1] in StartsAfter(WebOf(s), path[n - 1]);
      match path[n - 1]
      case Missing =>
      case OnTask(t) => assert e in s.named[t];
      case OnCol(c, _) => assert e in s.entry[c];
    }
  }

  /** Members declared since are past every cursor read before. */
  ghost predicate MembersSince(a: Sched, b: Sched) {
    && |a.tally| <= |b.tally| && a.draining == b.draining && a.drainAt == b.drainAt
    && (a.draining ==> a.drainAt <= a.declSeq)
    && forall c {:trigger b.tally[c]} :: 0 <= c < |a.tally| ==>
         && a.tally[c].members <= b.tally[c].members && a.tally[c].sealedThrough <= a.declSeq
         && (a.tally[c].sealed ==> b.tally[c].sealed && b.tally[c].sealedThrough == a.tally[c].sealedThrough)
         && forall i {:trigger b.tally[c].members[i]} :: |a.tally[c].members| <= i < |b.tally[c].members| ==>
              b.tally[c].members[i].declaration > a.declSeq
  }

  lemma FirmSince(a: Sched, b: Sched, e: Pred)
    requires MembersSince(a, b) && TerminalStays(a.state, b.state) && Firm(a, e)
    requires e.OnCol? ==> e.through <= a.declSeq
    ensures Firm(b, e)
  {
    match e
    case Missing =>
    case OnTask(t) => TerminalIffDecided(a.state[t]);
    case OnCol(c, through) =>
      var t, u := a.tally[c], b.tally[c];
      forall i | 0 <= i < |u.members| && u.members[i].declaration <= Cut(b, c, through) ensures SucceededIn(u.members[i], b.state) {
        assert i < |t.members|;
        assert SucceededIn(t.members[i], a.state) && t.members[i] == u.members[i];
        TerminalIffDecided(a.state[t.members[i].id]);
      }
  }

  ghost predicate WebGrows(a: Sched, b: Sched) {
    && |a.named| <= |b.named| && |a.entry| <= |b.entry| && |a.state| == |a.named| && |a.tally| == |a.entry|
    && (forall t :: 0 <= t < |a.named| ==> b.named[t] == a.named[t])
    && (forall c :: 0 <= c < |a.entry| ==> b.entry[c] == a.entry[c])
  }

  /** Whoever started names nothing new when a Task or a container joins. */
  lemma DeepAdded(a: Sched, b: Sched)
    requires Traced(a) && Advances(a, b) && MembersSince(a, b) && WebGrows(a, b) && |a.cols| == |a.tally|
    requires CursorsPast(a.named, a.declSeq) && CursorsPast(a.entry, a.declSeq)
    ensures Deep(b)
  {
    hide Lines, Advances, MembersSince, From, CursorsPast, CleanPred;
    AdvancesParts(a, b);
    AdvancesNamed(a, b);
    forall x: nat | RunsTask(b, x) && x < |b.named| ensures KeepsStarted(a, b, x) {
      forall e | From(WebOf(a), a.named[x], e, Clean(a)) && Firm(a, e) ensures KeepsFirm(a, b, e) {
        ReachedOk(a, x, e, Clean(a));
        FirmSince(a, b, e);
        FirmInRange(a, e);
        if CleanPred(b, e) {
          CleanBack(a, b, e);
        }
      }
    }
    DeepKept(a, b);
  }

  lemma AdvancesNamed(a: Sched, b: Sched)
    requires Advances(a, b)
    ensures |a.named| == |a.phase| && |b.named| == |b.phase|
  {
  }

  // ---- a declaration ----------------------------------------------------------

  /** Sequence q holds home in step, whose membership is taken as declared. */
  ghost predicate HeldIn(s: Sched, home: int, step: nat, q: nat) {
    && step < |s.cols| && step < |s.entry| && step < |s.tally| && q < |s.cols|
    && OnChain(s.cols, home, step) && s.cols[step].parent == q && s.tally[step].sealed
  }

  ghost predicate SitsPast(s: Sched, home: int, q: nat) { exists step: nat :: HeldIn(s, home, step, q) }

  ghost predicate Steps(s: Sched, home: int, q: nat, ps: seq<Pred>) {
    q < |s.cols| && s.cols[q].sequential && Takes(s, q, ps) && (q == home || SitsPast(s, home, q))
  }

  /** ps and steps are what a declaration into home, or at the root, takes. */
  ghost predicate Enters(s: Sched, home: int, steps: seq<nat>, ps: seq<Pred>) {
    && -1 <= home < |s.cols|
    && (home >= 0 ==> Takes(s, home, ps) && (s.cols[home].sequential ==> home in steps))
    && (forall q :: q in steps ==> Steps(s, home, q, ps))
    && (forall p :: p in ps ==> ClosedOver(p, s.tally))
  }

  lemma StepsEnter(a: Sched, b: Sched, home: int, steps: seq<nat>, ps: seq<Pred>)
    requires Lines(a) && SameLines(a, b) && -1 <= home < |a.cols|
    requires if home >= 0 then StepsTaken(a, b, home, steps, ps) else steps == [] && ps == []
    ensures Enters(b, home, steps, ps)
  {
    hide Takes, TakenFrom, Lines, Joined, NextStepPreds, SameMembers, SitsPast;
    if home >= 0 {
      assert Shape(a) by { LinesShape(a); }
      OwnTakes(a, b, home, steps, ps);
      forall q | q in steps ensures Steps(b, home, q, ps) {
        StepEnters(a, b, home, steps, ps, q);
      }
      forall p | p in ps ensures ClosedOver(p, b.tally) {
        StepClosed(a, b, home, steps, ps, p);
        ClosedOne(a, b, p);
      }
    }
  }

  lemma OwnTakes(a: Sched, b: Sched, home: nat, steps: seq<nat>, ps: seq<Pred>)
    requires SameLines(a, b) && StepsTaken(a, b, home, steps, ps)
    ensures Takes(b, home, ps)
  {
    assert Takes(a, home, ps);
  }

  lemma StepEnters(a: Sched, b: Sched, home: nat, steps: seq<nat>, ps: seq<Pred>, q: nat)
    requires Shape(a) && SameLines(a, b) && StepsTaken(a, b, home, steps, ps) && q in steps
    ensures Steps(b, home, q, ps)
  {
    if q == home {
      OwnTakes(a, b, home, steps, ps);
    } else {
      assert TakenFrom(a, b, home, q, ps);
      var step: nat :| OnChain(a.cols, home, step) && PassedOver(a, b, step, q);
      assert HeldIn(b, home, step, q);
      assert Takes(a, q, ps);
    }
  }

  lemma StepsInside(s: Sched, home: int, q: nat, ps: seq<Pred>)
    requires Steps(s, home, q, ps)
    ensures home >= 0
  {
    hide Takes;
  }

  lemma SitsWithin(s: Sched, home: int, q: nat, ps: seq<Pred>)
    requires ColsOk(s.cols) && 0 <= home < |s.cols| && Steps(s, home, q, ps)
    ensures OnChain(s.cols, home, q) && (q == home || HasStep(s, q))
  {
    if q == home {
      assert OnChain(s.cols, home, home);
    } else {
      var step: nat :| HeldIn(s, home, step, q);
      assert InSequence(s, ColNode(step), q);
      UpTheChain(s, home, step);
    }
  }

  lemma StepClosed(s: Sched, t: Sched, home: nat, steps: seq<nat>, ps: seq<Pred>, p: Pred)
    requires Lines(s) && StepsTaken(s, t, home, steps, ps) && p in ps
    ensures ClosedOver(p, s.tally)
  {
    hide Lines, Joined, NextStepPreds;
    if p in NextStepPreds(s, home) {
      NextClosed(s, home, p);
    } else {
      var q :| q in steps && TakenFrom(s, t, home, q, ps) && p in NextStepPreds(s, q);
      NextClosed(s, q, p);
    }
  }

  lemma ClosedOne(a: Sched, b: Sched, p: Pred)
    requires SameLines(a, b) && ClosedOver(p, a.tally)
    ensures ClosedOver(p, b.tally)
  {
    if p.OnCol? && p.through != 0 {
      assert SameMembers(a.tally[p.c], b.tally[p.c]);
    }
  }

  lemma LinesShape(s: Sched)
    requires Lines(s)
    ensures Shape(s)
  {
  }

  ghost predicate LastSteps(s: Sched, lastStep: seq<seq<Pred>>, steps: seq<nat>, self: Pred) {
    |lastStep| == |s.lastStep| && forall c :: 0 <= c < |s.lastStep| ==> lastStep[c] == if c in steps then [self] else s.lastStep[c]
  }

  lemma AddsTask(s: Sched, t: TaskInfo, ps: seq<Pred>, tally: seq<Tally>, colTasks: seq<seq<TaskId>>,
      lastStep: seq<seq<Pred>>, steps: seq<nat>)
    requires Shape(s) && Shape(Grown(s, t, ps, tally, colTasks, lastStep)) && ColsOk(s.cols) && TasksOk(s.info, s.cols)
    requires Fresh(s) && t.decl == s.declSeq && PredsInRange(s)
    requires Enters(s, t.home, steps, ps) && LastSteps(s, lastStep, steps, OnTask(|s.state|))
    ensures Adds(s, Grown(s, t, ps, tally, colTasks, lastStep), TaskNode(|s.state|), ps, OnTask(|s.state|), steps)
  {
    hide Takes, HasStep, SitsPast;
    var r := Grown(s, t, ps, tally, colTasks, lastStep);
    forall q | q in steps ensures Within(r, q, OnTask(|s.state|)) && (q == t.home || HasStep(s, q)) {
      StepsInside(s, t.home, q, ps);
      SitsWithin(s, t.home, q, ps);
    }
    forall m | NodeAt(s, m) ensures SameNode(s, r, m) && HomeAt(s, m) < |s.cols| && DeclAt(s, m) < t.decl {
    }
    forall p, q | q in StartsAfter(WebOf(s), p) ensures q in StartsAfter(WebOf(r), p) {
    }
  }

  /** Web lists are of this run's Tasks and containers. */
  ghost predicate PredsInRange(s: Sched) { |s.named| == |s.state| && |s.entry| == |s.tally| == |s.cols| }

  lemma AddsCol(s: Sched, ci: ColInfo, es: seq<Pred>, lastStep: seq<seq<Pred>>, colChildren: seq<seq<nat>>,
      steps: seq<nat>)
    requires Shape(s) && Shape(GrownCol(s, ci, es, lastStep, colChildren)) && ColsOk(s.cols) && TasksOk(s.info, s.cols)
    requires Fresh(s) && ci.decl == s.declSeq && PredsInRange(s)
    requires Enters(s, ci.parent, steps, es) && LastSteps(s, lastStep, steps, OnCol(|s.cols|, 0))
    ensures Adds(s, GrownCol(s, ci, es, lastStep, colChildren), ColNode(|s.cols|), es, OnCol(|s.cols|, 0), steps)
  {
    hide Takes, HasStep, SitsPast;
    var r := GrownCol(s, ci, es, lastStep, colChildren);
    forall q | q in steps ensures Within(r, q, OnCol(|s.cols|, 0)) && (q == ci.parent || HasStep(s, q)) {
      StepsInside(s, ci.parent, q, es);
      SitsWithin(s, ci.parent, q, es);
      ChainLonger(s.cols, r.cols, ci.parent, q);
    }
    forall m | NodeAt(s, m) ensures SameNode(s, r, m) && HomeAt(s, m) < |s.cols| && DeclAt(s, m) < ci.decl {
    }
    forall p, q | q in StartsAfter(WebOf(s), p) ensures q in StartsAfter(WebOf(r), p) {
    }
  }

  lemma StillUnder(s: Sched, r: Sched, c: nat, step: nat, q: nat)
    requires ColsOk(s.cols) && c < |s.cols| && StepsUnder(r, c, step, q)
    requires r.cols == s.cols || (|r.cols| == |s.cols| + 1 && r.cols[..|s.cols|] == s.cols)
    ensures StepsUnder(s, c, step, q)
  {
    ChainBounds(r.cols, c, step);
    if r.cols != s.cols {
      assert r.cols == s.cols + [r.cols[|s.cols|]];
      ChainStable(s.cols, r.cols[|s.cols|], c, step);
    }
  }

  /** What held before the declaration holds on. */
  lemma HeldGrown(s: Sched, r: Sched, q: nat, p: Pred)
    requires LatestHeld(s, q, p) && q < |s.lastStep| && p in s.lastStep[q] && ColsOk(s.cols)
    requires r.cols == s.cols || (|r.cols| == |s.cols| + 1 && r.cols[..|s.cols|] == s.cols)
    requires |s.tally| == |s.cols| && |r.tally| == |r.cols|
    requires forall c :: 0 <= c < |s.tally| ==> TallyAdvances(s.tally[c], r.tally[c])
    ensures p.OnCol? ==> SitsIn(r, q, p)
  {
    hide ColsOk, OnChain, StepsUnder;
    if p.OnCol? {
      ChainLonger(s.cols, r.cols, p.c, q);
      forall step: nat | step < |r.tally| && StepsUnder(r, p.c, step, q) ensures r.tally[step].sealed {
        StillUnder(s, r, p.c, step, q);
        UnderInRange(s, p.c, step, q);
        assert s.tally[step].sealed;
      }
    }
  }

  lemma UnderInRange(s: Sched, c: nat, step: nat, q: nat)
    requires StepsUnder(s, c, step, q)
    ensures step < |s.cols|
  {
  }

  lemma HeldTask(s: Sched, t: TaskInfo, ps: seq<Pred>, tally: seq<Tally>, colTasks: seq<seq<TaskId>>,
      lastStep: seq<seq<Pred>>, steps: seq<nat>, q: nat, p: Pred)
    requires LatestHeld(s, q, p) && ColsOk(s.cols) && Shape(s) && |tally| == |s.tally|
    requires forall c :: 0 <= c < |tally| ==> TallyAdvances(s.tally[c], tally[c])
    requires LastSteps(s, lastStep, steps, OnTask(|s.state|))
    ensures LatestHeld(Grown(s, t, ps, tally, colTasks, lastStep), q, p)
  {
    var r := Grown(s, t, ps, tally, colTasks, lastStep);
    if q < |r.lastStep| && p in r.lastStep[q] && q !in steps {
      HeldGrown(s, r, q, p);
    }
  }

  lemma HeldCol(s: Sched, ci: ColInfo, es: seq<Pred>, lastStep: seq<seq<Pred>>, colChildren: seq<seq<nat>>,
      steps: seq<nat>, q: nat, p: Pred)
    requires LatestHeld(s, q, p) && ColsOk(s.cols) && Shape(s) && Enters(s, ci.parent, steps, es)
    requires LastSteps(s, lastStep, steps, OnCol(|s.cols|, 0))
    ensures LatestHeld(GrownCol(s, ci, es, lastStep, colChildren), q, p)
  {
    hide Takes;
    var r, c := GrownCol(s, ci, es, lastStep, colChildren), |s.cols|;
    if q < |r.lastStep| && p in r.lastStep[q] {
      if q < |s.cols| && q in steps {
        assert Steps(s, ci.parent, q, es);
        StepsInside(s, ci.parent, q, es);
        SitsWithin(s, ci.parent, q, es);
        ChainLonger(s.cols, r.cols, ci.parent, q);
        assert OnChain(r.cols, c, q);
        forall step: nat | step < |r.tally| && step != c && OnChain(r.cols, c, step) && r.cols[step].parent == q
          ensures r.tally[step].sealed
        {
          StepIsSealed(s, ci, es, q, step);
        }
      } else {
        HeldGrown(s, r, q, p);
      }
    }
  }

  lemma StepIsSealed(s: Sched, ci: ColInfo, es: seq<Pred>, q: nat, step: nat)
    requires ColsOk(s.cols) && 0 <= ci.parent < |s.cols| && Steps(s, ci.parent, q, es)
    requires step < |s.cols| && OnChain(s.cols + [ci], ci.parent, step) && s.cols[step].parent == q && |s.tally| == |s.cols|
    ensures s.tally[step].sealed
  {
    hide Takes;
    ChainStable(s.cols, ci, ci.parent, step);
    if q == ci.parent {
      ChainBounds(s.cols, ci.parent, step);
    } else {
      var held: nat :| HeldIn(s, ci.parent, held, q);
      if held < step {
        ChildUnique(s.cols, ci.parent, step, held);
      } else if step < held {
        ChildUnique(s.cols, ci.parent, held, step);
      }
    }
  }

  /** One child of a container on a chain. */
  lemma ChildUnique(cols: seq<ColInfo>, c: int, high: nat, low: nat)
    requires ColsOk(cols) && OnChain(cols, c, high) && OnChain(cols, c, low) && low < high < |cols|
    ensures cols[low].parent != cols[high].parent
  {
    ChainSplit(cols, c, high, low);
    ChainBounds(cols, cols[high].parent, low);
  }

  lemma ClosedAdded(pss: seq<seq<Pred>>, ps: seq<Pred>, tally: seq<Tally>)
    requires EachClosed(pss, tally) && forall p :: p in ps ==> ClosedOver(p, tally)
    ensures EachClosed(pss + [ps], tally)
  {
  }

  lemma ClosedStepped(lastStep: seq<seq<Pred>>, after: seq<seq<Pred>>, self: Pred, tally: seq<Tally>)
    requires EachClosed(lastStep, tally) && |after| == |lastStep| && (self.OnCol? ==> self.through == 0)
    requires forall c :: 0 <= c < |after| ==> after[c] == lastStep[c] || after[c] == [self]
    ensures EachClosed(after, tally)
  {
  }

  /** A Task or a gate joins a state on record. */
  lemma LinesGrown(s: Sched, t: TaskInfo, ps: seq<Pred>, tally: seq<Tally>, colTasks: seq<seq<TaskId>>,
      lastStep: seq<seq<Pred>>, steps: seq<nat>)
    requires Lines(s) && Shape(Grown(s, t, ps, tally, colTasks, lastStep)) && ColsOk(s.cols) && TasksOk(s.info, s.cols)
    requires Fresh(s) && t.decl == s.declSeq
    requires Enters(s, t.home, steps, ps) && LastSteps(s, lastStep, steps, OnTask(|s.state|))
    requires |tally| == |s.tally| && forall c :: 0 <= c < |tally| ==> TallyAdvances(s.tally[c], tally[c])
    requires 0 <= t.gateFor < |s.entry| ==> ps == s.entry[t.gateFor]
    ensures Lines(Grown(s, t, ps, tally, colTasks, lastStep))
  {
    hide Inherits, InOrder, Latest, LatestHeld, Takes, HasStep, EachClosed, Adds, Fresh, ColsOk, TasksOk, TallyAdvances;
    var r := Grown(s, t, ps, tally, colTasks, lastStep);
    forall q: nat, p ensures LatestHeld(r, q, p) {
      HeldTask(s, t, ps, tally, colTasks, lastStep, steps, q, p);
    }
    AddsTask(s, t, ps, tally, colTasks, lastStep, steps);
    forall g: nat ensures GateWaits(r, g) {
      assert GateWaits(s, g);
    }
    ClosedAdded(s.named, ps, s.tally);
    ClosedStepped(s.lastStep, lastStep, OnTask(|s.state|), s.tally);
    ClosedKept(r.named, s.tally, tally);
    ClosedKept(s.entry, s.tally, tally);
    ClosedKept(lastStep, s.tally, tally);
    LinesAdded(s, r, TaskNode(|s.state|), ps, OnTask(|s.state|), steps);
  }

  lemma LinesGrownCol(s: Sched, ci: ColInfo, es: seq<Pred>, lastStep: seq<seq<Pred>>, colChildren: seq<seq<nat>>,
      steps: seq<nat>)
    requires Lines(s) && Shape(GrownCol(s, ci, es, lastStep, colChildren)) && ColsOk(s.cols) && TasksOk(s.info, s.cols)
    requires Fresh(s) && ci.decl == s.declSeq
    requires Enters(s, ci.parent, steps, es) && LastSteps(s, lastStep, steps, OnCol(|s.cols|, 0))
    ensures Lines(GrownCol(s, ci, es, lastStep, colChildren))
  {
    hide Inherits, InOrder, Latest, LatestHeld, Takes, HasStep, EachClosed, Adds, Fresh;
    var r := GrownCol(s, ci, es, lastStep, colChildren);
    forall q: nat, p ensures LatestHeld(r, q, p) {
      HeldCol(s, ci, es, lastStep, colChildren, steps, q, p);
    }
    AddsCol(s, ci, es, lastStep, colChildren, steps);
    forall g: nat ensures GateWaits(r, g) {
      assert GateWaits(s, g);
    }
    ClosedStepped(s.lastStep, lastStep, OnCol(|s.cols|, 0), s.tally);
    ClosedAdded(s.entry, es, s.tally);
    ClosedNone(lastStep, s.tally);
    ClosedKept(s.named, s.tally, r.tally);
    ClosedKept(r.entry, s.tally, r.tally);
    ClosedKept(r.lastStep, s.tally, r.tally);
    LinesAdded(s, r, ColNode(|s.cols|), es, OnCol(|s.cols|, 0), steps);
  }

  lemma ClosedNone(pss: seq<seq<Pred>>, tally: seq<Tally>)
    requires EachClosed(pss, tally)
    ensures EachClosed(pss + [[]], tally)
  {
  }

  // ---- the declaring steps ------------------------------------------------------

  lemma PastOf(s: Sched)
    requires Whole(s)
    ensures CursorsPast(s.named, s.declSeq) && CursorsPast(s.entry, s.declSeq) && ColsOk(s.cols) && TasksOk(s.info, s.cols)
    ensures Shape(s) && forall c :: 0 <= c < |s.tally| ==> s.tally[c].sealedThrough <= s.declSeq
  {
    hide Tree, Members, Life, Memory, Tallies, Located, Edges, Led, QueueOk, Counts, Holds, GatesKnown, Started, NoGate,
        GatesAlone;
  }

  lemma MembersJoined(a: Sched, s: Sched, t: TaskInfo, tally: seq<Tally>, r: Sched)
    requires SameLines(a, s) && a.declSeq < t.decl && (a.draining ==> a.drainAt <= a.declSeq)
    requires forall c :: 0 <= c < |a.tally| ==> a.tally[c].sealedThrough <= a.declSeq
    requires TalliesJoined(s.tally, tally, s.cols, t, Member(|s.state|, t.decl))
    requires r.tally == tally && r.draining == s.draining && r.drainAt == s.drainAt
    ensures MembersSince(a, r)
    ensures forall c :: 0 <= c < |tally| ==> TallyAdvances(s.tally[c], tally[c])
  {
    hide OnChain;
    forall c | 0 <= c < |a.tally|
      ensures a.tally[c].members <= r.tally[c].members
      ensures a.tally[c].sealed ==> r.tally[c].sealed && r.tally[c].sealedThrough == a.tally[c].sealedThrough
      ensures forall i {:trigger r.tally[c].members[i]} :: |a.tally[c].members| <= i < |r.tally[c].members| ==>
              r.tally[c].members[i].declaration > a.declSeq
    {
      assert SameMembers(a.tally[c], s.tally[c]);
    }
  }

  /** A Task or a gate declared: from before the cursor's advance to its joining. */
  lemma TaskTraced(a: Sched, s: Sched, t: TaskInfo, ps: seq<Pred>, tally: seq<Tally>, colTasks: seq<seq<TaskId>>,
      lastStep: seq<seq<Pred>>, steps: seq<nat>)
    requires Good(a) && Traced(a) && SameLines(a, s) && Good(s) && Fresh(s) && a.declSeq < s.declSeq == t.decl
    requires Enters(s, t.home, steps, ps) && LastSteps(s, lastStep, steps, OnTask(|s.state|))
    requires TalliesJoined(s.tally, tally, s.cols, t, Member(|s.state|, t.decl))
    requires 0 <= t.gateFor < |s.entry| ==> ps == s.entry[t.gateFor]
    requires var r := Grown(s, t, ps, tally, colTasks, lastStep); Quiet(r) && Advances(a, r)
    ensures Traced(Grown(s, t, ps, tally, colTasks, lastStep))
  {
    hide Inv, Stops, Inherits, InOrder, Latest, GateWaits, EachClosed, Deep, Advances, Enters, Fresh, Hands;
    var r := Grown(s, t, ps, tally, colTasks, lastStep);
    PastOf(a);
    PastOf(s);
    PastOf(r);
    LinesKept(a, s);
    MembersJoined(a, s, t, tally, r);
    LinesGrown(s, t, ps, tally, colTasks, lastStep, steps);
    DeepAdded(a, r);
  }

  lemma ColTraced(a: Sched, s: Sched, ci: ColInfo, es: seq<Pred>, lastStep: seq<seq<Pred>>, colChildren: seq<seq<nat>>,
      steps: seq<nat>)
    requires Good(a) && Traced(a) && SameLines(a, s) && Good(s) && Fresh(s) && a.declSeq < s.declSeq == ci.decl
    requires Enters(s, ci.parent, steps, es) && LastSteps(s, lastStep, steps, OnCol(|s.cols|, 0))
    requires var r := GrownCol(s, ci, es, lastStep, colChildren); Good(r) && Advances(a, r)
    ensures Traced(GrownCol(s, ci, es, lastStep, colChildren))
  {
    hide Inv, Stops, Inherits, InOrder, Latest, GateWaits, EachClosed, Deep, Advances, Enters, Fresh, Hands;
    var r := GrownCol(s, ci, es, lastStep, colChildren);
    PastOf(a);
    PastOf(s);
    PastOf(r);
    LinesKept(a, s);
    LinesGrownCol(s, ci, es, lastStep, colChildren, steps);
    assert MembersSince(a, r) by {
      forall c | 0 <= c < |a.tally| ensures SameMembers(a.tally[c], r.tally[c]) {
      }
    }
    DeepAdded(a, r);
  }

  /** What a handle is closed to is closed over a member. */
  lemma HandleClosed(s: Sched, r: Sched, h: Pred)
    requires Whole(s) && Whole(r) && Cascaded(s, r, -1) && (h.OnCol? ==> h.through == 0)
    requires Closing(s, h) ==> h.c < |r.tally| && r.tally[h.c].sealed
    ensures ClosedOver(Closed(s, h), r.tally)
  {
    hide Tree, Life, NamedOk, Memory, Located, Edges, Led, QueueOk, Counts, Holds, GatesKnown, Started, NoGate,
        GatesAlone, CascadedTask, Tallies;
    if Closing(s, h) {
      var t := r.tally[h.c];
      assert TallyGrows(s.tally[h.c], t, s.declSeq);
      assert MembersAt(r.info, r.cols, t, h.c);
    }
  }

  lemma LinesNamed(s: Sched, x: TaskId, p: Pred)
    requires Lines(s) && x < |s.preds| && x < |s.named| && ClosedOver(p, s.tally)
    ensures Lines(NamedMore(s, x, p))
  {
    var r := NamedMore(s, x, p);
    assert Wider(WebOf(s), WebOf(r)) by {
      forall q, e | e in StartsAfter(WebOf(s), q) ensures e in StartsAfter(WebOf(r), q) {
      }
    }
    hide Inherits, InOrder, Latest, LatestHeld, GateWaits, EachClosed;
    LinesWider(s, r);
    forall q: nat, p ensures LatestHeld(r, q, p) {
      HeldSame(s, r, q, p);
    }
    forall g: nat ensures GateWaits(r, g) {
      GateNamed(s, x, p, g);
    }
    ClosedNamed(s.named, x, p, s.tally);
  }

  lemma GateNamed(s: Sched, x: TaskId, p: Pred, g: nat)
    requires x < |s.preds| && x < |s.named| && GateWaits(s, g)
    ensures GateWaits(NamedMore(s, x, p), g)
  {
  }

  lemma ClosedNamed(pss: seq<seq<Pred>>, x: nat, p: Pred, tally: seq<Tally>)
    requires EachClosed(pss, tally) && x < |pss| && ClosedOver(p, tally)
    ensures EachClosed(pss[x := pss[x] + [p]], tally)
  {
  }

  /** Naming more keeps every line, when the entries of containers with something in
      them are as they were. */
  lemma LinesWider(s: Sched, r: Sched)
    requires (forall n :: NodeAt(s, n) ==> Inherits(s, n)) && (forall n, m :: InOrder(s, n, m)) && (forall a: nat :: Latest(s, a))
    requires r.info == s.info && r.cols == s.cols && r.lastStep == s.lastStep && |r.entry| == |s.entry| && |r.named| == |s.named|
    requires Wider(WebOf(s), WebOf(r))
    requires forall n :: NodeAt(s, n) && 0 <= HomeAt(s, n) < |s.entry| ==> r.entry[HomeAt(s, n)] == s.entry[HomeAt(s, n)]
    ensures (forall n :: NodeAt(r, n) ==> Inherits(r, n)) && (forall n, m :: InOrder(r, n, m)) && (forall a: nat :: Latest(r, a))
  {
    forall n | NodeAt(r, n) ensures Inherits(r, n) {
      InheritsWider(s, r, n);
    }
    forall n, m ensures InOrder(r, n, m) {
      OrderWider(s, r, n, m);
    }
    forall a: nat ensures Latest(r, a) {
      LatestWider(s, r, a);
    }
  }

  lemma PredsWider(s: Sched, r: Sched, n: Node)
    requires Wider(WebOf(s), WebOf(r)) && |r.entry| == |s.entry| && |r.named| == |s.named|
    ensures forall p :: p in PredsAt(s, n) ==> p in PredsAt(r, n)
  {
    forall p | p in PredsAt(s, n) ensures p in PredsAt(r, n) {
      match n
      case TaskNode(t) => assert p in StartsAfter(WebOf(s), OnTask(t));
      case ColNode(c) => assert p in StartsAfter(WebOf(s), OnCol(c, 0));
    }
  }

  lemma InheritsWider(s: Sched, r: Sched, n: Node)
    requires NodeAt(s, n) && Inherits(s, n) && Wider(WebOf(s), WebOf(r))
    requires r.info == s.info && r.cols == s.cols && |r.entry| == |s.entry| && |r.named| == |s.named|
    requires 0 <= HomeAt(s, n) < |s.entry| ==> r.entry[HomeAt(s, n)] == s.entry[HomeAt(s, n)]
    ensures Inherits(r, n)
  {
    hide From, Inside;
    var a := HomeAt(r, n);
    if 0 <= a < |r.entry| {
      InsideSame(s, r);
      PredsWider(s, r, n);
      forall e | e in r.entry[a] ensures From(WebOf(r), PredsAt(r, n), e, Inside(r, a)) {
        FromGrows(WebOf(s), WebOf(r), PredsAt(s, n), PredsAt(r, n), e, Inside(s, a), Inside(r, a));
      }
    }
  }

  lemma OrderWider(s: Sched, r: Sched, n: Node, m: Node)
    requires InOrder(s, n, m) && Wider(WebOf(s), WebOf(r))
    requires r.info == s.info && r.cols == s.cols && |r.entry| == |s.entry| && |r.named| == |s.named|
    ensures InOrder(r, n, m)
  {
    hide From, Inside, Meets;
    var a := HomeAt(r, n);
    if InSequence(r, n, a) && InSequence(r, m, a) && DeclAt(r, m) < DeclAt(r, n) {
      assert InSequence(s, n, a) && InSequence(s, m, a);
      InsideSame(s, r);
      PredsWider(s, r, n);
      MeetsGrows(WebOf(s), WebOf(r), PredsAt(s, n), PredsAt(r, n), m, Inside(s, a), Inside(r, a));
    }
  }

  lemma LatestWider(s: Sched, r: Sched, a: nat)
    requires Latest(s, a) && Wider(WebOf(s), WebOf(r))
    requires r.info == s.info && r.cols == s.cols && r.lastStep == s.lastStep && |r.entry| == |s.entry| && |r.named| == |s.named|
    requires forall n :: NodeAt(s, n) && 0 <= HomeAt(s, n) < |s.entry| ==> r.entry[HomeAt(s, n)] == s.entry[HomeAt(s, n)]
    ensures Latest(r, a)
  {
    hide From, Inside, Meets;
    InsideSame(s, r);
    forall m ensures StepKnown(r, a, m) {
      assert StepKnown(s, a, m);
      if InSequence(r, m, a) && a < |s.lastStep| {
        MeetsGrows(WebOf(s), WebOf(r), s.lastStep[a], s.lastStep[a], m, Inside(s, a), Inside(r, a));
      }
    }
    if a < |s.lastStep| && a < |s.entry| && s.lastStep[a] != [] {
      var m :| InSequence(s, m, a);
      assert InSequence(r, m, a);
      forall e | e in r.entry[a] ensures From(WebOf(r), r.lastStep[a], e, Inside(r, a)) {
        FromGrows(WebOf(s), WebOf(r), s.lastStep[a], s.lastStep[a], e, Inside(s, a), Inside(r, a));
      }
    }
  }

  /** x, not submitted yet, names one more: nobody who started starts after x. */
  lemma NamedTraced(s: Sched, x: TaskId, p: Pred)
    requires Good(s) && Traced(s) && x < |s.phase| && !IsSubmitted(s.phase[x]) && ClosedOver(p, s.tally)
    ensures x < |s.preds| && x < |s.named| && Traced(NamedMore(s, x, p))
  {
    hide Inv, Stops, Lines, From, IsTerminal, Hands, CleanCol;
    PastOf(s);
    LinesNamed(s, x, p);
    var r := NamedMore(s, x, p);
    forall y: nat | RunsTask(r, y) && y < |r.named| ensures KeepsStarted(s, r, y) {
      forall e | Firm(s, e) ensures KeepsFirm(s, r, e) {
        if CleanPred(r, e) {
          FirmInRange(s, e);
          CleanBack(s, r, e);
          if e.OnTask? {
            CleanRuns(s, e.t);
          }
        }
      }
    }
    DeepKept(s, r);
  }

  lemma LinesEntered(s: Sched, c: nat, p: Pred)
    requires Lines(s) && c < |s.entry| && c < |s.tally| && ClosedOver(p, s.tally)
    requires (forall n :: NodeAt(s, n) ==> HomeAt(s, n) != c) && (forall g :: 0 <= g < |s.info| ==> s.info[g].gateFor != c)
    ensures Lines(EntryMore(s, c, p))
  {
    var r := EntryMore(s, c, p);
    assert Wider(WebOf(s), WebOf(r)) by {
      forall q, e | e in StartsAfter(WebOf(s), q) ensures e in StartsAfter(WebOf(r), q) {
      }
    }
    hide Inherits, InOrder, Latest, LatestHeld, GateWaits, EachClosed;
    LinesWider(s, r);
    forall q: nat, p ensures LatestHeld(r, q, p) {
      HeldSame(s, r, q, p);
    }
    forall g: nat ensures GateWaits(r, g) {
      GateEntered(s, c, p, g);
    }
    ClosedNamed(s.entry, c, p, s.tally);
  }

  lemma GateEntered(s: Sched, c: nat, p: Pred, g: nat)
    requires c < |s.entry| && c < |s.tally| && GateWaits(s, g) && (g < |s.info| ==> s.info[g].gateFor != c)
    ensures GateWaits(EntryMore(s, c, p), g)
  {
  }

  /** What has no child and no builder yet is nobody's home. */
  lemma UndefinedEmpty(s: Sched, c: nat)
    requires Whole(s) && Undefined(s, c)
    ensures c < |s.cols| && (forall n :: NodeAt(s, n) ==> HomeAt(s, n) != c) && forall g :: 0 <= g < |s.info| ==> s.info[g].gateFor != c
  {
    hide Static, Members, Life, NamedOk, Memory, Tallies, Located, Edges, Led, QueueOk, Counts, Holds, Started,
        StartsPast, NoGate, GatesAlone;
    assert TasksAt(s.info, s.colTasks[c], c) && ChildrenAt(s.cols, s.colChildren[c], c);
    forall n | NodeAt(s, n) ensures HomeAt(s, n) != c {
      match n
      case TaskNode(t) => assert t !in s.colTasks[c];
      case ColNode(d) => assert d !in s.colChildren[c];
    }
  }

  lemma OwnClean(s: Sched, e: Pred)
    requires e.OnCol? && CleanPred(s, e) && e.c < |s.cols|
    ensures e.c !in s.lateEntry
  {
    assert OnChain(s.cols, e.c, e.c);
  }

  /** Container c, with no child and no builder, starts after one more. Whoever
      started after it did once it was sealed or the run drained, and that is put on
      record. */
  lemma EntryTraced(s: Sched, c: nat, p: Pred)
    requires Good(s) && Traced(s) && Undefined(s, c) && ClosedOver(p, s.tally)
    ensures c < |s.entry| && c < |s.tally| && Traced(EntryMore(s, c, p))
  {
    hide Inv, Stops, Lines, Undefined, Hands, IsTerminal, CleanPred, From;
    PastOf(s);
    UndefinedEmpty(s, c);
    LinesEntered(s, c, p);
    var r := EntryMore(s, c, p);
    forall y: nat | RunsTask(r, y) && y < |r.named| ensures KeepsStarted(s, r, y) {
      forall e | From(WebOf(s), s.named[y], e, Clean(s)) && Firm(s, e) ensures KeepsFirm(s, r, e) {
        ReachedOk(s, y, e, Clean(s));
        if CleanPred(r, e) {
          FirmInRange(s, e);
          CleanBack(s, r, e);
          if e.OnCol? {
            OwnClean(r, e);
          }
        }
      }
    }
    DeepKept(s, r);
  }

  // ---- as the run makes them -----------------------------------------------------

  /** a bumped, cascaded to s, and t joined. */
  lemma TaskOnRecord(a: Sched, m: Sched, s: Sched, t: TaskInfo, ps: seq<Pred>, tally: seq<Tally>,
      colTasks: seq<seq<TaskId>>, lastStep: seq<seq<Pred>>, steps: seq<nat>)
    requires Good(a) && Traced(a) && m == Bumped(a) && Good(m) && Cascaded(m, s, -1) && Good(s) && Fresh(s)
    requires t.gateFor == -1 && t.decl == s.declSeq && -1 <= t.home < |a.cols|
    requires if t.home >= 0 then StepsTaken(m, s, t.home, steps, ps) else steps == [] && ps == []
    requires LastSteps(s, lastStep, steps, OnTask(|s.state|))
    requires TalliesJoined(s.tally, tally, s.cols, t, Member(|s.state|, t.decl))
    requires var r := Grown(s, t, ps, tally, colTasks, lastStep); Quiet(r) && Advances(a, r)
    ensures Traced(Grown(s, t, ps, tally, colTasks, lastStep))
  {
    hide Inv, Stops, Lines, Deep, Advances, Enters, Fresh, Cascaded, StepsTaken, LastSteps, SameMembers, Hands;
    BumpedLines(a, m, s);
    StepsEnter(m, s, t.home, steps, ps);
    TaskTraced(a, s, t, ps, tally, colTasks, lastStep, steps);
  }

  lemma BumpedLines(a: Sched, m: Sched, s: Sched)
    requires Traced(a) && m == Bumped(a) && Cascaded(m, s, -1) && Good(s)
    ensures Lines(m) && SameLines(m, s) && SameLines(a, s) && a.declSeq < s.declSeq && s.cols == m.cols == a.cols
  {
    hide Inv, Stops, Lines, Deep, CascadedTask, Hands;
    WholeShape(s);
    SameLinesCascaded(m, s, -1);
    assert SameLines(a, m);
    LinesKept(a, m);
    LinesTwice(a, m, s);
  }

  lemma ColOnRecord(a: Sched, m: Sched, s: Sched, ci: ColInfo, es: seq<Pred>, lastStep: seq<seq<Pred>>,
      colChildren: seq<seq<nat>>, steps: seq<nat>)
    requires Good(a) && Traced(a) && m == Bumped(a) && Good(m) && Cascaded(m, s, -1) && Good(s) && Fresh(s)
    requires ci.decl == s.declSeq && -1 <= ci.parent < |a.cols|
    requires if ci.parent >= 0 then StepsTaken(m, s, ci.parent, steps, es) else steps == [] && es == []
    requires LastSteps(s, lastStep, steps, OnCol(|s.cols|, 0))
    requires var r := GrownCol(s, ci, es, lastStep, colChildren); Good(r) && Advances(a, r)
    ensures Traced(GrownCol(s, ci, es, lastStep, colChildren))
  {
    hide Inv, Stops, Lines, Deep, Advances, Enters, Fresh, Cascaded, StepsTaken, LastSteps, SameMembers, Hands;
    BumpedLines(a, m, s);
    StepsEnter(m, s, ci.parent, steps, es);
    ColTraced(a, s, ci, es, lastStep, colChildren, steps);
  }

  /** Container t.gateFor's gate joins. */
  lemma GateOnRecord(a: Sched, s: Sched, t: TaskInfo, tally: seq<Tally>)
    requires Good(a) && Traced(a) && Good(s) && Fresh(s)
    requires s == Bumped(a).(builder := s.builder)
    requires 0 <= t.gateFor < |s.entry| && t.home == -1 && t.decl == s.declSeq
    requires TalliesJoined(s.tally, tally, s.cols, t, Member(|s.state|, t.decl))
    requires var r := Grown(s, t, s.entry[t.gateFor], tally, s.colTasks, s.lastStep); Quiet(r) && Advances(a, r)
    ensures Traced(Grown(s, t, s.entry[t.gateFor], tally, s.colTasks, s.lastStep))
  {
    hide Inv, Stops, Inherits, InOrder, Latest, GateWaits, Deep, Advances, Fresh, Hands;
    PastOf(s);
    assert SameLines(a, s);
    forall p | p in s.entry[t.gateFor] ensures ClosedOver(p, s.tally) {
    }
    TaskTraced(a, s, t, s.entry[t.gateFor], tally, s.colTasks, s.lastStep, []);
  }

  lemma StopTraced(a: Sched, b: Sched, batch: iset<nat>)
    requires Traced(a) && Quiet(a) && Good(b) && Swept(a, b, batch, NotStarted)
    ensures Traced(b)
  {
    hide Inv, Stops, Traced, Swept, Advances, SameLines, Hands;
    WholeShape(b);
    LifeOf(a);
    SweptAdvances(a, b, batch, NotStarted);
    SameLinesSwept(a, b, batch, NotStarted);
    TracedKept(a, b);
  }

  lemma NamingTraced(a: Sched, s: Sched, x: TaskId, handles: seq<Pred>, i: nat, closed: Pred)
    requires Good(a) && Traced(a) && Good(s) && Cascaded(a, s, -1) && x < |a.phase| && !IsSubmitted(a.phase[x])
    requires i < |handles| && Unclosed(handles) && closed == Closed(a, handles[i])
    requires Closing(a, handles[i]) ==> handles[i].c < |s.tally| && s.tally[handles[i].c].sealed
    ensures x < |s.preds| && x < |s.named| && Traced(NamedMore(s, x, closed))
  {
    hide Inv, Stops, Traced, Cascaded, CascadedTask, Closing, Closed, Hands;
    LifeOf(a);
    CascadeAdvances(a, s);
    CascadeTraced(a, s, -1);
    HandleClosed(a, s, handles[i]);
    assert CascadedTask(a, s, x) by { CascadedOne(a, s, x); }
    StillUnsubmitted(a, s, x);
    NamedTraced(s, x, closed);
  }

  lemma CascadedOne(a: Sched, b: Sched, x: nat)
    requires Cascaded(a, b, -1) && x < |a.phase|
    ensures x < |a.state| == |a.phase| == |b.state| == |b.phase| && CascadedTask(a, b, x)
  {
  }

  lemma StillUnsubmitted(a: Sched, b: Sched, x: nat)
    requires x < |a.state| == |a.phase| == |b.state| == |b.phase| && CascadedTask(a, b, x) && !IsSubmitted(a.phase[x])
    ensures !IsSubmitted(b.phase[x])
  {
  }

  lemma EnteringTraced(a: Sched, s: Sched, c: nat, handles: seq<Pred>, i: nat, closed: Pred)
    requires Good(a) && Traced(a) && Good(s) && Cascaded(a, s, -1) && Undefined(a, c)
    requires i < |handles| && Unclosed(handles) && closed == Closed(a, handles[i])
    requires Closing(a, handles[i]) ==> handles[i].c < |s.tally| && s.tally[handles[i].c].sealed
    ensures c < |s.entry| && c < |s.tally| && Traced(EntryMore(s, c, closed)) && Undefined(EntryMore(s, c, closed), c)
  {
    hide Inv, Stops, Traced, Cascaded, Closing, Closed, Hands;
    LifeOf(a);
    CascadeAdvances(a, s);
    CascadeTraced(a, s, -1);
    HandleClosed(a, s, handles[i]);
    StillUndefined(a, s, c);
    EntryTraced(s, c, closed);
  }

  lemma StillUndefined(a: Sched, b: Sched, c: nat)
    requires Cascaded(a, b, -1) && Undefined(a, c)
    ensures Undefined(b, c)
  {
  }

  /** The run with container c's gate declared. */
  function WithGate(s: Sched, c: nat, tally: seq<Tally>): Sched
    requires c < |s.builder| && c < |s.entry|
  {
    var m := Bumped(s).(builder := s.builder[c := BuilderPending]);
    Grown(m, TaskInfo(-1, m.declSeq, c), m.entry[c], tally, m.colTasks, m.lastStep)
  }

  lemma GateJoins(s: Sched, c: nat, tally: seq<Tally>)
    requires Good(s) && Traced(s) && s.declSeq + 1 < THROUGH_ALL && c < |s.cols| && Undefined(s, c)
    requires TalliesJoined(s.tally, tally, s.cols, TaskInfo(-1, s.declSeq + 1, c), Member(|s.state|, s.declSeq + 1))
    ensures c < |s.builder| && c < |s.entry|
    ensures var r := WithGate(s, c, tally);
      && Good(r) && Traced(r) && Advances(s, r) && r.inflight == s.inflight && |s.state| == |s.info| == |s.named|
  {
    hide Inv, Stops, Traced, Advances, Fresh, GrowsBy, TalliesJoined, Hands, StopsBar;
    PastOf(s);
    BumpedOk(s);
    var s1 := Bumped(s);
    var s2 := s1.(builder := s1.builder[c := BuilderPending]);
    var t := TaskInfo(-1, s2.declSeq, c);
    BuilderSet(s1, s2.builder);
    GateGrowsOk(s2, t, tally);
    GrownGood(s2, t, s2.entry[c], tally, s2.colTasks, s2.lastStep);
    AdvancesTwice(s, s1, s2);
    AdvancesTwice(s, s2, WithGate(s, c, tally));
    GateOnRecord(s, s2, t, tally);
  }
}
