/** How each step of a run keeps what its Tasks started after on record. */
module Tracing {
  import opened Outcomes
  import opened CollectionTally
  import opened Topology
  import opened Eligibility
  import opened WaitLists
  import opened RunState
  import opened Cascades
  import opened Starting
  import opened Followers
  import opened Rest
  import opened Draining
  import opened Growing
  import opened Declaring
  import opened Lineage

  // ---- steps that declare nothing ------------------------------------------

  /** Nothing new is declared or named, and tallies only take seals. */
  ghost predicate SameLines(a: Sched, b: Sched) {
    && b.info == a.info && b.cols == a.cols && b.named == a.named && b.entry == a.entry && b.lastStep == a.lastStep
    && b.draining == a.draining && b.drainAt == a.drainAt && b.lateEntry == a.lateEntry && a.declSeq <= b.declSeq
    && |b.tally| == |a.tally| && (Shape(a) ==> Shape(b))
    && forall c {:trigger b.tally[c]} :: 0 <= c < |a.tally| ==> SameMembers(a.tally[c], b.tally[c])
  }

  ghost predicate SameMembers(t: Tally, u: Tally) {
    u.members == t.members && (t.sealed ==> u.sealed && u.sealedThrough == t.sealedThrough)
  }

  lemma LinesTwice(a: Sched, b: Sched, c: Sched)
    requires SameLines(a, b) && SameLines(b, c)
    ensures SameLines(a, c)
  {
    forall d | 0 <= d < |a.tally| ensures SameMembers(a.tally[d], c.tally[d]) {
      assert SameMembers(a.tally[d], b.tally[d]) && SameMembers(b.tally[d], c.tally[d]);
    }
  }

  lemma LinesKept(a: Sched, b: Sched)
    requires Lines(a) && SameLines(a, b)
    ensures Lines(b)
  {
    InsideSame(a, b);
    forall n | NodeAt(b, n) ensures Inherits(b, n) {
      assert Inherits(a, n);
    }
    forall n, m ensures InOrder(b, n, m) {
      assert InOrder(a, n, m);
    }
    forall c: nat ensures Latest(b, c) {
      LatestSame(a, b, c);
    }
    forall q: nat, p ensures LatestHeld(b, q, p) {
      HeldSame(a, b, q, p);
    }
    forall g: nat ensures GateWaits(b, g) {
      assert GateWaits(a, g);
    }
    ClosedKept(a.named, a.tally, b.tally);
    ClosedKept(a.entry, a.tally, b.tally);
    ClosedKept(a.lastStep, a.tally, b.tally);
  }

  lemma HeldSame(a: Sched, b: Sched, q: nat, p: Pred)
    requires LatestHeld(a, q, p) && b.lastStep == a.lastStep && b.cols == a.cols && |b.tally| == |a.tally|
    requires forall c :: 0 <= c < |a.tally| && a.tally[c].sealed ==> b.tally[c].sealed
    ensures LatestHeld(b, q, p)
  {
  }

  lemma InsideSame(a: Sched, b: Sched)
    requires b.info == a.info && b.cols == a.cols
    ensures forall c :: Inside(b, c) == Inside(a, c)
  {
    forall c ensures Inside(b, c) == Inside(a, c) {
      assert forall p :: Within(b, c, p) == Within(a, c, p);
    }
  }

  lemma LatestSame(a: Sched, b: Sched, c: nat)
    requires SameLines(a, b) && Latest(a, c)
    ensures Latest(b, c)
  {
    InsideSame(a, b);
    forall m ensures StepKnown(b, c, m) {
      assert StepKnown(a, c, m);
    }
    if HasStep(a, c) {
      var m :| InSequence(a, m, c);
      assert InSequence(b, m, c);
    }
  }

  /** A closed edge stays closed over a member, whatever joins later. */
  lemma ClosedKept(pss: seq<seq<Pred>>, a: seq<Tally>, b: seq<Tally>)
    requires EachClosed(pss, a) && |a| <= |b| && forall c :: 0 <= c < |a| ==> TallyAdvances(a[c], b[c])
    ensures EachClosed(pss, b)
  {
    forall x, p | 0 <= x < |pss| && p in pss[x] ensures ClosedOver(p, b) {
      assert ClosedOver(p, a);
    }
  }

  // ---- what is firm stays firm ---------------------------------------------

  /** What is firm stays firm; what is clean was, and names nothing new. */
  ghost predicate KeepsFirm(a: Sched, b: Sched, e: Pred) {
    Firm(a, e) ==>
      && Firm(b, e)
      && (CleanPred(b, e) ==> CleanPred(a, e) && StartsAfter(WebOf(b), e) == StartsAfter(WebOf(a), e))
  }

  ghost predicate KeepsStarted(a: Sched, b: Sched, x: nat) {
    && RunsTask(a, x) && x < |a.named| && x < |b.named| && b.named[x] == a.named[x]
    && forall e :: From(WebOf(a), a.named[x], e, Clean(a)) ==> KeepsFirm(a, b, e)
  }

  lemma DeepKept(a: Sched, b: Sched)
    requires Deep(a) && forall x: nat :: RunsTask(b, x) && x < |b.named| ==> KeepsStarted(a, b, x)
    ensures Deep(b)
  {
    forall x: nat | RunsTask(b, x) && x < |b.named| ensures AllFirm(b, b.named[x]) {
      assert KeepsStarted(a, b, x);
      StartedKept(a, b, x);
    }
  }

  lemma StartedKept(a: Sched, b: Sched, x: nat)
    requires KeepsStarted(a, b, x) && AllFirm(a, a.named[x])
    ensures AllFirm(b, b.named[x])
  {
    hide Firm, StartsAfter, CleanPred;
    forall f | From(WebOf(b), b.named[x], f, Clean(b)) ensures Firm(b, f) {
      assert ReachedSame(WebOf(a), WebOf(b), a.named[x], Clean(a), Clean(b)) by {
        forall e | From(WebOf(a), a.named[x], e, Clean(a)) && e in Clean(b)
          ensures e in Clean(a) && StartsAfter(WebOf(b), e) == StartsAfter(WebOf(a), e)
        {
          assert KeepsFirm(a, b, e);
        }
      }
      FromSame(WebOf(a), WebOf(b), a.named[x], f, Clean(a), Clean(b));
      assert KeepsFirm(a, b, f);
    }
  }

  /** What a step may do to successes and to who runs. */
  ghost predicate RunsOn(a: Sched, b: Sched) {
    && |a.state| == |a.phase| && TerminalStays(a.state, b.state) && a.info <= b.info && a.cols <= b.cols
    && a.lateEntry <= b.lateEntry
    && forall t: nat :: RunsTask(b, t) && t < |a.state| && IsTerminal(a.state[t]) ==> RunsTask(a, t)
  }

  /** What is clean after a step was before it. */
  lemma CleanBack(a: Sched, b: Sched, e: Pred)
    requires RunsOn(a, b) && CleanPred(b, e) && (e.OnCol? ==> e.c < |a.cols|)
    ensures CleanPred(a, e)
  {
    match e
    case Missing =>
    case OnTask(t) => CleanTaskBack(a, b, t);
    case OnCol(c, _) =>
      forall d: nat | OnChain(a.cols, d, c) ensures d !in a.lateEntry {
        ChainLonger(a.cols, b.cols, d, c);
      }
      forall t: nat | Below(a.info, a.cols, t, c) ensures CleanTask(a, t) {
        ChainLonger(a.cols, b.cols, a.info[t].home, c);
        assert Below(b.info, b.cols, t, c);
        CleanTaskBack(a, b, t);
      }
  }

  lemma CleanTaskBack(a: Sched, b: Sched, t: TaskId)
    requires RunsOn(a, b) && CleanTask(b, t)
    ensures CleanTask(a, t)
  {
    if Succeeded(a, t) {
      TerminalIffDecided(a.state[t]);
      assert b.state[t] == a.state[t];
    }
  }

  lemma FirmKept(a: Sched, b: Sched, e: Pred)
    requires SameLines(a, b) && TerminalStays(a.state, b.state) && Firm(a, e)
    ensures Firm(b, e)
  {
    match e
    case Missing =>
    case OnTask(t) => TerminalIffDecided(a.state[t]);
    case OnCol(c, through) =>
      assert SameMembers(a.tally[c], b.tally[c]);
      forall i | 0 <= i < |b.tally[c].members| && b.tally[c].members[i].declaration <= Cut(b, c, through)
        ensures SucceededIn(b.tally[c].members[i], b.state)
      {
        assert SucceededIn(a.tally[c].members[i], a.state);
        TerminalIffDecided(a.state[a.tally[c].members[i].id]);
      }
  }

  /** A step that declares and starts nothing. */
  lemma TracedKept(a: Sched, b: Sched)
    requires Traced(a) && SameLines(a, b) && Advances(a, b)
    ensures Traced(b)
  {
    hide Lines, Firm, From, Advances, SameLines, CleanPred;
    AdvancesParts(a, b);
    LinesKept(a, b);
    SameWeb(a, b);
    forall x: nat | RunsTask(b, x) && x < |b.named| ensures KeepsStarted(a, b, x) {
      forall e | Firm(a, e) ensures KeepsFirm(a, b, e) {
        FirmKept(a, b, e);
        if CleanPred(b, e) {
          FirmInRange(a, e);
          CleanBack(a, b, e);
        }
      }
    }
    DeepKept(a, b);
  }

  lemma FirmInRange(s: Sched, e: Pred)
    requires Firm(s, e)
    ensures e.OnTask? ==> e.t < |s.state|
    ensures e.OnCol? ==> e.c < |s.tally|
  {
  }

  lemma SameWeb(a: Sched, b: Sched)
    requires SameLines(a, b) && Lines(a)
    ensures WebOf(b) == WebOf(a) && b.named == a.named && b.cols == a.cols && |a.tally| == |a.cols|
  {
  }

  lemma AdvancesParts(a: Sched, b: Sched)
    requires Advances(a, b)
    ensures TerminalStays(a.state, b.state) && |b.phase| == |b.state| && |a.phase| == |a.state|
    ensures forall x: nat :: RunsTask(b, x) ==> RunsTask(a, x)
    ensures a.info <= b.info && a.cols <= b.cols && a.lateEntry <= b.lateEntry
  {
  }

  lemma SameLinesCascaded(a: Sched, b: Sched, but: int)
    requires Cascaded(a, b, but) && (Shape(a) ==> Shape(b))
    ensures SameLines(a, b)
  {
    forall c | 0 <= c < |a.tally| ensures SameMembers(a.tally[c], b.tally[c]) {
      assert TallyGrows(a.tally[c], b.tally[c], a.declSeq);
    }
  }

  lemma SameLinesSwept(a: Sched, b: Sched, batch: iset<nat>, to: EntityState)
    requires Swept(a, b, batch, to) && (Shape(a) ==> Shape(b))
    ensures SameLines(a, b)
  {
    forall c | 0 <= c < |a.tally| ensures SameMembers(a.tally[c], b.tally[c]) {
      assert TallyGrows(a.tally[c], b.tally[c], a.declSeq);
    }
  }

  lemma BlankTraced(s: Sched)
    requires Blank(s)
    ensures Traced(s)
  {
  }

  lemma WholeShape(s: Sched)
    requires Whole(s)
    ensures Shape(s)
  {
  }

  lemma CascadeTraced(a: Sched, b: Sched, but: int)
    requires Good(a) && Good(b) && Traced(a) && Cascaded(a, b, but) && Advances(a, b)
    ensures Traced(b) && SameLines(a, b)
  {
    hide Inv, Stops, Traced, Cascaded, Advances, SameLines;
    WholeShape(b);
    SameLinesCascaded(a, b, but);
    TracedKept(a, b);
  }

  lemma SweepTraced(a: Sched, b: Sched, batch: iset<nat>, to: EntityState)
    requires Good(a) && Good(b) && Traced(a) && Swept(a, b, batch, to) && Advances(a, b)
    ensures Traced(b)
  {
    hide Inv, Stops, Traced, Swept, Advances, SameLines;
    WholeShape(b);
    SameLinesSwept(a, b, batch, to);
    TracedKept(a, b);
  }

  /** A failure and the walk that stops its followers. */
  lemma WalkTraced(a: Sched, m: Sched, b: Sched, st: TaskId, batch: iset<nat>)
    requires Good(a) && Good(m) && Good(b) && Traced(a) && Cascaded(a, m, st) && Swept(Restopped(m, b), b, batch, NotStarted)
    requires Advances(a, b)
    ensures Traced(b)
  {
    hide Inv, Stops, Traced, Cascaded, Swept, Advances, SameMembers;
    WholeShape(m);
    WholeShape(b);
    SameLinesCascaded(a, m, st);
    SameLinesSwept(Restopped(m, b), b, batch, NotStarted);
    RestoppedLines(m, b);
    LinesTwice(a, m, b);
    TracedKept(a, b);
  }

  lemma RestoppedLines(m: Sched, b: Sched)
    requires SameLines(Restopped(m, b), b) && Shape(b)
    ensures SameLines(m, b)
  {
  }

  /** The drain reads no started edge any further than it was read. */
  lemma TracedDrained(s: Sched)
    requires Traced(s) && Good(s)
    ensures Traced(Drained(s))
  {
    hide Static, Tree, Members, Life, NamedOk, Memory, Tallies, Located, Edges, Led, QueueOk, Counts, Holds,
        GatesKnown, Started, NoGate, GatesAlone, Stops, From, CleanPred;
    var r := Drained(s);
    LinesDrained(s);
    forall e | Firm(s, e) ensures KeepsFirm(s, r, e) {
      if e.OnCol? {
        assert r.tally[e.c] == Unparked(s.tally[e.c]);
        assert s.tally[e.c].sealedThrough <= s.declSeq;
      }
      if CleanPred(r, e) {
        CleanBack(s, r, e);
      }
    }
    DeepKept(s, r);
  }

  lemma DrainTraced(s: Sched, t: Sched)
    requires Good(s) && Good(t) && Traced(s) && Whole(Drained(s)) && Cascaded(Drained(s), t, -1)
    ensures Traced(t)
  {
    hide Inv, Stops, Traced, Cascaded, SameLines, Advances;
    TracedDrained(s);
    WholeShape(t);
    LifeOf(Drained(s));
    CascadeAdvances(Drained(s), t);
    SameLinesCascaded(Drained(s), t, -1);
    TracedKept(Drained(s), t);
  }

  lemma LinesDrained(s: Sched)
    requires Lines(s)
    ensures Lines(Drained(s))
  {
    var r := Drained(s);
    InsideSame(s, r);
    forall n | NodeAt(r, n) ensures Inherits(r, n) {
      assert Inherits(s, n);
    }
    forall n, m ensures InOrder(r, n, m) {
      assert InOrder(s, n, m);
    }
    forall c: nat ensures Latest(r, c) {
      assert Latest(s, c);
      forall m ensures StepKnown(r, c, m) {
        assert StepKnown(s, c, m);
      }
      if HasStep(s, c) {
        var m :| InSequence(s, m, c);
        assert InSequence(r, m, c);
      }
    }
    forall q: nat, p ensures LatestHeld(r, q, p) {
      HeldSame(s, r, q, p);
    }
    forall g: nat ensures GateWaits(r, g) {
      assert GateWaits(s, g);
    }
    ClosedKept(s.named, s.tally, r.tally);
    ClosedKept(s.entry, s.tally, r.tally);
    ClosedKept(s.lastStep, s.tally, r.tally);
  }

  /** Submitting, finishing and cancelling name nothing. */
  lemma SubmitTraced(s: Sched, t: Sched, x: TaskId)
    requires Good(s) && Good(t) && Traced(s) && x < |s.phase| && Advances(s, t)
    requires Cascaded(SubmittedTask(s, x), t, x) || Cascaded(SubmittedTask(s, x), t, -1)
    ensures Traced(t)
  {
    hide Inv, Stops, Traced, Cascaded, Advances;
    var m := SubmittedTask(s, x);
    WholeShape(t);
    if Cascaded(m, t, x) {
      SameLinesCascaded(m, t, x);
    } else {
      SameLinesCascaded(m, t, -1);
    }
    assert SameLines(s, t);
    TracedKept(s, t);
  }

  lemma FinishTraced(s: Sched, x: TaskId)
    requires Good(s) && Traced(s) && Advances(s, FinishedTask(s, x))
    ensures Traced(FinishedTask(s, x))
  {
    hide Inv, Stops, Traced, Advances;
    TracedKept(s, FinishedTask(s, x));
  }

  lemma InterruptTraced(s: Sched)
    requires Good(s) && Traced(s) && Advances(s, s.(cancelled := true))
    ensures Traced(s.(cancelled := true))
  {
    hide Inv, Stops, Traced, Advances;
    TracedKept(s, s.(cancelled := true));
  }

  // ---- starting -------------------------------------------------------------

  /** x starts: all it names reads succeeded. */
  lemma TracedStart(s: Sched, x: TaskId)
    requires Good(s) && Traced(s) && AllSucceeded(s, x)
    requires x < |s.info| && x < |s.startedAt| && x < |s.phase| && x < |s.state| && x < |s.loc| && s.phase[x] == PhaseQueued
    ensures Traced(ClaimedTask(s, x))
  {
    hide Static, Tree, Members, NamedOk, Memory, Tallies, Located, Edges, Led, QueueOk, Counts, Holds,
        GatesKnown, Started, StartsPast, NoGate, GatesAlone, Stops, From, ViewOk, PredsOk, Lines, Firm;
    var r := ClaimedTask(s, x);
    LinesStarted(s, x);
    assert !IsTerminal(s.state[x]);
    StillPendingStart(s, x);
    StartIsFirm(s, x);
    forall y: nat | RunsTask(r, y) && y < |r.named| ensures AllFirm(r, r.named[y]) {
      assert y != x ==> RunsTask(s, y);
      FirmAtStart(s, x, s.named[y]);
    }
  }

  lemma FirmAtStart(s: Sched, x: TaskId, ps: seq<Pred>)
    requires x < |s.info| && x < |s.startedAt| && x < |s.phase| && x < |s.state| && x < |s.loc|
    requires !IsTerminal(s.state[x]) && !IsTerminal(StartState(s.info[x], s.state[x])) && AllFirm(s, ps)
    ensures AllFirm(ClaimedTask(s, x), ps)
  {
    hide Firm, StartState;
    var r := ClaimedTask(s, x);
    CleanStart(s, x);
    WiderSame(WebOf(s));
    forall e | From(WebOf(r), ps, e, Clean(r)) ensures Firm(r, e) {
      FromGrows(WebOf(r), WebOf(s), ps, ps, e, Clean(r), Clean(s));
      FirmStarted(s, x, e);
    }
  }

  lemma CleanStart(s: Sched, x: TaskId)
    requires x < |s.info| && x < |s.startedAt| && x < |s.phase| && x < |s.state| && x < |s.loc|
    requires !IsTerminal(s.state[x]) && !IsTerminal(StartState(s.info[x], s.state[x]))
    ensures Clean(ClaimedTask(s, x)) <= Clean(s)
  {
    hide StartState;
    var r := ClaimedTask(s, x);
    TerminalIffDecided(s.state[x]);
    forall t: nat | CleanTask(r, t) ensures CleanTask(s, t) {
      assert t != x ==> (Succeeded(r, t) <==> Succeeded(s, t)) && (RunsTask(r, t) <==> RunsTask(s, t));
    }
    forall c: nat | CleanCol(r, c) ensures CleanCol(s, c) {
      forall t: nat | Below(s.info, s.cols, t, c) ensures CleanTask(s, t) {
        assert Below(r.info, r.cols, t, c);
      }
    }
    forall p | p in Clean(r) ensures p in Clean(s) {
      assert CleanPred(r, p);
    }
  }

  lemma StillPendingStart(s: Sched, x: TaskId)
    requires x < |s.info| && x < |s.state| && !IsTerminal(s.state[x])
    ensures !IsTerminal(StartState(s.info[x], s.state[x]))
  {
  }

  lemma LinesStarted(s: Sched, x: TaskId)
    requires Lines(s) && x < |s.info| && x < |s.startedAt| && x < |s.phase| && x < |s.state| && x < |s.loc|
    ensures Lines(ClaimedTask(s, x))
  {
    LinesKept(s, ClaimedTask(s, x));
  }

  lemma FirmStarted(s: Sched, x: TaskId, e: Pred)
    requires x < |s.info| && x < |s.startedAt| && x < |s.phase| && x < |s.state| && x < |s.loc|
    requires !IsTerminal(s.state[x]) && !IsTerminal(StartState(s.info[x], s.state[x])) && Firm(s, e)
    ensures Firm(ClaimedTask(s, x), e)
  {
    var r := ClaimedTask(s, x);
    TerminalIffDecided(s.state[x]);
    if e.OnCol? {
      forall i | 0 <= i < |r.tally[e.c].members| && r.tally[e.c].members[i].declaration <= Cut(r, e.c, e.through)
        ensures SucceededIn(r.tally[e.c].members[i], r.state)
      {
        assert SucceededIn(s.tally[e.c].members[i], s.state);
      }
    }
  }

  lemma StartIsFirm(s: Sched, x: TaskId)
    requires Whole(s) && Traced(s) && AllSucceeded(s, x)
    ensures x < |s.named| && AllFirm(s, s.named[x])
  {
    hide Inv, Traced, AllFirm, Firm, CleanPred;
    ReadsOkWhole(s);
    hide ReadsOk;
    forall e | e in s.named[x] ensures Firm(s, e) && (CleanPred(s, e) ==> AllFirm(s, StartsAfter(WebOf(s), e))) {
      var i :| 0 <= i < |s.named[x]| && s.named[x][i] == e;
      SucceededIsFirm(s, e);
    }
    FirmWhole(s, s.named[x]);
  }
}
