/** What the search of computed_proof.go proves of a run: whoever it finds ordered
    before a Task that started has settled, and when that fails. */
module Provenance {
  import opened Outcomes
  import opened CollectionTally
  import opened Topology
  import opened Eligibility
  import opened WaitLists
  import opened RunState
  import opened Followers
  import opened Rest
  import opened Lineage
  import opened Declaring
  import opened Weaving
  import opened ProofWalk

  /** g is what was declared in s: the After edges of a Task are among all it names. */
  ghost predicate Describes(s: Sched, g: Declared) {
    && ProofWalk.DeclaredOk(g) && g.info == s.info && g.cols == s.cols && g.entry == s.entry && |g.after| == |s.named|
    && forall t, p {:trigger p in g.after[t]} :: 0 <= t < |g.after| && p in g.after[t] ==> p in s.named[t]
  }

  /** p was declared before any container above it took its membership as declared,
      and before the drain. */
  ghost predicate InTime(s: Sched, p: TaskId) {
    && p < |s.info|
    && forall c: nat :: c < |s.tally| && OnChain(s.cols, s.info[p].home, c) ==>
         && (s.tally[c].sealed ==> s.info[p].decl <= s.tally[c].sealedThrough)
         && (s.draining ==> s.info[p].decl <= s.drainAt)
  }

  /** Everything n starts after, at any remove, has settled. */
  ghost predicate Cleared(s: Sched, n: Node) { AllFirm(s, Lineage.PredsAt(s, n)) }

  /** Every success of a Task n holds is a callback's, and no container n holds was
      told to start after more once a Task may have started after it. */
  ghost predicate CleanNode(s: Sched, n: Node) {
    match n
    case TaskNode(t) => CleanTask(s, t)
    case ColNode(c) => CleanCol(s, c)
  }

  ghost predicate Tracked(s: Sched, g: Declared) {
    && Lines(s) && Describes(s, g) && Members(s.info, s.cols, s.tally)
  }

  lemma TrackedGood(s: Sched, g: Declared)
    requires Good(s) && Traced(s) && Describes(s, g)
    ensures Tracked(s, g)
  {
    hide Static, Tree, Members, Life, NamedOk, Memory, Tallies, QueueOk, Counts, Holds, GatesKnown, Started,
        StartsPast, NoGate, GatesAlone, Stops, Lines;
  }

  // ---- one hop -----------------------------------------------------------------

  lemma NamesAt(s: Sched, g: Declared, n: Node, p: Pred)
    requires Describes(s, g) && NodeIn(g, n) && p in ProofWalk.PredsAt(g, n)
    ensures p in Lineage.PredsAt(s, n)
  {
  }

  /** A declared edge leads from what is cleared to what has settled, and to what is
      cleared if it is clean. */
  lemma EdgeClears(s: Sched, g: Declared, n: Node, m: Node)
    requires Tracked(s, g) && NodeIn(g, n) && NodeIn(g, m) && Edge(g, n, m) && Cleared(s, n)
    ensures (m.TaskNode? ==> Succeeded(s, m.t)) && (CleanNode(s, m) ==> Cleared(s, m))
  {
    hide Lines, From, Firm, Members, CleanTask, CleanCol;
    var ps := Lineage.PredsAt(s, n);
    if Names(ProofWalk.PredsAt(g, n), m) {
      match m
      case TaskNode(u) =>
        NamesAt(s, g, n, OnTask(u));
        FirmParts(s, ps, OnTask(u));
        FirmIsDone(s, u);
      case ColNode(c) =>
        var p :| p in ProofWalk.PredsAt(g, n) && p.OnCol? && p.c == c;
        NamesAt(s, g, n, p);
        FirmParts(s, ps, p);
    } else if CleanNode(s, m) {
      HomeClears(s, g, n);
    }
  }

  lemma FirmIsDone(s: Sched, u: TaskId)
    requires Firm(s, OnTask(u))
    ensures Succeeded(s, u)
  {
  }

  lemma HomeClears(s: Sched, g: Declared, n: Node)
    requires Tracked(s, g) && NodeIn(g, n) && Cleared(s, n) && HomeAt(s, n) >= 0 && CleanCol(s, HomeAt(s, n))
    ensures Cleared(s, ColNode(HomeAt(s, n)))
  {
    hide From, Firm, Members, InOrder, Latest, LatestHeld, GateWaits, EachClosed, Inside;
    var a := HomeAt(s, n);
    assert NodeAt(s, n) && Inherits(s, n);
    if a < |s.entry| {
      InsideClean(s, a);
      FirmThrough(s, Lineage.PredsAt(s, n), s.entry[a], Inside(s, a));
    }
  }

  /** What is reached from closed edges is closed. */
  lemma ReachedClosed(s: Sched, n: Node, e: Pred, via: iset<Pred>)
    requires Lines(s) && From(WebOf(s), Lineage.PredsAt(s, n), e, via)
    ensures ClosedOver(e, s.tally)
  {
    hide InOrder, Latest, LatestHeld, GateWaits, Inherits;
    var path: seq<Pred> :| Along(WebOf(s), Lineage.PredsAt(s, n), path, e, via);
    var k := |path| - 1;
    if k == 0 {
      assert e in Lineage.PredsAt(s, n);
    } else {
      assert path[k - 1 + 1] in StartsAfter(WebOf(s), path[k - 1]);
      match path[k - 1]
      case Missing =>
      case OnTask(t) => assert e in s.named[t];
      case OnCol(c, _) => assert e in s.entry[c];
    }
  }

  /** An edge to a container that holds p, met on the way back, waited for p. */
  lemma EdgeHolds(s: Sched, g: Declared, n: Node, e: Pred, p: TaskId)
    requires Tracked(s, g) && Cleared(s, n) && From(WebOf(s), Lineage.PredsAt(s, n), e, Clean(s))
    requires e.OnCol? && e.c < |s.tally| && InTime(s, p) && OnChain(s.cols, s.info[p].home, e.c)
    ensures Succeeded(s, p)
  {
    hide From, Lines, AllFirm;
    assert Firm(s, e) by { hide Firm; FirmOne(s, n, e); }
    ReachedClosed(s, n, e, Clean(s));
    assert |s.tally| == |s.cols| && MembersAt(s.info, s.cols, s.tally[e.c], e.c);
    assert p in Ids(s.tally[e.c].members);
    var i :| 0 <= i < |s.tally[e.c].members| && s.tally[e.c].members[i].id == p;
    assert s.tally[e.c].members[i].declaration <= Cut(s, e.c, e.through);
  }

  lemma FirmOne(s: Sched, n: Node, e: Pred)
    requires Cleared(s, n) && From(WebOf(s), Lineage.PredsAt(s, n), e, Clean(s))
    ensures Firm(s, e)
  {
  }

  /** The step of Sequence a that holds what sits in c: c's own, or a child of a. */
  lemma {:induction false} StepFound(cols: seq<ColInfo>, c: int, branch: nat, a: int) returns (d: int)
    requires ColsOk(cols) && -1 <= c < |cols| && 0 <= a < |cols| && StepDecl(cols, c, branch, a) != 0
    ensures (c == a && StepDecl(cols, c, branch, a) == branch && d == -1)
         || (0 <= d < |cols| && OnChain(cols, c, d) && cols[d].parent == a && StepDecl(cols, c, branch, a) == cols[d].decl)
    decreases c
  {
    if c == a {
      d := -1;
    } else if c >= 0 {
      d := StepFound(cols, cols[c].parent, cols[c].decl, a);
      if d == -1 {
        d := c;
        assert OnChain(cols, c, c);
      }
    } else {
      d := -1;
    }
  }

  lemma OrderOf(s: Sched, n: Node, m: Node)
    requires Lines(s)
    ensures InOrder(s, n, m) && |s.named| == |s.info| && |s.entry| == |s.cols|
  {
    hide Inherits, Latest, LatestHeld, GateWaits, EachClosed, From;
  }

  /** Back from n, the earlier step that holds p is met. */
  lemma EarlierMet(s: Sched, n: Node, p: TaskId) returns (d: int, e: Pred)
    requires Lines(s) && ColsOk(s.cols) && NodeAt(s, n) && p < |s.info| && -1 <= s.info[p].home < |s.cols|
    requires var a := HomeAt(s, n);
      && 0 <= a < |s.cols| && s.cols[a].sequential
      && 0 < StepDecl(s.cols, s.info[p].home, s.info[p].decl, a) < DeclAt(s, n)
    ensures From(WebOf(s), Lineage.PredsAt(s, n), e, Inside(s, HomeAt(s, n)))
    ensures e == OnTask(p) || (e.OnCol? && e.c < |s.cols| && OnChain(s.cols, s.info[p].home, e.c))
  {
    hide From, Lines, StepDecl, OnChain, Inside;
    var a := HomeAt(s, n);
    d := StepFound(s.cols, s.info[p].home, s.info[p].decl, a);
    var b := if d == -1 then TaskNode(p) else ColNode(d);
    OrderOf(s, n, b);
    assert InSequence(s, n, a) && InSequence(s, b, a);
    e :| From(WebOf(s), Lineage.PredsAt(s, n), e, Inside(s, a)) && On(e, b);
  }

  lemma SequenceAround(s: Sched, g: Declared, n: Node, p: TaskId)
    requires Tracked(s, g) && NodeIn(g, n) && p < |g.info| && EarlierStep(g, p, HomeAt(s, n), DeclAt(s, n))
    ensures ColsOk(s.cols) && NodeAt(s, n) && -1 <= s.info[p].home < |s.cols|
    ensures var a := HomeAt(s, n);
      && 0 <= a < |s.cols| && s.cols[a].sequential
      && 0 < StepDecl(s.cols, s.info[p].home, s.info[p].decl, a) < DeclAt(s, n)
  {
    hide From, Members, Inherits, InOrder, Latest, LatestHeld, GateWaits, EachClosed, StepDecl;
  }

  lemma EarlierIsDone(s: Sched, g: Declared, n: Node, p: TaskId)
    requires Tracked(s, g) && NodeIn(g, n) && Cleared(s, n) && InTime(s, p) && p < |g.info|
    requires EarlierStep(g, p, HomeAt(s, n), DeclAt(s, n)) && CleanCol(s, HomeAt(s, n))
    ensures Succeeded(s, p)
  {
    hide From, Firm, Members, Lines, AllFirm, InTime, OnChain, EarlierStep, CleanCol, Inside;
    SequenceAround(s, g, n, p);
    var d, e := EarlierMet(s, n, p);
    var ps := Lineage.PredsAt(s, n);
    InsideClean(s, HomeAt(s, n));
    WiderSame(WebOf(s));
    FromGrows(WebOf(s), WebOf(s), ps, ps, e, Inside(s, HomeAt(s, n)), Clean(s));
    if e == OnTask(p) {
      FirmOne(s, n, e);
      FirmIsDone(s, p);
    } else {
      TallyCount(s);
      EdgeHolds(s, g, n, e, p);
    }
  }

  lemma TallyCount(s: Sched)
    requires Members(s.info, s.cols, s.tally)
    ensures |s.tally| == |s.cols|
  {
  }

  /** The hop from n into a container or a Sequence, to p: p was declared in time, and
      the Sequence, if it is one n sits in, is clean. */
  ghost predicate ArrivesClean(s: Sched, g: Declared, n: Node, p: TaskId)
    requires ProofWalk.DeclaredOk(g) && NodeIn(g, n) && p < |g.info|
  {
    && InTime(s, p)
    && (NamesOver(g, ProofWalk.PredsAt(g, n), p) || (HomeAt(s, n) >= 0 && CleanCol(s, HomeAt(s, n))))
  }

  /** Such a hop leads to what has settled. */
  lemma ArrivalIsDone(s: Sched, g: Declared, n: Node, p: TaskId)
    requires Tracked(s, g) && NodeIn(g, n) && p < |g.info| && Arrives(g, p, n) && n != TaskNode(p)
    requires Cleared(s, n) && ArrivesClean(s, g, n, p)
    ensures Succeeded(s, p)
  {
    hide From, Firm, Members, Lines, AllFirm, InTime, StepDecl, OnChain, EarlierStep, CleanCol;
    var ps := ProofWalk.PredsAt(g, n);
    if NamesOver(g, ps, p) {
      var q :| q in ps && q.OnCol? && OnChain(g.cols, g.info[p].home, q.c);
      NamesAt(s, g, n, q);
      FromHere(WebOf(s), Lineage.PredsAt(s, n), q, Clean(s));
      ChainBounds(g.cols, g.info[p].home, q.c);
      TallyCount(s);
      EdgeHolds(s, g, n, q, p);
    } else {
      EarlierIsDone(s, g, n, p);
    }
  }

  // ---- the whole way --------------------------------------------------------------

  lemma StartedClears(s: Sched, g: Declared, consumer: TaskId)
    requires Tracked(s, g) && Deep(s) && consumer < |s.info| && RunsTask(s, consumer)
    ensures Cleared(s, StartOf(g, consumer)) && NodeIn(g, StartOf(g, consumer))
  {
    hide From, Firm, Members, Inherits, InOrder, Latest, LatestHeld, EachClosed, AllFirm;
    assert AllFirm(s, s.named[consumer]);
    var c := s.info[consumer].gateFor;
    if c >= 0 {
      assert GateWaits(s, consumer);
      forall e | e in s.entry[c] ensures From(WebOf(s), s.named[consumer], e, Clean(s)) {
        FromHere(WebOf(s), s.named[consumer], e, Clean(s));
      }
      FirmThrough(s, s.named[consumer], s.entry[c], Clean(s));
    }
  }

  /** What the way passes through is clean, and what it meets inside a container or an
      earlier step was declared in time. */
  ghost predicate WayOk(s: Sched, g: Declared, route: seq<Node>)
    requires ProofWalk.DeclaredOk(g) && OrderRoute(g, route)
  {
    forall i {:trigger route[i]} :: 0 < i < |route| ==>
      && (i < |route| - 1 ==> CleanNode(s, route[i]))
      && (!Edge(g, route[i - 1], route[i]) ==> ArrivesClean(s, g, route[i - 1], route[i].t))
  }

  /** Back along the order from what is cleared, all is settled. */
  lemma {:induction false} WayIsDone(s: Sched, g: Declared, route: seq<Node>, i: nat)
    requires ProofWalk.DeclaredOk(g) && Tracked(s, g) && Deep(s) && OrderRoute(g, route) && WayOk(s, g, route)
    requires i < |route| && Cleared(s, route[0])
    ensures i > 0 && route[i].TaskNode? ==> Succeeded(s, route[i].t)
    ensures i == 0 || CleanNode(s, route[i]) ==> Cleared(s, route[i])
  {
    hide Tracked, Deep, Cleared, Succeeded, Edge, Arrives, ArrivesClean, CleanNode;
    if i > 0 {
      WayIsDone(s, g, route, i - 1);
      var n, m := route[i - 1], route[i];
      assert Before(g, route[i - 1], route[i - 1 + 1]);
      if Edge(g, n, m) {
        EdgeClears(s, g, n, m);
      } else {
        ArrivalIsDone(s, g, n, m.t);
        if CleanNode(s, m) {
          DoneClears(s, g, m.t);
        }
      }
    }
  }

  lemma DoneClears(s: Sched, g: Declared, t: TaskId)
    requires Tracked(s, g) && Deep(s) && Succeeded(s, t) && CleanNode(s, TaskNode(t))
    ensures Cleared(s, TaskNode(t))
  {
    hide AllFirm, Members, Lines;
    CleanRuns(s, t);
    if t >= |s.named| {
      NothingFirm(s);
    }
  }

  lemma NothingFirm(s: Sched)
    ensures AllFirm(s, [])
  {
  }

  /** Whoever a way of the order leads back to from a Task that started has succeeded,
      when the way passes only through what is clean and the Tasks it meets inside
      containers were declared in time. */
  lemma OrderHolds(s: Sched, g: Declared, consumer: TaskId, producer: TaskId, route: seq<Node>)
    requires Good(s) && Traced(s) && Describes(s, g)
    requires consumer < |s.info| && RunsTask(s, consumer) && consumer != producer
    requires Leading(g, route, StartOf(g, consumer), producer) && WayOk(s, g, route)
    ensures Succeeded(s, producer)
  {
    hide Good, Tracked, Deep, Lines, Cleared, WayOk, OrderRoute;
    TrackedGood(s, g);
    StartedClears(s, g, consumer);
    assert route[0] != TaskNode(producer);
    WayIsDone(s, g, route, |route| - 1);
  }

  /** The search comes to m from n over declared edges. */
  ghost predicate Visits(g: Declared, n: Node, m: Node)
    requires ProofWalk.DeclaredOk(g)
  {
    exists route: seq<Node> :: |route| > 1 && Route(g, route) && route[0] == n && route[|route| - 1] == m
  }

  /** Whatever else the search for producer comes to from n is clean. */
  ghost predicate CleanAround(s: Sched, g: Declared, n: Node, producer: TaskId)
    requires ProofWalk.DeclaredOk(g)
  {
    forall m :: Visits(g, n, m) && m != TaskNode(producer) ==> CleanNode(s, m)
  }

  lemma EdgeInside(g: Declared, route: seq<Node>, i: nat)
    requires ProofWalk.DeclaredOk(g) && OrderRoute(g, route) && EdgesInside(g, route) && 0 < i < |route| - 1
    ensures Edge(g, route[i - 1], route[i])
  {
    var k := i - 1;
    assert Edge(g, route[k], route[k + 1]);
  }

  /** The part of a way before its last hop, and one edge more. */
  lemma PrefixVisits(g: Declared, route: seq<Node>, i: nat)
    requires ProofWalk.DeclaredOk(g) && OrderRoute(g, route) && EdgesInside(g, route) && i < |route| - 1
    ensures Route(g, route[..i + 1]) && (i > 0 ==> Visits(g, route[0], route[i]))
    ensures forall m :: NodeIn(g, m) && Edge(g, route[i], m) ==> Visits(g, route[0], m)
  {
    hide Edge;
    var prefix := route[..i + 1];
    forall k | 0 <= k < |prefix| - 1 ensures Edge(g, prefix[k], prefix[k + 1]) {
      EdgeInside(g, route, k + 1);
    }
    forall m | NodeIn(g, m) && Edge(g, route[i], m) ensures Visits(g, route[0], m) {
      var longer := prefix + [m];
      forall k | 0 <= k < |longer| - 1 ensures Edge(g, longer[k], longer[k + 1]) {
        if k < i {
          assert Edge(g, prefix[k], prefix[k + 1]);
        }
      }
      assert Route(g, longer);
    }
  }

  lemma WayInside(s: Sched, g: Declared, route: seq<Node>, producer: TaskId, n: Node)
    requires ProofWalk.DeclaredOk(g) && Leading(g, route, n, producer) && EdgesInside(g, route) && Describes(s, g)
    requires CleanAround(s, g, n, producer) && InTime(s, producer)
    requires forall i :: 0 < i < |route| - 1 ==> route[i] != TaskNode(producer)
    ensures WayOk(s, g, route)
  {
    hide Edge, Visits, CleanNode, InTime, NamesOver, EarlierStep, CleanCol;
    forall i {:trigger route[i]} | 0 < i < |route|
      ensures i < |route| - 1 ==> CleanNode(s, route[i])
      ensures !Edge(g, route[i - 1], route[i]) ==> ArrivesClean(s, g, route[i - 1], route[i].t)
    {
      if i < |route| - 1 {
        PrefixVisits(g, route, i);
        EdgeInside(g, route, i);
      } else if !Edge(g, route[i - 1], route[i]) {
        assert Before(g, route[i - 1], route[i - 1 + 1]);
        PrefixVisits(g, route, i - 1);
        LastHop(s, g, route[0], route[i - 1], producer);
      }
    }
  }

  lemma LastHop(s: Sched, g: Declared, start: Node, n: Node, producer: TaskId)
    requires Describes(s, g) && NodeIn(g, n) && producer < |g.info| && Arrives(g, producer, n) && n != TaskNode(producer)
    requires InTime(s, producer) && CleanAround(s, g, start, producer)
    requires forall m :: NodeIn(g, m) && Edge(g, n, m) ==> Visits(g, start, m)
    ensures ArrivesClean(s, g, n, producer)
  {
    hide Visits, InTime, CleanCol, OnChain, StepDecl;
    if !NamesOver(g, ProofWalk.PredsAt(g, n), producer) {
      var home := ColNode(HomeAt(s, n));
      assert NodeIn(g, home) && Edge(g, n, home);
      assert CleanNode(s, home);
    }
  }

  /** The way the search finds, cut where it first meets the producer. */
  lemma {:induction false} CutShort(g: Declared, route: seq<Node>, n: Node, producer: TaskId) returns (way: seq<Node>)
    requires ProofWalk.DeclaredOk(g) && producer < |g.info| && Leading(g, route, n, producer) && EdgesInside(g, route)
    ensures Leading(g, way, n, producer) && EdgesInside(g, way)
    ensures forall i :: 0 <= i < |way| - 1 ==> way[i] != TaskNode(producer)
    decreases |route|
  {
    if i :| 0 <= i < |route| - 1 && route[i] == TaskNode(producer) {
      var shorter := route[..i + 1];
      assert OrderRoute(g, shorter) by {
        forall k | 0 <= k < |shorter| - 1 ensures Before(g, shorter[k], shorter[k + 1]) {
          assert Before(g, route[k], route[k + 1]);
        }
      }
      assert EdgesInside(g, shorter) by {
        forall k | 0 <= k < |shorter| - 2 ensures Edge(g, shorter[k], shorter[k + 1]) {
          assert Edge(g, route[k], route[k + 1]);
        }
      }
      way := CutShort(g, shorter, n, producer);
    } else {
      way := route;
    }
  }

  /** What the search proves of a Task that started is so: the producer succeeded,
      when it was declared before a container above it took its membership and before
      the drain, and what the search comes to is clean. */
  lemma ProofHolds(s: Sched, g: Declared, consumer: TaskId, producer: TaskId)
    requires Good(s) && Traced(s) && Describes(s, g)
    requires consumer < |s.info| && RunsTask(s, consumer) && consumer != producer && producer < |s.info|
    requires Proved(g, producer, StartOf(g, consumer)) && InTime(s, producer)
    requires CleanAround(s, g, StartOf(g, consumer), producer)
    ensures Succeeded(s, producer)
  {
    hide Good, Traced, Edge, Arrives, CleanAround, WayOk, InTime;
    var start := StartOf(g, consumer);
    var route := ProvedLeads(g, producer, start);
    var way := CutShort(g, route, start, producer);
    WayInside(s, g, way, producer, start);
    OrderHolds(s, g, consumer, producer, way);
  }

  // ---- when it fails -----------------------------------------------------------------

  /** What a closed edge waits for, exactly: whenever it reads succeeded member i has
      succeeded, if and only if i was declared through its cursor. */
  lemma EdgeWaitsExactly(members: seq<Member>, n: nat, cursor: int, i: nat)
    requires MembersOk(members, n) && i < |members|
    ensures members[i].declaration <= cursor <==>
      forall state: seq<EntityState> :: |state| == n && Fold(MembersThrough(members, cursor), state) == PredSucceeded ==>
        SucceededIn(members[i], state)
  {
    InMembersThrough(members, cursor, members[i]);
    if members[i].declaration > cursor {
      var late: seq<EntityState> :=
        seq(n, j requires 0 <= j < n => if j == members[i].id then EntityState.Pending else EntityState.Done);
      forall m | m in MembersThrough(members, cursor) ensures SucceededIn(m, late) && !FailedIn(m, late) {
        InMembersThrough(members, cursor, m);
        var k :| 0 <= k < |members| && members[k] == m;
      }
      assert Fold(MembersThrough(members, cursor), late) == PredSucceeded;
      assert !SucceededIn(members[i], late);
    }
  }

  /** The search does not read how far an edge was closed. It proves t ordered after
      any member of the container t names, though the edge reads succeeded once the
      members through its cursor have, whatever a later one does. */
  lemma ProofIgnoresCursor(g: Declared, v: View, t: TaskId, c: nat, through: nat, late: TaskId)
    requires ProofWalk.DeclaredOk(g) && t < |g.info| && late < |g.info| && c < |g.cols|
    requires OnCol(c, through) in g.after[t] && OnChain(g.cols, g.info[late].home, c) && 0 < through < g.info[late].decl
    requires ViewOk(v) && c < |v.tally| && Current(v.tally[c], v.state)
    requires v.tally[c].holds <= 0 && !v.tally[c].builderFailed && HasMemberThrough(v.tally[c], through)
    requires forall i :: 0 <= i < |v.tally[c].members| && v.tally[c].members[i].declaration <= through ==>
               SucceededIn(v.tally[c].members[i], v.state)
    ensures Proved(g, late, TaskNode(t)) && OutcomeOf(v, OnCol(c, through)).0 == PredSucceeded
  {
    hide OnChain;
    assert NamesOver(g, g.after[t], late);
    ProvedHere(g, late, TaskNode(t));
    SucceededThroughMeans(v.tally[c], v.state, through);
    FailedThroughMeans(v.tally[c], v.state, through);
  }

  /** A late member: x started after container c, and then a Task is declared into c.
      The search proves x ordered after it, though x runs and it has not settled. */
  lemma LateMember(a: Sched, b: Sched, g: Declared, x: TaskId, c: nat, k: nat)
    requires Good(a) && Traced(a) && Good(b) && Advances(a, b) && Describes(b, g)
    requires RunsTask(a, x) && x < |a.named| && OnCol(c, k) in a.named[x] && x < |g.after| && OnCol(c, k) in g.after[x]
    requires c < |a.cols| && b.cols == a.cols && b.info == a.info + [TaskInfo(c, a.declSeq + 1, -1)]
    requires !IsTerminal(b.state[|a.info|])
    ensures Proved(g, |a.info|, TaskNode(x)) && RunsTask(b, x) && !Succeeded(b, |a.info|) && !InTime(b, |a.info|)
  {
    hide Static, Tree, Members, Life, NamedOk, Memory, Tallies, Located, Edges, Led, QueueOk, Counts, Holds, GatesKnown,
        Started, NoGate, GatesAlone, Stops, From, Inherits, InOrder, Latest, LatestHeld, GateWaits, Proved, CleanPred;
    var late := |a.info|;
    TerminalIffDecided(b.state[late]);
    FirmParts(a, a.named[x], OnCol(c, k));
    assert ClosedOver(OnCol(c, k), a.tally);
    assert TallyAdvances(a.tally[c], b.tally[c]) && a.tally[c].sealedThrough <= a.declSeq;
    assert OnChain(b.cols, c, c);
    assert NamesOver(g, g.after[x], late);
    ProvedHere(g, late, TaskNode(x));
  }
}
