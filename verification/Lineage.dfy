/** What a Task starts after, and what those start after in turn: every Task that
    started did so once all of it was settled. */
module Lineage {
  import opened Outcomes
  import opened CollectionTally
  import opened Topology
  import opened Eligibility
  import opened WaitLists
  import opened RunState

  // ---- what is reached over named predecessors -----------------------------

  /** What every Task and every container names. */
  datatype Web = Web(named: seq<seq<Pred>>, entry: seq<seq<Pred>>)

  function WebOf(s: Sched): Web { Web(s.named, s.entry) }

  /** What p itself starts after. */
  function StartsAfter(w: Web, p: Pred): seq<Pred> {
    match p
    case Missing => []
    case OnTask(t) => if t < |w.named| then w.named[t] else []
    case OnCol(c, _) => if c < |w.entry| then w.entry[c] else []
  }

  ghost predicate Chain(w: Web, path: seq<Pred>) {
    forall i :: 0 <= i < |path| - 1 ==> path[i + 1] in StartsAfter(w, path[i])
  }

  ghost predicate Along(w: Web, ps: seq<Pred>, path: seq<Pred>, e: Pred, via: iset<Pred>) {
    && |path| > 0 && path[0] in ps && path[|path| - 1] == e && Chain(w, path)
    && forall i :: 0 <= i < |path| - 1 ==> path[i] in via
  }

  /** e is one of ps, or what one of them starts after, at any remove, with nothing
      but via in between. */
  ghost predicate From(w: Web, ps: seq<Pred>, e: Pred, via: iset<Pred>) {
    exists path: seq<Pred> :: Along(w, ps, path, e, via)
  }

  lemma FromHere(w: Web, ps: seq<Pred>, e: Pred, via: iset<Pred>)
    requires e in ps
    ensures From(w, ps, e, via)
  {
    assert Along(w, ps, [e], e, via);
  }

  lemma FromOn(w: Web, ps: seq<Pred>, e: Pred, f: Pred, via: iset<Pred>)
    requires From(w, ps, e, via) && e in via && From(w, StartsAfter(w, e), f, via)
    ensures From(w, ps, f, via)
  {
    var a: seq<Pred> :| Along(w, ps, a, e, via);
    var b: seq<Pred> :| Along(w, StartsAfter(w, e), b, f, via);
    var path := a + b;
    forall i | 0 <= i < |path| - 1 ensures path[i + 1] in StartsAfter(w, path[i]) && path[i] in via {
      if i < |a| - 1 {
        assert a[i + 1] in StartsAfter(w, a[i]);
      } else if i >= |a| {
        assert b[i - |a| + 1] in StartsAfter(w, b[i - |a|]);
      }
    }
    assert Along(w, ps, path, f, via);
  }

  /** The first step of the way. */
  lemma FromSplit(w: Web, ps: seq<Pred>, f: Pred, via: iset<Pred>) returns (e: Pred)
    requires From(w, ps, f, via)
    ensures e in ps && (f == e || (e in via && From(w, StartsAfter(w, e), f, via)))
  {
    var path: seq<Pred> :| Along(w, ps, path, f, via);
    e := path[0];
    if |path| > 1 {
      forall i | 0 <= i < |path| - 2 ensures path[1..][i + 1] in StartsAfter(w, path[1..][i]) && path[1..][i] in via {
        assert path[i + 2] in StartsAfter(w, path[i + 1]);
      }
      assert path[0 + 1] in StartsAfter(w, path[0]);
      assert Along(w, StartsAfter(w, e), path[1..], f, via);
    }
  }

  /** What qs reaches, ps does, when it reaches all of qs. */
  lemma FromThrough(w: Web, ps: seq<Pred>, qs: seq<Pred>, f: Pred, via: iset<Pred>)
    requires (forall q :: q in qs ==> From(w, ps, q, via)) && From(w, qs, f, via)
    ensures From(w, ps, f, via)
  {
    var q := FromSplit(w, qs, f, via);
    if f != q {
      FromOn(w, ps, q, f, via);
    }
  }

  /** v names all that w names. */
  ghost predicate Wider(w: Web, v: Web) {
    forall p, q :: q in StartsAfter(w, p) ==> q in StartsAfter(v, p)
  }

  lemma FromGrows(w: Web, v: Web, ps: seq<Pred>, qs: seq<Pred>, e: Pred, via: iset<Pred>, wider: iset<Pred>)
    requires Wider(w, v) && From(w, ps, e, via) && via <= wider && forall p :: p in ps ==> p in qs
    ensures From(v, qs, e, wider)
  {
    var path: seq<Pred> :| Along(w, ps, path, e, via);
    forall i | 0 <= i < |path| - 1 ensures path[i + 1] in StartsAfter(v, path[i]) {
      assert path[i + 1] in StartsAfter(w, path[i]);
    }
    assert Along(v, qs, path, e, wider);
  }

  lemma WiderSame(w: Web)
    ensures Wider(w, w)
  {
  }

  /** What was reached through known was reached before, and names nothing new. */
  ghost predicate ReachedSame(w: Web, v: Web, ps: seq<Pred>, known: iset<Pred>, via: iset<Pred>) {
    forall e :: From(w, ps, e, known) && e in via ==> e in known && StartsAfter(v, e) == StartsAfter(w, e)
  }

  /** When nothing reached names anything new, nothing new is reached. */
  lemma FromSame(w: Web, v: Web, ps: seq<Pred>, f: Pred, known: iset<Pred>, via: iset<Pred>)
    requires ReachedSame(w, v, ps, known, via) && From(v, ps, f, via)
    ensures From(w, ps, f, known)
  {
    var path: seq<Pred> :| Along(v, ps, path, f, via);
    PathSame(w, v, ps, path, known, via);
  }

  lemma {:induction false} PathSame(w: Web, v: Web, ps: seq<Pred>, path: seq<Pred>, known: iset<Pred>, via: iset<Pred>)
    requires ReachedSame(w, v, ps, known, via)
    requires |path| > 0 && Along(v, ps, path, path[|path| - 1], via)
    ensures From(w, ps, path[|path| - 1], known)
    decreases |path|
  {
    var n := |path| - 1;
    if n == 0 {
      FromHere(w, ps, path[0], known);
    } else {
      var p := path[n - 1];
      forall i | 0 <= i < n - 1 ensures path[..n][i + 1] in StartsAfter(v, path[..n][i]) && path[..n][i] in via {
        assert path[i + 1] in StartsAfter(v, path[i]);
      }
      PathSame(w, v, ps, path[..n], known, via);
      assert path[n - 1 + 1] in StartsAfter(v, path[n - 1]);
      assert p in via && p in known;
      FromHere(w, StartsAfter(w, p), path[n], known);
      FromOn(w, ps, p, path[n], known);
    }
  }

  // ---- what declaring keeps ------------------------------------------------

  ghost predicate NodeAt(s: Sched, n: Node) {
    match n
    case TaskNode(t) => t < |s.info| && t < |s.named|
    case ColNode(c) => c < |s.cols| && c < |s.entry|
  }

  function HomeAt(s: Sched, n: Node): int {
    match n
    case TaskNode(t) => if t < |s.info| then s.info[t].home else -1
    case ColNode(c) => if c < |s.cols| then s.cols[c].parent else -1
  }

  function DeclAt(s: Sched, n: Node): nat {
    match n
    case TaskNode(t) => if t < |s.info| then s.info[t].decl else 0
    case ColNode(c) => if c < |s.cols| then s.cols[c].decl else 0
  }

  function PredsAt(s: Sched, n: Node): seq<Pred> {
    match n
    case TaskNode(t) => if t < |s.named| then s.named[t] else []
    case ColNode(c) => if c < |s.entry| then s.entry[c] else []
  }

  predicate On(e: Pred, n: Node) {
    match n
    case TaskNode(t) => e == OnTask(t)
    case ColNode(c) => e.OnCol? && e.c == c
  }

  /** Going back from ps through via, n is met. */
  ghost predicate Meets(w: Web, ps: seq<Pred>, n: Node, via: iset<Pred>) {
    exists e :: From(w, ps, e, via) && On(e, n)
  }

  /** p is a Task or a container inside container a. */
  ghost predicate Within(s: Sched, a: int, p: Pred) {
    match p
    case Missing => false
    case OnTask(t) => Below(s.info, s.cols, t, a)
    case OnCol(c, _) => c != a && OnChain(s.cols, c, a)
  }

  ghost function Inside(s: Sched, a: int): iset<Pred> { iset p | Within(s, a, p) }

  /** What sits in a container starts after what the container does, by way of what
      else sits in it. */
  ghost predicate Inherits(s: Sched, n: Node) {
    var a := HomeAt(s, n);
    0 <= a < |s.entry| ==> forall e :: e in s.entry[a] ==> From(WebOf(s), PredsAt(s, n), e, Inside(s, a))
  }

  ghost predicate InSequence(s: Sched, n: Node, a: int) {
    NodeAt(s, n) && HomeAt(s, n) == a && 0 <= a < |s.cols| && s.cols[a].sequential
  }

  /** A step of a Sequence starts after every step declared before it. */
  ghost predicate InOrder(s: Sched, n: Node, m: Node) {
    InSequence(s, n, HomeAt(s, n)) && InSequence(s, m, HomeAt(s, n)) && DeclAt(s, m) < DeclAt(s, n)
    ==> Meets(WebOf(s), PredsAt(s, n), m, Inside(s, HomeAt(s, n)))
  }

  ghost predicate StepKnown(s: Sched, a: nat, m: Node) {
    a < |s.lastStep| && InSequence(s, m, a) ==> s.lastStep[a] != [] && Meets(WebOf(s), s.lastStep[a], m, Inside(s, a))
  }

  ghost predicate HasStep(s: Sched, a: nat) { exists m :: InSequence(s, m, a) }

  /** A Sequence's latest step starts after all the others and after what the
      Sequence does. */
  ghost predicate Latest(s: Sched, a: nat) {
    && (forall m :: StepKnown(s, a, m))
    && (a < |s.lastStep| && a < |s.entry| && s.lastStep[a] != [] ==>
      HasStep(s, a) && forall e :: e in s.entry[a] ==> From(WebOf(s), s.lastStep[a], e, Inside(s, a)))
  }

  /** A Sequence has one latest step. If it is a container it sits in the Sequence, as
      its own step or inside one whose membership is taken as declared. */
  ghost predicate LatestHeld(s: Sched, q: nat, p: Pred) {
    && (q < |s.lastStep| && p in s.lastStep[q] ==> s.lastStep[q] == [p])
    && (q < |s.lastStep| && p in s.lastStep[q] && p.OnCol? ==> SitsIn(s, q, p))
  }

  /** step, above container c and not c, is one of q's. */
  ghost predicate StepsUnder(s: Sched, c: nat, step: nat, q: nat) {
    step < |s.cols| && step != c && OnChain(s.cols, c, step) && s.cols[step].parent == q
  }

  ghost predicate SitsIn(s: Sched, q: nat, p: Pred)
    requires p.OnCol?
  {
    && p.c < |s.cols| && p.c != q && OnChain(s.cols, p.c, q)
    && forall step: nat :: step < |s.tally| && StepsUnder(s, p.c, step, q) ==> s.tally[step].sealed
  }

  /** A builder's gate waits for what its container starts after. */
  ghost predicate GateWaits(s: Sched, g: nat) {
    g < |s.info| && g < |s.named| && 0 <= s.info[g].gateFor < |s.entry| ==>
      forall e :: e in s.entry[s.info[g].gateFor] ==> e in s.named[g]
  }

  /** An edge was closed over a member, and its collection took its membership no
      later. */
  ghost predicate ClosedOver(p: Pred, tally: seq<Tally>) {
    p.OnCol? && p.through != 0 ==>
      && p.c < |tally| && tally[p.c].members != [] && tally[p.c].members[0].declaration <= p.through
      && tally[p.c].sealed && tally[p.c].sealedThrough <= p.through
  }

  ghost predicate EachClosed(pss: seq<seq<Pred>>, tally: seq<Tally>) {
    forall x, p {:trigger p in pss[x]} :: 0 <= x < |pss| && p in pss[x] ==> ClosedOver(p, tally)
  }

  ghost predicate Lines(s: Sched) {
    && Shape(s)
    && (forall n :: NodeAt(s, n) ==> Inherits(s, n))
    && (forall n, m :: InOrder(s, n, m))
    && (forall a: nat :: Latest(s, a))
    && (forall q: nat, p :: LatestHeld(s, q, p))
    && (forall g: nat :: GateWaits(s, g))
    && EachClosed(s.named, s.tally) && EachClosed(s.entry, s.tally) && EachClosed(s.lastStep, s.tally)
    && (s.draining ==> s.drainAt <= s.declSeq)
  }

  // ---- what starting keeps -------------------------------------------------

  /** How far an edge that a Task started after is known to have been read: an edge
      named empty reads to the seal, and, while draining, at least to the drain. */
  function Cut(s: Sched, c: nat, through: nat): nat
    requires c < |s.tally|
  {
    if through != 0 then through
    else if s.tally[c].sealed && !(s.draining && s.drainAt < s.tally[c].sealedThrough) then s.tally[c].sealedThrough
    else s.drainAt
  }

  /** e has succeeded, and whatever happens stays so. */
  ghost predicate Firm(s: Sched, e: Pred) {
    match e
    case Missing => false
    case OnTask(t) => t < |s.state| && StateOutcome(s.state[t]) == PredSucceeded
    case OnCol(c, through) =>
      && c < |s.tally| && (through != 0 || s.tally[c].sealed || s.draining)
      && forall i {:trigger s.tally[c].members[i]} ::
           0 <= i < |s.tally[c].members| && s.tally[c].members[i].declaration <= Cut(s, c, through) ==>
           SucceededIn(s.tally[c].members[i], s.state)
  }

  ghost predicate RunsTask(s: Sched, t: nat) { t < |s.phase| && s.phase[t] == PhaseRunning }

  ghost predicate Succeeded(s: Sched, t: TaskId) { t < |s.state| && StateOutcome(s.state[t]) == PredSucceeded }

  /** If t succeeded its callback did: the program did not report it for a Task that
      never started. */
  ghost predicate CleanTask(s: Sched, t: TaskId) { Succeeded(s, t) ==> RunsTask(s, t) }

  /** So did every Task of c, and neither c nor a container in it was told to start
      after more once a Task may have started after it. */
  ghost predicate CleanCol(s: Sched, c: nat) {
    && (forall d: nat :: OnChain(s.cols, d, c) ==> d !in s.lateEntry)
    && (forall t: nat :: Below(s.info, s.cols, t, c) ==> CleanTask(s, t))
  }

  ghost predicate CleanPred(s: Sched, p: Pred) {
    match p
    case Missing => true
    case OnTask(t) => CleanTask(s, t)
    case OnCol(c, _) => CleanCol(s, c)
  }

  ghost function Clean(s: Sched): iset<Pred> { iset p | CleanPred(s, p) }

  /** What ps leads to through what is clean is firm. */
  ghost predicate AllFirm(s: Sched, ps: seq<Pred>) {
    forall e :: From(WebOf(s), ps, e, Clean(s)) ==> Firm(s, e)
  }

  /** Every Task that started did so after all it starts after, at any remove. */
  ghost predicate Deep(s: Sched) {
    forall x: nat :: RunsTask(s, x) && x < |s.named| ==> AllFirm(s, s.named[x])
  }

  ghost predicate Traced(s: Sched) { Lines(s) && Deep(s) }

  lemma FirmParts(s: Sched, ps: seq<Pred>, e: Pred)
    requires AllFirm(s, ps) && e in ps
    ensures Firm(s, e) && (CleanPred(s, e) ==> AllFirm(s, StartsAfter(WebOf(s), e)))
  {
    FromHere(WebOf(s), ps, e, Clean(s));
    if CleanPred(s, e) {
      forall f | From(WebOf(s), StartsAfter(WebOf(s), e), f, Clean(s)) ensures Firm(s, f) {
        FromOn(WebOf(s), ps, e, f, Clean(s));
      }
    }
  }

  lemma FirmWhole(s: Sched, ps: seq<Pred>)
    requires forall e :: e in ps ==> Firm(s, e) && (CleanPred(s, e) ==> AllFirm(s, StartsAfter(WebOf(s), e)))
    ensures AllFirm(s, ps)
  {
    forall f | From(WebOf(s), ps, f, Clean(s)) ensures Firm(s, f) {
      var e := FromSplit(WebOf(s), ps, f, Clean(s));
    }
  }

  lemma FirmThrough(s: Sched, ps: seq<Pred>, qs: seq<Pred>, via: iset<Pred>)
    requires AllFirm(s, ps) && via <= Clean(s) && forall q :: q in qs ==> From(WebOf(s), ps, q, via)
    ensures AllFirm(s, qs)
  {
    WiderSame(WebOf(s));
    forall q | q in qs ensures From(WebOf(s), ps, q, Clean(s)) {
      FromGrows(WebOf(s), WebOf(s), ps, ps, q, via, Clean(s));
    }
    forall f | From(WebOf(s), qs, f, Clean(s)) ensures Firm(s, f) {
      FromThrough(WebOf(s), ps, qs, f, Clean(s));
    }
  }

  /** What is inside a clean container is clean. */
  lemma InsideClean(s: Sched, c: nat)
    requires CleanCol(s, c)
    ensures Inside(s, c) <= Clean(s)
  {
    forall p | p in Inside(s, c) ensures p in Clean(s) {
      match p
      case Missing =>
      case OnTask(t) =>
      case OnCol(d, _) =>
        forall e: nat | OnChain(s.cols, e, d) ensures e !in s.lateEntry {
          ChainTransitive(s.cols, e, d, c);
        }
        forall t: nat | Below(s.info, s.cols, t, d) ensures CleanTask(s, t) {
          ChainTransitive(s.cols, s.info[t].home, d, c);
        }
    }
  }

  lemma InsideAbove(s: Sched, a: int, c: int)
    requires OnChain(s.cols, a, c)
    ensures Inside(s, a) <= Inside(s, c)
  {
    forall p | p in Inside(s, a) ensures p in Inside(s, c) {
      match p
      case Missing =>
      case OnTask(t) => ChainTransitive(s.cols, s.info[t].home, a, c);
      case OnCol(d, _) =>
        ChainTransitive(s.cols, d, a, c);
        ChainBounds(s.cols, d, a);
        ChainBounds(s.cols, a, c);
    }
  }

  /** A member starts after what each container above it does, by way of what sits in
      that container. */
  lemma {:induction false} MemberInherits(s: Sched, n: Node, c: nat, e: Pred)
    requires Lines(s) && ColsOk(s.cols) && NodeAt(s, n) && OnChain(s.cols, HomeAt(s, n), c) && c < |s.entry| && e in s.entry[c]
    ensures From(WebOf(s), PredsAt(s, n), e, Inside(s, c))
    decreases HomeAt(s, n)
  {
    hide InOrder, Latest, GateWaits, EachClosed, LatestHeld, Inside;
    var a, w := HomeAt(s, n), WebOf(s);
    assert Inherits(s, n);
    if a != c {
      MemberInherits(s, ColNode(a), c, e);
      InsideAbove(s, a, c);
      WiderSame(w);
      forall q | q in s.entry[a] ensures From(w, PredsAt(s, n), q, Inside(s, c)) {
        FromGrows(w, w, PredsAt(s, n), PredsAt(s, n), q, Inside(s, a), Inside(s, c));
      }
      FromThrough(w, PredsAt(s, n), s.entry[a], e, Inside(s, c));
    }
  }

  // ---- a predecessor that reads succeeded ------------------------------------

  ghost predicate ReadsOk(s: Sched) {
    && Shape(s) && ColsOk(s.cols) && ViewOk(V(s)) && Members(s.info, s.cols, s.tally)
    && forall c {:trigger s.tally[c]} :: 0 <= c < |s.tally| ==> Current(s.tally[c], s.state)
  }

  lemma ReadsOkWhole(s: Sched)
    requires Whole(s)
    ensures ReadsOk(s)
  {
    hide Tree, Life, Memory, Located, Edges, Led, QueueOk, Counts, Holds, GatesKnown, Started, StartsPast, NoGate,
        GatesAlone, Current;
    forall c | 0 <= c < |s.tally| ensures Current(s.tally[c], s.state) {
    }
  }

  /** An edge that reads succeeded, over what it reads. */
  lemma EdgeFirm(s: Sched, c: nat, through: nat)
    requires ReadsOk(s) && c < |s.tally| && OutcomeOf(V(s), OnCol(c, through)).0 == PredSucceeded
    ensures Firm(s, OnCol(c, through))
  {
    var t := s.tally[c];
    var (cursor, open) := EdgeCursor(t, through, s.draining);
    assert Current(t, s.state);
    forall i | 0 <= i < |t.members| && t.members[i].declaration <= Cut(s, c, through) ensures SucceededIn(t.members[i], s.state) {
      assert t.members[i].declaration < THROUGH_ALL;
      SucceededEdgeMeansMembers(V(s), c, through, i);
    }
  }

  /** What reads succeeded has succeeded, at every remove through what is clean. */
  lemma {:induction false} SucceededIsFirm(s: Sched, p: Pred)
    requires ReadsOk(s) && Traced(s)
    requires PredOk(p, |s.state|, |s.tally|) && OutcomeOf(V(s), p).0 == PredSucceeded
    ensures Firm(s, p) && (CleanPred(s, p) ==> AllFirm(s, StartsAfter(WebOf(s), p)))
    decreases Rank(p), 1, 0
  {
    hide Lines, Members, Current, AllFirm, CleanTask, CleanCol;
    match p
    case Missing =>
    case OnTask(t) =>
      if CleanTask(s, t) {
        CleanRuns(s, t);
      }
    case OnCol(c, through) =>
      EdgeFirm(s, c, through);
      var t := s.tally[c];
      var cursor := EdgeCursor(t, through, s.draining).0;
      if HasMemberThrough(t, cursor) {
        SucceededEdgeMeansMembers(V(s), c, through, 0);
        if CleanCol(s, c) {
          MemberRan(s, c, 0);
        }
      } else {
        EntryIsFirm(s, c, s.entry[c]);
        FirmWhole(s, s.entry[c]);
      }
  }

  lemma CleanRuns(s: Sched, t: TaskId)
    requires CleanTask(s, t) && Succeeded(s, t)
    ensures RunsTask(s, t)
  {
  }

  lemma {:induction false} EntryIsFirm(s: Sched, c: nat, es: seq<Pred>)
    requires ReadsOk(s) && Traced(s)
    requires c < |s.tally| && PredsOk(es, |s.state|, c) && EntryOutcome(V(s), c, es).0 == PredSucceeded
    ensures forall e :: e in es ==> Firm(s, e) && (CleanPred(s, e) ==> AllFirm(s, StartsAfter(WebOf(s), e)))
    decreases c + 1, 0, |es|
  {
    hide Traced, AllFirm, Firm, CleanPred, ReadsOk;
    if es != [] {
      SucceededIsFirm(s, es[0]);
      EntryIsFirm(s, c, es[1..]);
      assert es == [es[0]] + es[1..];
    }
  }

  /** A member that succeeded had all its container starts after. */
  lemma MemberRan(s: Sched, c: nat, i: nat)
    requires ReadsOk(s) && Traced(s) && CleanCol(s, c)
    requires c < |s.tally| && i < |s.tally[c].members| && SucceededIn(s.tally[c].members[i], s.state)
    ensures AllFirm(s, s.entry[c])
  {
    hide AllFirm, Lines, Current, Inside;
    var m := s.tally[c].members[i].id;
    assert MembersAt(s.info, s.cols, s.tally[c], c);
    assert m in Ids(s.tally[c].members);
    CleanRuns(s, m);
    forall e | e in s.entry[c] ensures From(WebOf(s), s.named[m], e, Inside(s, c)) {
      MemberRoute(s, m, c, e);
    }
    InsideClean(s, c);
    FirmThrough(s, s.named[m], s.entry[c], Inside(s, c));
  }

  lemma MemberRoute(s: Sched, m: TaskId, c: nat, e: Pred)
    requires Lines(s) && ColsOk(s.cols) && Below(s.info, s.cols, m, c) && c < |s.entry| && e in s.entry[c]
    ensures m < |s.named| && From(WebOf(s), s.named[m], e, Inside(s, c))
  {
    MemberInherits(s, TaskNode(m), c, e);
  }
}
