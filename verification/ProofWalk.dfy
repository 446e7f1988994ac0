/** Whether one Task can only run once another settled (computed_proof.go): a
    search from the consumer, over the edges that were declared, that marks what
    it has seen and so ends on cyclic graphs too. */
module ProofWalk {
  import opened Outcomes
  import opened Topology
  import opened Eligibility
  import opened Followers

  /** What was declared: each Task's After edges and each container's. */
  datatype Declared = Declared(
    info: seq<TaskInfo>,
    cols: seq<ColInfo>,
    after: seq<seq<Pred>>,
    entry: seq<seq<Pred>>)

  ghost predicate DeclaredOk(g: Declared) {
    && ColsOk(g.cols) && TasksOk(g.info, g.cols)
    && |g.after| == |g.info| && |g.entry| == |g.cols|
    && (forall t {:trigger g.after[t]} :: 0 <= t < |g.after| ==> PredsOk(g.after[t], |g.info|, |g.cols|))
    && (forall c {:trigger g.entry[c]} :: 0 <= c < |g.entry| ==> PredsOk(g.entry[c], |g.info|, |g.cols|))
  }

  ghost predicate NodeIn(g: Declared, n: Node) {
    match n
    case TaskNode(t) => t < |g.info|
    case ColNode(c) => c < |g.cols|
  }

  ghost predicate Names(ps: seq<Pred>, n: Node) {
    match n
    case TaskNode(t) => OnTask(t) in ps
    case ColNode(c) => exists p :: p in ps && p.OnCol? && p.c == c
  }

  // ---- the meaning --------------------------------------------------------

  /** n's own declared edges, and what n sits in. */
  ghost predicate Edge(g: Declared, n: Node, m: Node)
    requires DeclaredOk(g) && NodeIn(g, n)
  {
    match n
    case TaskNode(t) => Names(g.after[t], m) || (m.ColNode? && m.c == g.info[t].home)
    case ColNode(c) => Names(g.entry[c], m) || (m.ColNode? && m.c == g.cols[c].parent)
  }

  /** The producer sits in a step of Sequence a declared before declaration. */
  predicate EarlierStep(g: Declared, producer: TaskId, a: int, declaration: nat)
    requires producer < |g.info|
  {
    && 0 <= a < |g.cols| && g.cols[a].sequential
    && var step := StepDecl(g.cols, g.info[producer].home, g.info[producer].decl, a);
       step != 0 && step < declaration
  }

  ghost predicate NamesOver(g: Declared, ps: seq<Pred>, producer: TaskId)
    requires producer < |g.info|
  {
    exists p :: p in ps && p.OnCol? && OnChain(g.cols, g.info[producer].home, p.c)
  }

  /** One last hop from n proves that the producer settled: n is it, n starts after
      a container that holds it, or n is a later step of a Sequence that holds it. */
  ghost predicate Arrives(g: Declared, producer: TaskId, n: Node)
    requires DeclaredOk(g) && NodeIn(g, n) && producer < |g.info|
  {
    match n
    case TaskNode(t) =>
      t == producer || NamesOver(g, g.after[t], producer) || EarlierStep(g, producer, g.info[t].home, g.info[t].decl)
    case ColNode(c) =>
      NamesOver(g, g.entry[c], producer) || EarlierStep(g, producer, g.cols[c].parent, g.cols[c].decl)
  }

  ghost predicate Route(g: Declared, route: seq<Node>)
    requires DeclaredOk(g)
  {
    && (forall i :: 0 <= i < |route| ==> NodeIn(g, route[i]))
    && forall i :: 0 <= i < |route| - 1 ==> Edge(g, route[i], route[i + 1])
  }

  /** Declared edges lead from n to a last hop. */
  ghost predicate Proved(g: Declared, producer: TaskId, n: Node)
    requires DeclaredOk(g) && producer < |g.info|
  {
    exists route: seq<Node> :: |route| > 0 && Route(g, route) && route[0] == n && Arrives(g, producer, route[|route| - 1])
  }

  lemma ProvedFurther(g: Declared, producer: TaskId, n: Node, m: Node)
    requires DeclaredOk(g) && producer < |g.info| && NodeIn(g, n) && Edge(g, n, m) && Proved(g, producer, m)
    ensures Proved(g, producer, n)
  {
    var route: seq<Node> :| |route| > 0 && Route(g, route) && route[0] == m && Arrives(g, producer, route[|route| - 1]);
    var longer := [n] + route;
    assert Route(g, longer) by {
      forall i | 0 <= i < |longer| - 1 ensures Edge(g, longer[i], longer[i + 1]) {
        if i > 0 {
          assert Edge(g, route[i - 1], route[i]);
        }
      }
    }
    assert longer[|longer| - 1] == route[|route| - 1];
  }

  lemma ProvedHere(g: Declared, producer: TaskId, n: Node)
    requires DeclaredOk(g) && producer < |g.info| && NodeIn(g, n) && Arrives(g, producer, n)
    ensures Proved(g, producer, n)
  {
    assert Route(g, [n]);
  }

  /** The producer was declared into Sequence a, before declaration. */
  predicate EarlierSibling(g: Declared, producer: TaskId, a: int, declaration: nat)
    requires producer < |g.info|
  {
    0 <= a < |g.cols| && g.cols[a].sequential && g.info[producer].home == a && 0 < g.info[producer].decl < declaration
  }

  /** The order holds whatever it should of what is declared: of what a Task names, of a
      member of what it names, of an earlier member of its own Sequence, and of whatever
      is ordered before something it names or before what it sits in. */
  lemma OrderedPlainly(g: Declared, producer: TaskId, t: TaskId)
    requires DeclaredOk(g) && producer < |g.info| && t < |g.info|
    ensures t == producer || OnTask(producer) in g.after[t] ==> Proved(g, producer, TaskNode(t))
    ensures forall c: nat, k :: OnCol(c, k) in g.after[t] && Below(g.info, g.cols, producer, c) ==> Proved(g, producer, TaskNode(t))
    ensures EarlierSibling(g, producer, g.info[t].home, g.info[t].decl) ==> Proved(g, producer, TaskNode(t))
    ensures forall u: nat :: OnTask(u) in g.after[t] && Proved(g, producer, TaskNode(u)) ==> Proved(g, producer, TaskNode(t))
    ensures forall c: nat, k :: OnCol(c, k) in g.after[t] && Proved(g, producer, ColNode(c)) ==> Proved(g, producer, TaskNode(t))
    ensures forall c: nat :: g.info[t].home == c && c < |g.cols| && Proved(g, producer, ColNode(c)) ==> Proved(g, producer, TaskNode(t))
  {
    hide Proved;
    if t == producer {
      ProvedHere(g, producer, TaskNode(t));
    }
    if OnTask(producer) in g.after[t] {
      ProvedHere(g, producer, TaskNode(producer));
      ProvedFurther(g, producer, TaskNode(t), TaskNode(producer));
    }
    forall c: nat, k | OnCol(c, k) in g.after[t] && Below(g.info, g.cols, producer, c) ensures Proved(g, producer, TaskNode(t)) {
      ProvedHere(g, producer, TaskNode(t));
    }
    if EarlierSibling(g, producer, g.info[t].home, g.info[t].decl) {
      assert EarlierStep(g, producer, g.info[t].home, g.info[t].decl);
      ProvedHere(g, producer, TaskNode(t));
    }
    forall u: nat | OnTask(u) in g.after[t] && Proved(g, producer, TaskNode(u)) ensures Proved(g, producer, TaskNode(t)) {
      ProvedFurther(g, producer, TaskNode(t), TaskNode(u));
    }
    forall c: nat, k | OnCol(c, k) in g.after[t] && Proved(g, producer, ColNode(c)) ensures Proved(g, producer, TaskNode(t)) {
      ProvedFurther(g, producer, TaskNode(t), ColNode(c));
    }
    forall c: nat | g.info[t].home == c && c < |g.cols| && Proved(g, producer, ColNode(c)) ensures Proved(g, producer, TaskNode(t)) {
      ProvedFurther(g, producer, TaskNode(t), ColNode(c));
    }
  }

  /** The same of a container: of what it names and what it sits in. */
  lemma ContainerOrderedPlainly(g: Declared, producer: TaskId, d: nat)
    requires DeclaredOk(g) && producer < |g.info| && d < |g.cols|
    ensures OnTask(producer) in g.entry[d] ==> Proved(g, producer, ColNode(d))
    ensures forall c: nat, k :: OnCol(c, k) in g.entry[d] && Below(g.info, g.cols, producer, c) ==> Proved(g, producer, ColNode(d))
    ensures EarlierSibling(g, producer, g.cols[d].parent, g.cols[d].decl) ==> Proved(g, producer, ColNode(d))
    ensures forall c: nat, k :: OnCol(c, k) in g.entry[d] && Proved(g, producer, ColNode(c)) ==> Proved(g, producer, ColNode(d))
    ensures forall c: nat :: g.cols[d].parent == c && Proved(g, producer, ColNode(c)) ==> Proved(g, producer, ColNode(d))
  {
    hide Proved;
    if OnTask(producer) in g.entry[d] {
      ProvedHere(g, producer, TaskNode(producer));
      ProvedFurther(g, producer, ColNode(d), TaskNode(producer));
    }
    forall c: nat, k | OnCol(c, k) in g.entry[d] && Below(g.info, g.cols, producer, c) ensures Proved(g, producer, ColNode(d)) {
      ProvedHere(g, producer, ColNode(d));
    }
    if EarlierSibling(g, producer, g.cols[d].parent, g.cols[d].decl) {
      assert EarlierStep(g, producer, g.cols[d].parent, g.cols[d].decl);
      ProvedHere(g, producer, ColNode(d));
    }
    forall c: nat, k | OnCol(c, k) in g.entry[d] && Proved(g, producer, ColNode(c)) ensures Proved(g, producer, ColNode(d)) {
      ProvedFurther(g, producer, ColNode(d), ColNode(c));
    }
    forall c: nat | g.cols[d].parent == c && Proved(g, producer, ColNode(c)) ensures Proved(g, producer, ColNode(d)) {
      ProvedFurther(g, producer, ColNode(d), ColNode(c));
    }
  }

  // ---- what a failed search leaves behind ---------------------------------

  /** Every vertex newly seen is no last hop, and leads only to vertices seen, or
      still to be looked at next. */
  ghost predicate Exhausted(g: Declared, producer: TaskId, was: set<Node>, now: set<Node>, next: set<Node>)
    requires DeclaredOk(g) && producer < |g.info|
  {
    && was <= now
    && forall n :: n in now && n !in was ==>
         NodeIn(g, n) && !Arrives(g, producer, n) && forall m :: Edge(g, n, m) && NodeIn(g, m) ==> m in now || m in next
  }

  lemma ExhaustedTwice(g: Declared, producer: TaskId, a: set<Node>, b: set<Node>, c: set<Node>, next: set<Node>)
    requires DeclaredOk(g) && producer < |g.info|
    requires Exhausted(g, producer, a, b, next) && Exhausted(g, producer, b, c, {})
    ensures Exhausted(g, producer, a, c, next)
  {
  }

  lemma {:induction false} RouteStays(g: Declared, producer: TaskId, seen: set<Node>, route: seq<Node>)
    requires DeclaredOk(g) && producer < |g.info| && Exhausted(g, producer, {}, seen, {})
    requires |route| > 0 && Route(g, route) && route[0] in seen
    ensures route[|route| - 1] in seen
    decreases |route|
  {
    if |route| > 1 {
      assert Edge(g, route[0], route[1]);
      assert Route(g, route[1..]) by {
        forall i | 0 <= i < |route| - 2 ensures Edge(g, route[1..][i], route[1..][i + 1]) {
          assert Edge(g, route[i + 1], route[i + 2]);
        }
      }
      RouteStays(g, producer, seen, route[1..]);
    }
  }

  lemma NotProved(g: Declared, producer: TaskId, seen: set<Node>, n: Node)
    requires DeclaredOk(g) && producer < |g.info| && Exhausted(g, producer, {}, seen, {}) && n in seen
    ensures !Proved(g, producer, n)
  {
    if Proved(g, producer, n) {
      var route: seq<Node> :| |route| > 0 && Route(g, route) && route[0] == n && Arrives(g, producer, route[|route| - 1]);
      RouteStays(g, producer, seen, route);
    }
  }

  // ---- the search ---------------------------------------------------------

  ghost function AllNodes(g: Declared): set<Node> {
    (set t | 0 <= t < |g.info| :: TaskNode(t)) + (set c | 0 <= c < |g.cols| :: ColNode(c))
  }

  ghost function SeenOf(tasks: set<TaskId>, cols: set<nat>): set<Node> {
    (set t | t in tasks :: TaskNode(t)) + (set c | c in cols :: ColNode(c))
  }

  lemma InSeen(tasks: set<TaskId>, cols: set<nat>, n: Node)
    ensures n in SeenOf(tasks, cols) <==> match n case TaskNode(t) => t in tasks case ColNode(c) => c in cols
  {
  }

  lemma InAll(g: Declared, n: Node)
    ensures n in AllNodes(g) <==> NodeIn(g, n)
  {
  }

  lemma FewerLeft(all: set<Node>, was: set<Node>, now: set<Node>, n: Node)
    requires n in all && n !in was && now == was + {n}
    ensures |all - now| < |all - was|
  {
    assert all - was == (all - now) + {n};
  }

  lemma TaskMarked(g: Declared, tasks: set<TaskId>, cols: set<nat>, t: TaskId)
    requires t < |g.info| && t !in tasks
    ensures MarkedTask(g, tasks, cols, t)
  {
    var was, now := SeenOf(tasks, cols), SeenOf(tasks + {t}, cols);
    forall n ensures n in now <==> n in was + {TaskNode(t)} {
      InSeen(tasks, cols, n);
      InSeen(tasks + {t}, cols, n);
    }
    InAll(g, TaskNode(t));
    InSeen(tasks, cols, TaskNode(t));
    FewerLeft(AllNodes(g), was, now, TaskNode(t));
  }

  lemma ColMarked(g: Declared, tasks: set<TaskId>, cols: set<nat>, c: nat)
    requires c < |g.cols| && c !in cols
    ensures MarkedCol(g, tasks, cols, c)
  {
    var was, now := SeenOf(tasks, cols), SeenOf(tasks, cols + {c});
    forall n ensures n in now <==> n in was + {ColNode(c)} {
      InSeen(tasks, cols, n);
      InSeen(tasks, cols + {c}, n);
    }
    InAll(g, ColNode(c));
    InSeen(tasks, cols, ColNode(c));
    FewerLeft(AllNodes(g), was, now, ColNode(c));
  }

  /** Marking a Task leaves fewer vertices unseen. */
  ghost predicate MarkedTask(g: Declared, tasks: set<TaskId>, cols: set<nat>, t: TaskId) {
    && SeenOf(tasks + {t}, cols) == SeenOf(tasks, cols) + {TaskNode(t)}
    && |AllNodes(g) - SeenOf(tasks + {t}, cols)| < |AllNodes(g) - SeenOf(tasks, cols)|
  }

  ghost predicate MarkedCol(g: Declared, tasks: set<TaskId>, cols: set<nat>, c: nat) {
    && SeenOf(tasks, cols + {c}) == SeenOf(tasks, cols) + {ColNode(c)}
    && |AllNodes(g) - SeenOf(tasks, cols + {c})| < |AllNodes(g) - SeenOf(tasks, cols)|
  }

  class Search {
    const g: Declared
    const producer: TaskId
    var seenTasks: set<TaskId>
    var seenCols: set<nat>

    ghost predicate Valid()
      reads this
    {
      && DeclaredOk(g) && producer < |g.info|
      && (forall t :: t in seenTasks ==> t < |g.info|) && (forall c :: c in seenCols ==> c < |g.cols|)
    }

    ghost function Seen(): set<Node>
      reads this
    {
      SeenOf(seenTasks, seenCols)
    }

    ghost function Unseen(): set<Node>
      reads this
    {
      AllNodes(g) - Seen()
    }

    constructor (graph: Declared, wanted: TaskId)
      requires DeclaredOk(graph) && wanted < |graph.info|
      ensures Valid() && g == graph && producer == wanted && Seen() == {}
    {
      g, producer, seenTasks, seenCols := graph, wanted, {}, {};
    }

    lemma NoMoreUnseen(was: set<Node>)
      requires was <= Seen()
      ensures |Unseen()| <= |AllNodes(g) - was|
    {
      assert AllNodes(g) - was == Unseen() + (Seen() - was) * AllNodes(g);
      assert Unseen() <= AllNodes(g) - was;
      SubsetSize(Unseen(), AllNodes(g) - was);
    }

    /** From Task t. */
    method Task(t: TaskId) returns (found: bool)
      requires Valid() && t < |g.info|
      modifies this
      ensures Valid() && old(Seen()) <= Seen()
      ensures found ==> Proved(g, producer, TaskNode(t))
      ensures !found ==> Exhausted(g, producer, old(Seen()), Seen(), {}) && TaskNode(t) in Seen()
      decreases |Unseen()|, 0, 0
    {
      hide Proved, Exhausted, EarlierStep, Tried, SeenOf, AllNodes, Arrives, Edge;
      ghost var was, n := Seen(), TaskNode(t);
      InSeen(seenTasks, seenCols, n);
      if t == producer {
        ProvedAtOnce(g, producer, n);
        return true;
      }
      if t in seenTasks {
        ExhaustedNone(g, producer, was);
        return false;
      }
      TaskMarked(g, seenTasks, seenCols, t);
      seenTasks := seenTasks + {t};
      found := SequenceStepBefore(g.info[t].home, g.info[t].decl);
      if found {
        ProvedAtOnce(g, producer, n);
        return;
      }
      found := Preds(g.after[t], n);
      if found {
        return;
      }
      ghost var mid := Seen();
      NoMoreUnseen(was + {n});
      found := Col(g.info[t].home);
      if found {
        ProvedAround(g, producer, t);
      } else {
        ExhaustedTask(g, producer, was, mid, Seen(), t);
      }
    }

    /** From container c, or from nothing at the root, up. A container starts only
        once its own After edges settled, and so does everything it sits in. */
    method Col(c: int) returns (found: bool)
      requires Valid() && -1 <= c < |g.cols|
      modifies this
      ensures Valid() && old(Seen()) <= Seen()
      ensures found ==> c >= 0 && Proved(g, producer, ColNode(c))
      ensures !found ==> Exhausted(g, producer, old(Seen()), Seen(), {}) && (c >= 0 ==> ColNode(c) in Seen())
      decreases |Unseen()|, 0, 1
    {
      hide Proved, Exhausted, SeenOf, AllNodes;
      ghost var s0 := Seen();
      ExhaustedNone(g, producer, s0);
      var d := c;
      while d >= 0
        invariant -1 <= d < |g.cols| && Valid() && s0 <= Seen()
        invariant Exhausted(g, producer, s0, Seen(), At(d))
        invariant d != c ==> c >= 0 && ColNode(c) in Seen()
        invariant d >= 0 && Proved(g, producer, ColNode(d)) ==> c >= 0 && Proved(g, producer, ColNode(c))
        decreases d
      {
        ghost var was := Seen();
        InSeen(seenTasks, seenCols, ColNode(d));
        if d in seenCols {
          ExhaustedSeen(g, producer, s0, was, d);
          return false;
        }
        NoMoreUnseen(s0);
        found := Level(d);
        if found {
          return;
        }
        ExhaustedOn(g, producer, s0, was, Seen(), d);
        ProvedUp(g, producer, d);
        d := g.cols[d].parent;
      }
      found := false;
    }

    /** From what container d itself starts after. */
    method Level(d: nat) returns (found: bool)
      requires Valid() && d < |g.cols| && d !in seenCols
      modifies this
      ensures Valid() && old(Seen()) <= Seen() && ColNode(d) in Seen()
      ensures found ==> Proved(g, producer, ColNode(d))
      ensures !found ==> Exhausted(g, producer, old(Seen()), Seen(), At(g.cols[d].parent))
      decreases |Unseen()|, 0, 0
    {
      hide Proved, Exhausted, EarlierStep, Tried, SeenOf, AllNodes, Arrives, Edge;
      ghost var was, n := Seen(), ColNode(d);
      ColMarked(g, seenTasks, seenCols, d);
      seenCols := seenCols + {d};
      found := Preds(g.entry[d], n);
      if found {
        return;
      }
      if g.cols[d].parent >= 0 {
        found := SequenceStepBefore(g.cols[d].parent, g.cols[d].decl);
        if found {
          ProvedAtOnce(g, producer, n);
          return;
        }
      }
      ExhaustedUp(g, producer, was, Seen(), d);
    }

    /** From each of n's declared predecessors ps in turn. */
    method Preds(ps: seq<Pred>, ghost n: Node) returns (found: bool)
      requires Valid() && NodeIn(g, n) && ps == PredsAt(g, n) && PredsOk(ps, |g.info|, |g.cols|)
      modifies this
      ensures Valid() && old(Seen()) <= Seen()
      ensures found ==> Proved(g, producer, n)
      ensures !found ==> Exhausted(g, producer, old(Seen()), Seen(), {}) && Tried(g, producer, ps, |ps|, Seen())
      decreases |Unseen()|, 1, 0
    {
      hide Proved, Exhausted, Tried, OnChain, SeenOf, AllNodes;
      ghost var was := Seen();
      ExhaustedNone(g, producer, was);
      NoneTried(g, producer, ps, was);
      for i := 0 to |ps|
        invariant Valid() && was <= Seen() && Exhausted(g, producer, was, Seen(), {})
        invariant Tried(g, producer, ps, i, Seen())
      {
        ghost var mid := Seen();
        NoMoreUnseen(was);
        assert PredOk(ps[i], |g.info|, |g.cols|);
        found := One(ps[i]);
        if found {
          ProvedByOne(g, producer, n, ps, i);
          return;
        }
        ExhaustedTwice(g, producer, was, mid, Seen(), {});
        OneMoreTried(g, producer, ps, i, mid, Seen());
      }
      found := false;
    }

    /** From one declared predecessor. */
    method One(p: Pred) returns (found: bool)
      requires Valid() && PredOk(p, |g.info|, |g.cols|)
      modifies this
      ensures Valid() && old(Seen()) <= Seen()
      ensures found ==> Settles(g, producer, p)
      ensures !found ==> Exhausted(g, producer, old(Seen()), Seen(), {}) && Fruitless(g, producer, p, Seen())
      decreases |Unseen()|, 0, 2
    {
      hide Proved, Exhausted, OnChain, SeenOf, AllNodes;
      match p
      case Missing =>
        ExhaustedNone(g, producer, Seen());
        found := false;
      case OnTask(t) =>
        found := Task(t);
      case OnCol(c, through) =>
        found := ContainsTask(c);
        if !found {
          found := Col(c);
        }
    }

    /** Whether the producer is a member of c, at any depth. */
    method ContainsTask(c: nat) returns (r: bool)
      requires Valid() && c < |g.cols|
      ensures r == OnChain(g.cols, g.info[producer].home, c)
    {
      var m := g.info[producer].home;
      while m >= 0
        invariant -1 <= m < |g.cols|
        invariant OnChain(g.cols, g.info[producer].home, c) == OnChain(g.cols, m, c)
        decreases m
      {
        if m == c {
          return true;
        }
        m := g.cols[m].parent;
      }
      r := false;
    }

    /** Whether a is a Sequence that holds the producer in a step declared before
        declaration. */
    method SequenceStepBefore(a: int, declaration: nat) returns (r: bool)
      requires Valid() && -1 <= a < |g.cols|
      ensures r == EarlierStep(g, producer, a, declaration)
    {
      if a < 0 || !g.cols[a].sequential {
        return false;
      }
      var step := StepDeclaration(a);
      r := step != 0 && step < declaration;
    }

    /** The declaration of the step of a that holds the producer, or zero. */
    method StepDeclaration(a: nat) returns (step: nat)
      requires Valid() && a < |g.cols|
      ensures step == StepDecl(g.cols, g.info[producer].home, g.info[producer].decl, a)
    {
      if g.info[producer].home == a {
        return g.info[producer].decl;
      }
      var c := g.info[producer].home;
      while c >= 0
        invariant -1 <= c < |g.cols| && c != a
        invariant StepDecl(g.cols, g.info[producer].home, g.info[producer].decl, a)
               == if c >= 0 then StepDecl(g.cols, g.cols[c].parent, g.cols[c].decl, a) else 0
        decreases c
      {
        if g.cols[c].parent == a {
          return g.cols[c].decl;
        }
        c := g.cols[c].parent;
      }
      step := 0;
    }
  }

  ghost function At(d: int): set<Node> {
    if d >= 0 then {ColNode(d)} else {}
  }

  /** Starting after p means starting after the producer. */
  ghost predicate Settles(g: Declared, producer: TaskId, p: Pred)
    requires DeclaredOk(g) && producer < |g.info|
  {
    match p
    case Missing => false
    case OnTask(t) => Proved(g, producer, TaskNode(t))
    case OnCol(c, _) => OnChain(g.cols, g.info[producer].home, c) || Proved(g, producer, ColNode(c))
  }

  ghost predicate Fruitless(g: Declared, producer: TaskId, p: Pred, seen: set<Node>)
    requires producer < |g.info|
  {
    match p
    case Missing => true
    case OnTask(t) => TaskNode(t) in seen
    case OnCol(c, _) => !OnChain(g.cols, g.info[producer].home, c) && ColNode(c) in seen
  }

  /** The first n of ps led nowhere. */
  ghost predicate Tried(g: Declared, producer: TaskId, ps: seq<Pred>, n: nat, seen: set<Node>)
    requires producer < |g.info|
  {
    n <= |ps| && forall k :: 0 <= k < n ==> Fruitless(g, producer, ps[k], seen)
  }

  lemma NoneTried(g: Declared, producer: TaskId, ps: seq<Pred>, seen: set<Node>)
    requires producer < |g.info|
    ensures Tried(g, producer, ps, 0, seen)
  {
  }

  lemma OneMoreTried(g: Declared, producer: TaskId, ps: seq<Pred>, n: nat, was: set<Node>, now: set<Node>)
    requires producer < |g.info| && n < |ps| && was <= now
    requires Tried(g, producer, ps, n, was) && Fruitless(g, producer, ps[n], now)
    ensures Tried(g, producer, ps, n + 1, now)
  {
    hide OnChain;
  }

  /** A vertex all of whose predecessors led nowhere names nothing but what is seen. */
  lemma AllTried(g: Declared, producer: TaskId, ps: seq<Pred>, seen: set<Node>)
    requires producer < |g.info| && Tried(g, producer, ps, |ps|, seen)
    ensures !NamesOver(g, ps, producer) && forall m :: Names(ps, m) ==> m in seen
  {
    hide OnChain;
    forall p | p in ps ensures Fruitless(g, producer, p, seen) {
      var k :| 0 <= k < |ps| && ps[k] == p;
    }
    forall m | Names(ps, m) ensures m in seen {
      match m
      case TaskNode(t) => assert Fruitless(g, producer, OnTask(t), seen);
      case ColNode(c) =>
        var p :| p in ps && p.OnCol? && p.c == c;
        assert Fruitless(g, producer, p, seen);
    }
  }

  lemma ProvedByOne(g: Declared, producer: TaskId, n: Node, ps: seq<Pred>, i: nat)
    requires DeclaredOk(g) && producer < |g.info| && NodeIn(g, n) && ps == PredsAt(g, n) && i < |ps|
    requires Settles(g, producer, ps[i])
    ensures Proved(g, producer, n)
  {
    hide Proved, OnChain;
    assert ps[i] in ps;
    if ps[i].OnTask? {
      ProvedFurther(g, producer, n, TaskNode(ps[i].t));
    } else if OnChain(g.cols, g.info[producer].home, ps[i].c) {
      assert NamesOver(g, ps, producer);
      ProvedHere(g, producer, n);
    } else {
      assert Names(ps, ColNode(ps[i].c));
      ProvedFurther(g, producer, n, ColNode(ps[i].c));
    }
  }

  lemma ExhaustedNone(g: Declared, producer: TaskId, seen: set<Node>)
    requires DeclaredOk(g) && producer < |g.info|
    ensures forall next :: Exhausted(g, producer, seen, seen, next)
  {
  }

  lemma ExhaustedSeen(g: Declared, producer: TaskId, was: set<Node>, now: set<Node>, d: nat)
    requires DeclaredOk(g) && producer < |g.info| && Exhausted(g, producer, was, now, At(d)) && ColNode(d) in now
    ensures Exhausted(g, producer, was, now, {})
  {
  }

  /** Container d led nowhere: what is left is the container it sits in. */
  lemma ExhaustedUp(g: Declared, producer: TaskId, was: set<Node>, now: set<Node>, d: nat)
    requires DeclaredOk(g) && producer < |g.info| && d < |g.cols|
    requires Exhausted(g, producer, was + {ColNode(d)}, now, {})
    requires Tried(g, producer, g.entry[d], |g.entry[d]|, now)
    requires g.cols[d].parent >= 0 ==> !EarlierStep(g, producer, g.cols[d].parent, g.cols[d].decl)
    ensures Exhausted(g, producer, was, now, At(g.cols[d].parent))
  {
    hide OnChain, Tried, EarlierStep, NamesOver, Names;
    AllTried(g, producer, g.entry[d], now);
    NotEarlier(g, producer, d);
  }

  lemma ExhaustedOn(g: Declared, producer: TaskId, a: set<Node>, b: set<Node>, c: set<Node>, d: nat)
    requires DeclaredOk(g) && producer < |g.info| && d < |g.cols| && ColNode(d) in c
    requires Exhausted(g, producer, a, b, At(d)) && Exhausted(g, producer, b, c, At(g.cols[d].parent))
    ensures Exhausted(g, producer, a, c, At(g.cols[d].parent))
  {
    hide Arrives, Edge;
  }

  lemma NotEarlier(g: Declared, producer: TaskId, d: nat)
    requires DeclaredOk(g) && producer < |g.info| && d < |g.cols|
    ensures g.cols[d].parent < 0 ==> !EarlierStep(g, producer, g.cols[d].parent, g.cols[d].decl)
  {
  }

  /** The same for a Task. */
  lemma ExhaustedTask(g: Declared, producer: TaskId, was: set<Node>, mid: set<Node>, now: set<Node>, t: TaskId)
    requires DeclaredOk(g) && producer < |g.info| && t < |g.info| && t != producer
    requires Exhausted(g, producer, was + {TaskNode(t)}, mid, {}) && Exhausted(g, producer, mid, now, {})
    requires Tried(g, producer, g.after[t], |g.after[t]|, mid)
    requires !EarlierStep(g, producer, g.info[t].home, g.info[t].decl)
    requires g.info[t].home >= 0 ==> ColNode(g.info[t].home) in now
    ensures Exhausted(g, producer, was, now, {}) && TaskNode(t) in now
  {
    hide OnChain, Tried, EarlierStep, NamesOver, Names;
    AllTried(g, producer, g.after[t], mid);
  }

  /** n is the producer, or a step after the one that holds it. */
  lemma ProvedAtOnce(g: Declared, producer: TaskId, n: Node)
    requires DeclaredOk(g) && producer < |g.info| && NodeIn(g, n)
    requires match n
      case TaskNode(t) => t == producer || EarlierStep(g, producer, g.info[t].home, g.info[t].decl)
      case ColNode(c) => EarlierStep(g, producer, g.cols[c].parent, g.cols[c].decl)
    ensures Proved(g, producer, n)
  {
    hide Proved, EarlierStep;
    ProvedHere(g, producer, n);
  }

  lemma ProvedAround(g: Declared, producer: TaskId, t: TaskId)
    requires DeclaredOk(g) && producer < |g.info| && t < |g.info| && g.info[t].home >= 0
    requires Proved(g, producer, ColNode(g.info[t].home))
    ensures Proved(g, producer, TaskNode(t))
  {
    hide Proved;
    ProvedFurther(g, producer, TaskNode(t), ColNode(g.info[t].home));
  }

  lemma ProvedUp(g: Declared, producer: TaskId, d: nat)
    requires DeclaredOk(g) && producer < |g.info| && d < |g.cols|
    ensures g.cols[d].parent >= 0 && Proved(g, producer, ColNode(g.cols[d].parent)) ==> Proved(g, producer, ColNode(d))
  {
    hide Proved;
    if g.cols[d].parent >= 0 && Proved(g, producer, ColNode(g.cols[d].parent)) {
      ProvedFurther(g, producer, ColNode(d), ColNode(g.cols[d].parent));
    }
  }

  lemma SubsetSize<T>(a: set<T>, b: set<T>)
    requires a <= b
    ensures |a| <= |b|
  {
    assert b == a + (b - a);
  }

  ghost function PredsAt(g: Declared, n: Node): seq<Pred>
    requires DeclaredOk(g) && NodeIn(g, n)
  {
    match n
    case TaskNode(t) => g.after[t]
    case ColNode(c) => g.entry[c]
  }

  /** A builder's gate searches from its container; a Task from itself. */
  function StartOf(g: Declared, consumer: TaskId): Node
    requires consumer < |g.info|
  {
    if g.info[consumer].gateFor >= 0 then ColNode(g.info[consumer].gateFor) else TaskNode(consumer)
  }

  /** The search finds the producer exactly when declared edges lead to it. */
  method OrderedAfter(g: Declared, consumer: TaskId, producer: TaskId) returns (r: bool)
    requires DeclaredOk(g) && consumer < |g.info| && producer < |g.info|
    ensures r <==> consumer != producer && Proved(g, producer, StartOf(g, consumer))
  {
    if consumer == producer {
      return false;
    }
    var w := new Search(g, producer);
    if g.info[consumer].gateFor >= 0 {
      r := w.Col(g.info[consumer].gateFor);
    } else {
      r := w.Task(consumer);
    }
    if !r {
      NotProved(g, producer, w.Seen(), StartOf(g, consumer));
    }
  }

  // ---- what the search proves, and what it misses -------------------------

  /** m settles before n may start: n's own edges and containers, any member of a
      container n starts after, any earlier step of the Sequence n sits in. */
  ghost predicate Before(g: Declared, n: Node, m: Node)
    requires DeclaredOk(g) && NodeIn(g, n)
  {
    Edge(g, n, m) || (m.TaskNode? && m.t < |g.info| && m != n && Arrives(g, m.t, n))
  }

  ghost predicate OrderRoute(g: Declared, route: seq<Node>)
    requires DeclaredOk(g)
  {
    && (forall i :: 0 <= i < |route| ==> NodeIn(g, route[i]))
    && forall i :: 0 <= i < |route| - 1 ==> Before(g, route[i], route[i + 1])
  }

  ghost predicate Leading(g: Declared, route: seq<Node>, n: Node, producer: TaskId)
    requires DeclaredOk(g)
  {
    |route| > 0 && OrderRoute(g, route) && route[0] == n && route[|route| - 1] == TaskNode(producer)
  }

  ghost predicate Ordered(g: Declared, n: Node, producer: TaskId)
    requires DeclaredOk(g)
  {
    exists route: seq<Node> :: Leading(g, route, n, producer)
  }

  /** Every hop but the last is a declared edge. */
  ghost predicate EdgesInside(g: Declared, route: seq<Node>)
    requires DeclaredOk(g) && OrderRoute(g, route)
  {
    forall i :: 0 <= i < |route| - 2 ==> Edge(g, route[i], route[i + 1])
  }

  /** Exactly what the search finds: the ways of the order that go through a member,
      or an earlier step, at the last hop alone. */
  lemma ProvedExactly(g: Declared, producer: TaskId, n: Node)
    requires DeclaredOk(g) && producer < |g.info|
    ensures Proved(g, producer, n) <==> exists route :: Leading(g, route, n, producer) && EdgesInside(g, route)
  {
    if Proved(g, producer, n) {
      var route := ProvedLeads(g, producer, n);
    }
    if route :| Leading(g, route, n, producer) && EdgesInside(g, route) {
      LeadsProved(g, producer, n, route);
    }
  }

  lemma ProvedLeads(g: Declared, producer: TaskId, n: Node) returns (longer: seq<Node>)
    requires DeclaredOk(g) && producer < |g.info| && Proved(g, producer, n)
    ensures Leading(g, longer, n, producer) && EdgesInside(g, longer)
  {
    hide Arrives, Edge, DeclaredOk;
    var route: seq<Node> :| |route| > 0 && Route(g, route) && route[0] == n && Arrives(g, producer, route[|route| - 1]);
    if route[|route| - 1] == TaskNode(producer) {
      longer := route;
      EdgesLead(g, route);
    } else {
      longer := route + [TaskNode(producer)];
      ArrivalLeads(g, producer, route);
    }
  }

  lemma EdgesLead(g: Declared, route: seq<Node>)
    requires DeclaredOk(g) && Route(g, route)
    ensures OrderRoute(g, route) && EdgesInside(g, route)
  {
    hide Arrives, Edge, DeclaredOk;
    forall i | 0 <= i < |route| - 1 ensures Before(g, route[i], route[i + 1]) {
      assert Edge(g, route[i], route[i + 1]);
    }
  }

  lemma ArrivalLeads(g: Declared, producer: TaskId, route: seq<Node>)
    requires DeclaredOk(g) && producer < |g.info| && |route| > 0 && Route(g, route)
    requires route[|route| - 1] != TaskNode(producer) && Arrives(g, producer, route[|route| - 1])
    ensures OrderRoute(g, route + [TaskNode(producer)]) && EdgesInside(g, route + [TaskNode(producer)])
  {
    hide Arrives, Edge, DeclaredOk;
    var longer, last := route + [TaskNode(producer)], |route| - 1;
    assert Before(g, route[last], TaskNode(producer));
    forall i | 0 <= i < last ensures Edge(g, longer[i], longer[i + 1]) {
      assert Edge(g, route[i], route[i + 1]);
    }
    forall i | 0 <= i < |longer| - 1 ensures Before(g, longer[i], longer[i + 1]) {
      if i < last {
        assert Edge(g, longer[i], longer[i + 1]);
      }
    }
  }

  lemma LeadsProved(g: Declared, producer: TaskId, n: Node, route: seq<Node>)
    requires DeclaredOk(g) && producer < |g.info| && Leading(g, route, n, producer) && EdgesInside(g, route)
    ensures Proved(g, producer, n)
  {
    hide Edge, DeclaredOk;
    var k := |route| - 2;
    if k < 0 {
      ProvedHere(g, producer, n);
    } else if Edge(g, route[k], route[k + 1]) {
      RouteProves(g, producer, route);
    } else {
      assert Before(g, route[k], route[k + 1]);
      var shorter := route[..k + 1];
      forall i | 0 <= i < |shorter| - 1 ensures Edge(g, shorter[i], shorter[i + 1]) {
        assert Edge(g, route[i], route[i + 1]);
      }
      RouteProves(g, producer, shorter);
    }
  }

  lemma RouteProves(g: Declared, producer: TaskId, route: seq<Node>)
    requires DeclaredOk(g) && producer < |g.info| && route != [] && forall i :: 0 <= i < |route| ==> NodeIn(g, route[i])
    requires forall i :: 0 <= i < |route| - 1 ==> Edge(g, route[i], route[i + 1])
    requires Arrives(g, producer, route[|route| - 1])
    ensures Proved(g, producer, route[0])
  {
    hide Edge, Arrives, DeclaredOk;
    assert Route(g, route);
  }

  /** t starts after root container c alone, whose member u starts after p. */
  ghost predicate ThroughMember(g: Declared, p: TaskId, u: TaskId, c: nat, t: TaskId) {
    && DeclaredOk(g) && p < |g.info| && u < |g.info| && t < |g.info| && c < |g.cols| && t != p
    && g.info[p].home == -1 && g.info[t].home == -1 && g.info[u].home == c
    && g.cols[c].parent == -1 && g.entry[c] == []
    && g.after[u] == [OnTask(p)] && |g.after[t]| == 1 && g.after[t][0].OnCol? && g.after[t][0].c == c
  }

  /** The converse fails: the search does not look at what a member of a container
      starts after. */
  lemma OrderedNotProved(g: Declared, p: TaskId, u: TaskId, c: nat, t: TaskId)
    requires ThroughMember(g, p, u, c, t)
    ensures Ordered(g, TaskNode(t), p) && !Proved(g, p, TaskNode(t))
  {
    ThroughMemberOrdered(g, p, u, c, t);
    var seen := {TaskNode(t), ColNode(c)};
    assert g.after[t] == [g.after[t][0]];
    assert Exhausted(g, p, {}, seen, {});
    NotProved(g, p, seen, TaskNode(t));
  }

  lemma ThroughMemberOrdered(g: Declared, p: TaskId, u: TaskId, c: nat, t: TaskId)
    requires ThroughMember(g, p, u, c, t)
    ensures Ordered(g, TaskNode(t), p)
  {
    var route := [TaskNode(t), TaskNode(u), TaskNode(p)];
    assert g.after[t][0] in g.after[t] && OnChain(g.cols, c, c);
    assert OnTask(p) in g.after[u];
    assert Leading(g, route, TaskNode(t), p);
  }

  /** Such a run is easily declared: Task 2 names Group 0, whose Task 1 names Task 0. */
  lemma ThroughMemberHappens(g: Declared)
    requires |g.info| == |g.after| == 3 && |g.cols| == |g.entry| == 1
    requires g.info[0] == TaskInfo(-1, 1, -1) && g.info[1] == TaskInfo(0, 3, -1) && g.info[2] == TaskInfo(-1, 4, -1)
    requires g.cols[0] == ColInfo(-1, 2, false) && g.entry[0] == []
    requires g.after[0] == [] && g.after[1] == [OnTask(0)] && g.after[2] == [OnCol(0, 4)]
    ensures ThroughMember(g, 0, 1, 0, 2)
  {
    hide StepDecl, OnChain;
  }
}
