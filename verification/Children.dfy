/** What a live frame and a verdict read of one collection's direct Tasks, by walking
    every one of them (core/child_tally.go, live_projection.go, snapshot.go). */
module Children {
  import opened Outcomes
  import opened Tallies
  import Census

  /** A Task as its collection sees it; a seen of 0 is the zero time. */
  datatype Child = Child(
    name: string, state: EntityState, seen: nat, warned: bool,
    facts: Facts, skipped: seq<Record>, kept: seq<Record>)

  // ---- counting children --------------------------------------------------

  datatype ChildCounts = ChildCounts(
    total: nat, done: nat, running: bool, pending: bool, unfinished: bool, earliest: nat, width: nat)

  const NO_CHILDREN := ChildCounts(0, 0, false, false, false, 0, 0)

  predicate Completed(s: EntityState) { s == Done || s == Skipped }

  function Added(c: ChildCounts, t: Child): ChildCounts {
    ChildCounts(
      c.total + 1, if Completed(t.state) then c.done + 1 else c.done,
      c.running || t.state == Running, c.pending || t.state == Pending, c.unfinished || !IsTerminal(t.state),
      Census.Earlier(c.earliest, t.seen), Census.Wider(c.width, |t.name|))
  }

  function Merged(c: ChildCounts, o: ChildCounts): ChildCounts {
    ChildCounts(
      c.total + o.total, c.done + o.done, c.running || o.running, c.pending || o.pending,
      c.unfinished || o.unfinished, Census.Earlier(c.earliest, o.earliest), Census.Wider(c.width, o.width))
  }

  function Counted(tasks: seq<Child>): ChildCounts {
    if tasks == [] then NO_CHILDREN else Added(Counted(tasks[..|tasks| - 1]), tasks[|tasks| - 1])
  }

  method CountTasks(tasks: seq<Child>) returns (c: ChildCounts)
    ensures c == Counted(tasks)
  {
    c := NO_CHILDREN;
    var i := 0;
    while i < |tasks|
      invariant i <= |tasks| && c == Counted(tasks[..i])
    {
      c := Added(c, tasks[i]);
      i := i + 1;
      assert tasks[..i][..i - 1] == tasks[..i - 1];
    }
    assert tasks[..i] == tasks;
  }

  lemma MergeAdded(c: ChildCounts, o: ChildCounts, t: Child)
    ensures Added(Merged(c, o), t) == Merged(c, Added(o, t))
    ensures Merged(c, NO_CHILDREN) == c
  {
  }

  /** Counting in two parts and merging is counting all of them. */
  lemma {:induction false} MergeIsAppend(a: seq<Child>, b: seq<Child>)
    ensures Counted(a + b) == Merged(Counted(a), Counted(b))
  {
    hide Added, Merged;
    if b == [] {
      assert a + b == a;
      MergeAdded(Counted(a), NO_CHILDREN, Child("", Done, 0, false, [], [], []));
    } else {
      var front := b[..|b| - 1];
      MergeAdded(Counted(a), Counted(front), b[|b| - 1]);
      MergeIsAppend(a, front);
      assert (a + b)[..|a + b| - 1] == a + front;
    }
  }

  function Count<T>(s: seq<T>, p: T -> bool): (n: nat)
    ensures n <= |s|
  {
    if s == [] then 0 else Count(s[..|s| - 1], p) + if p(s[|s| - 1]) then 1 else 0
  }

  lemma {:induction false} CountSet<T>(s: seq<T>, i: nat, x: T, p: T -> bool)
    requires i < |s|
    ensures Count(s[i := x], p) + (if p(s[i]) then 1 else 0) == Count(s, p) + (if p(x) then 1 else 0)
  {
    var front := s[..|s| - 1];
    if i == |front| {
      assert s[i := x][..|s| - 1] == front;
    } else {
      CountSet(front, i, x, p);
      assert s[i := x][..|s| - 1] == front[i := x];
    }
  }

  lemma {:induction false} CountSome<T>(s: seq<T>, p: T -> bool)
    ensures Count(s, p) > 0 <==> exists i :: 0 <= i < |s| && p(s[i])
    ensures Count(s, p) == |s| <==> forall i :: 0 <= i < |s| ==> p(s[i])
  {
    if s != [] {
      var front := s[..|s| - 1];
      CountSome(front, p);
      if Count(front, p) > 0 {
        var i :| 0 <= i < |front| && p(front[i]);
        assert p(s[i]);
      }
      if Count(front, p) < |front| {
        var i :| 0 <= i < |front| && !p(front[i]);
        assert !p(s[i]);
      }
    }
  }

  /** Only the elements counted matter. */
  lemma {:induction false} CountSame<S, T>(s: seq<S>, t: seq<T>, p: S -> bool, q: T -> bool)
    requires |s| == |t| && forall i :: 0 <= i < |s| ==> p(s[i]) == q(t[i])
    ensures Count(s, p) == Count(t, q)
  {
    if s != [] {
      CountSame(s[..|s| - 1], t[..|t| - 1], p, q);
    }
  }

  // ---- filing children ----------------------------------------------------

  datatype Kind = Kind(item: bool, ownTask: bool, workPeer: bool, rank: nat)

  /** The rules ClassifyChild asks, each an arbitrary function of the Task. */
  datatype Rules = Rules(isOwn: Child -> bool, isItem: Child -> bool, isPeer: Child -> bool, rankOf: Child -> nat)

  const RANKS: nat := 4

  function Classify(rules: Rules, t: Child): Kind {
    if rules.isOwn(t) then Kind(false, true, false, rules.rankOf(t))
    else if rules.isItem(t) then Kind(true, false, false, 0)
    else Kind(false, false, rules.isPeer(t), rules.rankOf(t))
  }

  function Items(rules: Rules): Child -> bool { (t: Child) => Classify(rules, t).item }

  function Work(rules: Rules): Child -> bool { (t: Child) => !Classify(rules, t).item }

  function Owns(rules: Rules): Child -> bool { (t: Child) => Classify(rules, t).ownTask }

  function Peers(rules: Rules): Child -> bool { (t: Child) => Classify(rules, t).workPeer }

  function Ranked(rules: Rules, r: nat): Child -> bool {
    (t: Child) => !Classify(rules, t).item && Classify(rules, t).rank == r
  }

  function Select<T>(tasks: seq<T>, keep: T -> bool): seq<T> {
    if tasks == [] then []
    else
      var before, last := Select(tasks[..|tasks| - 1], keep), tasks[|tasks| - 1];
      if keep(last) then before + [last] else before
  }

  // ---- the children's dispositions ----------------------------------------

  function SkippedIn(tasks: seq<Child>): seq<Item> {
    if tasks == [] then []
    else SkippedIn(tasks[..|tasks| - 1]) + Carrying(tasks[|tasks| - 1].skipped, tasks[|tasks| - 1].facts)
  }

  function KeptIn(tasks: seq<Child>): seq<Item> {
    if tasks == [] then []
    else KeptIn(tasks[..|tasks| - 1]) + Carrying(tasks[|tasks| - 1].kept, tasks[|tasks| - 1].facts)
  }

  function Append(tasks: seq<Child>, t: Child): (r: seq<Child>)
    ensures |r| == |tasks| + 1 && r[..|tasks|] == tasks && r[|tasks|] == t
  {
    tasks + [t]
  }

  lemma AppendOne(tasks: seq<Child>, t: Child, p: Child -> bool)
    ensures Counted(Append(tasks, t)) == Added(Counted(tasks), t)
    ensures Count(Append(tasks, t), p) == Count(tasks, p) + if p(t) then 1 else 0
    ensures Select(Append(tasks, t), p) == if p(t) then Append(Select(tasks, p), t) else Select(tasks, p)
  {
  }

  class Dispositions {
    const skipped: Tally
    const kept: Tally

    /** These are the two tallies of exactly tasks, counted in that order. */
    ghost predicate Shows(tasks: seq<Child>)
      reads skipped, kept
    {
      skipped != kept && skipped.Shows(SkippedIn(tasks)) && kept.Shows(KeptIn(tasks))
    }

    constructor ()
      ensures Shows([]) && fresh(skipped) && fresh(kept)
    {
      skipped := new Tally();
      kept := new Tally();
    }

    method AddTask(t: Child, ghost tasks: seq<Child>)
      requires Shows(tasks)
      modifies skipped, kept
      ensures Shows(Append(tasks, t))
    {
      skipped.AddAll(t.skipped, t.facts, SkippedIn(tasks));
      kept.AddAll(t.kept, t.facts, KeptIn(tasks));
    }

    method Clone(ghost tasks: seq<Child>) returns (d: Dispositions)
      requires Shows(tasks)
      ensures fresh(d) && fresh(d.skipped) && fresh(d.kept) && d.Shows(tasks)
    {
      var s := skipped.Clone(SkippedIn(tasks));
      var k := kept.Clone(KeptIn(tasks));
      d := new Dispositions.Of(s, k);
    }

    constructor Of(s: Tally, k: Tally)
      ensures skipped == s && kept == k
    {
      skipped, kept := s, k;
    }
  }

  // ---- the children of a frame --------------------------------------------

  datatype ChildCensus = ChildCensus(items: nat, ownTask: bool, workPeer: bool)

  function CensusOf(rules: Rules, tasks: seq<Child>): ChildCensus {
    ChildCensus(
      Count(tasks, Items(rules)), Count(tasks, Owns(rules)) > 0, Count(tasks, Peers(rules)) > 0)
  }

  datatype ChildRoster = ChildRoster(all: ChildCounts, work: ChildCounts, items: Dispositions, census: ChildCensus)

  /** r is what a walk of every one of tasks counts. */
  ghost predicate IsRoster(r: ChildRoster, rules: Rules, tasks: seq<Child>)
    reads r.items.skipped, r.items.kept
  {
    && r.all == Counted(tasks)
    && r.work == Counted(Select(tasks, Work(rules)))
    && r.items.Shows(Select(tasks, Items(rules)))
    && r.census == CensusOf(rules, tasks)
  }

  /** The rows of children a frame of rows terminal rows admits by attention. */
  function LiveHeight(rows: int): nat {
    if rows <= 0 then 24 else rows
  }

  /** A frame of rows rows could show t, declared after the children in before: it is
      among the first rows + 1 items, the first rows + 1 others, or the first rows
      others of its attention rank. */
  predicate Shown(rules: Rules, rows: nat, before: seq<Child>, t: Child) {
    var kind := Classify(rules, t);
    if kind.item then Count(before, Items(rules)) <= rows
    else
      || Count(before, Work(rules)) <= rows
      || (kind.rank < RANKS && Count(before, Ranked(rules, kind.rank)) < rows)
  }

  /** The declaration positions a frame could show, ascending. */
  function ShownAt(rules: Rules, rows: nat, tasks: seq<Child>): seq<nat> {
    if tasks == [] then []
    else
      var before, last := tasks[..|tasks| - 1], tasks[|tasks| - 1];
      ShownAt(rules, rows, before) + if Shown(rules, rows, before, last) then [|tasks| - 1] else []
  }

  lemma {:induction false} CountIsSet<T>(s: seq<T>, p: T -> bool)
    ensures Count(s, p) == |Where(s, p)|
  {
    if s != [] {
      var n := |s| - 1;
      CountIsSet(s[..n], p);
      var a, b := Where(s[..n], p), Where(s, p);
      assert b == if p(s[n]) then a + {n} else a;
      assert n !in a;
    }
  }

  ghost function Where<T>(s: seq<T>, p: T -> bool): set<nat> {
    set i | 0 <= i < |s| && p(s[i])
  }

  /** An item: what the rules say is one, unless it is the collection's own Task. */
  predicate ItemTask(rules: Rules, t: Child) { rules.isItem(t) && !rules.isOwn(t) }

  ghost function Before(tasks: seq<Child>, p: nat, keep: Child -> bool): set<nat> {
    set i | 0 <= i < p && i < |tasks| && keep(tasks[i])
  }

  ghost function OfRank(rules: Rules, rank: nat): Child -> bool {
    (t: Child) => !ItemTask(rules, t) && rules.rankOf(t) == rank
  }

  /** Position p is shown exactly when few enough of its kind come before it: no more
      than a frame's rows of items or of other Tasks, or fewer than those of the same
      rank, for the four ranks that claim attention. */
  ghost predicate FewBefore(rules: Rules, rows: nat, tasks: seq<Child>, p: nat)
    requires p < |tasks|
  {
    if ItemTask(rules, tasks[p]) then |Before(tasks, p, t => ItemTask(rules, t))| <= rows
    else
      || |Before(tasks, p, t => !ItemTask(rules, t))| <= rows
      || (rules.rankOf(tasks[p]) < 4 && |Before(tasks, p, OfRank(rules, rules.rankOf(tasks[p])))| < rows)
  }

  lemma CountBefore(tasks: seq<Child>, p: nat, q: Child -> bool, keep: Child -> bool)
    requires p <= |tasks| && forall t :: q(t) == keep(t)
    ensures Count(tasks[..p], q) == |Before(tasks, p, keep)|
  {
    CountIsSet(tasks[..p], q);
    assert Where(tasks[..p], q) == Before(tasks, p, keep);
  }

  lemma ShownIs(rules: Rules, rows: nat, tasks: seq<Child>, p: nat)
    requires p < |tasks|
    ensures Shown(rules, rows, tasks[..p], tasks[p]) <==> FewBefore(rules, rows, tasks, p)
  {
    hide Count, Before;
    CountBefore(tasks, p, Items(rules), t => ItemTask(rules, t));
    CountBefore(tasks, p, Work(rules), t => !ItemTask(rules, t));
    CountBefore(tasks, p, Ranked(rules, rules.rankOf(tasks[p])), OfRank(rules, rules.rankOf(tasks[p])));
  }

  lemma {:induction false} ShownExactly(rules: Rules, rows: nat, tasks: seq<Child>, p: nat)
    requires p < |tasks|
    ensures p in ShownAt(rules, rows, tasks) <==> FewBefore(rules, rows, tasks, p)
    ensures forall q :: q in ShownAt(rules, rows, tasks) ==> q < |tasks|
  {
    hide Shown, FewBefore;
    var front := tasks[..|tasks| - 1];
    ShownIs(rules, rows, tasks, p);
    ShownWithin(rules, rows, front);
    if p < |front| {
      ShownExactly(rules, rows, front, p);
      ShownIs(rules, rows, front, p);
      assert front[..p] == tasks[..p];
    }
  }

  lemma {:induction false} ShownWithin(rules: Rules, rows: nat, tasks: seq<Child>)
    ensures forall q :: q in ShownAt(rules, rows, tasks) ==> q < |tasks|
  {
    hide Shown;
    if tasks != [] {
      ShownWithin(rules, rows, tasks[..|tasks| - 1]);
    }
  }

  ghost predicate SomeIn(tasks: seq<Child>, states: set<EntityState>) {
    exists i :: 0 <= i < |tasks| && tasks[i].state in states
  }

  lemma SomeLast(tasks: seq<Child>, states: set<EntityState>)
    requires tasks != []
    ensures SomeIn(tasks, states) <==> SomeIn(tasks[..|tasks| - 1], states) || tasks[|tasks| - 1].state in states
  {
    var n := |tasks| - 1;
    if SomeIn(tasks[..n], states) {
      var i :| 0 <= i < n && tasks[..n][i].state in states;
      assert tasks[i].state in states;
    }
    if SomeIn(tasks, states) && tasks[n].state !in states {
      var i :| 0 <= i < |tasks| && tasks[i].state in states;
      assert tasks[..n][i].state in states;
    }
  }

  /** What counting children gives, child by child. */
  lemma {:induction false} CountedMeans(tasks: seq<Child>)
    ensures var c := Counted(tasks);
      && c.total == |tasks| && c.done == Count(tasks, (t: Child) => t.state in {Done, Skipped})
      && (c.running <==> SomeIn(tasks, {Running})) && (c.pending <==> SomeIn(tasks, {Pending}))
      && (c.unfinished <==> SomeIn(tasks, {Pending, Running, Empty, Incomplete}))
  {
    if tasks != [] {
      CountedMeans(tasks[..|tasks| - 1]);
      SomeLast(tasks, {Running});
      SomeLast(tasks, {Pending});
      SomeLast(tasks, {Pending, Running, Empty, Incomplete});
      hide SomeIn;
    }
  }

  /** And its bounds: the earliest stamp there is, and the widest name. */
  lemma {:induction false} CountedBounds(tasks: seq<Child>)
    ensures var c := Counted(tasks);
      && (forall i :: 0 <= i < |tasks| ==> |tasks[i].name| <= c.width)
      && (c.width == 0 || exists i :: 0 <= i < |tasks| && |tasks[i].name| == c.width)
      && (forall i :: 0 <= i < |tasks| && tasks[i].seen != 0 ==> 0 < c.earliest <= tasks[i].seen)
      && (c.earliest == 0 || exists i :: 0 <= i < |tasks| && tasks[i].seen == c.earliest)
  {
    if tasks != [] {
      var n := |tasks| - 1;
      CountedBounds(tasks[..n]);
      assert forall i :: 0 <= i < n ==> tasks[..n][i] == tasks[i];
    }
  }

  /** The projection that walks every child. */
  class LiveChildren {
    const rules: Rules
    const rows: nat
    var kept: seq<nat>
    var keptItems: nat
    var keptWork: nat
    var keptByRank: seq<nat>
    var all: ChildCounts
    var work: ChildCounts
    const items: Dispositions
    var census: ChildCensus

    ghost predicate Walked(tasks: seq<Child>)
      reads this, items.skipped, items.kept
    {
      && keptItems == Count(tasks, Items(rules))
      && keptWork == Count(tasks, Work(rules))
      && |keptByRank| == RANKS
      && (forall r {:trigger keptByRank[r]} :: 0 <= r < RANKS ==> keptByRank[r] == Count(tasks, Ranked(rules, r)))
      && IsRoster(ChildRoster(all, work, items, census), rules, tasks)
    }

    constructor (rules: Rules, rows: int)
      ensures this.rules == rules && this.rows == LiveHeight(rows) && kept == [] && Walked([])
      ensures fresh(items) && fresh(items.skipped) && fresh(items.kept)
    {
      this.rules, this.rows, kept, keptItems, keptWork := rules, LiveHeight(rows), [], 0, 0;
      keptByRank := seq(RANKS, _ => 0);
      all, work, census := NO_CHILDREN, NO_CHILDREN, ChildCensus(0, false, false);
      items := new Dispositions();
    }

    /** Counts t, and reports whether the frame could show it. */
    method Admit(t: Child, ghost tasks: seq<Child>) returns (admit: bool)
      requires Walked(tasks)
      modifies this`keptItems, this`keptWork, this`keptByRank, this`all, this`work, this`census, items.skipped,
          items.kept
      ensures Walked(Append(tasks, t)) && admit == Shown(rules, rows, tasks, t)
    {
      hide Added, Classify, Count, Counted, Select, Append, Ranked, Items, Work, Owns, Peers, CensusOf,
          Dispositions.Shows;
      Another(rules, tasks, t);
      all := Added(all, t);
      var kind := Classify(rules, t);
      KindsApart(rules, t);
      if kind.item {
        census := census.(items := census.items + 1);
        items.AddTask(t, Select(tasks, Items(rules)));
        keptItems := keptItems + 1;
        return keptItems <= rows + 1;
      } else if kind.ownTask {
        census := census.(ownTask := true);
      } else if kind.workPeer {
        census := census.(workPeer := true);
      }
      work := Added(work, t);
      keptWork := keptWork + 1;
      admit := keptWork <= rows + 1;
      if kind.rank < RANKS {
        keptByRank := keptByRank[kind.rank := keptByRank[kind.rank] + 1];
        admit := admit || keptByRank[kind.rank] <= rows;
      }
    }

    method Keep(p: nat)
      modifies this`kept
      ensures kept == old(kept) + [p]
    {
      kept := kept + [p];
    }
  }

  function Tallied(c: ChildCensus, k: Kind): ChildCensus {
    ChildCensus(if k.item then c.items + 1 else c.items, c.ownTask || k.ownTask, c.workPeer || k.workPeer)
  }

  /** What one more child adds to each count. */
  lemma Another(rules: Rules, tasks: seq<Child>, t: Child)
    ensures var k := Classify(rules, t);
      var now := Append(tasks, t);
      && Counted(now) == Added(Counted(tasks), t)
      && Count(now, Items(rules)) == Count(tasks, Items(rules)) + (if k.item then 1 else 0)
      && Count(now, Work(rules)) == Count(tasks, Work(rules)) + (if k.item then 0 else 1)
      && CensusOf(rules, now) == Tallied(CensusOf(rules, tasks), k)
      && Select(now, Items(rules)) == (if k.item then Append(Select(tasks, Items(rules)), t) else Select(tasks, Items(rules)))
      && Counted(Select(now, Work(rules))) ==
        (if k.item then Counted(Select(tasks, Work(rules))) else Added(Counted(Select(tasks, Work(rules))), t))
      && forall r {:trigger Ranked(rules, r)} :: 0 <= r < RANKS ==>
        Count(now, Ranked(rules, r)) == Count(tasks, Ranked(rules, r)) + if !k.item && k.rank == r then 1 else 0
  {
    hide Added, Classify, Counted;
    AppendOne(tasks, t, Items(rules));
    AppendOne(tasks, t, Work(rules));
    AppendOne(tasks, t, Owns(rules));
    AppendOne(tasks, t, Peers(rules));
    AppendOne(Select(tasks, Work(rules)), t, Work(rules));
    forall r | 0 <= r < RANKS ensures Count(Append(tasks, t), Ranked(rules, r)) ==
      Count(tasks, Ranked(rules, r)) + if Ranked(rules, r)(t) then 1 else 0
    {
      AppendOne(tasks, t, Ranked(rules, r));
    }
  }

  lemma KindsApart(rules: Rules, t: Child)
    ensures var k := Classify(rules, t);
      !(k.item && k.ownTask) && !(k.item && k.workPeer) && !(k.ownTask && k.workPeer)
  {
  }

  /** The frame of one collection, by a walk of every child. */
  method WalkChildren(rules: Rules, rows: int, tasks: seq<Child>) returns (kept: seq<nat>, roster: ChildRoster)
    ensures kept == ShownAt(rules, LiveHeight(rows), tasks) && IsRoster(roster, rules, tasks)
    ensures fresh(roster.items)
  {
    hide IsRoster, Shown, Classify, Count, Counted, Select, Ranked, Items, Work;
    var c := new LiveChildren(rules, rows);
    var p := 0;
    while p < |tasks|
      invariant p <= |tasks| && c.Walked(tasks[..p]) && c.kept == ShownAt(rules, c.rows, tasks[..p])
      invariant c.rules == rules && c.rows == LiveHeight(rows) && fresh(c) && fresh(c.items) && fresh(c.items.skipped) && fresh(c.items.kept)
    {
      assert tasks[..p + 1] == Append(tasks[..p], tasks[p]);
      var admit := c.Admit(tasks[p], tasks[..p]);
      if admit {
        c.Keep(p);
      }
      p := p + 1;
    }
    assert tasks[..p] == tasks;
    return c.kept, ChildRoster(c.all, c.work, c.items, c.census);
  }

  // ---- the verdict --------------------------------------------------------

  datatype Verdict = Verdict(running: bool, failed: bool, blocked: bool, cancelled: bool, unresolved: bool)

  function Joined(v: Verdict, s: EntityState): Verdict {
    match s
    case Running => v.(running := true)
    case Failed => v.(failed := true)
    case Blocked => v.(blocked := true)
    case Cancelled => v.(cancelled := true)
    case Done | Skipped | NotStarted => v
    case _ => v.(unresolved := true)
  }

  /** One verdict folded over every Task. */
  function VerdictOf(tasks: seq<Child>): Verdict {
    if tasks == [] then Verdict(false, false, false, false, false)
    else Joined(VerdictOf(tasks[..|tasks| - 1]), tasks[|tasks| - 1].state)
  }

  /** What a verdict says of its Tasks. */
  lemma {:induction false} VerdictMeans(tasks: seq<Child>)
    ensures var v := VerdictOf(tasks);
      && (v.running <==> SomeIn(tasks, {Running})) && (v.failed <==> SomeIn(tasks, {Failed}))
      && (v.blocked <==> SomeIn(tasks, {Blocked})) && (v.cancelled <==> SomeIn(tasks, {Cancelled}))
      && (v.unresolved <==> SomeIn(tasks, {Pending, Empty, Incomplete}))
  {
    if tasks != [] {
      VerdictMeans(tasks[..|tasks| - 1]);
      SomeLast(tasks, {Running});
      SomeLast(tasks, {Failed});
      SomeLast(tasks, {Blocked});
      SomeLast(tasks, {Cancelled});
      SomeLast(tasks, {Pending, Empty, Incomplete});
      hide SomeIn;
    }
  }
}
