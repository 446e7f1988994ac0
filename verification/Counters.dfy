/** The counts a child index moves as its Tasks change (child_counts.go), each against
    a recount of what is filed. */
module Counters {
  import opened Outcomes
  import opened Children
  import Census

  /** A Task's filing as the counters see it: its place in a counted set, or out of it. */
  datatype Slot = Out | In(state: EntityState, width: nat)

  function Present(): Slot -> bool { (s: Slot) => s.In? }

  function Complete(): Slot -> bool { (s: Slot) => s.In? && Completed(s.state) }

  function Unfinished(): Slot -> bool { (s: Slot) => s.In? && !IsTerminal(s.state) }

  function InState(state: EntityState): Slot -> bool { (s: Slot) => s.In? && s.state == state }

  function AtWidth(w: nat): Slot -> bool { (s: Slot) => s.In? && s.width == w }

  ghost predicate WidestIs(held: seq<Slot>, m: nat) {
    && (forall i :: 0 <= i < |held| && held[i].In? ==> held[i].width <= m)
    && (m == 0 || exists i :: 0 <= i < |held| && held[i].In? && held[i].width == m)
  }

  ghost predicate WidthsAre(held: seq<Slot>, widths: map<nat, nat>) {
    forall w: nat :: (w in widths <==> Count(held, AtWidth(w)) > 0) && (w in widths ==> widths[w] == Count(held, AtWidth(w)))
  }

  lemma WidthHeld(held: seq<Slot>, w: nat)
    ensures Count(held, AtWidth(w)) > 0 <==> exists i :: 0 <= i < |held| && held[i].In? && held[i].width == w
  {
    CountSome(held, AtWidth(w));
    if i :| 0 <= i < |held| && held[i].In? && held[i].width == w {
      assert AtWidth(w)(held[i]);
    }
  }

  // ---- childCounters ------------------------------------------------------

  class ChildCounters {
    var total: int
    var done: int
    var running: int
    var pending: int
    var unfinished: int
    /** How many of the counted Tasks have each name width. */
    var widths: map<nat, nat>
    var maxWidth: nat

    /** These count exactly the Tasks held. */
    ghost predicate Shows(held: seq<Slot>)
      reads this
    {
      StatesShow(held) && WidthsAre(held, widths) && WidestIs(held, maxWidth)
    }

    ghost predicate StatesShow(held: seq<Slot>)
      reads this
    {
      && total == Count(held, Present())
      && done == Count(held, Complete())
      && running == Count(held, InState(Running))
      && pending == Count(held, InState(Pending))
      && unfinished == Count(held, Unfinished())
    }

    constructor ()
      ensures Shows([])
    {
      total, done, running, pending, unfinished, widths, maxWidth := 0, 0, 0, 0, 0, map[], 0;
    }

    /** Counts a Task in state by delta, putting it in or taking it out. */
    method Move(state: EntityState, delta: int, ghost held: seq<Slot>, ghost i: nat, ghost s: Slot)
      requires i < |held| && StatesShow(held)
      requires (delta == 1 && held[i] == Out && s.In? && s.state == state) || (delta == -1 && s == Out && held[i].In? && held[i].state == state)
      modifies this`total, this`done, this`running, this`pending, this`unfinished
      ensures StatesShow(held[i := s])
    {
      hide Count;
      CountSet(held, i, s, Present());
      CountSet(held, i, s, Complete());
      CountSet(held, i, s, InState(Running));
      CountSet(held, i, s, InState(Pending));
      CountSet(held, i, s, Unfinished());
      total := total + delta;
      match state {
        case Done | Skipped => done := done + delta;
        case Running => running := running + delta;
        case Pending => pending := pending + delta;
        case _ =>
      }
      if !IsTerminal(state) {
        unfinished := unfinished + delta;
      }
    }

    method Add(state: EntityState, width: nat, ghost held: seq<Slot>, ghost i: nat)
      requires i < |held| && held[i] == Out && Shows(held)
      modifies this
      ensures Shows(held[i := In(state, width)])
    {
      hide Count;
      ghost var now := held[i := In(state, width)];
      Move(state, 1, held, i, In(state, width));
      WidthsMove(held, i, In(state, width), width);
      widths := widths[width := (if width in widths then widths[width] else 0) + 1];
      maxWidth := Census.Wider(maxWidth, width);
      assert now[i].In? && now[i].width == width;
      assert WidestIs(now, maxWidth) by {
        if old(maxWidth) > width {
          var j :| 0 <= j < |held| && held[j].In? && held[j].width == old(maxWidth);
          assert now[j] == held[j];
        }
      }
    }

    method Remove(state: EntityState, width: nat, ghost held: seq<Slot>, ghost i: nat)
      requires i < |held| && held[i] == In(state, width) && Shows(held)
      modifies this
      ensures Shows(held[i := Out])
    {
      hide Count;
      ghost var now := held[i := Out];
      Move(state, -1, held, i, Out);
      WidthsMove(held, i, Out, width);
      WidthHeld(held, width);
      WidthHeld(now, width);
      if widths[width] > 1 {
        widths := widths[width := widths[width] - 1];
        WidestKept(held, i, maxWidth);
        return;
      }
      widths := widths - {width};
      if width < maxWidth {
        WidestKept(held, i, maxWidth);
        return;
      }
      maxWidth := WidestOf(widths);
      WidestFound(now, widths, maxWidth);
    }

    /** The counted Tasks as a live tally, earliest being the earliest first paint among them. */
    function Counts(earliest: nat): ChildCounts
      reads this
    {
      ChildCounts(
        if total < 0 then 0 else total, if done < 0 then 0 else done, running > 0, pending > 0, unfinished > 0, earliest, maxWidth)
    }
  }

  method WidestOf(widths: map<nat, nat>) returns (m: nat)
    ensures (m == 0 || m in widths) && forall w :: w in widths ==> w <= m
  {
    m := 0;
    var left := widths.Keys;
    while left != {}
      invariant left <= widths.Keys && (m == 0 || m in widths)
      invariant forall w :: w in widths && w !in left ==> w <= m
      decreases |left|
    {
      var w :| w in left;
      m := Census.Wider(m, w);
      left := left - {w};
    }
  }

  /** Only one width's count moves. */
  lemma WidthsMove(held: seq<Slot>, i: nat, s: Slot, width: nat)
    requires i < |held|
    requires (held[i] == Out && s.In? && s.width == width) || (s == Out && held[i].In? && held[i].width == width)
    ensures forall w: nat ::
      Count(held[i := s], AtWidth(w)) == Count(held, AtWidth(w)) + if w != width then 0 else if s.In? then 1 else -1
  {
    hide Count;
    forall w: nat ensures
      Count(held[i := s], AtWidth(w)) == Count(held, AtWidth(w)) + if w != width then 0 else if s.In? then 1 else -1
    {
      CountSet(held, i, s, AtWidth(w));
    }
  }

  /** Taking a Task out keeps the widest while another is as wide, or it was narrower. */
  lemma WidestKept(held: seq<Slot>, i: nat, m: nat)
    requires i < |held| && held[i].In? && WidestIs(held, m)
    requires held[i].width < m || Count(held[i := Out], AtWidth(held[i].width)) > 0
    ensures WidestIs(held[i := Out], m)
  {
    hide Count;
    var now := held[i := Out];
    if held[i].width < m {
      var j :| 0 <= j < |held| && held[j].In? && held[j].width == m;
      assert now[j] == held[j];
    } else {
      WidthHeld(now, held[i].width);
    }
  }

  lemma WidestFound(held: seq<Slot>, widths: map<nat, nat>, m: nat)
    requires WidthsAre(held, widths) && (m == 0 || m in widths) && forall w :: w in widths ==> w <= m
    ensures WidestIs(held, m)
  {
    hide Count;
    forall i | 0 <= i < |held| && held[i].In? ensures held[i].width <= m {
      WidthHeld(held, held[i].width);
    }
    WidthHeld(held, m);
  }

  /** A Task not yet filed counts nothing. */
  lemma LongerOut(held: seq<Slot>, p: Slot -> bool)
    requires !p(Out)
    ensures Count(held + [Out], p) == Count(held, p)
  {
    assert (held + [Out])[..|held|] == held;
  }

  lemma ShowsLonger(c: ChildCounters, held: seq<Slot>)
    requires c.Shows(held)
    ensures c.Shows(held + [Out])
  {
    hide Count;
    var now := held + [Out];
    LongerOut(held, Present());
    LongerOut(held, Complete());
    LongerOut(held, InState(Running));
    LongerOut(held, InState(Pending));
    LongerOut(held, Unfinished());
    forall w: nat ensures Count(now, AtWidth(w)) == Count(held, AtWidth(w)) {
      LongerOut(held, AtWidth(w));
    }
    if c.maxWidth != 0 {
      var i :| 0 <= i < |held| && held[i].In? && held[i].width == c.maxWidth;
      assert now[i] == held[i];
    }
  }

  // ---- the counters against the walk --------------------------------------

  function SlotOf(t: Child, keep: Child -> bool): Slot {
    if keep(t) then In(t.state, |t.name|) else Out
  }

  /** tasks kept by keep, filed as they are. */
  function Slots(tasks: seq<Child>, keep: Child -> bool): seq<Slot> {
    seq(|tasks|, (i: nat) requires i < |tasks| => SlotOf(tasks[i], keep))
  }

  ghost predicate EarliestIs(tasks: seq<Child>, keep: Child -> bool, at: nat) {
    && (forall i :: 0 <= i < |tasks| && keep(tasks[i]) && tasks[i].seen != 0 ==> at != 0 && at <= tasks[i].seen)
    && (at == 0 || exists i :: 0 <= i < |tasks| && keep(tasks[i]) && tasks[i].seen == at)
  }

  lemma {:induction false} WalkCounts(tasks: seq<Child>, keep: Child -> bool)
    ensures var c, held := Counted(Select(tasks, keep)), Slots(tasks, keep);
      && c.total == Count(held, Present()) && c.done == Count(held, Complete())
      && (c.running <==> Count(held, InState(Running)) > 0)
      && (c.pending <==> Count(held, InState(Pending)) > 0)
      && (c.unfinished <==> Count(held, Unfinished()) > 0)
  {
    if tasks != [] {
      var front := tasks[..|tasks| - 1];
      WalkCounts(front, keep);
      assert Slots(tasks, keep)[..|front|] == Slots(front, keep);
      SelectLast(tasks, keep);
    }
  }

  lemma SelectLast(tasks: seq<Child>, keep: Child -> bool)
    requires tasks != []
    ensures var front, last := Select(tasks[..|tasks| - 1], keep), tasks[|tasks| - 1];
      Counted(Select(tasks, keep)) == if keep(last) then Added(Counted(front), last) else Counted(front)
  {
    var front, last := Select(tasks[..|tasks| - 1], keep), tasks[|tasks| - 1];
    if keep(last) {
      assert (front + [last])[..|front|] == front;
    }
  }

  lemma SlotsLast(tasks: seq<Child>, keep: Child -> bool)
    requires tasks != []
    ensures Slots(tasks, keep) == Slots(tasks[..|tasks| - 1], keep) + [SlotOf(tasks[|tasks| - 1], keep)]
  {
  }

  lemma WidestPlus(held: seq<Slot>, s: Slot, m: nat)
    requires WidestIs(held, m)
    ensures WidestIs(held + [s], if s.In? then Census.Wider(m, s.width) else m)
  {
    var now := held + [s];
    assert now[|held|] == s;
    if m != 0 {
      var i :| 0 <= i < |held| && held[i].In? && held[i].width == m;
      assert now[i] == held[i];
    }
  }

  lemma {:induction false} WalkWidest(tasks: seq<Child>, keep: Child -> bool)
    ensures WidestIs(Slots(tasks, keep), Counted(Select(tasks, keep)).width)
  {
    hide Counted, Slots, WidestIs;
    if tasks == [] {
      NoneWide(keep);
    } else {
      var front := tasks[..|tasks| - 1];
      WalkWidest(front, keep);
      SelectLast(tasks, keep);
      SlotsLast(tasks, keep);
      WidestPlus(Slots(front, keep), SlotOf(tasks[|front|], keep), Counted(Select(front, keep)).width);
    }
  }

  lemma NoneWide(keep: Child -> bool)
    ensures WidestIs(Slots([], keep), Counted([]).width)
  {
  }

  lemma {:induction false} WalkEarliest(tasks: seq<Child>, keep: Child -> bool)
    ensures EarliestIs(tasks, keep, Counted(Select(tasks, keep)).earliest)
  {
    if tasks != [] {
      var front, last := tasks[..|tasks| - 1], tasks[|tasks| - 1];
      WalkEarliest(front, keep);
      SelectLast(tasks, keep);
      var at := Counted(Select(front, keep)).earliest;
      if at != 0 {
        var i :| 0 <= i < |front| && keep(front[i]) && front[i].seen == at;
        assert tasks[i] == front[i];
      }
    }
  }

  /** The counters, filed as the Tasks are, read as a walk of the kept Tasks does. */
  lemma CountersAreWalk(c: ChildCounters, tasks: seq<Child>, keep: Child -> bool, earliest: nat)
    requires c.Shows(Slots(tasks, keep)) && EarliestIs(tasks, keep, earliest)
    ensures c.Counts(earliest) == Counted(Select(tasks, keep))
  {
    hide Count, Counted, Select, Slots;
    WalkCounts(tasks, keep);
    WalkWidest(tasks, keep);
    WalkEarliest(tasks, keep);
  }

  // ---- stateCounts --------------------------------------------------------

  /** What the verdict's counts read of one Task. */
  datatype Standing = Unfiled | Filed(state: EntityState, warned: bool)

  function Stands(state: EntityState): Standing -> bool { (s: Standing) => s.Filed? && s.state == state }

  function Unresolved(): Standing -> bool {
    (s: Standing) => s.Filed? && s.state in {Pending, Empty, Incomplete}
  }

  function HasWarned(): Standing -> bool { (s: Standing) => s.Filed? && s.warned }

  class StateCounts {
    var running: int
    var failed: int
    var blocked: int
    var cancelled: int
    var notStarted: int
    var unresolved: int
    var warned: int

    ghost predicate Shows(held: seq<Standing>)
      reads this
    {
      && running == Count(held, Stands(Running)) && failed == Count(held, Stands(Failed))
      && blocked == Count(held, Stands(Blocked)) && cancelled == Count(held, Stands(Cancelled))
      && notStarted == Count(held, Stands(NotStarted)) && unresolved == Count(held, Unresolved())
      && warned == Count(held, HasWarned())
    }

    constructor ()
      ensures Shows([])
    {
      running, failed, blocked, cancelled, notStarted, unresolved, warned := 0, 0, 0, 0, 0, 0, 0;
    }

    method Move(state: EntityState, isWarned: bool, delta: int, ghost held: seq<Standing>, ghost i: nat,
        ghost s: Standing)
      requires i < |held| && Shows(held)
      requires (delta == 1 && held[i] == Unfiled && s == Filed(state, isWarned)) || (delta == -1 && s == Unfiled && held[i] == Filed(state, isWarned))
      modifies this
      ensures Shows(held[i := s])
    {
      hide Count;
      CountSet(held, i, s, Stands(Running));
      CountSet(held, i, s, Stands(Failed));
      CountSet(held, i, s, Stands(Blocked));
      CountSet(held, i, s, Stands(Cancelled));
      CountSet(held, i, s, Stands(NotStarted));
      CountSet(held, i, s, Unresolved());
      CountSet(held, i, s, HasWarned());
      match state {
        case Running => running := running + delta;
        case Failed => failed := failed + delta;
        case Blocked => blocked := blocked + delta;
        case Cancelled => cancelled := cancelled + delta;
        case NotStarted => notStarted := notStarted + delta;
        case Done | Skipped =>
        case _ => unresolved := unresolved + delta;
      }
      if isWarned {
        warned := warned + delta;
      }
    }

    /** The verdict of the counted Tasks alone. */
    function Fold(): Verdict
      reads this
    {
      Verdict(running > 0, failed > 0, blocked > 0, cancelled > 0, unresolved > 0)
    }
  }

  lemma StandingLonger(c: StateCounts, held: seq<Standing>)
    requires c.Shows(held)
    ensures c.Shows(held + [Unfiled])
  {
    assert (held + [Unfiled])[..|held|] == held;
  }

  function Standings(tasks: seq<Child>): seq<Standing> {
    seq(|tasks|, (i: nat) requires i < |tasks| => Filed(tasks[i].state, tasks[i].warned))
  }

  lemma CountPlus(held: seq<Standing>, s: Standing, p: Standing -> bool)
    ensures Count(held + [s], p) == Count(held, p) + if p(s) then 1 else 0
  {
    assert (held + [s])[..|held|] == held;
  }

  lemma VerdictLast(tasks: seq<Child>)
    requires tasks != []
    ensures VerdictOf(tasks) == Joined(VerdictOf(tasks[..|tasks| - 1]), tasks[|tasks| - 1].state)
  {
  }

  /** The counted verdict is the one folded over every Task. */
  lemma {:induction false} FoldIsVerdict(tasks: seq<Child>)
    ensures var held := Standings(tasks);
      VerdictOf(tasks) == Verdict(
        Count(held, Stands(Running)) > 0, Count(held, Stands(Failed)) > 0, Count(held, Stands(Blocked)) > 0,
        Count(held, Stands(Cancelled)) > 0, Count(held, Unresolved()) > 0)
  {
    if tasks != [] {
      hide Count, VerdictOf;
      var front, last := tasks[..|tasks| - 1], tasks[|tasks| - 1];
      var was, s := Standings(front), Filed(last.state, last.warned);
      FoldIsVerdict(front);
      VerdictLast(tasks);
      assert Standings(tasks) == was + [s];
      CountPlus(was, s, Stands(Running));
      CountPlus(was, s, Stands(Failed));
      CountPlus(was, s, Stands(Blocked));
      CountPlus(was, s, Stands(Cancelled));
      CountPlus(was, s, Unresolved());
    }
  }

  /** What the other counts say of the Tasks. */
  lemma StandingsSay(tasks: seq<Child>)
    ensures var held := Standings(tasks);
      && |held| == |tasks|
      && (Count(held, Stands(NotStarted)) == |tasks| <==> forall i :: 0 <= i < |tasks| ==> tasks[i].state == NotStarted)
      && (Count(held, Stands(Failed)) > 0 || Count(held, Stands(Cancelled)) > 0 || Count(held, HasWarned()) > 0 <==>
        exists i :: 0 <= i < |tasks| && (tasks[i].state in {Failed, Cancelled} || tasks[i].warned))
  {
    hide Count;
    var held := Standings(tasks);
    CountSome(held, Stands(NotStarted));
    CountSome(held, Stands(Failed));
    CountSome(held, Stands(Cancelled));
    CountSome(held, HasWarned());
    assert forall i :: 0 <= i < |held| ==> held[i] == Filed(tasks[i].state, tasks[i].warned);
  }

  // ---- seenHeap -----------------------------------------------------------

  /** A first-paint stamp of the Task at pos. */
  datatype SeenEntry = SeenEntry(at: nat, pos: nat)

  /** The first-paint stamps of a set of Tasks. A Task that left the set, or was
      stamped anew, leaves its entry behind until it surfaces. */
  class SeenHeap {
    var entries: multiset<SeenEntry>

    /** stamps[i] is the stamp of a Task in the set, or 0: each has its entry. */
    ghost predicate Covers(stamps: seq<nat>)
      reads this
    {
      && (forall e :: e in entries ==> e.pos < |stamps| && e.at != 0)
      && forall i :: 0 <= i < |stamps| && stamps[i] != 0 ==> SeenEntry(stamps[i], i) in entries
    }

    constructor ()
      ensures entries == multiset{}
    {
      entries := multiset{};
    }

    method Push(e: SeenEntry)
      modifies this
      ensures entries == old(entries) + multiset{e}
    {
      entries := entries + multiset{e};
    }

    /** The earliest stamp of a Task still in the set, discarding the entries of the rest. */
    method Earliest(stamps: seq<nat>) returns (at: nat)
      requires Covers(stamps)
      modifies this
      ensures Covers(stamps) && EarliestStamp(stamps, at)
    {
      while entries != multiset{}
        invariant Covers(stamps)
        decreases |entries|
      {
        ghost var some :| some in entries;
        TopExists(entries, some);
        var top :| top in entries && forall e :: e in entries ==> top.at <= e.at;
        if stamps[top.pos] == top.at {
          return top.at;
        }
        entries := entries - multiset{top};
      }
      return 0;
    }
  }

  ghost predicate EarliestStamp(stamps: seq<nat>, at: nat) {
    && (forall i :: 0 <= i < |stamps| && stamps[i] != 0 ==> at != 0 && at <= stamps[i])
    && (at == 0 || at in stamps)
  }

  lemma {:induction false} TopExists(entries: multiset<SeenEntry>, e: SeenEntry)
    requires e in entries
    ensures exists top :: top in entries && forall d :: d in entries ==> top.at <= d.at
    decreases e.at
  {
    if d :| d in entries && d.at < e.at {
      TopExists(entries, d);
    }
  }
}
