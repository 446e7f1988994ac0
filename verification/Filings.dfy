/** How a child index files one collection's Tasks (child_index.go), and what filing one
    does to each set and count. */
module Filings {
  import opened Outcomes
  import opened Tallies
  import opened Children
  import opened Counters
  import opened PositionSets
  import Census

  /** How one child Task is filed. */
  datatype Filing = Filing(
    filed: bool, dirty: bool, listed: bool, kind: Kind, state: EntityState,
    width: nat, seen: nat, warned: bool, allSeenAt: nat, workSeenAt: nat)

  const UNFILED := Filing(false, false, false, Kind(false, false, false, 0), Pending, 0, 0, false, 0, 0)

  predicate SameFiling(f: Filing, o: Filing) {
    f.kind == o.kind && f.state == o.state && f.width == o.width && f.seen == o.seen && f.warned == o.warned
  }

  /** The view a Task was last filed as. */
  datatype Entry = NotYet | As(view: Child)

  // ---- what is filed ------------------------------------------------------

  function SlotIn(e: Entry): Slot {
    if e.As? then In(e.view.state, |e.view.name|) else Out
  }

  function WorkSlotIn(rules: Rules, e: Entry): Slot {
    if e.As? && !Classify(rules, e.view).item then In(e.view.state, |e.view.name|) else Out
  }

  function StandingIn(e: Entry): Standing {
    if e.As? then Filed(e.view.state, e.view.warned) else Unfiled
  }

  function Mapped<T>(book: seq<Entry>, f: Entry -> T): (r: seq<T>)
    ensures |r| == |book| && forall i :: 0 <= i < |book| ==> r[i] == f(book[i])
  {
    seq(|book|, (i: nat) requires i < |book| => f(book[i]))
  }

  function AllSlots(book: seq<Entry>): seq<Slot> { Mapped(book, SlotIn) }

  function WorkSlots(rules: Rules, book: seq<Entry>): seq<Slot> { Mapped(book, (e: Entry) => WorkSlotIn(rules, e)) }

  function AllStandings(book: seq<Entry>): seq<Standing> { Mapped(book, StandingIn) }

  function IsItem(rules: Rules): Entry -> bool { (e: Entry) => e.As? && Classify(rules, e.view).item }

  function IsWork(rules: Rules): Entry -> bool { (e: Entry) => e.As? && !Classify(rules, e.view).item }

  function IsOwn(rules: Rules): Entry -> bool { (e: Entry) => e.As? && Classify(rules, e.view).ownTask }

  function IsPeer(rules: Rules): Entry -> bool { (e: Entry) => e.As? && Classify(rules, e.view).workPeer }

  function IsRanked(rules: Rules, r: nat): Entry -> bool {
    (e: Entry) => e.As? && !Classify(rules, e.view).item && Classify(rules, e.view).rank == r
  }

  function Positions(book: seq<Entry>, p: Entry -> bool): set<nat> {
    set i | 0 <= i < |book| && p(book[i])
  }

  /** The items' views, by declaration. */
  function ItemViews(rules: Rules, book: seq<Entry>): seq<Child> {
    if book == [] then []
    else
      var before, last := ItemViews(rules, book[..|book| - 1]), book[|book| - 1];
      if IsItem(rules)(last) then Append(before, last.view) else before
  }

  lemma BookSet(rules: Rules, book: seq<Entry>, i: nat, e: Entry)
    requires i < |book|
    ensures AllSlots(book[i := e]) == AllSlots(book)[i := SlotIn(e)]
    ensures WorkSlots(rules, book[i := e]) == WorkSlots(rules, book)[i := WorkSlotIn(rules, e)]
    ensures AllStandings(book[i := e]) == AllStandings(book)[i := StandingIn(e)]
    ensures |AllSlots(book)| == |WorkSlots(rules, book)| == |AllStandings(book)| == |book|
    ensures AllSlots(book)[i] == SlotIn(book[i]) && AllStandings(book)[i] == StandingIn(book[i])
    ensures WorkSlots(rules, book)[i] == WorkSlotIn(rules, book[i])
    ensures WorkSlotIn(rules, e) == WorkSlotIn(rules, book[i]) ==> WorkSlots(rules, book[i := e]) == WorkSlots(rules, book)
  {
  }

  lemma BookSame(rules: Rules, book: seq<Entry>, i: nat, e: Entry)
    requires i < |book| && SlotIn(e) == SlotIn(book[i]) && WorkSlotIn(rules, e) == WorkSlotIn(rules, book[i])
    requires StandingIn(e) == StandingIn(book[i])
    ensures AllSlots(book[i := e]) == AllSlots(book) && WorkSlots(rules, book[i := e]) == WorkSlots(rules, book)
    ensures AllStandings(book[i := e]) == AllStandings(book)
  {
  }

  lemma PositionsSame(book: seq<Entry>, i: nat, e: Entry, p: Entry -> bool)
    requires i < |book| && p(e) == p(book[i])
    ensures Positions(book[i := e], p) == Positions(book, p)
  {
  }

  lemma EmptyBook(rules: Rules)
    ensures AllSlots([]) == [] && WorkSlots(rules, []) == [] && AllStandings([]) == [] && ItemViews(rules, []) == []
    ensures forall p: Entry -> bool :: Positions([], p) == {} && Count([], p) == 0
  {
  }

  lemma BookLonger(rules: Rules, book: seq<Entry>)
    ensures AllSlots(book + [NotYet]) == AllSlots(book) + [Out]
    ensures WorkSlots(rules, book + [NotYet]) == WorkSlots(rules, book) + [Out]
    ensures AllStandings(book + [NotYet]) == AllStandings(book) + [Unfiled]
    ensures ItemViews(rules, book + [NotYet]) == ItemViews(rules, book)
    ensures forall p: Entry -> bool :: !p(NotYet) ==>
      Positions(book + [NotYet], p) == Positions(book, p) && Count(book + [NotYet], p) == Count(book, p)
  {
    assert (book + [NotYet])[..|book|] == book;
  }

  lemma PositionsSet(book: seq<Entry>, i: nat, e: Entry, p: Entry -> bool)
    requires i < |book|
    ensures Positions(book[i := e], p) == if p(e) then Positions(book, p) + {i} else Positions(book, p) - {i}
  {
  }

  /** A change among the entries that are not items leaves the items' views. */
  lemma {:induction false} ItemsKept(rules: Rules, book: seq<Entry>, i: nat, e: Entry)
    requires i < |book| && !IsItem(rules)(book[i]) && !IsItem(rules)(e)
    ensures ItemViews(rules, book[i := e]) == ItemViews(rules, book)
  {
    var front := book[..|book| - 1];
    if i == |front| {
      assert book[i := e][..|front|] == front;
    } else {
      ItemsKept(rules, front, i, e);
      assert book[i := e][..|front|] == front[i := e];
    }
  }

  lemma {:induction false} NoItems(rules: Rules, book: seq<Entry>)
    requires forall i :: 0 <= i < |book| ==> !IsItem(rules)(book[i])
    ensures ItemViews(rules, book) == []
  {
    if book != [] {
      NoItems(rules, book[..|book| - 1]);
    }
  }

  /** An item filed after every other is the last of them. */
  lemma {:induction false} ItemAppended(rules: Rules, book: seq<Entry>, i: nat, view: Child)
    requires i < |book| && !IsItem(rules)(book[i]) && IsItem(rules)(As(view))
    requires forall j :: i < j < |book| ==> !IsItem(rules)(book[j])
    ensures ItemViews(rules, book[i := As(view)]) == Append(ItemViews(rules, book), view)
  {
    var front := book[..|book| - 1];
    if i == |front| {
      assert book[i := As(view)][..|front|] == front;
    } else {
      ItemAppended(rules, front, i, view);
      assert book[i := As(view)][..|front|] == front[i := As(view)];
    }
  }

  // ---- one Task's filing --------------------------------------------------

  predicate FiledAs(rules: Rules, f: Filing, view: Child) {
    && f.kind == Classify(rules, view) && f.state == view.state && f.width == |view.name|
    && f.seen == view.seen && f.warned == view.warned
  }

  /** The filing f of a Task that now reads t and was last filed as e: unless it is
      marked, it is filed as it reads. A stamp, once set, stays. */
  ghost predicate FilingOk(rules: Rules, t: Child, f: Filing, e: Entry) {
    && (f.filed <==> e.As?)
    && (e.As? ==> FiledAs(rules, f, e.view))
    && (e.NotYet? ==> f.allSeenAt == 0 && f.workSeenAt == 0)
    && (!f.dirty ==> e == As(t))
    && StampsOk(t, f, e)
  }

  ghost predicate StampsOk(t: Child, f: Filing, e: Entry) {
    && (f.allSeenAt != 0 ==> f.allSeenAt == t.seen)
    && (f.workSeenAt != 0 ==> f.workSeenAt == t.seen)
    && (e.As? && e.view.seen != 0 ==>
      t.seen == e.view.seen == f.allSeenAt && (f.kind.item || f.workSeenAt == f.seen))
    && (e.As? && Census.Unstamped(e.view.state, e.view.seen) && t.seen == 0 ==> f.listed)
  }

  ghost predicate FilingsAre(rules: Rules, tasks: seq<Child>, filings: seq<Filing>, book: seq<Entry>) {
    && |tasks| == |filings| == |book|
    && forall i {:trigger filings[i]} :: 0 <= i < |filings| ==> FilingOk(rules, tasks[i], filings[i], book[i])
  }

  lemma FilingsSet(rules: Rules, tasks: seq<Child>, filings: seq<Filing>, book: seq<Entry>, i: nat, f: Filing, e: Entry)
    requires FilingsAre(rules, tasks, filings, book) && i < |tasks| && FilingOk(rules, tasks[i], f, e)
    ensures FilingsAre(rules, tasks, filings[i := f], book[i := e])
  {
    hide FilingOk;
  }

  /** How Task t, last filed as f, is filed anew. */
  function Refiled(rules: Rules, t: Child, f: Filing): Filing {
    Filing(true, false, f.listed, Classify(rules, t), t.state, |t.name|, t.seen, t.warned, f.allSeenAt, f.workSeenAt)
  }

  lemma RefiledOk(rules: Rules, t: Child, f: Filing, e: Entry)
    requires FilingOk(rules, t, f, e)
    ensures SameFiling(Refiled(rules, t, f), f) && f.filed ==> FilingOk(rules, t, Refiled(rules, t, f), As(t))
    ensures FilingOk(rules, t, Entered(Refiled(rules, t, f), t), As(t))
    ensures FilingOk(rules, t, Entered(Refiled(rules, t, f).(workSeenAt := 0), t), As(t))
  {
    hide Classify;
  }

  // ---- filing one Task ----------------------------------------------------

  lemma OwnsOut(rules: Rules, book: seq<Entry>, i: nat)
    requires i < |book| && book[i].As?
    ensures var k, now := Classify(rules, book[i].view), book[i := NotYet];
      && Count(now, IsOwn(rules)) == Count(book, IsOwn(rules)) - (if k.ownTask then 1 else 0)
      && Count(now, IsPeer(rules)) == Count(book, IsPeer(rules)) - (if k.workPeer then 1 else 0)
      && !(k.item && k.workPeer)
  {
    hide Count;
    CountSet(book, i, NotYet, IsOwn(rules));
    CountSet(book, i, NotYet, IsPeer(rules));
  }

  lemma OwnsIn(rules: Rules, book: seq<Entry>, i: nat, view: Child)
    requires i < |book| && book[i] == NotYet
    ensures var k, now := Classify(rules, view), book[i := As(view)];
      && Count(now, IsOwn(rules)) == Count(book, IsOwn(rules)) + (if k.ownTask then 1 else 0)
      && Count(now, IsPeer(rules)) == Count(book, IsPeer(rules)) + (if k.workPeer then 1 else 0)
      && !(k.item && k.workPeer)
  {
    hide Count;
    CountSet(book, i, As(view), IsOwn(rules));
    CountSet(book, i, As(view), IsPeer(rules));
  }

  /** What filing Task i does to each set. */
  lemma SetsIn(rules: Rules, book: seq<Entry>, i: nat, view: Child)
    requires i < |book| && book[i] == NotYet
    ensures var k, now := Classify(rules, view), book[i := As(view)];
      && Positions(now, IsItem(rules)) == Positions(book, IsItem(rules)) + (if k.item then {i} else {})
      && Positions(now, IsWork(rules)) == Positions(book, IsWork(rules)) + (if k.item then {} else {i})
      && forall r {:trigger IsRanked(rules, r)} :: 0 <= r < RANKS ==>
        Positions(now, IsRanked(rules, r)) == Positions(book, IsRanked(rules, r)) + (if k.item || k.rank != r then {} else {i})
  {
    hide Classify, Positions;
    PositionsSet(book, i, As(view), IsItem(rules));
    PositionsSet(book, i, As(view), IsWork(rules));
    NotIn(book, i, IsItem(rules));
    NotIn(book, i, IsWork(rules));
    forall r | 0 <= r < RANKS ensures Positions(book[i := As(view)], IsRanked(rules, r)) ==
      Positions(book, IsRanked(rules, r)) + (if IsRanked(rules, r)(As(view)) then {i} else {})
    {
      PositionsSet(book, i, As(view), IsRanked(rules, r));
      NotIn(book, i, IsRanked(rules, r));
    }
  }

  function SeenAll(f: Filing): Filing {
    f.(allSeenAt := if f.seen != 0 then f.seen else f.allSeenAt)
  }

  function SeenWork(f: Filing): Filing {
    f.(workSeenAt := if f.seen != 0 && !f.kind.item then f.seen else f.workSeenAt)
  }

  function Entered(f: Filing, t: Child): Filing {
    SeenWork(SeenAll(f)).(listed := f.listed || Census.Unstamped(f.state, t.seen))
  }

  /** What taking Task i out does to each set. */
  lemma SetsOut(rules: Rules, book: seq<Entry>, i: nat)
    requires i < |book| && book[i].As?
    ensures var k, now := Classify(rules, book[i].view), book[i := NotYet];
      && Positions(now, IsItem(rules)) == Positions(book, IsItem(rules)) - (if k.item then {i} else {})
      && Positions(now, IsWork(rules)) == Positions(book, IsWork(rules)) - (if k.item then {} else {i})
      && forall r {:trigger IsRanked(rules, r)} :: 0 <= r < RANKS ==>
        Positions(now, IsRanked(rules, r)) == Positions(book, IsRanked(rules, r)) - (if k.item || k.rank != r then {} else {i})
  {
    hide Classify, Positions;
    PositionsSet(book, i, NotYet, IsItem(rules));
    PositionsSet(book, i, NotYet, IsWork(rules));
    NotIn(book, i, IsItem(rules));
    NotIn(book, i, IsWork(rules));
    forall r | 0 <= r < RANKS ensures
      && Positions(book[i := NotYet], IsRanked(rules, r)) == Positions(book, IsRanked(rules, r)) - {i}
      && (!IsRanked(rules, r)(book[i]) ==> i !in Positions(book, IsRanked(rules, r)))
    {
      PositionsSet(book, i, NotYet, IsRanked(rules, r));
      NotIn(book, i, IsRanked(rules, r));
    }
  }

  lemma NotIn(book: seq<Entry>, i: nat, p: Entry -> bool)
    requires i < |book|
    ensures i in Positions(book, p) <==> p(book[i])
  {
  }

  // ---- what is filed against the Tasks ------------------------------------

  /** Every Task is filed as it reads. */
  ghost predicate AllFiled(tasks: seq<Child>, book: seq<Entry>) {
    |tasks| == |book| && forall i :: 0 <= i < |book| ==> book[i] == As(tasks[i])
  }

  function Every(): Child -> bool { (t: Child) => true }

  lemma {:induction false} SelectEvery(tasks: seq<Child>)
    ensures Select(tasks, Every()) == tasks
  {
    if tasks != [] {
      SelectEvery(tasks[..|tasks| - 1]);
    }
  }

  lemma FiledSlots(rules: Rules, tasks: seq<Child>, book: seq<Entry>)
    requires AllFiled(tasks, book)
    ensures AllSlots(book) == Slots(tasks, Every()) && WorkSlots(rules, book) == Slots(tasks, Work(rules))
    ensures AllStandings(book) == Standings(tasks)
  {
  }

  lemma {:induction false} FiledItems(rules: Rules, tasks: seq<Child>, book: seq<Entry>)
    requires AllFiled(tasks, book)
    ensures ItemViews(rules, book) == Select(tasks, Items(rules))
  {
    hide Classify;
    if book != [] {
      FiledItems(rules, tasks[..|tasks| - 1], book[..|book| - 1]);
    }
  }

  lemma FiledCounts(rules: Rules, tasks: seq<Child>, book: seq<Entry>)
    requires AllFiled(tasks, book)
    ensures Count(book, IsOwn(rules)) == Count(tasks, Owns(rules)) && Count(book, IsPeer(rules)) == Count(tasks, Peers(rules))
    ensures |Positions(book, IsItem(rules))| == Count(tasks, Items(rules))
  {
    hide Classify, Count, Positions;
    CountSame(book, tasks, IsOwn(rules), Owns(rules));
    CountSame(book, tasks, IsPeer(rules), Peers(rules));
    CountSame(book, tasks, IsItem(rules), Items(rules));
    PositionsCount(book, IsItem(rules));
  }

  lemma {:induction false} PositionsCount(book: seq<Entry>, p: Entry -> bool)
    ensures |Positions(book, p)| == Count(book, p)
  {
    if book != [] {
      var front := book[..|book| - 1];
      PositionsCount(front, p);
      assert Positions(book, p) == if p(book[|front|]) then Positions(front, p) + {|front|} else Positions(front, p);
    }
  }

  /** How many filed under p were declared before i. */
  lemma LessCount(book: seq<Entry>, p: Entry -> bool, i: nat)
    requires i <= |book|
    ensures |Less(Positions(book, p), i)| == Count(book[..i], p)
  {
    PositionsCount(book[..i], p);
    assert Less(Positions(book, p), i) == Positions(book[..i], p);
  }

  /** The first k positions under p are those with fewer than k before them. */
  lemma InFirst(tasks: seq<Child>, book: seq<Entry>, p: Entry -> bool, q: Child -> bool, k: nat, i: nat)
    requires AllFiled(tasks, book) && i < |tasks|
    requires forall j :: 0 <= j < |tasks| ==> p(book[j]) == q(tasks[j])
    ensures i in First(Positions(book, p), k) <==> q(tasks[i]) && Count(tasks[..i], q) < k
  {
    hide Count, Positions, Less;
    NotIn(book, i, p);
    LessCount(book, p, i);
    CountSame(book[..i], tasks[..i], p, q);
  }

  /** Some first k positions under p are positions. */
  lemma FirstInBook(book: seq<Entry>, p: Entry -> bool, k: nat)
    ensures forall i :: i in First(Positions(book, p), k) ==> i < |book|
  {
  }

  /** The positions the sets give a frame are the ones a walk admits. */
  lemma FirstsAreShown(rules: Rules, rows: nat, tasks: seq<Child>, book: seq<Entry>, i: nat)
    requires AllFiled(tasks, book) && i < |tasks|
    ensures Shown(rules, rows, tasks[..i], tasks[i]) <==>
      || i in First(Positions(book, IsItem(rules)), rows + 1)
      || i in First(Positions(book, IsWork(rules)), rows + 1)
      || exists r: nat {:trigger IsRanked(rules, r)} :: r < RANKS && i in First(Positions(book, IsRanked(rules, r)), rows)
  {
    hide Classify, Count, Positions, First;
    InFirst(tasks, book, IsItem(rules), Items(rules), rows + 1, i);
    InFirst(tasks, book, IsWork(rules), Work(rules), rows + 1, i);
    forall r: nat | r < RANKS ensures i in First(Positions(book, IsRanked(rules, r)), rows) <==>
      Ranked(rules, r)(tasks[i]) && Count(tasks[..i], Ranked(rules, r)) < rows
    {
      InFirst(tasks, book, IsRanked(rules, r), Ranked(rules, r), rows, i);
    }
  }

  lemma ShownLast(rules: Rules, rows: nat, tasks: seq<Child>)
    requires tasks != []
    ensures var n := |tasks| - 1;
      var before := ShownAt(rules, rows, tasks[..n]);
      ShownAt(rules, rows, tasks) == if Shown(rules, rows, tasks[..n], tasks[n]) then before + [n] else before
  {
    hide Shown;
  }

  lemma {:induction false} ShownAtIs(rules: Rules, rows: nat, tasks: seq<Child>, i: nat)
    ensures Ascending(ShownAt(rules, rows, tasks))
    ensures i in Elements(ShownAt(rules, rows, tasks)) <==> i < |tasks| && Shown(rules, rows, tasks[..i], tasks[i])
    ensures forall p :: p in Elements(ShownAt(rules, rows, tasks)) ==> p < |tasks|
  {
    hide Shown, Elements, Ascending, ShownAt;
    if tasks == [] {
      NoneShown(rules, rows);
    } else {
      var front := tasks[..|tasks| - 1];
      ShownAtIs(rules, rows, front, i);
      ShownLast(rules, rows, tasks);
      ElementsPlus(ShownAt(rules, rows, front), |front|);
      if i < |front| {
        assert front[..i] == tasks[..i];
      }
    }
  }

  lemma NoneShown(rules: Rules, rows: nat)
    ensures ShownAt(rules, rows, []) == [] && Elements([]) == {} && Ascending([])
  {
  }

  lemma ItemPositions(rules: Rules, book: seq<Entry>)
    ensures forall i :: i in Positions(book, IsItem(rules)) <==> 0 <= i < |book| && IsItem(rules)(book[i])
  {
    hide Classify;
  }

  /** Entries that are not items add nothing to the items' views. */
  lemma {:induction false} ItemsBetween(rules: Rules, book: seq<Entry>, from: nat, upto: nat)
    requires from <= upto <= |book| && forall i :: from <= i < upto ==> !IsItem(rules)(book[i])
    ensures ItemViews(rules, book[..upto]) == ItemViews(rules, book[..from])
    decreases upto
  {
    hide Classify;
    if from < upto {
      ItemsBetween(rules, book, from, upto - 1);
      assert book[..upto][..upto - 1] == book[..upto - 1];
    }
  }

  lemma NextItem(rules: Rules, book: seq<Entry>, i: nat)
    requires i < |book| && IsItem(rules)(book[i])
    ensures ItemViews(rules, book[..i + 1]) == Append(ItemViews(rules, book[..i]), book[i].view)
  {
    hide Classify;
    assert book[..i + 1][..i] == book[..i];
  }

  // ---- painting -----------------------------------------------------------

  /** t once a frame at now has painted it. */
  function Painted(t: Child, now: nat): Child {
    if Census.Unstamped(t.state, t.seen) then t.(seen := now) else t
  }

  function AllPainted(tasks: seq<Child>, now: nat): (r: seq<Child>)
    ensures |r| == |tasks| && forall i :: 0 <= i < |tasks| ==> r[i] == Painted(tasks[i], now)
  {
    seq(|tasks|, (i: nat) requires i < |tasks| => Painted(tasks[i], now))
  }

  lemma PaintedOk(rules: Rules, t: Child, f: Filing, e: Entry, now: nat)
    requires FilingOk(rules, t, f, e) && now != 0 && (f.dirty ==> t.seen != 0)
    ensures FilingOk(rules, Painted(t, now), f.(listed := false, dirty := f.dirty || Painted(t, now) != t), e)
  {
    hide Classify;
  }

  // ---- the stamps filed ---------------------------------------------------

  function AllSeen(filings: seq<Filing>): seq<nat> {
    seq(|filings|, (i: nat) requires i < |filings| => if filings[i].filed then filings[i].seen else 0)
  }

  function WorkSeen(filings: seq<Filing>): seq<nat> {
    seq(|filings|, (i: nat) requires i < |filings| =>
      if filings[i].filed && !filings[i].kind.item then filings[i].seen else 0)
  }

  lemma SeenFiled(rules: Rules, tasks: seq<Child>, filings: seq<Filing>, book: seq<Entry>, at: nat)
    requires FilingsAre(rules, tasks, filings, book) && AllFiled(tasks, book)
    ensures EarliestStamp(AllSeen(filings), at) ==> EarliestIs(tasks, Every(), at)
    ensures EarliestStamp(WorkSeen(filings), at) ==> EarliestIs(tasks, Work(rules), at)
  {
    hide Classify;
    var all, work := AllSeen(filings), WorkSeen(filings);
    forall i | 0 <= i < |filings|
      ensures all[i] == tasks[i].seen && work[i] == if Work(rules)(tasks[i]) then tasks[i].seen else 0
    {
      assert FilingOk(rules, tasks[i], filings[i], book[i]);
    }
  }

  /** Ascending positions that are the firsts of the sets are the walk's. */
  lemma FramesAgree(rules: Rules, rows: nat, tasks: seq<Child>, book: seq<Entry>, kept: seq<nat>)
    requires AllFiled(tasks, book) && Ascending(kept)
    requires forall p :: p in Elements(kept) <==>
      || p in First(Positions(book, IsItem(rules)), rows + 1)
      || p in First(Positions(book, IsWork(rules)), rows + 1)
      || exists r: nat {:trigger IsRanked(rules, r)} :: r < RANKS && p in First(Positions(book, IsRanked(rules, r)), rows)
    ensures kept == ShownAt(rules, rows, tasks)
  {
    hide Elements, First, Positions, IsItem, IsWork, IsRanked, Ascending, ShownAt, Shown;
    FirstInBook(book, IsItem(rules), rows + 1);
    FirstInBook(book, IsWork(rules), rows + 1);
    forall r: nat | r < RANKS ensures forall p :: p in First(Positions(book, IsRanked(rules, r)), rows) ==> p < |book| {
      FirstInBook(book, IsRanked(rules, r), rows);
    }
    ShownAtIs(rules, rows, tasks, 0);
    forall p: nat ensures p in Elements(kept) <==> p in Elements(ShownAt(rules, rows, tasks)) {
      ShownAtIs(rules, rows, tasks, p);
      if p < |tasks| {
        FirstsAreShown(rules, rows, tasks, book, p);
      }
    }
    assert Elements(kept) == Elements(ShownAt(rules, rows, tasks));
    AscendingUnique(kept, ShownAt(rules, rows, tasks));
  }
}
