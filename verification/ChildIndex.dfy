/** The child index (child_index.go): one collection's direct Tasks refiled as they
    change, so a frame and a verdict read them without walking them. */
module ChildIndex {
  import opened Outcomes
  import opened Children
  import opened Counters
  import opened PositionSets
  import opened Filings
  import Census

  class Collection {
    const rules: Rules
    /** The Tasks as they now read, and how each is filed. */
    var tasks: seq<Child>
    var filings: seq<Filing>
    ghost var book: seq<Entry>

    var dirty: seq<nat>
    var items: set<nat>
    var work: set<nat>
    var byRank: seq<set<nat>>
    const all: ChildCounters
    const workCounts: ChildCounters
    const states: StateCounts
    const seenAll: SeenHeap
    const seenWork: SeenHeap
    var owns: int
    var peers: int
    var itemDispositions: Dispositions
    var itemsThrough: int
    var itemsStale: bool
    var unstamped: seq<nat>

    ghost predicate FilingsOk()
      reads this`tasks, this`filings, this`book
    {
      FilingsAre(rules, tasks, filings, book)
    }

    ghost predicate CountsShow(b: seq<Entry>)
      reads this`owns, this`peers, all, workCounts, states
    {
      && all != workCounts
      && all.Shows(AllSlots(b)) && workCounts.Shows(WorkSlots(rules, b)) && states.Shows(AllStandings(b))
      && owns == Count(b, IsOwn(rules)) && peers == Count(b, IsPeer(rules))
    }

    ghost predicate SetsShow(b: seq<Entry>)
      reads this`items, this`work, this`byRank
    {
      && items == Positions(b, IsItem(rules)) && work == Positions(b, IsWork(rules))
      && |byRank| == RANKS
      && forall r {:trigger byRank[r]} :: 0 <= r < RANKS ==> byRank[r] == Positions(b, IsRanked(rules, r))
    }

    ghost predicate TallyShows(b: seq<Entry>)
      reads this`itemsStale, this`itemsThrough, this`itemDispositions, itemDispositions.skipped, itemDispositions.kept
    {
      itemsStale || (
        && itemDispositions.Shows(ItemViews(rules, b))
        && forall i :: 0 <= i < |b| && IsItem(rules)(b[i]) ==> i <= itemsThrough)
    }

    ghost predicate SeenOk()
      reads this`filings, seenAll, seenWork
    {
      && seenAll != seenWork
      && (forall e :: e in seenAll.entries || e in seenWork.entries ==> e.at != 0 && e.pos < |filings|)
      && forall i {:trigger filings[i]} :: 0 <= i < |filings| ==> SeenAt(i, filings[i])
    }

    /** The stamps f was filed with have their entries. */
    ghost predicate SeenAt(i: nat, f: Filing)
      reads seenAll, seenWork
    {
      && (f.allSeenAt != 0 ==> SeenEntry(f.allSeenAt, i) in seenAll.entries)
      && (f.filed && !f.kind.item && f.workSeenAt != 0 ==> SeenEntry(f.workSeenAt, i) in seenWork.entries)
    }

    /** The index counts exactly what is filed. */
    ghost predicate Indexed()
      reads this`tasks, this`filings, this`book, this`items, this`work, this`byRank, this`owns, this`peers
      reads this`itemsStale, this`itemsThrough, this`itemDispositions
      reads all, workCounts, states, seenAll, seenWork, itemDispositions.skipped, itemDispositions.kept
    {
      FilingsOk() && CountsShow(book) && SetsShow(book) && TallyShows(book) && SeenOk()
    }

    ghost predicate Marked(list: seq<nat>)
      reads this`filings
    {
      && (forall i :: i in list ==> i < |filings|)
      && forall i {:trigger filings[i]} :: 0 <= i < |filings| && filings[i].dirty ==> i in list
    }

    ghost predicate Listed(list: seq<nat>)
      reads this`filings
    {
      && (forall i :: i in list ==> i < |filings|)
      && forall i {:trigger filings[i]} :: 0 <= i < |filings| && filings[i].listed ==> i in list
    }

    ghost predicate Valid()
      reads this, all, workCounts, states, seenAll, seenWork, itemDispositions.skipped, itemDispositions.kept
    {
      Indexed() && Marked(dirty) && Listed(unstamped)
    }

    constructor (rules: Rules)
      ensures Valid() && this.rules == rules && tasks == []
      ensures fresh(all) && fresh(workCounts) && fresh(states) && fresh(seenAll) && fresh(seenWork)
      ensures fresh(itemDispositions.skipped) && fresh(itemDispositions.kept)
    {
      this.rules := rules;
      tasks, filings, book, dirty, unstamped := [], [], [], [], [];
      items, work, byRank := {}, {}, seq(RANKS, _ => {});
      owns, peers, itemsThrough, itemsStale := 0, 0, 0, false;
      all := new ChildCounters();
      workCounts := new ChildCounters();
      states := new StateCounts();
      seenAll := new SeenHeap();
      seenWork := new SeenHeap();
      itemDispositions := new Dispositions();
      new;
      hide *;
      NothingFiled();
    }

    lemma NothingFiled()
      requires tasks == [] && filings == [] && book == [] && dirty == [] && unstamped == []
      requires items == {} && work == {} && byRank == seq(RANKS, _ => {}) && owns == 0 && peers == 0
      requires all != workCounts && all.Shows([]) && workCounts.Shows([]) && states.Shows([]) && itemDispositions.Shows([])
      requires seenAll != seenWork && seenAll.entries == multiset{} && seenWork.entries == multiset{}
      ensures Valid()
    {
      hide ChildCounters.Shows, StateCounts.Shows, Dispositions.Shows, AllSlots, WorkSlots, AllStandings, ItemViews,
          Count, Positions;
      EmptyBook(rules);
    }

    method MarkFiling(i: nat)
      requires i < |filings| && Marked(dirty)
      modifies this`filings, this`dirty
      ensures Marked(dirty) && filings == old(filings)[i := old(filings)[i].(dirty := true)]
    {
      if filings[i].dirty {
        assert filings[i].(dirty := true) == filings[i];
        return;
      }
      filings := filings[i := filings[i].(dirty := true)];
      dirty := dirty + [i];
    }

    /** Takes Task i out of every count. */
    method CountOut(i: nat, f: Filing)
      requires i < |book| && book[i].As? && FiledAs(rules, f, book[i].view) && CountsShow(book)
      modifies this`book, this`owns, this`peers, all, workCounts, states
      ensures CountsShow(book) && book == old(book)[i := NotYet]
    {
      hide Count, Classify, AllSlots, WorkSlots, AllStandings, ChildCounters.Shows, StateCounts.Shows, IsOwn, IsPeer;
      ghost var was := book;
      BookSet(rules, was, i, NotYet);
      OwnsOut(rules, was, i);
      all.Remove(f.state, f.width, AllSlots(was), i);
      states.Move(f.state, f.warned, -1, AllStandings(was), i, Unfiled);
      if f.kind.ownTask {
        owns := owns - 1;
      }
      book := book[i := NotYet];
      if !f.kind.item {
        workCounts.Remove(f.state, f.width, WorkSlots(rules, was), i);
        if f.kind.workPeer {
          peers := peers - 1;
        }
      }
    }

    /** Takes Task i out of everything it was filed under. */
    method Unfile(i: nat)
      requires i < |filings| == |book| && book[i].As? && FiledAs(rules, filings[i], book[i].view)
      requires CountsShow(book) && SetsShow(book) && TallyShows(book)
      modifies this`book, this`items, this`work, this`byRank, this`owns, this`peers, this`itemsStale, all,
          workCounts, states
      ensures CountsShow(book) && SetsShow(book) && TallyShows(book)
      ensures book == old(book)[i := NotYet] && (IsItem(rules)(old(book)[i]) ==> itemsStale)
    {
      hide Classify, ItemViews, Positions, CountsShow, Dispositions.Shows, IsWork, IsRanked;
      var f := filings[i];
      ghost var was := book;
      SetsOut(rules, was, i);
      CountOut(i, f);
      if f.kind.item {
        items := items - {i};
        itemsStale := true;
        return;
      }
      work := work - {i};
      if f.kind.rank < RANKS {
        byRank := byRank[f.kind.rank := byRank[f.kind.rank] - {i}];
      }
      ItemsKept(rules, was, i, NotYet);
    }

    method CountIn(i: nat, f: Filing, view: Child)
      requires i < |book| && book[i] == NotYet && FiledAs(rules, f, view) && CountsShow(book)
      modifies this`book, this`owns, this`peers, all, workCounts, states
      ensures CountsShow(book) && book == old(book)[i := As(view)]
    {
      hide Count, Classify, AllSlots, WorkSlots, AllStandings, ChildCounters.Shows, StateCounts.Shows, IsOwn, IsPeer;
      ghost var was := book;
      BookSet(rules, was, i, As(view));
      OwnsIn(rules, was, i, view);
      all.Add(f.state, f.width, AllSlots(was), i);
      states.Move(f.state, f.warned, 1, AllStandings(was), i, Filed(f.state, f.warned));
      if f.kind.ownTask {
        owns := owns + 1;
      }
      book := book[i := As(view)];
      if !f.kind.item {
        workCounts.Add(f.state, f.width, WorkSlots(rules, was), i);
        if f.kind.workPeer {
          peers := peers + 1;
        }
      }
    }

    /** Adds the item at pos to the items' tally: appended when it follows every item
        already in it, otherwise the tally is rebuilt at the next read. */
    method FileItem(pos: nat, view: Child, ghost was: seq<Entry>)
      requires pos < |was| && was[pos] == NotYet && book == was[pos := As(view)] && IsItem(rules)(As(view))
      requires TallyShows(was)
      modifies this`itemsStale, this`itemsThrough, itemDispositions.skipped, itemDispositions.kept
      ensures TallyShows(book)
    {
      hide Classify, ItemViews, Dispositions.Shows;
      if itemsStale || pos < itemsThrough {
        itemsStale := true;
        return;
      }
      ItemAppended(rules, was, pos, view);
      itemDispositions.AddTask(view, ItemViews(rules, was));
      itemsThrough := pos;
    }

    /** Pushes the stamp of Task i, unless it is already there, to the heap of every child. */
    method PushAll(i: nat)
      requires i < |filings| && SeenOk()
      requires Listed(unstamped)
      modifies this`filings, seenAll
      ensures SeenOk() && Listed(unstamped) && filings == old(filings)[i := SeenAll(old(filings)[i])]
    {
      var f := filings[i];
      assert SeenAt(i, f);
      if f.seen != 0 && f.seen != f.allSeenAt {
        seenAll.Push(SeenEntry(f.seen, i));
        filings := filings[i := f.(allSeenAt := f.seen)];
      }
    }

    method PushWork(i: nat)
      requires i < |filings| && filings[i].filed && SeenOk()
      requires Listed(unstamped)
      modifies this`filings, seenWork
      ensures SeenOk() && Listed(unstamped) && filings == old(filings)[i := SeenWork(old(filings)[i])]
    {
      var f := filings[i];
      assert SeenAt(i, f);
      if !f.kind.item && f.seen != 0 && f.seen != f.workSeenAt {
        seenWork.Push(SeenEntry(f.seen, i));
        filings := filings[i := f.(workSeenAt := f.seen)];
      }
    }

    /** Lists Task i as one no frame has painted. */
    method List(i: nat)
      requires i < |filings| && SeenOk() && Listed(unstamped)
      modifies this`filings, this`unstamped
      ensures SeenOk() && Listed(unstamped) && filings == old(filings)[i := old(filings)[i].(listed := true)]
    {
      assert SeenAt(i, filings[i]);
      if !filings[i].listed {
        filings := filings[i := filings[i].(listed := true)];
        unstamped := unstamped + [i];
      }
    }

    /** Enters the stamp of Task i, or lists it as one no frame has painted. */
    method EnterStamps(i: nat, view: Child)
      requires i < |filings| && filings[i].filed && SeenOk() && Listed(unstamped)
      modifies this`filings, this`unstamped, seenAll, seenWork
      ensures SeenOk() && Listed(unstamped) && filings == old(filings)[i := Entered(old(filings)[i], view)]
    {
      hide SeenOk, Listed;
      PushAll(i);
      PushWork(i);
      if Census.Unstamped(filings[i].state, view.seen) {
        List(i);
      }
    }

    lemma WorkTallyKept(b: seq<Entry>, i: nat, e: Entry)
      requires i < |b| && !IsItem(rules)(b[i]) && !IsItem(rules)(e) && TallyShows(b)
      ensures TallyShows(b[i := e])
    {
      hide Classify, ItemViews, Dispositions.Shows;
      ItemsKept(rules, b, i, e);
    }

    /** Enters Task i in the sets of its kind. */
    method EnterSets(i: nat, kind: Kind, view: Child, ghost was: seq<Entry>)
      requires i < |was| && was[i] == NotYet && kind == Classify(rules, view) && SetsShow(was)
      modifies this`items, this`work, this`byRank
      ensures SetsShow(was[i := As(view)])
    {
      hide Classify, Positions, IsWork, IsRanked;
      SetsIn(rules, was, i, view);
      if kind.item {
        items := items + {i};
        return;
      }
      work := work + {i};
      if kind.rank < RANKS {
        byRank := byRank[kind.rank := byRank[kind.rank] + {i}];
      }
    }

    /** Files Task i, whose filing already reads as the Task does. */
    method File(i: nat)
      requires i < |filings| == |book| == |tasks| && book[i] == NotYet && filings[i].filed && FiledAs(rules, filings[i], tasks[i])
      requires CountsShow(book) && SetsShow(book) && TallyShows(book) && SeenOk() && Listed(unstamped)
      modifies this`book, this`filings, this`items, this`work, this`byRank, this`owns, this`peers, this`itemsStale,
          this`itemsThrough, this`unstamped
      modifies all, workCounts, states, seenAll, seenWork, itemDispositions.skipped, itemDispositions.kept
      ensures CountsShow(book) && SetsShow(book) && TallyShows(book) && SeenOk() && Listed(unstamped)
      ensures book == old(book)[i := As(tasks[i])]
      ensures filings == old(filings)[i := Entered(old(filings)[i], tasks[i])]
    {
      hide Classify, CountsShow, SeenOk, SetsShow, TallyShows, Listed;
      var f, view := filings[i], tasks[i];
      ghost var was := book;
      CountIn(i, f, view);
      EnterSets(i, f.kind, view, was);
      if f.kind.item {
        FileItem(i, view, was);
      } else {
        WorkTallyKept(was, i, As(view));
      }
      EnterStamps(i, view);
    }

    /** Refiling a Task that is no item and reads the same to every count changes nothing. */
    lemma SameFiled(b: seq<Entry>, i: nat, e: Entry)
      requires i < |b| && b[i].As? && e.As? && Classify(rules, b[i].view) == Classify(rules, e.view)
      requires !Classify(rules, e.view).item && StandingIn(e) == StandingIn(b[i]) && |e.view.name| == |b[i].view.name|
      requires CountsShow(b) && SetsShow(b) && TallyShows(b)
      ensures CountsShow(b[i := e]) && SetsShow(b[i := e]) && TallyShows(b[i := e])
    {
      hide Classify, Count, Positions, AllSlots, WorkSlots, AllStandings, TallyShows, ChildCounters.Shows,
          StateCounts.Shows;
      BookSame(rules, b, i, e);
      CountSet(b, i, e, IsOwn(rules));
      CountSet(b, i, e, IsPeer(rules));
      PositionsSame(b, i, e, IsItem(rules));
      PositionsSame(b, i, e, IsWork(rules));
      forall r | 0 <= r < RANKS ensures Positions(b[i := e], IsRanked(rules, r)) == Positions(b, IsRanked(rules, r)) {
        PositionsSame(b, i, e, IsRanked(rules, r));
      }
      WorkTallyKept(b, i, e);
    }

    lemma Pointwise(i: nat)
      requires i < |filings| && FilingsOk()
      ensures |filings| == |tasks| == |book| && FilingOk(rules, tasks[i], filings[i], book[i])
      ensures filings[i].filed <==> book[i].As?
      ensures filings[i].filed ==> FiledAs(rules, filings[i], book[i].view)
      ensures !filings[i].filed ==> filings[i].workSeenAt == 0
    {
    }

    method Rewrite(i: nat, next: Filing)
      requires i < |filings| && SeenOk() && Listed(unstamped) && next.listed == filings[i].listed
      requires next.allSeenAt == filings[i].allSeenAt
      requires next.workSeenAt == 0 || (filings[i].filed && next.kind == filings[i].kind && next.workSeenAt == filings[i].workSeenAt)
      modifies this`filings
      ensures SeenOk() && Listed(unstamped) && filings == old(filings)[i := next]
    {
      assert SeenAt(i, filings[i]);
      filings := filings[i := next];
    }

    method Refile(i: nat)
      requires i < |filings| && Indexed() && Listed(unstamped)
      modifies this`book, this`filings, this`items, this`work, this`byRank, this`owns, this`peers, this`itemsStale,
          this`itemsThrough, this`unstamped
      modifies all, workCounts, states, seenAll, seenWork, itemDispositions.skipped, itemDispositions.kept
      ensures Indexed() && Listed(unstamped) && book == old(book)[i := As(tasks[i])]
      ensures |filings| == |old(filings)| && forall j :: 0 <= j < |filings| ==>
        if j == i then !filings[j].dirty else filings[j] == old(filings)[j]
    {
      hide Classify, CountsShow, SetsShow, TallyShows, SeenOk, Listed, FilingsAre, FilingOk;
      Pointwise(i);
      var was, view := filings[i], tasks[i];
      RefiledOk(rules, view, was, book[i]);
      FilingsSet(rules, tasks, filings, book, i, Entered(Refiled(rules, view, was), view), As(view));
      FilingsSet(rules, tasks, filings, book, i, Entered(Refiled(rules, view, was).(workSeenAt := 0), view), As(view));
      var next := Refiled(rules, view, was);
      if was.filed {
        if SameFiling(next, was) && !next.kind.item {
          FilingsSet(rules, tasks, filings, book, i, next, As(view));
          SameFiled(book, i, As(view));
          Rewrite(i, next);
          book := book[i := As(view)];
          return;
        }
        Unfile(i);
        next := next.(workSeenAt := 0);
      }
      Rewrite(i, next);
      File(i);
      assert filings == old(filings)[i := Entered(next, view)] && book == old(book)[i := As(view)];
    }

    /** Refiles every marked Task: the index as the Tasks now read. */
    method Settle()
      requires Valid()
      modifies this`dirty, this`book, this`filings, this`items, this`work, this`byRank, this`owns, this`peers
      modifies this`itemsStale, this`itemsThrough, this`unstamped
      modifies all, workCounts, states, seenAll, seenWork, itemDispositions.skipped, itemDispositions.kept
      ensures Valid() && dirty == [] && AllFiled(tasks, book)
    {
      hide Indexed, Listed;
      while |dirty| > 0
        invariant Valid()
        decreases |dirty|
      {
        var list := dirty;
        dirty := [];
        var k := 0;
        while k < |list|
          invariant k <= |list| && Indexed() && Listed(unstamped) && Marked(list[k..]) && dirty == []
        {
          ghost var left, rest, was := list[k..], list[k + 1..], filings;
          TailOf(list, k);
          assert list[k] in left;
          Refile(list[k]);
          forall j | j in rest ensures j < |filings| {
            assert j in left;
          }
          forall j | 0 <= j < |filings| && filings[j].dirty ensures j in rest {
            assert j != list[k] && was[j].dirty;
            assert j in left;
          }
          k := k + 1;
        }
      }
      NoneMarked();
    }

    lemma NoneMarked()
      requires Indexed() && Marked([])
      ensures AllFiled(tasks, book)
    {
      forall i | 0 <= i < |book| ensures book[i] == As(tasks[i]) {
        assert FilingOk(rules, tasks[i], filings[i], book[i]);
      }
    }

    // ---- the Tasks change -------------------------------------------------

    /** A Task is declared into the collection. */
    method Declare(t: Child)
      requires Valid()
      modifies this`tasks, this`filings, this`book, this`dirty
      ensures Valid() && tasks == old(tasks) + [t]
    {
      hide CountsShow, SetsShow, TallyShows;
      ghost var was := book;
      CountsLonger(was);
      SetsLonger(was);
      tasks, filings, book := tasks + [t], filings + [UNFILED], was + [NotYet];
      assert FilingOk(rules, t, UNFILED.(dirty := true), NotYet);
      MarkFiling(|filings| - 1);
    }

    lemma SetsLonger(b: seq<Entry>)
      requires SetsShow(b) && TallyShows(b)
      ensures SetsShow(b + [NotYet]) && TallyShows(b + [NotYet])
    {
      hide Count, Positions, Dispositions.Shows, ItemViews;
      BookLonger(rules, b);
    }

    lemma CountsLonger(b: seq<Entry>)
      requires CountsShow(b)
      ensures CountsShow(b + [NotYet])
    {
      BookLonger(rules, b);
      ShowsLonger(all, AllSlots(b));
      ShowsLonger(workCounts, WorkSlots(rules, b));
      StandingLonger(states, AllStandings(b));
    }

    /** A Task changes in a way its collection's frame or verdict reads; a stamp, once
        set, stays. */
    method Change(i: nat, t: Child)
      requires Valid() && i < |tasks| && (tasks[i].seen == t.seen || tasks[i].seen == 0)
      modifies this`tasks, this`filings, this`dirty
      ensures Valid() && tasks == old(tasks)[i := t]
    {
      hide CountsShow, SetsShow, TallyShows;
      Pointwise(i);
      tasks := tasks[i := t];
      MarkFiling(i);
    }

    // ---- reading it -------------------------------------------------------

    /** The items' tally, rebuilt if a change could not be appended to it. */
    method ItemTally() returns (d: Dispositions)
      requires Valid() && AllFiled(tasks, book)
      modifies this`itemDispositions, this`itemsThrough, this`itemsStale
      ensures Valid() && fresh(d) && fresh(d.skipped) && fresh(d.kept) && d.Shows(Select(tasks, Items(rules)))
      ensures itemDispositions == old(itemDispositions) || (fresh(itemDispositions.skipped) && fresh(itemDispositions.kept))
    {
      hide Classify, CountsShow, SetsShow, TallyShows, FilingsAre, SeenOk, Dispositions.Shows, ItemViews, Listed,
          Marked;
      if itemsStale {
        var tally, through := RebuildItems();
        itemDispositions, itemsThrough, itemsStale := tally, through, false;
      }
      TallyTold();
      FiledItems(rules, tasks, book);
      d := itemDispositions.Clone(ItemViews(rules, book));
    }

    /** What a tally that is not stale shows. */
    lemma TallyTold()
      requires !itemsStale
      ensures TallyShows(book) <==> (
        && itemDispositions.Shows(ItemViews(rules, book))
        && forall i :: 0 <= i < |book| && IsItem(rules)(book[i]) ==> i <= itemsThrough)
    {
    }

    method RebuildItems() returns (tally: Dispositions, through: int)
      requires AllFiled(tasks, book) && SetsShow(book)
      ensures fresh(tally) && fresh(tally.skipped) && fresh(tally.kept) && tally.Shows(ItemViews(rules, book))
      ensures forall i :: 0 <= i < |book| && IsItem(rules)(book[i]) ==> i <= through
    {
      hide Classify, Dispositions.Shows, ItemViews, Positions;
      tally := new Dispositions();
      through := -1;
      var pos := Next(items, 0);
      ItemPositions(rules, book);
      NoItems(rules, book[..0]);
      ItemsBetween(rules, book, 0, if pos < 0 then |book| else pos);
      while pos >= 0
        invariant fresh(tally) && fresh(tally.skipped) && fresh(tally.kept)
        invariant pos >= 0 ==> pos in items && through < pos
        invariant forall i :: i in items && (pos < 0 || i < pos) ==> i <= through
        invariant tally.Shows(ItemViews(rules, book[..if pos < 0 then |book| else pos]))
        decreases if pos < 0 then 0 else |book| - pos
      {
        ghost var at := pos;
        NextItem(rules, book, pos);
        tally.AddTask(tasks[pos], ItemViews(rules, book[..pos]));
        through := pos;
        pos := Next(items, pos + 1);
        ItemsBetween(rules, book, at + 1, if pos < 0 then |book| else pos);
      }
      assert book[..|book|] == book;
    }

    lemma SeenCovers()
      requires FilingsOk() && AllFiled(tasks, book) && SeenOk()
      ensures seenAll != seenWork && seenAll.Covers(AllSeen(filings)) && seenWork.Covers(WorkSeen(filings))
    {
      forall i | 0 <= i < |filings|
        ensures filings[i].seen != 0 ==> SeenEntry(filings[i].seen, i) in seenAll.entries
        ensures filings[i].seen != 0 && !filings[i].kind.item ==> SeenEntry(filings[i].seen, i) in seenWork.entries
      {
        assert FilingOk(rules, tasks[i], filings[i], book[i]) && SeenAt(i, filings[i]);
      }
    }

    lemma CoversSeen()
      requires FilingsOk() && AllFiled(tasks, book) && seenAll != seenWork
      requires seenAll.Covers(AllSeen(filings)) && seenWork.Covers(WorkSeen(filings))
      ensures SeenOk()
    {
      forall i | 0 <= i < |filings| ensures SeenAt(i, filings[i]) {
        assert FilingOk(rules, tasks[i], filings[i], book[i]);
        assert filings[i].filed && filings[i].seen == tasks[i].seen;
        assert AllSeen(filings)[i] == filings[i].seen;
        assert !filings[i].kind.item ==> WorkSeen(filings)[i] == filings[i].seen;
      }
    }

    /** The positions a frame of rows rows could show, from the sets alone. */
    method FramePositions(rows: int) returns (kept: seq<nat>)
      requires SetsShow(book) && AllFiled(tasks, book)
      ensures kept == ShownAt(rules, LiveHeight(rows), tasks)
    {
      hide Elements, First, Positions, IsItem, IsWork, IsRanked, Ascending, ShownAt, Shown;
      var budget := LiveHeight(rows);
      var pos := AppendFirst([], items, budget + 1);
      pos := AppendFirst(pos, work, budget + 1);
      NoElements();
      var r := 0;
      while r < RANKS
        invariant r <= RANKS
        invariant forall p :: p in Elements(pos) <==>
          || p in First(Positions(book, IsItem(rules)), budget + 1)
          || p in First(Positions(book, IsWork(rules)), budget + 1)
          || exists s: nat {:trigger IsRanked(rules, s)} :: s < r && p in First(Positions(book, IsRanked(rules, s)), budget)
      {
        pos := AppendFirst(pos, byRank[r], budget);
        r := r + 1;
      }
      kept := SortCompact(pos);
      FramesAgree(rules, budget, tasks, book, kept);
    }

    /** What a walk of every child would count, from the counts kept. */
    method Roster() returns (roster: ChildRoster)
      requires Valid() && AllFiled(tasks, book)
      modifies this`itemDispositions, this`itemsThrough, this`itemsStale, seenAll, seenWork
      ensures Valid() && IsRoster(roster, rules, tasks) && fresh(roster.items)
      ensures itemDispositions == old(itemDispositions) || (fresh(itemDispositions.skipped) && fresh(itemDispositions.kept))
    {
      hide Classify, Count, Counted, Select, SetsShow, TallyShows, FilingsAre, SeenOk, Listed, Marked;
      hide ChildCounters.Shows, StateCounts.Shows, SeenHeap.Covers, EarliestStamp, EarliestIs, Dispositions.Shows;
      SeenCovers();
      var firstAll := seenAll.Earliest(AllSeen(filings));
      var firstWork := seenWork.Earliest(WorkSeen(filings));
      CoversSeen();
      SeenFiled(rules, tasks, filings, book, firstAll);
      SeenFiled(rules, tasks, filings, book, firstWork);
      FiledSlots(rules, tasks, book);
      SelectEvery(tasks);
      CountersAreWalk(all, tasks, Every(), firstAll);
      CountersAreWalk(workCounts, tasks, Work(rules), firstWork);
      FiledCounts(rules, tasks, book);
      SetsSized();
      var d := ItemTally();
      roster := ChildRoster(
        all.Counts(firstAll), workCounts.Counts(firstWork), d, ChildCensus(|items|, owns > 0, peers > 0));
    }

    lemma SetsSized()
      requires SetsShow(book)
      ensures items == Positions(book, IsItem(rules))
    {
    }

    /** The children a frame of rows rows could show, and the roster of all of them. */
    method Project(rows: int) returns (kept: seq<nat>, roster: ChildRoster)
      requires Valid() && AllFiled(tasks, book)
      modifies this`itemDispositions, this`itemsThrough, this`itemsStale, seenAll, seenWork
      ensures Valid() && kept == ShownAt(rules, LiveHeight(rows), tasks) && IsRoster(roster, rules, tasks) && fresh(roster.items)
      ensures itemDispositions == old(itemDispositions) || (fresh(itemDispositions.skipped) && fresh(itemDispositions.kept))
    {
      kept := FramePositions(rows);
      roster := Roster();
    }

    // ---- the verdict ------------------------------------------------------

    /** The verdict of the direct Tasks, and what the collection's header asks of them. */
    method Verdicts() returns (v: Verdict, allNotStarted: bool, warnedOrFailed: bool)
      requires Valid()
      modifies this`dirty, this`book, this`filings, this`items, this`work, this`byRank, this`owns, this`peers
      modifies this`itemsStale, this`itemsThrough, this`unstamped
      modifies all, workCounts, states, seenAll, seenWork, itemDispositions.skipped, itemDispositions.kept
      ensures Valid() && v == VerdictOf(tasks)
      ensures allNotStarted <==> tasks != [] && forall i :: 0 <= i < |tasks| ==> tasks[i].state == NotStarted
      ensures warnedOrFailed <==> exists i :: 0 <= i < |tasks| && (tasks[i].state in {Failed, Cancelled} || tasks[i].warned)
    {
      hide Classify, Count, Standings, SetsShow, TallyShows, FilingsAre, SeenOk, Listed, Marked, ChildCounters.Shows;
      Settle();
      FiledSlots(rules, tasks, book);
      FoldIsVerdict(tasks);
      StandingsSay(tasks);
      v := states.Fold();
      allNotStarted := |tasks| > 0 && states.notStarted == |tasks|;
      warnedOrFailed := states.failed > 0 || states.cancelled > 0 || states.warned > 0;
    }

    // ---- a frame ----------------------------------------------------------

    /** Stamps Task i, listed as one no frame had painted, if it still is. */
    method StampLiveFirstSeen(i: nat, now: nat)
      requires i < |filings| && Indexed() && Marked(dirty) && now != 0 && (filings[i].dirty ==> tasks[i].seen != 0)
      modifies this`tasks, this`filings, this`dirty
      ensures Indexed() && Marked(dirty) && tasks == old(tasks)[i := Painted(old(tasks)[i], now)]
      ensures |filings| == |old(filings)| && !filings[i].listed && (filings[i].dirty ==> tasks[i].seen != 0)
      ensures forall j :: 0 <= j < |filings| && j != i ==> filings[j] == old(filings)[j]
    {
      hide CountsShow, SetsShow, TallyShows, FilingOk;
      Pointwise(i);
      assert SeenAt(i, filings[i]);
      PaintedOk(rules, tasks[i], filings[i], book[i], now);
      filings := filings[i := filings[i].(listed := false)];
      if Census.Unstamped(tasks[i].state, tasks[i].seen) {
        tasks := tasks[i := tasks[i].(seen := now)];
        MarkFiling(i);
      }
    }

    /** Stamps the Tasks filed while no frame had painted them. */
    method StampDirectTasks(now: nat)
      requires Valid() && now != 0
      modifies this`tasks, this`dirty, this`book, this`filings, this`items, this`work, this`byRank, this`owns,
          this`peers
      modifies this`itemsStale, this`itemsThrough, this`unstamped
      modifies all, workCounts, states, seenAll, seenWork, itemDispositions.skipped, itemDispositions.kept
      ensures Valid() && tasks == AllPainted(old(tasks), now)
    {
      hide Indexed, AllPainted;
      Settle();
      UnstampedListed();
      ghost var was := tasks;
      var list := unstamped;
      unstamped := [];
      var k := 0;
      while k < |list|
        invariant k <= |list| && Indexed() && Marked(dirty) && Listed(list[k..]) && unstamped == []
        invariant |tasks| == |filings| == |was| && forall i :: 0 <= i < |filings| && filings[i].dirty ==> tasks[i].seen != 0
        invariant forall i :: 0 <= i < |was| ==> tasks[i] == was[i] || tasks[i] == Painted(was[i], now)
        invariant forall i :: 0 <= i < |was| && i !in list[k..] ==> tasks[i] == Painted(was[i], now)
      {
        ghost var left, rest, filed := list[k..], list[k + 1..], filings;
        TailOf(list, k);
        assert list[k] in left;
        StampLiveFirstSeen(list[k], now);
        forall j | j in rest ensures j < |filings| {
          assert j in left;
        }
        forall j | 0 <= j < |filings| && filings[j].listed ensures j in rest {
          assert j != list[k] && filed[j].listed;
          assert j in left;
        }
        k := k + 1;
      }
      assert tasks == AllPainted(was, now);
    }

    lemma UnstampedListed()
      requires Valid() && AllFiled(tasks, book)
      ensures |tasks| == |filings| && forall i :: 0 <= i < |tasks| && i !in unstamped ==> !Census.Unstamped(tasks[i].state, tasks[i].seen)
    {
      forall i | 0 <= i < |tasks| && i !in unstamped ensures !Census.Unstamped(tasks[i].state, tasks[i].seen) {
        assert FilingOk(rules, tasks[i], filings[i], book[i]);
      }
    }

    /** The children a live frame of rows rows, painted at now, could show and the roster
        of all of them: what a walk of every child gives. */
    method LiveSnapshot(rows: int, now: nat) returns (kept: seq<nat>, roster: ChildRoster)
      requires Valid() && now != 0
      modifies this, all, workCounts, states, seenAll, seenWork, itemDispositions.skipped, itemDispositions.kept
      ensures Valid() && tasks == AllPainted(old(tasks), now)
      ensures kept == ShownAt(rules, LiveHeight(rows), tasks) && IsRoster(roster, rules, tasks)
    {
      hide *;
      StampDirectTasks(now);
      Settle();
      kept, roster := Project(rows);
    }
  }

  lemma TailOf(list: seq<nat>, k: nat)
    requires k < |list|
    ensures forall j :: j in list[k..] <==> j == list[k] || j in list[k + 1..]
  {
    assert list[k..] == [list[k]] + list[k + 1..];
  }
}
