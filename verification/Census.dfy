/** The live census (live_census.go): every collection counts the Tasks at or below
    it, moved at each Task transition instead of walked. */
module Census {
  import opened Outcomes
  import opened Topology

  /** What the census reads of one Task. A stamp of 0 is the zero time. */
  datatype Row = Row(state: EntityState, warned: bool, stamp: nat, width: nat)

  datatype Census = Census(
    total: int, done: int, running: int, pending: int, unfinished: int, failed: int,
    warned: int, unstamped: int, earliest: nat, width: nat)

  const NOTHING := Census(0, 0, 0, 0, 0, 0, 0, 0, 0, 0)

  // ---- the recount --------------------------------------------------------

  function One(b: bool): int { if b then 1 else 0 }

  /** A live row no frame has painted. */
  predicate Unstamped(state: EntityState, stamp: nat) {
    (state == Running || state == Pending) && stamp == 0
  }

  function Earlier(a: nat, b: nat): nat {
    if b != 0 && (a == 0 || b < a) then b else a
  }

  function Wider(a: nat, b: nat): nat { if a < b then b else a }

  /** One Task in state, counted by delta. */
  function CountState(c: Census, state: EntityState, delta: int): Census {
    c.(done := c.done + delta * One(state == Done || state == Skipped),
       running := c.running + delta * One(state == Running),
       pending := c.pending + delta * One(state == Pending),
       failed := c.failed + delta * One(state == Failed),
       unfinished := c.unfinished + delta * One(!IsTerminal(state)))
  }

  function Counted(c: Census, row: Row): Census {
    CountState(c, row.state, 1).(
      total := c.total + 1, warned := c.warned + One(row.warned),
      unstamped := c.unstamped + One(Unstamped(row.state, row.stamp)),
      width := Wider(c.width, row.width), earliest := Earlier(c.earliest, row.stamp))
  }

  /** The first n Tasks at or below container c, counted afresh. */
  ghost function Recount(info: seq<TaskInfo>, cols: seq<ColInfo>, rows: seq<Row>, c: int, n: nat): Census
    requires n <= |info| == |rows|
  {
    if n == 0 then NOTHING
    else
      var before := Recount(info, cols, rows, c, n - 1);
      if OnChain(cols, info[n - 1].home, c) then Counted(before, rows[n - 1]) else before
  }

  // ---- the moves ----------------------------------------------------------

  function Moved(c: Census, row: Row, to: EntityState): Census {
    CountState(CountState(c, row.state, -1), to, 1).(
      unstamped := c.unstamped + One(Unstamped(to, row.stamp)) - One(Unstamped(row.state, row.stamp)))
  }

  function Stamped(c: Census, at: nat): Census {
    c.(unstamped := c.unstamped - 1, earliest := Earlier(c.earliest, at))
  }

  function Warned(c: Census): Census { c.(warned := c.warned + 1) }

  lemma MoveFirst(c: Census, other: Row, row: Row, to: EntityState)
    ensures Counted(Moved(c, row, to), other) == Moved(Counted(c, other), row, to)
    ensures Counted(c, row.(state := to)) == Moved(Counted(c, row), row, to)
  {
  }

  lemma StampFirst(c: Census, other: Row, row: Row, at: nat)
    requires at != 0 && Unstamped(row.state, row.stamp)
    ensures Counted(Stamped(c, at), other) == Stamped(Counted(c, other), at)
    ensures Counted(c, row.(stamp := at)) == Stamped(Counted(c, row), at)
  {
  }

  lemma WarnFirst(c: Census, other: Row, row: Row)
    requires !row.warned
    ensures Counted(Warned(c), other) == Warned(Counted(c, other))
    ensures Counted(c, row.(warned := true)) == Warned(Counted(c, row))
  {
  }

  /** The ways one Task's row changes, as its collections see it. */
  datatype Change = ToState(to: EntityState) | Stamp(at: nat) | Warn

  predicate Applies(ch: Change, row: Row) {
    match ch
    case ToState(_) => true
    case Stamp(at) => at != 0 && Unstamped(row.state, row.stamp)
    case Warn => !row.warned
  }

  function NewRow(ch: Change, row: Row): Row {
    match ch
    case ToState(to) => row.(state := to)
    case Stamp(at) => row.(stamp := at)
    case Warn => row.(warned := true)
  }

  function Change1(c: Census, ch: Change, row: Row): Census {
    match ch
    case ToState(to) => Moved(c, row, to)
    case Stamp(at) => Stamped(c, at)
    case Warn => Warned(c)
  }

  lemma ChangeFirst(c: Census, other: Row, ch: Change, row: Row)
    requires Applies(ch, row)
    ensures Counted(Change1(c, ch, row), other) == Change1(Counted(c, other), ch, row)
    ensures Counted(c, NewRow(ch, row)) == Change1(Counted(c, row), ch, row)
  {
    match ch
    case ToState(to) => MoveFirst(c, other, row, to);
    case Stamp(at) => StampFirst(c, other, row, at);
    case Warn => WarnFirst(c, other, row);
  }

  /** Moving the census once is recounting everything with the row changed, for every
      container: the ones above the Task move, the others stay. */
  lemma {:induction false} RecountMoves(info: seq<TaskInfo>, cols: seq<ColInfo>, rows: seq<Row>, c: int, n: nat,
      x: nat, ch: Change)
    requires n <= |info| == |rows| && x < |rows| && Applies(ch, rows[x])
    ensures Recount(info, cols, rows[x := NewRow(ch, rows[x])], c, n) ==
      if x < n && OnChain(cols, info[x].home, c) then Change1(Recount(info, cols, rows, c, n), ch, rows[x])
      else Recount(info, cols, rows, c, n)
  {
    hide Counted, Change1, OnChain, NewRow, Applies;
    if n > 0 {
      RecountMoves(info, cols, rows, c, n - 1, x, ch);
      ChangeFirst(Recount(info, cols, rows, c, n - 1), rows[n - 1], ch, rows[x]);
    }
  }

  lemma {:induction false} RecountLonger(info: seq<TaskInfo>, cols: seq<ColInfo>, rows: seq<Row>, c: int, n: nat,
      t: TaskInfo, row: Row)
    requires n <= |info| == |rows|
    ensures Recount(info + [t], cols, rows + [row], c, n) == Recount(info, cols, rows, c, n)
  {
    if n > 0 {
      RecountLonger(info, cols, rows, c, n - 1, t, row);
    }
  }

  lemma {:induction false} RecountNewCol(info: seq<TaskInfo>, cols: seq<ColInfo>, rows: seq<Row>, c: int, n: nat,
      ci: ColInfo)
    requires n <= |info| == |rows| && ColsOk(cols) && forall i :: 0 <= i < |info| ==> info[i].home < |cols|
    ensures Recount(info, cols + [ci], rows, c, n) == if c >= |cols| then NOTHING else Recount(info, cols, rows, c, n)
  {
    if n > 0 {
      RecountNewCol(info, cols, rows, c, n - 1, ci);
      ChainStable(cols, ci, info[n - 1].home, c);
      if c >= |cols| && OnChain(cols, info[n - 1].home, c) {
        ChainBounds(cols, info[n - 1].home, c);
      }
    }
  }

  /** The first n Tasks at or below c of which p holds. */
  ghost function RowsAt(info: seq<TaskInfo>, cols: seq<ColInfo>, rows: seq<Row>, c: int, n: nat,
      p: Row -> bool): set<nat>
    requires n <= |info| == |rows|
  {
    set x | 0 <= x < n && OnChain(cols, info[x].home, c) && p(rows[x])
  }

  lemma RowsMore(info: seq<TaskInfo>, cols: seq<ColInfo>, rows: seq<Row>, c: int, n: nat, p: Row -> bool)
    requires 0 < n <= |info| == |rows|
    ensures |RowsAt(info, cols, rows, c, n, p)| == |RowsAt(info, cols, rows, c, n - 1, p)|
      + if OnChain(cols, info[n - 1].home, c) && p(rows[n - 1]) then 1 else 0
  {
    hide OnChain;
    var a, b := RowsAt(info, cols, rows, c, n - 1, p), RowsAt(info, cols, rows, c, n, p);
    assert b == if OnChain(cols, info[n - 1].home, c) && p(rows[n - 1]) then a + {n - 1} else a;
    assert n - 1 !in a;
  }

  const EACH: Row -> bool := (row: Row) => true
  const WARNED: Row -> bool := (row: Row) => row.warned
  const UNPAINTED: Row -> bool := (row: Row) => row.state in {Running, Pending} && row.stamp == 0

  function Among(states: set<EntityState>): Row -> bool { (row: Row) => row.state in states }

  /** What a census counts, in the states themselves. */
  lemma {:induction false} RecountMeans(info: seq<TaskInfo>, cols: seq<ColInfo>, rows: seq<Row>, c: int, n: nat)
    requires n <= |info| == |rows|
    ensures var r := Recount(info, cols, rows, c, n);
      && r.total == |RowsAt(info, cols, rows, c, n, EACH)|
      && r.done == |RowsAt(info, cols, rows, c, n, Among({Done, Skipped}))|
      && r.running == |RowsAt(info, cols, rows, c, n, Among({Running}))|
      && r.pending == |RowsAt(info, cols, rows, c, n, Among({Pending}))|
      && r.failed == |RowsAt(info, cols, rows, c, n, Among({Failed}))|
      && r.unfinished == |RowsAt(info, cols, rows, c, n, Among({Pending, Running, Empty, Incomplete}))|
      && r.warned == |RowsAt(info, cols, rows, c, n, WARNED)|
      && r.unstamped == |RowsAt(info, cols, rows, c, n, UNPAINTED)|
  {
    hide OnChain, RowsAt;
    if n == 0 {
      NoRows(info, cols, rows, c);
    } else {
      RecountMeans(info, cols, rows, c, n - 1);
      RowsMore(info, cols, rows, c, n, EACH);
      RowsMore(info, cols, rows, c, n, Among({Done, Skipped}));
      RowsMore(info, cols, rows, c, n, Among({Running}));
      RowsMore(info, cols, rows, c, n, Among({Pending}));
      RowsMore(info, cols, rows, c, n, Among({Failed}));
      RowsMore(info, cols, rows, c, n, Among({Pending, Running, Empty, Incomplete}));
      RowsMore(info, cols, rows, c, n, WARNED);
      RowsMore(info, cols, rows, c, n, UNPAINTED);
    }
  }

  lemma NoRows(info: seq<TaskInfo>, cols: seq<ColInfo>, rows: seq<Row>, c: int)
    requires |info| == |rows|
    ensures forall p :: RowsAt(info, cols, rows, c, 0, p) == {}
  {
  }

  // ---- the collections' censuses ------------------------------------------

  class LiveCensus {
    var info: seq<TaskInfo>
    var cols: seq<ColInfo>
    var rows: seq<Row>
    var census: seq<Census>

    /** Every census is the recount of the Tasks at or below its collection. */
    ghost predicate Valid()
      reads this
    {
      && ColsOk(cols) && |info| == |rows| && |census| == |cols|
      && (forall i :: 0 <= i < |info| ==> -1 <= info[i].home < |cols|)
      && forall c {:trigger census[c]} :: 0 <= c < |cols| ==> census[c] == Recount(info, cols, rows, c, |info|)
    }

    constructor ()
      ensures Valid() && info == [] && cols == []
    {
      info, cols, rows, census := [], [], [], [];
    }

    /** Applies a change to every census above home. */
    method Above(home: int, ch: Change, row: Row)
      requires ColsOk(cols) && -1 <= home < |cols| == |census|
      modifies this`census
      ensures |census| == |old(census)|
      ensures forall c {:trigger census[c]} :: 0 <= c < |census| ==>
        census[c] == if OnChain(cols, home, c) then Change1(old(census)[c], ch, row) else old(census)[c]
    {
      hide Change1;
      var c := home;
      ChainAbove(cols, home);
      while c >= 0
        invariant -1 <= c < |cols| == |census| && (c >= 0 ==> OnChain(cols, home, c))
        invariant forall d {:trigger census[d]} :: 0 <= d < |census| ==>
          census[d] == if OnChain(cols, home, d) && d > c then Change1(old(census)[d], ch, row) else old(census)[d]
      {
        UpOne(cols, home, c);
        census := census[c := Change1(census[c], ch, row)];
        c := cols[c].parent;
      }
    }

    method Declare(t: TaskInfo, row: Row)
      requires Valid() && -1 <= t.home < |cols|
      modifies this
      ensures Valid() && info == old(info) + [t] && rows == old(rows) + [row] && cols == old(cols)
    {
      hide Counted;
      var c := t.home;
      ChainAbove(cols, t.home);
      while c >= 0
        invariant -1 <= c < |cols| == |census| && (c >= 0 ==> OnChain(cols, t.home, c))
        invariant info == old(info) && rows == old(rows) && cols == old(cols)
        invariant forall d {:trigger census[d]} :: 0 <= d < |census| ==>
          census[d] == if OnChain(cols, t.home, d) && d > c then Counted(old(census)[d], row) else old(census)[d]
      {
        UpOne(cols, t.home, c);
        census := census[c := Counted(census[c], row)];
        c := cols[c].parent;
      }
      info, rows := info + [t], rows + [row];
      forall d | 0 <= d < |cols| ensures census[d] == Recount(info, cols, rows, d, |info|) {
        RecountLonger(old(info), cols, old(rows), d, |old(info)|, t, row);
      }
    }

    method DeclareCollection(parent: int, decl: nat, sequential: bool)
      requires Valid() && -1 <= parent < |cols| && decl > 0 && (parent >= 0 ==> cols[parent].decl < decl)
      modifies this
      ensures Valid() && cols == old(cols) + [ColInfo(parent, decl, sequential)] && info == old(info) && rows == old(rows)
    {
      var ci := ColInfo(parent, decl, sequential);
      cols, census := cols + [ci], census + [NOTHING];
      forall d | 0 <= d < |cols| ensures census[d] == Recount(info, cols, rows, d, |info|) {
        RecountNewCol(info, old(cols), rows, d, |info|, ci);
      }
    }

    /** A transition, a first stamp or a first warning of Task x. */
    method Change(x: nat, ch: Change)
      requires Valid() && x < |rows| && Applies(ch, rows[x])
      modifies this`rows, this`census
      ensures Valid() && rows == old(rows)[x := NewRow(ch, old(rows)[x])]
    {
      hide Change1, Applies, NewRow, Recount;
      ghost var was, n := rows, |info|;
      Above(info[x].home, ch, rows[x]);
      rows := rows[x := NewRow(ch, rows[x])];
      forall d | 0 <= d < |cols| ensures census[d] == Recount(info, cols, rows, d, n) {
        RecountMoves(info, cols, was, d, n, x, ch);
      }
    }

    /** censusMoved, which a transition to the same state leaves alone. */
    method Move(x: nat, to: EntityState)
      requires Valid() && x < |rows|
      modifies this`rows, this`census
      ensures Valid() && rows == old(rows)[x := old(rows)[x].(state := to)]
    {
      if rows[x].state != to {
        Change(x, ToState(to));
      } else {
        assert rows[x].(state := to) == rows[x];
      }
    }

    /** A frame's first paint of a live Task. */
    method StampFirstSeen(x: nat, now: nat)
      requires Valid() && x < |rows| && now != 0
      modifies this`rows, this`census
      ensures Valid()
      ensures rows == if Unstamped(old(rows)[x].state, old(rows)[x].stamp) then old(rows)[x := old(rows)[x].(stamp := now)] else old(rows)
    {
      if Unstamped(rows[x].state, rows[x].stamp) {
        Change(x, Stamp(now));
      }
    }

    method WarnFirst(x: nat)
      requires Valid() && x < |rows|
      modifies this`rows, this`census
      ensures Valid() && rows == old(rows)[x := old(rows)[x].(warned := true)]
    {
      if !rows[x].warned {
        Change(x, Warn);
      } else {
        assert rows[x].(warned := true) == rows[x];
      }
    }
  }

  lemma ChainAbove(cols: seq<ColInfo>, home: int)
    ensures forall d: nat :: OnChain(cols, home, d) ==> d <= home
  {
    forall d: nat | OnChain(cols, home, d) ensures d <= home {
      ChainBounds(cols, home, d);
    }
  }

  lemma UpOne(cols: seq<ColInfo>, home: int, c: nat)
    requires ColsOk(cols) && c < |cols| && OnChain(cols, home, c)
    ensures -1 <= cols[c].parent < c
    ensures cols[c].parent >= 0 ==> OnChain(cols, home, cols[c].parent)
    ensures forall d: nat :: OnChain(cols, home, d) && d > cols[c].parent ==> d >= c
  {
    var p := cols[c].parent;
    if p >= 0 {
      assert OnChain(cols, p, p) && OnChain(cols, c, p);
      ChainTransitive(cols, home, c, p);
    }
    forall d: nat | OnChain(cols, home, d) && d > p ensures d >= c {
      if d < c {
        ChainSplit(cols, home, c, d);
        if p >= 0 {
          ChainBounds(cols, p, d);
        }
      }
    }
  }
}
