/** What a Task's predecessors say (eligibility.go): the outcome of a Task, of a
    collection edge and of an empty collection's entry, and the fold that
    decides where a submitted Task is placed. */
module Eligibility {
  import opened Outcomes
  import opened CollectionTally

  datatype Phase = PhaseDeclared | PhaseQueued | PhaseParked | PhaseRunning | PhaseAbandoned

  /** One thing a Task waits for. through is, for a collection named while
      populated, the declaration cursor at that moment, and 0 otherwise. Missing
      is a handle this run never declared. */
  datatype Pred = Missing | OnTask(t: TaskId) | OnCol(c: nat, through: nat)

  /** All that outcomes are read from. */
  datatype View = View(
    state: seq<EntityState>,
    phase: seq<Phase>,
    tally: seq<Tally>,
    entry: seq<seq<Pred>>,
    draining: bool)

  function Rank(p: Pred): nat { if p.OnCol? then p.c + 1 else 0 }

  ghost predicate PredOk(p: Pred, tasks: nat, cols: nat) {
    match p
    case Missing => true
    case OnTask(t) => t < tasks
    case OnCol(c, _) => c < cols
  }

  ghost predicate PredsOk(ps: seq<Pred>, tasks: nat, cols: nat) {
    forall i :: 0 <= i < |ps| ==> PredOk(ps[i], tasks, cols)
  }

  /** A container starts after containers declared before it. */
  ghost predicate EntriesOk(entry: seq<seq<Pred>>, tasks: nat) {
    forall c :: 0 <= c < |entry| ==> PredsOk(entry[c], tasks, c)
  }

  ghost predicate ViewOk(v: View) {
    && |v.phase| == |v.state| && |v.entry| == |v.tally|
    && EntriesOk(v.entry, |v.state|)
  }

  // ---- outcomes -----------------------------------------------------------

  predicate NeverDefined(v: View, t: TaskId)
    requires t < |v.state| == |v.phase|
  {
    v.phase[t] == PhaseDeclared && !IsTerminal(v.state[t])
  }

  function TaskOutcome(v: View, t: TaskId): Outcome
    requires t < |v.state| == |v.phase|
  {
    var out := StateOutcome(v.state[t]);
    if out == PredPending && v.draining && NeverDefined(v, t) then PredFailed else out
  }

  /** The cursor an edge reads its collection through, or that nothing has
      closed its membership yet. */
  function EdgeCursor(t: Tally, through: nat, draining: bool): (r: (int, bool)) {
    if t.holds > 0 then (0, true)
    else if through != 0 then (through, false)
    else if t.sealed then (t.sealedThrough, false)
    else if draining then (THROUGH_ALL, false)
    else (0, true)
  }

  /** The outcome of p and, while that is pending, what to park on. */
  function OutcomeOf(v: View, p: Pred): (r: (Outcome, Pred))
    requires ViewOk(v) && PredOk(p, |v.state|, |v.tally|)
    decreases Rank(p), 1, 0
  {
    match p
    case Missing => (PredFailed, p)
    case OnTask(t) => (TaskOutcome(v, t), p)
    case OnCol(c, through) =>
      var t := v.tally[c];
      var (cursor, open) := EdgeCursor(t, through, v.draining);
      if t.builderFailed then (PredFailed, p)
      else if (open && t.firstFailed != 0) || (!open && FailedThrough(t, cursor)) then (PredFailed, p)
      else if open then (PredPending, p)
      else if !HasMemberThrough(t, cursor) then EntryOutcome(v, c, v.entry[c])
      else if SucceededThrough(t, cursor) then (PredSucceeded, p)
      else (PredPending, p)
  }

  /** The fold over what container c starts after: an empty collection answers
      for its entry. */
  function EntryOutcome(v: View, c: nat, es: seq<Pred>): (r: (Outcome, Pred))
    requires ViewOk(v) && c < |v.tally| && PredsOk(es, |v.state|, c)
    decreases c + 1, 0, |es|
  {
    if es == [] then (PredSucceeded, Missing)
    else
      var (out, b) := OutcomeOf(v, es[0]);
      if out == PredFailed then (PredFailed, b)
      else
        var rest := EntryOutcome(v, c, es[1..]);
        if out == PredPending && rest.0 != PredFailed then (PredPending, b) else rest
  }

  /** p reads pending by itself, not on behalf of an entry. */
  predicate DirectlyPending(v: View, p: Pred)
    requires |v.state| == |v.phase|
  {
    match p
    case Missing => false
    case OnTask(t) => t < |v.state| && TaskOutcome(v, t) == PredPending
    case OnCol(c, through) =>
      && c < |v.tally|
      && !v.tally[c].builderFailed
      && var (cursor, open) := EdgeCursor(v.tally[c], through, v.draining);
         if open then v.tally[c].firstFailed == 0 else ClosedPending(v.tally[c], cursor)
  }

  /** b is p, or what the chain of empty collections from p forwards to. */
  ghost predicate Leads(entry: seq<seq<Pred>>, p: Pred, b: Pred)
    decreases Rank(p)
  {
    p == b || (p.OnCol? && p.c < |entry| && exists e :: e in entry[p.c] && Rank(e) < Rank(p) && Leads(entry, e, b))
  }

  /** b is one of ps or of some container's entry. */
  ghost predicate Named(entry: seq<seq<Pred>>, ps: seq<Pred>, b: Pred) {
    b in ps || exists c :: 0 <= c < |entry| && b in entry[c]
  }

  /** What a pending predecessor says to park on is itself still pending, and is
      the predecessor or one its entry leads to. */
  lemma {:induction false} BlockerIsPending(v: View, p: Pred)
    requires ViewOk(v) && PredOk(p, |v.state|, |v.tally|)
    requires OutcomeOf(v, p).0 == PredPending
    ensures DirectlyPending(v, OutcomeOf(v, p).1)
    ensures PredOk(OutcomeOf(v, p).1, |v.state|, |v.tally|)
    ensures Leads(v.entry, p, OutcomeOf(v, p).1)
    ensures Named(v.entry, [p], OutcomeOf(v, p).1)
    decreases Rank(p), 1, 0
  {
    if p.OnCol? && !EdgeCursor(v.tally[p.c], p.through, v.draining).1
      && !HasMemberThrough(v.tally[p.c], EdgeCursor(v.tally[p.c], p.through, v.draining).0)
    {
      var e := EntryBlockerIsPending(v, p.c, v.entry[p.c]);
    }
  }

  lemma {:induction false} EntryBlockerIsPending(v: View, c: nat, es: seq<Pred>) returns (e: Pred)
    requires ViewOk(v) && c < |v.tally| && PredsOk(es, |v.state|, c)
    requires EntryOutcome(v, c, es).0 == PredPending
    ensures e in es && Leads(v.entry, e, EntryOutcome(v, c, es).1) && Rank(e) <= c
    ensures DirectlyPending(v, EntryOutcome(v, c, es).1)
    ensures Named(v.entry, es, EntryOutcome(v, c, es).1)
    ensures PredOk(EntryOutcome(v, c, es).1, |v.state|, |v.tally|)
    decreases c + 1, 0, |es|
  {
    if OutcomeOf(v, es[0]).0 == PredPending {
      e := es[0];
      BlockerIsPending(v, es[0]);
    } else {
      e := EntryBlockerIsPending(v, c, es[1..]);
    }
  }

  /** A directly pending predecessor is pending, and parks on itself. */
  lemma DirectIsOutcome(v: View, p: Pred)
    requires ViewOk(v) && PredOk(p, |v.state|, |v.tally|) && DirectlyPending(v, p)
    ensures OutcomeOf(v, p) == (PredPending, p)
  {
  }

  /** A collection edge that reads succeeded and is closed over some member means
      each member declared through its cursor succeeded. */
  lemma SucceededEdgeMeansMembers(v: View, c: nat, through: nat, i: nat)
    requires ViewOk(v) && c < |v.tally| && Current(v.tally[c], v.state)
    requires OutcomeOf(v, OnCol(c, through)).0 == PredSucceeded
    requires i < |v.tally[c].members|
    requires v.tally[c].members[i].declaration <= EdgeCursor(v.tally[c], through, v.draining).0
    ensures SucceededIn(v.tally[c].members[i], v.state)
  {
    var cursor := EdgeCursor(v.tally[c], through, v.draining).0;
    SucceededThroughMeans(v.tally[c], v.state, cursor);
  }

  /** What a container that ran nothing answers for what it starts after: it fails when
      one of it fails, and has succeeded once all of it has. */
  lemma {:induction false} EntryReads(v: View, c: nat, es: seq<Pred>)
    requires ViewOk(v) && c < |v.tally| && PredsOk(es, |v.state|, c)
    ensures EntryOutcome(v, c, es).0 == PredFailed <==> exists i :: 0 <= i < |es| && OutcomeOf(v, es[i]).0 == PredFailed
    ensures EntryOutcome(v, c, es).0 == PredSucceeded <==> forall i :: 0 <= i < |es| ==> OutcomeOf(v, es[i]).0 == PredSucceeded
  {
    if es != [] {
      EntryReads(v, c, es[1..]);
      assert forall i :: 0 < i < |es| ==> es[i] == es[1..][i - 1];
      assert forall i :: 0 <= i < |es| - 1 ==> es[1..][i] == es[i + 1];
    }
  }

  // ---- what may be declared later -----------------------------------------

  /** What an edge to collection c reads, as a fold over its members. */
  lemma EdgeReads(v: View, c: nat, through: nat)
    requires ViewOk(v) && c < |v.tally| && Current(v.tally[c], v.state)
    ensures var t := v.tally[c];
      var open := t.holds > 0 || (through == 0 && !t.sealed && !v.draining);
      var cursor: int := if through != 0 then through else if t.sealed then t.sealedThrough else THROUGH_ALL;
      OutcomeOf(v, OnCol(c, through)).0 ==
        if t.builderFailed then PredFailed
        else if open then (if exists i :: 0 <= i < |t.members| && FailedIn(t.members[i], v.state) then PredFailed else PredPending)
        else if MembersThrough(t.members, cursor) == [] then EntryOutcome(v, c, v.entry[c]).0
        else Fold(MembersThrough(t.members, cursor), v.state)
  {
    var t := v.tally[c];
    var cursor := EdgeCursor(t, through, v.draining).0;
    ReadingIsFold(t, v.state, cursor);
    FailedThroughMeans(t, v.state, THROUGH_ALL);
    if t.firstFailed != 0 {
      var i :| 0 <= i < |t.members| && t.members[i].declaration == t.firstFailed && FailedIn(t.members[i], v.state);
    }
  }

  /** now is a later view of v in which nothing through cursor k of collection c
      changed: members were only declared after k, and only those settled. */
  ghost predicate LaterOf(v: View, now: View, c: nat, k: nat) {
    && ViewOk(now) && |now.tally| == |v.tally| && c < |v.tally| && now.entry == v.entry && now.draining == v.draining
    && TerminalStays(v.state, now.state) && Current(now.tally[c], now.state)
    && now.tally[c].holds == v.tally[c].holds && now.tally[c].builderFailed == v.tally[c].builderFailed
    && var t, u := v.tally[c], now.tally[c];
       && t.members <= u.members
       && (forall i :: |t.members| <= i < |u.members| ==> u.members[i].declaration > k)
       && forall i :: 0 <= i < |t.members| && t.members[i].declaration <= k ==>
            t.members[i].id < |v.state| && t.members[i].id < |now.state| && now.state[t.members[i].id] == v.state[t.members[i].id]
  }

  /** Later members cannot be read by an edge closed over some member at k, while no
      builder holds its membership open, or once it failed. */
  lemma LaterUnread(v: View, now: View, c: nat, k: nat)
    requires ViewOk(v) && c < |v.tally| && Current(v.tally[c], v.state) && LaterOf(v, now, c, k)
    requires k != 0 && HasMemberThrough(v.tally[c], k)
    requires v.tally[c].holds <= 0 || v.tally[c].builderFailed || v.tally[c].firstFailed != 0
    ensures OutcomeOf(now, OnCol(c, k)).0 == OutcomeOf(v, OnCol(c, k)).0
  {
    var t, u := v.tally[c], now.tally[c];
    LaterMembersNeverMatter(t, v.state, u, now.state, k);
    LaterFailuresNeverMatter(t, v.state, u, now.state, k);
    if t.firstFailed != 0 {
      FailureStays(t, v.state, u, now.state);
    }
    hide Current, OutcomeOf, EarliestFailed, PrefixLen, MembersOk, FailedIn, TerminalStays, Reading;
    ReadsAlike(v, now, c, k);
  }

  lemma ReadsAlike(v: View, now: View, c: nat, k: nat)
    requires ViewOk(v) && ViewOk(now) && c < |v.tally| == |now.tally| && k != 0
    requires var t, u := v.tally[c], now.tally[c];
      && u.holds == t.holds && u.builderFailed == t.builderFailed && HasMemberThrough(t, k) && HasMemberThrough(u, k)
      && Reading(u, k) == Reading(t, k) && FailedThrough(u, k) == FailedThrough(t, k)
      && (t.holds <= 0 || t.builderFailed || (t.firstFailed != 0 && u.firstFailed != 0))
    ensures OutcomeOf(now, OnCol(c, k)).0 == OutcomeOf(v, OnCol(c, k)).0
  {
  }

  lemma FailureStays(t: Tally, was: seq<EntityState>, u: Tally, now: seq<EntityState>)
    requires Current(t, was) && Current(u, now) && t.members <= u.members && TerminalStays(was, now) && t.firstFailed != 0
    ensures u.firstFailed != 0
  {
    var i :| 0 <= i < |t.members| && t.members[i].declaration == t.firstFailed && FailedIn(t.members[i], was);
    TerminalIffDecided(was[t.members[i].id]);
    assert u.members[i] == t.members[i];
    EarliestFailedIsLeast(u.members, now, |now|, i);
  }

  /** One more member, which failed. */
  function WithFailure(v: View, c: nat, declaration: nat): View
    requires c < |v.tally|
  {
    var t := v.tally[c];
    var m := Member(|v.state|, declaration);
    var firstFailed := if t.firstFailed == 0 then declaration else t.firstFailed;
    v.(state := v.state + [Failed], phase := v.phase + [PhaseRunning],
       tally := v.tally[c := t.(members := t.members + [m], firstFailed := firstFailed)])
  }

  lemma {:induction false} EarliestOfFailure(members: seq<Member>, m: Member, was: seq<EntityState>,
      now: seq<EntityState>)
    requires (forall i :: 0 <= i < |members| ==> members[i].id < |was|) && was <= now
    requires FailedIn(m, now) && m.declaration != 0
    ensures EarliestFailed(members + [m], now)
         == if EarliestFailed(members, was) == 0 then m.declaration else EarliestFailed(members, was)
  {
    if members == [] {
      assert [] + [m] == [m];
    } else {
      assert (members + [m])[1..] == members[1..] + [m];
      EarliestOfFailure(members[1..], m, was, now);
    }
  }

  lemma {:induction false} PrefixOfFailure(members: seq<Member>, m: Member, was: seq<EntityState>,
      now: seq<EntityState>)
    requires (forall i :: 0 <= i < |members| ==> members[i].id < |was|) && was <= now && FailedIn(m, now)
    ensures PrefixLen(members + [m], now) == PrefixLen(members, was)
  {
    if members != [] {
      assert (members + [m])[1..] == members[1..] + [m];
      PrefixOfFailure(members[1..], m, was, now);
    }
  }

  lemma FailureJoins(v: View, c: nat, declaration: nat)
    requires ViewOk(v) && c < |v.tally| && Current(v.tally[c], v.state) && 0 < declaration < THROUGH_ALL
    requires forall i :: 0 <= i < |v.tally[c].members| ==> v.tally[c].members[i].declaration < declaration
    ensures var now := WithFailure(v, c, declaration);
      ViewOk(now) && Current(now.tally[c], now.state)
  {
    hide EarliestFailed, PrefixLen, PredsOk;
    var t, now := v.tally[c], WithFailure(v, c, declaration);
    var m := Member(|v.state|, declaration);
    EarliestOfFailure(t.members, m, v.state, now.state);
    PrefixOfFailure(t.members, m, v.state, now.state);
    MembersOfAppend(t.members, m, |now.state|);
    forall d | 0 <= d < |now.entry| ensures PredsOk(now.entry[d], |now.state|, d) {
      MoreTasks(v.entry[d], |v.state|, |now.state|, d);
    }
  }

  lemma MoreTasks(ps: seq<Pred>, tasks: nat, more: nat, cols: nat)
    requires PredsOk(ps, tasks, cols) && tasks <= more
    ensures PredsOk(ps, more, cols)
  {
    forall i | 0 <= i < |ps| ensures PredOk(ps[i], more, cols) {
      assert PredOk(ps[i], tasks, cols);
    }
  }

  /** While a builder holds the membership open, such an edge reads a later failure. */
  lemma LaterFailureRead(v: View, c: nat, k: nat, declaration: nat)
    requires ViewOk(v) && c < |v.tally| && Current(v.tally[c], v.state) && k < declaration < THROUGH_ALL
    requires forall i :: 0 <= i < |v.tally[c].members| ==> v.tally[c].members[i].declaration < declaration
    requires v.tally[c].holds > 0 && !v.tally[c].builderFailed && v.tally[c].firstFailed == 0
    ensures LaterOf(v, WithFailure(v, c, declaration), c, k)
    ensures OutcomeOf(v, OnCol(c, k)).0 == PredPending
    ensures OutcomeOf(WithFailure(v, c, declaration), OnCol(c, k)).0 == PredFailed
  {
    hide ViewOk, EntryOutcome, EarliestFailed, PrefixLen;
    FailureJoins(v, c, declaration);
  }

  /** A later declaration can change what a populated, closed edge reads, exactly
      while a builder is pending below its collection and nothing there failed yet. */
  lemma LaterReadExactly(v: View, c: nat, k: nat, declaration: nat)
    requires ViewOk(v) && c < |v.tally| && Current(v.tally[c], v.state) && 0 < k < declaration < THROUGH_ALL
    requires HasMemberThrough(v.tally[c], k)
    requires forall i :: 0 <= i < |v.tally[c].members| ==> v.tally[c].members[i].declaration < declaration
    ensures v.tally[c].holds <= 0 || v.tally[c].builderFailed || v.tally[c].firstFailed != 0 <==>
      forall now :: LaterOf(v, now, c, k) ==> OutcomeOf(now, OnCol(c, k)).0 == OutcomeOf(v, OnCol(c, k)).0
  {
    if v.tally[c].holds <= 0 || v.tally[c].builderFailed || v.tally[c].firstFailed != 0 {
      forall now | LaterOf(v, now, c, k) ensures OutcomeOf(now, OnCol(c, k)).0 == OutcomeOf(v, OnCol(c, k)).0 {
        LaterUnread(v, now, c, k);
      }
    } else {
      LaterFailureRead(v, c, k, declaration);
    }
  }

  // ---- the fold over a Task's predecessors --------------------------------

  datatype PredScan = ScanToBlocker | ScanAll

  function AfterPending(b: Pred, rest: (Outcome, Pred)): (Outcome, Pred) {
    if rest.0 == PredFailed then rest else (PredPending, b)
  }

  /** One outcome for all of ps: failed once one failed, else pending on the
      first pending one, else succeeded. ScanToBlocker looks no further than the
      first pending one. */
  function Scan(v: View, ps: seq<Pred>, scan: PredScan): (r: (Outcome, Pred))
    requires ViewOk(v) && PredsOk(ps, |v.state|, |v.tally|)
  {
    if ps == [] then (PredSucceeded, Missing)
    else
      var (out, b) := OutcomeOf(v, ps[0]);
      match out
      case PredFailed => (PredFailed, ps[0])
      case PredSucceeded => Scan(v, ps[1..], scan)
      case PredPending =>
        if scan == ScanToBlocker then (PredPending, b) else AfterPending(b, Scan(v, ps[1..], scan))
  }

  /** A scan says succeeded exactly when every predecessor reads succeeded. */
  lemma {:induction false} ScanSucceeds(v: View, ps: seq<Pred>, scan: PredScan)
    requires ViewOk(v) && PredsOk(ps, |v.state|, |v.tally|)
    ensures Scan(v, ps, scan).0 == PredSucceeded <==>
            forall i :: 0 <= i < |ps| ==> OutcomeOf(v, ps[i]).0 == PredSucceeded
  {
    if ps != [] {
      ScanSucceeds(v, ps[1..], scan);
      assert forall i :: 0 <= i < |ps| - 1 ==> ps[1..][i] == ps[i + 1];
      if OutcomeOf(v, ps[0]).0 == PredSucceeded && Scan(v, ps, scan).0 == PredSucceeded {
        forall i | 0 <= i < |ps| ensures OutcomeOf(v, ps[i]).0 == PredSucceeded {
          if i > 0 {
            assert ps[i] == ps[1..][i - 1];
          }
        }
      }
    }
  }

  /** A scan that fails names a predecessor that reads failed. */
  lemma {:induction false} ScanFails(v: View, ps: seq<Pred>, scan: PredScan)
    requires ViewOk(v) && PredsOk(ps, |v.state|, |v.tally|)
    requires Scan(v, ps, scan).0 == PredFailed
    ensures Scan(v, ps, scan).1 in ps && OutcomeOf(v, Scan(v, ps, scan).1).0 == PredFailed
  {
    if OutcomeOf(v, ps[0]).0 != PredFailed {
      ScanFails(v, ps[1..], scan);
    }
  }

  /** Reading on finds every failure: a full scan fails exactly when some
      predecessor reads failed. */
  lemma {:induction false} ScanAllFindsFailure(v: View, ps: seq<Pred>)
    requires ViewOk(v) && PredsOk(ps, |v.state|, |v.tally|)
    ensures Scan(v, ps, ScanAll).0 == PredFailed <==>
            exists i :: 0 <= i < |ps| && OutcomeOf(v, ps[i]).0 == PredFailed
  {
    if ps != [] {
      ScanAllFindsFailure(v, ps[1..]);
      assert forall i :: 0 < i < |ps| ==> ps[i] == ps[1..][i - 1];
      assert forall i :: 0 <= i < |ps| - 1 ==> ps[1..][i] == ps[i + 1];
    }
  }

  /** A pending scan's blocker is pending and led to by one of ps. */
  lemma {:induction false} ScanBlocker(v: View, ps: seq<Pred>, scan: PredScan) returns (p: Pred)
    requires ViewOk(v) && PredsOk(ps, |v.state|, |v.tally|)
    requires Scan(v, ps, scan).0 == PredPending
    ensures p in ps && Leads(v.entry, p, Scan(v, ps, scan).1)
    ensures DirectlyPending(v, Scan(v, ps, scan).1)
    ensures Named(v.entry, ps, Scan(v, ps, scan).1)
    ensures PredOk(Scan(v, ps, scan).1, |v.state|, |v.tally|)
  {
    if OutcomeOf(v, ps[0]).0 == PredPending {
      p := ps[0];
      BlockerIsPending(v, p);
    } else {
      p := ScanBlocker(v, ps[1..], scan);
    }
  }

  // ---- forgetting satisfied Tasks -----------------------------------------

  predicate Satisfied(p: Pred, state: seq<EntityState>) {
    p.OnTask? && p.t < |state| && StateOutcome(state[p.t]) == PredSucceeded
  }

  /** kept is full with some Task predecessors that succeeded left out. */
  predicate Forgets(full: seq<Pred>, kept: seq<Pred>, state: seq<EntityState>) {
    if full == [] then kept == []
    else
      || (kept != [] && kept[0] == full[0] && Forgets(full[1..], kept[1..], state))
      || (Satisfied(full[0], state) && Forgets(full[1..], kept, state))
  }

  lemma {:induction false} ForgetsNothing(ps: seq<Pred>, state: seq<EntityState>)
    ensures Forgets(ps, ps, state)
  {
    if ps != [] {
      ForgetsNothing(ps[1..], state);
    }
  }

  /** What was forgotten stays forgettable: terminal states never revert. */
  lemma {:induction false} ForgetsLater(full: seq<Pred>, kept: seq<Pred>, was: seq<EntityState>, now: seq<EntityState>)
    requires Forgets(full, kept, was) && TerminalStays(was, now)
    ensures Forgets(full, kept, now)
  {
    if full != [] {
      if kept != [] && kept[0] == full[0] && Forgets(full[1..], kept[1..], was) {
        ForgetsLater(full[1..], kept[1..], was, now);
      } else {
        TerminalIffDecided(was[full[0].t]);
        ForgetsLater(full[1..], kept, was, now);
      }
    }
  }

  lemma {:induction false} ForgetsTransitive(full: seq<Pred>, mid: seq<Pred>, kept: seq<Pred>, state: seq<EntityState>)
    requires Forgets(full, mid, state) && Forgets(mid, kept, state)
    ensures Forgets(full, kept, state)
  {
    if full != [] {
      if mid != [] && mid[0] == full[0] && Forgets(full[1..], mid[1..], state) {
        if kept != [] && kept[0] == mid[0] && Forgets(mid[1..], kept[1..], state) {
          ForgetsTransitive(full[1..], mid[1..], kept[1..], state);
        } else {
          ForgetsTransitive(full[1..], mid[1..], kept, state);
        }
      } else {
        ForgetsTransitive(full[1..], mid, kept, state);
      }
    }
  }

  lemma {:induction false} ForgetsAppend(full: seq<Pred>, kept: seq<Pred>, p: Pred, state: seq<EntityState>)
    requires Forgets(full, kept, state)
    ensures Forgets(full + [p], kept + [p], state)
    ensures Satisfied(p, state) ==> Forgets(full + [p], kept, state)
  {
    if full != [] {
      assert (full + [p])[1..] == full[1..] + [p];
      if kept != [] && kept[0] == full[0] && Forgets(full[1..], kept[1..], state) {
        ForgetsAppend(full[1..], kept[1..], p, state);
        assert (kept + [p])[1..] == kept[1..] + [p];
      } else {
        ForgetsAppend(full[1..], kept, p, state);
      }
    } else {
      assert Forgets([p][1..], [p][1..], state);
      assert Forgets([p][1..], [], state);
    }
  }

  lemma {:induction false} ForgetsSubset(full: seq<Pred>, kept: seq<Pred>, state: seq<EntityState>)
    requires Forgets(full, kept, state)
    ensures forall p :: p in full ==> p in kept || Satisfied(p, state)
    ensures forall p :: p in kept ==> p in full
  {
    if full != [] {
      if kept != [] && kept[0] == full[0] && Forgets(full[1..], kept[1..], state) {
        ForgetsSubset(full[1..], kept[1..], state);
        assert kept == [kept[0]] + kept[1..];
      } else {
        ForgetsSubset(full[1..], kept, state);
      }
    }
  }

  /** The filtered list gives the outcome and the blocker of the full one, now
      and (by ForgetsLater) on every later scan. */
  lemma {:induction false} ForgettingPreservesMeaning(v: View, full: seq<Pred>, kept: seq<Pred>, scan: PredScan)
    requires ViewOk(v) && PredsOk(full, |v.state|, |v.tally|) && PredsOk(kept, |v.state|, |v.tally|)
    requires Forgets(full, kept, v.state)
    ensures Scan(v, full, scan) == Scan(v, kept, scan)
  {
    if full != [] {
      if kept != [] && kept[0] == full[0] && Forgets(full[1..], kept[1..], v.state) {
        ForgettingPreservesMeaning(v, full[1..], kept[1..], scan);
      } else {
        ForgettingPreservesMeaning(v, full[1..], kept, scan);
      }
    }
  }

  // ---- the loop the source folds with -------------------------------------

  function Resume(verdict: Outcome, blocker: Pred, rest: (Outcome, Pred)): (Outcome, Pred) {
    if verdict == PredPending then AfterPending(blocker, rest) else rest
  }

  lemma {:induction false} ForgetsRest(full: seq<Pred>, kept: seq<Pred>, rest: seq<Pred>, state: seq<EntityState>)
    requires Forgets(full, kept, state)
    ensures Forgets(full + rest, kept + rest, state)
    decreases |rest|
  {
    if rest == [] {
      assert full + rest == full && kept + rest == kept;
    } else {
      ForgetsAppend(full, kept, rest[0], state);
      ForgetsRest(full + [rest[0]], kept + [rest[0]], rest[1..], state);
      assert full + [rest[0]] + rest[1..] == full + rest;
      assert kept + [rest[0]] + rest[1..] == kept + rest;
    }
  }

  /** One pass over ps: its fold, and ps with the Tasks found succeeded on the way
      left out. */
  method FoldPreds(v: View, ps: seq<Pred>, scan: PredScan) returns (verdict: Outcome, blocker: Pred, kept: seq<Pred>)
    requires ViewOk(v) && PredsOk(ps, |v.state|, |v.tally|)
    ensures (verdict, blocker) == Scan(v, ps, scan)
    ensures Forgets(ps, kept, v.state)
  {
    verdict, blocker, kept := PredSucceeded, Missing, [];
    var i := 0;
    while i < |ps|
      invariant 0 <= i <= |ps|
      invariant verdict != PredFailed && (scan == ScanToBlocker ==> verdict == PredSucceeded)
      invariant verdict == PredSucceeded ==> blocker == Missing
      invariant Forgets(ps[..i], kept, v.state)
      invariant Scan(v, ps, scan) == Resume(verdict, blocker, Scan(v, ps[i..], scan))
    {
      var p := ps[i];
      var (out, parkOn) := OutcomeOf(v, p);
      assert ps[i..][1..] == ps[i + 1..] && ps[..i + 1] == ps[..i] + [p] && ps == ps[..i] + ps[i..];
      ForgetsRest(ps[..i], kept, ps[i..], v.state);
      if out == PredFailed {
        kept := kept + ps[i..];
        return PredFailed, p, kept;
      }
      if out == PredPending && verdict == PredSucceeded {
        verdict, blocker := PredPending, parkOn;
      }
      ForgetsAppend(ps[..i], kept, p, v.state);
      if out != PredSucceeded || !p.OnTask? {
        kept := kept + [p];
      }
      i := i + 1;
      if verdict == PredPending && scan == ScanToBlocker {
        ForgetsRest(ps[..i], kept, ps[i..], v.state);
        assert ps == ps[..i] + ps[i..];
        kept := kept + ps[i..];
        return;
      }
    }
    assert ps[..i] == ps;
  }
}
