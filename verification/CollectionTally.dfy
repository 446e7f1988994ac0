/** A collection's tally (collection_tally.go): its outcome for the Tasks that
    start after it, kept current so no outcome is recomputed, and the Tasks
    parked on it.

    Tally is the value a tally holds. Reading is the reference meaning of an
    edge: a fold over the members declared through its cursor. Refreshed is the
    reference meaning of a settle: recount every member and keep exactly the
    waiting Tasks whose edge still reads pending. The class holds the fields
    the source updates in place; each of its methods is proved to compute the
    reference function. */
module CollectionTally {
  import opened Outcomes
  import Order = LedgerOrder

  datatype Member = Member(id: TaskId, declaration: nat)

  datatype ParkedTask = ParkedTask(st: TaskId, cursor: int)

  function CursorOf(p: ParkedTask): int { p.cursor }

  datatype Tally = Tally(
    members: seq<Member>,
    succeededPrefix: nat,
    firstFailed: nat,
    sealed: bool,
    sealedThrough: nat,
    parked: seq<ParkedTask>,
    open: seq<TaskId>,
    holds: int,
    builderFailed: bool)

  const EMPTY_TALLY := Tally([], 0, 0, false, 0, [], [], 0, false)

  /** The cursor of an edge that reads every member: math.MaxInt. */
  const THROUGH_ALL := 0x7fff_ffff_ffff_ffff

  // ---- members ------------------------------------------------------------

  ghost predicate MembersOk(members: seq<Member>, n: nat) {
    && (forall i :: 0 <= i < |members| ==> members[i].id < n && 0 < members[i].declaration < THROUGH_ALL)
    && (forall i, j :: 0 <= i < j < |members| ==> members[i].declaration < members[j].declaration)
    && (forall i, j :: 0 <= i < j < |members| ==> members[i].id != members[j].id)
  }

  predicate SucceededIn(m: Member, state: seq<EntityState>) {
    m.id < |state| && StateOutcome(state[m.id]) == PredSucceeded
  }

  predicate FailedIn(m: Member, state: seq<EntityState>) {
    m.id < |state| && StateOutcome(state[m.id]) == PredFailed
  }

  /** How many leading members succeeded, counted afresh. */
  function PrefixLen(members: seq<Member>, state: seq<EntityState>): (n: nat)
    ensures n <= |members|
    ensures forall i :: 0 <= i < n ==> SucceededIn(members[i], state)
    ensures n < |members| ==> !SucceededIn(members[n], state)
  {
    if members != [] && SucceededIn(members[0], state) then 1 + PrefixLen(members[1..], state) else 0
  }

  /** The declaration of the earliest failed member, or 0, found afresh. */
  function EarliestFailed(members: seq<Member>, state: seq<EntityState>): (d: nat)
    ensures d == 0 ==> forall i :: 0 <= i < |members| && members[i].declaration != 0 ==> !FailedIn(members[i], state)
    ensures d != 0 ==> exists i :: 0 <= i < |members| && members[i].declaration == d && FailedIn(members[i], state)
  {
    if members == [] then 0
    else if FailedIn(members[0], state) && members[0].declaration != 0 then members[0].declaration
    else EarliestFailed(members[1..], state)
  }

  /** In declaration order, the first failed member found is the least one. */
  lemma {:induction false} EarliestFailedIsLeast(members: seq<Member>, state: seq<EntityState>, n: nat, i: nat)
    requires MembersOk(members, n) && i < |members| && FailedIn(members[i], state)
    ensures 0 < EarliestFailed(members, state) <= members[i].declaration
  {
    if !FailedIn(members[0], state) {
      EarliestFailedIsLeast(members[1..], state, n, i - 1);
    }
  }

  // ---- reading an edge ----------------------------------------------------

  predicate HasMemberThrough(t: Tally, cursor: int) {
    |t.members| > 0 && t.members[0].declaration <= cursor
  }

  predicate FailedThrough(t: Tally, cursor: int) {
    t.firstFailed != 0 && t.firstFailed <= cursor
  }

  predicate SucceededThrough(t: Tally, cursor: int) {
    t.succeededPrefix >= |t.members| || t.members[t.succeededPrefix].declaration > cursor
  }

  /** What a closed, populated edge reads. */
  function Reading(t: Tally, cursor: int): Outcome {
    if FailedThrough(t, cursor) then PredFailed
    else if SucceededThrough(t, cursor) then PredSucceeded
    else PredPending
  }

  /** The edge is closed at cursor, populated, and still pending. */
  predicate ClosedPending(t: Tally, cursor: int) {
    HasMemberThrough(t, cursor) && Reading(t, cursor) == PredPending
  }

  /** The tally's counters are what recounting its members gives. */
  ghost predicate Current(t: Tally, state: seq<EntityState>) {
    && MembersOk(t.members, |state|)
    && t.succeededPrefix == PrefixLen(t.members, state)
    && t.firstFailed == EarliestFailed(t.members, state)
  }

  /** The Tasks waiting here wait on something still pending, and the closed
      ones are in cursor order. */
  ghost predicate WaitersPending(t: Tally) {
    && Order.Sorted(t.parked, CursorOf)
    && (forall i :: 0 <= i < |t.parked| ==> ClosedPending(t, t.parked[i].cursor))
    && (t.open != [] ==> t.firstFailed == 0)
    && (t.builderFailed ==> t.open == [] && t.parked == [])
  }

  // ---- the reference fold -------------------------------------------------

  /** The members declared through cursor. */
  function MembersThrough(members: seq<Member>, cursor: int): seq<Member> {
    if members == [] then []
    else (if members[0].declaration <= cursor then [members[0]] else []) + MembersThrough(members[1..], cursor)
  }

  /** The outcome of a set of members: failed once one has, succeeded once all have. */
  function Fold(members: seq<Member>, state: seq<EntityState>): Outcome {
    if exists m :: m in members && FailedIn(m, state) then PredFailed
    else if forall m :: m in members ==> SucceededIn(m, state) then PredSucceeded
    else PredPending
  }

  lemma {:induction false} InMembersThrough(members: seq<Member>, cursor: int, m: Member)
    ensures m in MembersThrough(members, cursor) <==> m in members && m.declaration <= cursor
  {
    if members != [] {
      InMembersThrough(members[1..], cursor, m);
      assert members == [members[0]] + members[1..];
    }
  }

  lemma FailedThroughMeans(t: Tally, state: seq<EntityState>, cursor: int)
    requires Current(t, state)
    ensures FailedThrough(t, cursor) <==>
      exists i :: 0 <= i < |t.members| && t.members[i].declaration <= cursor && FailedIn(t.members[i], state)
  {
    forall i | 0 <= i < |t.members| && FailedIn(t.members[i], state)
      ensures 0 < t.firstFailed <= t.members[i].declaration
    {
      EarliestFailedIsLeast(t.members, state, |state|, i);
    }
  }

  lemma SucceededThroughMeans(t: Tally, state: seq<EntityState>, cursor: int)
    requires Current(t, state)
    ensures SucceededThrough(t, cursor) <==>
      forall i :: 0 <= i < |t.members| && t.members[i].declaration <= cursor ==> SucceededIn(t.members[i], state)
  {
  }

  /** A closed edge's constant-time reading is the fold over the members
      declared through its cursor. */
  lemma ReadingIsFold(t: Tally, state: seq<EntityState>, cursor: int)
    requires Current(t, state)
    ensures Reading(t, cursor) == Fold(MembersThrough(t.members, cursor), state)
    ensures HasMemberThrough(t, cursor) <==> MembersThrough(t.members, cursor) != []
  {
    var through := MembersThrough(t.members, cursor);
    forall m ensures m in through <==> m in t.members && m.declaration <= cursor {
      InMembersThrough(t.members, cursor, m);
    }
    FailedThroughMeans(t, state, cursor);
    SucceededThroughMeans(t, state, cursor);
    HasMemberThroughMeans(t, cursor, |state|);
  }

  lemma HasMemberThroughMeans(t: Tally, cursor: int, n: nat)
    requires MembersOk(t.members, n)
    ensures HasMemberThrough(t, cursor) <==> MembersThrough(t.members, cursor) != []
  {
    var through := MembersThrough(t.members, cursor);
    if t.members != [] && t.members[0].declaration > cursor && through != [] {
      InMembersThrough(t.members, cursor, through[0]);
      assert false;
    }
  }

  // ---- the reference settle -----------------------------------------------

  function Sts(parked: seq<ParkedTask>): (r: seq<TaskId>)
    ensures |r| == |parked|
    ensures forall i :: 0 <= i < |r| ==> r[i] == parked[i].st
  {
    seq(|parked|, i requires 0 <= i < |parked| => parked[i].st)
  }

  function StillPending(parked: seq<ParkedTask>, t: Tally): (r: seq<ParkedTask>)
    ensures |r| <= |parked|
    ensures forall i :: 0 <= i < |r| ==> ClosedPending(t, r[i].cursor)
  {
    if parked == [] then []
    else (if ClosedPending(t, parked[0].cursor) then [parked[0]] else []) + StillPending(parked[1..], t)
  }

  function NowDecided(parked: seq<ParkedTask>, t: Tally): seq<ParkedTask> {
    if parked == [] then []
    else (if ClosedPending(t, parked[0].cursor) then [] else [parked[0]]) + NowDecided(parked[1..], t)
  }

  function Recounted(t: Tally, state: seq<EntityState>): Tally {
    t.(succeededPrefix := PrefixLen(t.members, state), firstFailed := EarliestFailed(t.members, state))
  }

  /** The tally after its members' states changed to state: recounted, keeping
      exactly the waiting Tasks whose edge still reads pending. */
  function Refreshed(t: Tally, state: seq<EntityState>): Tally {
    var u := Recounted(t, state);
    u.(open := if u.firstFailed != 0 then [] else t.open, parked := StillPending(t.parked, u))
  }

  /** The waiting Tasks whose edge stopped reading pending. */
  function Resolved(t: Tally, state: seq<EntityState>): seq<TaskId> {
    var u := Recounted(t, state);
    (if u.firstFailed != 0 then t.open else []) + Sts(NowDecided(t.parked, u))
  }

  lemma {:induction false} InPartition(parked: seq<ParkedTask>, t: Tally, p: ParkedTask)
    ensures p in StillPending(parked, t) <==> p in parked && ClosedPending(t, p.cursor)
    ensures p in NowDecided(parked, t) <==> p in parked && !ClosedPending(t, p.cursor)
  {
    hide ClosedPending;
    if parked != [] {
      InPartition(parked[1..], t, p);
      assert p in parked <==> p == parked[0] || p in parked[1..];
    }
  }

  lemma OneMore<T>(x: T, a: seq<T>, b: seq<T>, both: seq<T>)
    requires multiset(a) + multiset(b) == multiset(both)
    ensures multiset([x] + a) + multiset(b) == multiset([x] + both)
    ensures multiset(a) + multiset([x] + b) == multiset([x] + both)
  {
  }

  lemma PartitionCons(parked: seq<ParkedTask>, t: Tally)
    requires parked != []
    ensures var still, gone := StillPending(parked[1..], t), NowDecided(parked[1..], t);
      if ClosedPending(t, parked[0].cursor)
      then StillPending(parked, t) == [parked[0]] + still && NowDecided(parked, t) == gone
      else StillPending(parked, t) == still && NowDecided(parked, t) == [parked[0]] + gone
  {
    hide ClosedPending;
  }

  lemma {:induction false} DecidedSuffix(parked: seq<ParkedTask>, t: Tally, at: nat)
    requires at <= |parked|
    requires forall i :: 0 <= i < at ==> ClosedPending(t, parked[i].cursor)
    requires forall i :: at <= i < |parked| ==> !ClosedPending(t, parked[i].cursor)
    ensures StillPending(parked, t) == parked[..at]
    ensures NowDecided(parked, t) == parked[at..]
  {
    if parked != [] {
      DecidedSuffix(parked[1..], t, if at == 0 then 0 else at - 1);
      PartitionCons(parked, t);
      hide StillPending, NowDecided, ClosedPending;
      if at == 0 {
        assert parked[0..] == [parked[0]] + parked[1..][0..];
      } else {
        assert parked[..at] == [parked[0]] + parked[1..][..at - 1];
        assert parked[at..] == parked[1..][at - 1..];
      }
    }
  }

  lemma {:induction false} DecidedPrefix(parked: seq<ParkedTask>, t: Tally, at: nat)
    requires at <= |parked|
    requires forall i :: 0 <= i < at ==> !ClosedPending(t, parked[i].cursor)
    requires forall i :: at <= i < |parked| ==> ClosedPending(t, parked[i].cursor)
    ensures StillPending(parked, t) == parked[at..]
    ensures NowDecided(parked, t) == parked[..at]
  {
    if parked != [] {
      DecidedPrefix(parked[1..], t, if at == 0 then 0 else at - 1);
      PartitionCons(parked, t);
      hide StillPending, NowDecided, ClosedPending;
      if at == 0 {
        assert parked[0..] == [parked[0]] + parked[1..][0..];
      } else {
        assert parked[..at] == [parked[0]] + parked[1..][..at - 1];
        assert parked[at..] == parked[1..][at - 1..];
      }
    }
  }

  lemma {:induction false} PartitionSplits(parked: seq<ParkedTask>, t: Tally)
    ensures multiset(StillPending(parked, t)) + multiset(NowDecided(parked, t)) == multiset(parked)
  {
    if parked != [] {
      PartitionSplits(parked[1..], t);
      PartitionCons(parked, t);
      hide StillPending, NowDecided, ClosedPending;
      OneMore(parked[0], StillPending(parked[1..], t), NowDecided(parked[1..], t), parked[1..]);
      assert parked == [parked[0]] + parked[1..];
    }
  }

  /** Splitting the parked Tasks loses none, and decides each by its own edge. */
  lemma PartitionKeepsAll(parked: seq<ParkedTask>, t: Tally)
    ensures multiset(StillPending(parked, t)) + multiset(NowDecided(parked, t)) == multiset(parked)
    ensures forall p :: p in StillPending(parked, t) <==> p in parked && ClosedPending(t, p.cursor)
    ensures forall p :: p in NowDecided(parked, t) <==> p in parked && !ClosedPending(t, p.cursor)
  {
    PartitionSplits(parked, t);
    forall p
      ensures p in StillPending(parked, t) <==> p in parked && ClosedPending(t, p.cursor)
      ensures p in NowDecided(parked, t) <==> p in parked && !ClosedPending(t, p.cursor)
    {
      InPartition(parked, t, p);
    }
  }

  lemma {:induction false} StillPendingSorted(parked: seq<ParkedTask>, t: Tally)
    requires Order.Sorted(parked, CursorOf)
    ensures Order.Sorted(StillPending(parked, t), CursorOf)
  {
    if parked != [] {
      StillPendingSorted(parked[1..], t);
      PartitionKeepsAll(parked[1..], t);
      var rest := StillPending(parked[1..], t);
      forall i | 0 <= i < |rest| ensures parked[0].cursor <= rest[i].cursor {
        assert rest[i] in parked[1..];
      }
    }
  }

  /** A settle leaves the tally current with only pending waiters. */
  lemma RefreshedOk(t: Tally, state: seq<EntityState>)
    requires MembersOk(t.members, |state|) && WaitersPending(t)
    ensures Current(Refreshed(t, state), state) && WaitersPending(Refreshed(t, state))
  {
    var u := Recounted(t, state);
    StillPendingSorted(t.parked, u);
    SameReading(u, Refreshed(t, state));
  }

  /** An edge's reading depends on the members and the two counters alone. */
  lemma SameReading(u: Tally, r: Tally)
    requires r.members == u.members && r.succeededPrefix == u.succeededPrefix && r.firstFailed == u.firstFailed
    ensures forall k :: ClosedPending(r, k) == ClosedPending(u, k)
  {
  }

  /** A settle wakes a waiting Task exactly when it stops keeping it. */
  lemma RefreshedKeepsAll(t: Tally, state: seq<EntityState>)
    ensures multiset(Refreshed(t, state).open) + multiset(Sts(Refreshed(t, state).parked)) + multiset(Resolved(t, state))
         == multiset(t.open) + multiset(Sts(t.parked))
  {
    StsPartition(t.parked, Recounted(t, state));
  }

  lemma StsCons(p: ParkedTask, rest: seq<ParkedTask>)
    ensures Sts([p] + rest) == [p.st] + Sts(rest)
  {
  }

  lemma {:induction false} StsPartition(parked: seq<ParkedTask>, t: Tally)
    ensures multiset(Sts(StillPending(parked, t))) + multiset(Sts(NowDecided(parked, t))) == multiset(Sts(parked))
  {
    if parked != [] {
      StsPartition(parked[1..], t);
      PartitionCons(parked, t);
      var still, gone := StillPending(parked[1..], t), NowDecided(parked[1..], t);
      StsCons(parked[0], still);
      StsCons(parked[0], gone);
      StsCons(parked[0], parked[1..]);
      assert parked == [parked[0]] + parked[1..];
      hide StillPending, NowDecided, ClosedPending, Sts;
      OneMore(parked[0].st, Sts(still), Sts(gone), Sts(parked[1..]));
    } else {
      assert Sts([]) == [];
    }
  }

  // ---- the other steps ----------------------------------------------------

  function Declared(t: Tally, m: Member): Tally {
    t.(members := t.members + [m])
  }

  function ParkedOn(t: Tally, st: TaskId, cursor: int, open: bool): Tally {
    if open then t.(open := t.open + [st])
    else t.(parked := Order.Inserted(t.parked, ParkedTask(st, cursor), CursorOf))
  }

  predicate SealRefused(t: Tally) {
    t.sealed || t.holds > 0
  }

  function Sealed(t: Tally, cursor: nat): Tally {
    if SealRefused(t) then t else t.(sealed := true, sealedThrough := cursor, open := [])
  }

  function SealWakes(t: Tally): seq<TaskId> {
    if SealRefused(t) then [] else t.open
  }

  /** One pending builder's hold dropped. */
  function Released(t: Tally, seal: bool, cursor: nat): Tally {
    var u := t.(holds := t.holds - 1);
    if u.holds > 0 then u
    else if seal then Sealed(u, cursor)
    else u.(open := [])
  }

  function ReleaseWakes(t: Tally, seal: bool): seq<TaskId> {
    var u := t.(holds := t.holds - 1);
    if u.holds > 0 then []
    else if seal then SealWakes(u)
    else u.open
  }

  function BuilderFailed(t: Tally): Tally {
    t.(builderFailed := true, open := [], parked := [])
  }

  lemma {:induction false} PrefixOfAppend(members: seq<Member>, m: Member, state: seq<EntityState>)
    requires !SucceededIn(m, state)
    ensures PrefixLen(members + [m], state) == PrefixLen(members, state)
  {
    if members != [] {
      PrefixOfAppend(members[1..], m, state);
      assert (members + [m])[1..] == members[1..] + [m];
    }
  }

  lemma {:induction false} EarliestOfAppend(members: seq<Member>, m: Member, state: seq<EntityState>)
    requires !FailedIn(m, state)
    ensures EarliestFailed(members + [m], state) == EarliestFailed(members, state)
  {
    if members != [] {
      EarliestOfAppend(members[1..], m, state);
      assert (members + [m])[1..] == members[1..] + [m];
    }
  }

  /** Declaring a pending member keeps the tally current and changes the
      reading of no edge that has a Task parked on it. */
  lemma DeclaredOk(t: Tally, m: Member, state: seq<EntityState>)
    requires Current(t, state) && WaitersPending(t)
    requires m.id < |state| && 0 < m.declaration < THROUGH_ALL && StateOutcome(state[m.id]) == PredPending
    requires forall i :: 0 <= i < |t.members| ==> t.members[i].declaration < m.declaration && t.members[i].id != m.id
    ensures Current(Declared(t, m), state) && WaitersPending(Declared(t, m))
  {
    PrefixOfAppend(t.members, m, state);
    EarliestOfAppend(t.members, m, state);
    MembersOfAppend(t.members, m, |state|);
    forall i | 0 <= i < |t.parked| ensures ClosedPending(Declared(t, m), t.parked[i].cursor) {
      assert ClosedPending(t, t.parked[i].cursor);
    }
  }

  lemma MembersOfAppend(members: seq<Member>, m: Member, n: nat)
    requires MembersOk(members, n) && m.id < n && 0 < m.declaration < THROUGH_ALL
    requires forall i :: 0 <= i < |members| ==> members[i].declaration < m.declaration && members[i].id != m.id
    ensures MembersOk(members + [m], n)
  {
  }

  /** Whatever is declared or settled after an edge's cursor never changes what
      the edge reads. */
  lemma LaterMembersNeverMatter(t: Tally, state: seq<EntityState>, t': Tally, state': seq<EntityState>, cursor: int)
    requires Current(t, state) && Current(t', state')
    requires t.members <= t'.members
    requires forall i :: |t.members| <= i < |t'.members| ==> t'.members[i].declaration > cursor
    requires forall i :: 0 <= i < |t.members| && t.members[i].declaration <= cursor ==>
               t.members[i].id < |state'| && state'[t.members[i].id] == state[t.members[i].id]
    ensures Reading(t', cursor) == Reading(t, cursor)
    ensures HasMemberThrough(t', cursor) == HasMemberThrough(t, cursor)
  {
    LaterFailuresNeverMatter(t, state, t', state', cursor);
    SucceededThroughMeans(t, state, cursor);
    SucceededThroughMeans(t', state', cursor);
    assert forall i :: 0 <= i < |t.members| ==> t.members[i] == t'.members[i];
  }

  lemma LaterFailuresNeverMatter(t: Tally, state: seq<EntityState>, t': Tally, state': seq<EntityState>, cursor: int)
    requires Current(t, state) && Current(t', state')
    requires t.members <= t'.members
    requires forall i :: |t.members| <= i < |t'.members| ==> t'.members[i].declaration > cursor
    requires forall i :: 0 <= i < |t.members| && t.members[i].declaration <= cursor ==>
               t.members[i].id < |state'| && state'[t.members[i].id] == state[t.members[i].id]
    ensures FailedThrough(t', cursor) == FailedThrough(t, cursor)
  {
    FailedThroughMeans(t, state, cursor);
    FailedThroughMeans(t', state', cursor);
    forall i | 0 <= i < |t.members| && t.members[i].declaration <= cursor
      ensures t'.members[i] == t.members[i] && FailedIn(t.members[i], state) == FailedIn(t.members[i], state')
    {
    }
  }

  /** When the last hold goes, every Task parked on the open membership is woken,
      unless the container sealed while sealed already: then none is. */
  lemma LastReleaseWakesOpen(t: Tally, seal: bool, cursor: nat)
    requires t.holds == 1
    ensures Released(t, seal, cursor).open == [] && ReleaseWakes(t, seal) == t.open
       <==> !(seal && t.sealed) || t.open == []
  {
  }

  // ---- why the incremental settle is the recount ---------------------------

  /** Recounting a current tally changes nothing. */
  lemma RefreshedSame(t: Tally, state: seq<EntityState>)
    requires Current(t, state) && WaitersPending(t)
    ensures Refreshed(t, state) == t && Resolved(t, state) == []
  {
    assert Recounted(t, state) == t;
    DecidedSuffix(t.parked, t, |t.parked|);
  }

  lemma {:induction false} PrefixReaches(members: seq<Member>, state: seq<EntityState>, at: nat)
    requires at < |members| && forall i :: 0 <= i <= at ==> SucceededIn(members[i], state)
    ensures at < PrefixLen(members, state)
  {
    if at > 0 {
      PrefixReaches(members[1..], state, at - 1);
    }
  }
  /** state is was, but for member st, which may have just been decided. */
  ghost predicate SettledOnly(t: Tally, st: Member, state: seq<EntityState>, was: seq<EntityState>) {
    && |state| == |was| && st in t.members && st.id < |was|
    && (forall i :: 0 <= i < |was| && i != st.id ==> state[i] == was[i])
    && (state[st.id] != was[st.id] ==> !IsTerminal(was[st.id]))
  }

  lemma {:induction false} PrefixAgrees(members: seq<Member>, state: seq<EntityState>, was: seq<EntityState>)
    requires forall m :: m in members ==> SucceededIn(m, state) == SucceededIn(m, was)
    ensures PrefixLen(members, state) == PrefixLen(members, was)
  {
    if members != [] {
      assert members[0] in members;
      PrefixAgrees(members[1..], state, was);
    }
  }

  lemma {:induction false} EarliestAgrees(members: seq<Member>, state: seq<EntityState>, was: seq<EntityState>)
    requires forall m :: m in members ==> FailedIn(m, state) == FailedIn(m, was)
    ensures EarliestFailed(members, state) == EarliestFailed(members, was)
  {
    if members != [] {
      assert members[0] in members;
      EarliestAgrees(members[1..], state, was);
    }
  }

  lemma StillUndecided(t: Tally, st: Member, state: seq<EntityState>, was: seq<EntityState>)
    requires Current(t, was) && SettledOnly(t, st, state, was)
    requires StateOutcome(state[st.id]) == PredPending
    ensures Current(t, state)
  {
    PrefixAgrees(t.members, state, was);
    EarliestAgrees(t.members, state, was);
  }

  lemma FailureRecount(t: Tally, st: Member, state: seq<EntityState>, was: seq<EntityState>)
    requires Current(t, was) && SettledOnly(t, st, state, was)
    requires StateOutcome(state[st.id]) == PredFailed
    ensures Recounted(t, state) ==
      if t.firstFailed != 0 && t.firstFailed <= st.declaration then t else t.(firstFailed := st.declaration)
  {
    FailureKeepsPrefix(t, st, state, was);
    FailureIsEarliest(t, st, state, was);
    hide MembersOk, SettledOnly, PrefixLen, EarliestFailed;
  }

  lemma FailureKeepsPrefix(t: Tally, st: Member, state: seq<EntityState>, was: seq<EntityState>)
    requires Current(t, was) && SettledOnly(t, st, state, was) && StateOutcome(state[st.id]) == PredFailed
    ensures PrefixLen(t.members, state) == t.succeededPrefix
  {
    hide EarliestFailed, PrefixLen;
    PrefixAgrees(t.members, state, was);
  }

  lemma FailureIsEarliest(t: Tally, st: Member, state: seq<EntityState>, was: seq<EntityState>)
    requires Current(t, was) && SettledOnly(t, st, state, was) && StateOutcome(state[st.id]) == PredFailed
    ensures EarliestFailed(t.members, state)
         == if t.firstFailed != 0 && t.firstFailed <= st.declaration then t.firstFailed else st.declaration
  {
    hide EarliestFailed, PrefixLen;
    var k :| 0 <= k < |t.members| && t.members[k] == st;
    EarliestWith(t.members, k, state, was);
  }

  /** One more failed member: the earliest is it or the earliest before. */
  lemma {:induction false} EarliestWith(members: seq<Member>, k: nat, state: seq<EntityState>, was: seq<EntityState>)
    requires MembersOk(members, |state|) && k < |members| && FailedIn(members[k], state)
    requires forall i :: 0 <= i < |members| && i != k ==> FailedIn(members[i], state) == FailedIn(members[i], was)
    ensures var d := EarliestFailed(members, was);
            EarliestFailed(members, state) == if d != 0 && d <= members[k].declaration then d else members[k].declaration
  {
    if k == 0 {
      EarliestFailedIsLeast(members, state, |state|, 0);
      if EarliestFailed(members, was) != 0 {
        var i :| 0 <= i < |members| && members[i].declaration == EarliestFailed(members, was) && FailedIn(members[i], was);
      }
    } else if !FailedIn(members[0], was) {
      EarliestWith(members[1..], k - 1, state, was);
    }
  }

  lemma SuccessRecount(t: Tally, st: Member, state: seq<EntityState>, was: seq<EntityState>)
    requires Current(t, was) && SettledOnly(t, st, state, was)
    requires StateOutcome(state[st.id]) == PredSucceeded
    ensures EarliestFailed(t.members, state) == t.firstFailed
    ensures t.succeededPrefix <= PrefixLen(t.members, state)
  {
    hide EarliestFailed, PrefixLen;
    EarliestAgrees(t.members, state, was);
    if t.succeededPrefix > 0 {
      PrefixReaches(t.members, state, t.succeededPrefix - 1);
    }
  }

  /** A failure decides a suffix of them. */
  lemma KeptBeforeFailure(before: Tally, u: Tally, n: nat)
    requires WaitersPending(before) && u == before.(firstFailed := u.firstFailed) && u.firstFailed != 0
    requires n <= |before.parked|
    requires n > 0 ==> before.parked[n - 1].cursor < u.firstFailed
    ensures forall j :: 0 <= j < n ==> ClosedPending(u, before.parked[j].cursor)
  {
    forall j | 0 <= j < n ensures ClosedPending(u, before.parked[j].cursor) {
      assert ClosedPending(before, before.parked[j].cursor);
      assert before.parked[j].cursor <= before.parked[n - 1].cursor;
    }
  }

  /** A success decides a prefix of the parked Tasks, which are in cursor order. */
  lemma StillPendingAfterSuccess(before: Tally, u: Tally, n: nat)
    requires WaitersPending(before) && u == before.(succeededPrefix := u.succeededPrefix)
    requires n <= |before.parked|
    requires n < |before.parked| ==> !SucceededThrough(u, before.parked[n].cursor)
    ensures forall j :: n <= j < |before.parked| ==> ClosedPending(u, before.parked[j].cursor)
  {
    forall j | n <= j < |before.parked| ensures ClosedPending(u, before.parked[j].cursor) {
      assert ClosedPending(before, before.parked[j].cursor);
      assert before.parked[n].cursor <= before.parked[j].cursor;
    }
  }

  lemma RecountedCurrent(t: Tally, st: Member, state: seq<EntityState>, was: seq<EntityState>)
    requires Current(t, was) && SettledOnly(t, st, state, was) && Recounted(t, state) == t
    ensures Current(t, state)
  {
  }

  lemma DecidedAfterFailure(parked: seq<ParkedTask>, u: Tally, n: nat)
    requires u.firstFailed != 0 && n <= |parked| && forall j :: n <= j < |parked| ==> parked[j].cursor >= u.firstFailed
    ensures forall j :: n <= j < |parked| ==> !ClosedPending(u, parked[j].cursor)
  {
  }

  lemma FailureRefresh(t: Tally, st: Member, state: seq<EntityState>, was: seq<EntityState>, n: nat)
    requires Current(t, was) && WaitersPending(t) && SettledOnly(t, st, state, was)
    requires StateOutcome(state[st.id]) == PredFailed
    requires t.firstFailed == 0 || t.firstFailed > st.declaration
    requires n <= |t.parked| && (n > 0 ==> t.parked[n - 1].cursor < st.declaration)
    requires forall j :: n <= j < |t.parked| ==> t.parked[j].cursor >= st.declaration
    ensures Refreshed(t, state) == t.(firstFailed := st.declaration, open := [], parked := t.parked[..n])
    ensures Resolved(t, state) == t.open + Sts(t.parked[n..])
  {
    FailureRecount(t, st, state, was);
    var u := t.(firstFailed := st.declaration);
    assert st.declaration > 0 && Recounted(t, state) == u;
    KeptBeforeFailure(t, u, n);
    DecidedAfterFailure(t.parked, u, n);
    hide Current, WaitersPending, SettledOnly, ClosedPending, Recounted;
    DecidedSuffix(t.parked, u, n);
  }

  lemma RecountedSame(t: Tally, state: seq<EntityState>, u: Tally)
    requires EarliestFailed(t.members, state) == t.firstFailed && u == t.(succeededPrefix := PrefixLen(t.members, state))
    ensures Recounted(t, state) == u
  {
  }

  lemma DecidedBeforeSuccess(parked: seq<ParkedTask>, u: Tally, n: nat)
    requires n <= |parked| && forall j :: 0 <= j < n ==> SucceededThrough(u, parked[j].cursor)
    ensures forall j :: 0 <= j < n ==> !ClosedPending(u, parked[j].cursor)
  {
  }

  lemma SuccessRefresh(t: Tally, st: Member, state: seq<EntityState>, was: seq<EntityState>, prefix: nat, n: nat)
    requires Current(t, was) && WaitersPending(t) && SettledOnly(t, st, state, was)
    requires StateOutcome(state[st.id]) == PredSucceeded
    requires prefix == PrefixLen(t.members, state)
    requires n <= |t.parked|
    requires forall j :: 0 <= j < n ==> SucceededThrough(t.(succeededPrefix := prefix), t.parked[j].cursor)
    requires n < |t.parked| ==> !SucceededThrough(t.(succeededPrefix := prefix), t.parked[n].cursor)
    ensures Refreshed(t, state) == t.(succeededPrefix := prefix, parked := t.parked[n..])
    ensures Resolved(t, state) == Sts(t.parked[..n])
  {
    SuccessRecount(t, st, state, was);
    var u := t.(succeededPrefix := prefix);
    RecountedSame(t, state, u);
    StillPendingAfterSuccess(t, u, n);
    hide Current, WaitersPending, SettledOnly, Recounted;
    DecidedBeforeSuccess(t.parked, u, n);
    hide ClosedPending;
    DecidedPrefix(t.parked, u, n);
  }

  // ---- the class the source keeps -----------------------------------------

  class CollectionTally {
    var members: seq<Member>
    var succeededPrefix: nat
    var firstFailed: nat
    var sealed: bool
    var sealedThrough: nat
    var parked: seq<ParkedTask>
    var open: seq<TaskId>
    var holds: int
    var builderFailed: bool

    function Value(): (t: Tally)
      reads this
    {
      Tally(members, succeededPrefix, firstFailed, sealed, sealedThrough, parked, open, holds, builderFailed)
    }

    constructor ()
      ensures Value() == EMPTY_TALLY
    {
      members, parked, open := [], [], [];
      succeededPrefix, firstFailed, sealedThrough, holds := 0, 0, 0, 0;
      sealed, builderFailed := false, false;
    }

    /** The tally a collection keeps. */
    constructor Of(t: Tally)
      ensures Value() == t
    {
      members, parked, open := t.members, t.parked, t.open;
      succeededPrefix, firstFailed, sealedThrough, holds := t.succeededPrefix, t.firstFailed, t.sealedThrough, t.holds;
      sealed, builderFailed := t.sealed, t.builderFailed;
    }

    /** Counts a newly declared member, which settles nothing. */
    method Declare(st: Member, state: seq<EntityState>)
      requires Current(Value(), state) && WaitersPending(Value())
      requires st.id < |state| && 0 < st.declaration < THROUGH_ALL && StateOutcome(state[st.id]) == PredPending
      requires forall i :: 0 <= i < |members| ==> members[i].declaration < st.declaration && members[i].id != st.id
      modifies this
      ensures Value() == Declared(old(Value()), st)
      ensures Current(Value(), state) && WaitersPending(Value())
    {
      DeclaredOk(Value(), st, state);
      members := members + [st];
      var woken := Settle(st, state, state);
      RefreshedSame(Declared(old(Value()), st), state);
    }

    /** Records that member st settled, without looking at any other member
        beyond the prefix it completes. It is the recount: the counters, the
        waiting Tasks kept and the Tasks woken, in order. */
    method Settle(st: Member, state: seq<EntityState>, ghost was: seq<EntityState>) returns (woken: seq<TaskId>)
      requires Current(Value(), was) && WaitersPending(Value())
      requires SettledOnly(Value(), st, state, was)
      modifies this
      ensures Value() == Refreshed(old(Value()), state)
      ensures woken == Resolved(old(Value()), state)
      ensures Current(Value(), state) && WaitersPending(Value())
    {
      RefreshedOk(Value(), state);
      match StateOutcome(state[st.id])
      case PredFailed =>
        woken := SettleFailed(st, state, was);
      case PredSucceeded =>
        woken := SettleSucceeded(st, state, was);
      case PredPending =>
        StillUndecided(Value(), st, state, was);
        RefreshedSame(Value(), state);
        woken := [];
    }

    method SettleFailed(st: Member, state: seq<EntityState>, ghost was: seq<EntityState>) returns (woken: seq<TaskId>)
      requires Current(Value(), was) && WaitersPending(Value())
      requires SettledOnly(Value(), st, state, was)
      requires StateOutcome(state[st.id]) == PredFailed
      modifies this
      ensures Value() == Refreshed(old(Value()), state)
      ensures woken == Resolved(old(Value()), state)
    {
      hide Refreshed, Resolved, ClosedPending, WaitersPending, SettledOnly, Sts;
      if firstFailed != 0 && firstFailed <= st.declaration {
        FailureRecount(Value(), st, state, was);
        RecountedCurrent(Value(), st, state, was);
        RefreshedSame(Value(), state);
        return [];
      }
      var i := LeadingBefore(st.declaration);
      FailureRefresh(Value(), st, state, was, i);
      woken := open + Sts(parked[i..]);
      firstFailed, open, parked := st.declaration, [], parked[..i];
    }

    /** How many leading parked edges read nothing declared at cursor or after. */
    method LeadingBefore(cursor: int) returns (i: nat)
      ensures i <= |parked|
      ensures i > 0 ==> parked[i - 1].cursor < cursor
      ensures forall j :: i <= j < |parked| ==> parked[j].cursor >= cursor
    {
      i := |parked|;
      while i > 0 && parked[i - 1].cursor >= cursor
        invariant 0 <= i <= |parked|
        invariant forall j :: i <= j < |parked| ==> parked[j].cursor >= cursor
      {
        i := i - 1;
      }
    }

    /** The leading members that succeeded, from those known to have. */
    method AdvancePrefix(state: seq<EntityState>)
      requires succeededPrefix <= PrefixLen(members, state)
      modifies this`succeededPrefix
      ensures succeededPrefix == PrefixLen(members, state)
    {
      while succeededPrefix < |members| && SucceededIn(members[succeededPrefix], state)
        invariant succeededPrefix <= PrefixLen(members, state)
      {
        PrefixReaches(members, state, succeededPrefix);
        succeededPrefix := succeededPrefix + 1;
      }
    }

    method SettleSucceeded(st: Member, state: seq<EntityState>, ghost was: seq<EntityState>)
      returns (woken: seq<TaskId>)
      requires Current(Value(), was) && WaitersPending(Value())
      requires SettledOnly(Value(), st, state, was)
      requires StateOutcome(state[st.id]) == PredSucceeded
      modifies this
      ensures Value() == Refreshed(old(Value()), state)
      ensures woken == Resolved(old(Value()), state)
    {
      hide Current, WaitersPending, SettledOnly, Refreshed, Resolved, SucceededThrough, Sts;
      ghost var before := Value();
      SuccessRecount(before, st, state, was);
      AdvancePrefix(state);
      var n := LeadingSucceeded();
      SuccessRefresh(before, st, state, was, succeededPrefix, n);
      woken := Sts(parked[..n]);
      parked := parked[n..];
    }

    /** How many leading parked edges now read succeeded. */
    method LeadingSucceeded() returns (n: nat)
      ensures n <= |parked|
      ensures forall j :: 0 <= j < n ==> SucceededThrough(Value(), parked[j].cursor)
      ensures n < |parked| ==> !SucceededThrough(Value(), parked[n].cursor)
    {
      n := 0;
      while n < |parked| && SucceededThrough(Value(), parked[n].cursor)
        invariant 0 <= n <= |parked|
        invariant forall j :: 0 <= j < n ==> SucceededThrough(Value(), parked[j].cursor)
      {
        n := n + 1;
      }
    }

    method Seal(cursor: nat) returns (woken: seq<TaskId>)
      modifies this
      ensures Value() == Sealed(old(Value()), cursor)
      ensures woken == SealWakes(old(Value()))
    {
      if sealed || holds > 0 {
        return [];
      }
      sealed, sealedThrough := true, cursor;
      woken, open := open, [];
    }

    method Park(st: TaskId, cursor: int, isOpen: bool)
      requires Order.Sorted(parked, CursorOf)
      modifies this
      ensures Value() == ParkedOn(old(Value()), st, cursor, isOpen)
    {
      if isOpen {
        open := open + [st];
        return;
      }
      parked := Order.InsertAfterOrder(parked, ParkedTask(st, cursor), CursorOf);
    }

    method Unpark()
      modifies this
      ensures Value() == old(Value()).(parked := [], open := [])
    {
      parked, open := [], [];
    }

    method Release(seal: bool, cursor: nat) returns (woken: seq<TaskId>)
      modifies this
      ensures Value() == Released(old(Value()), seal, cursor)
      ensures woken == ReleaseWakes(old(Value()), seal)
    {
      holds := holds - 1;
      if holds > 0 {
        return [];
      }
      if seal {
        woken := Seal(cursor);
        return;
      }
      woken, open := open, [];
    }

    method FailBuilder() returns (woken: seq<TaskId>)
      modifies this
      ensures Value() == BuilderFailed(old(Value()))
      ensures woken == old(open) + Sts(old(parked))
    {
      builderFailed := true;
      woken, open := open, [];
      for i := 0 to |parked|
        invariant woken == old(open) + Sts(parked)[..i]
        invariant Value() == old(Value()).(builderFailed := true, open := [])
      {
        woken := woken + [parked[i].st];
      }
      parked := [];
    }
  }
}
