/** Where each submitted Task waits. The run keeps many lists of Tasks: the
    ready queue, the woken worklist, each Task's dependents, and each tally's
    open and parked Tasks. Settling a Task some other way leaves stale entries
    behind. Located says that a Task still waiting is on exactly one of those
    lists, exactly once, and that every other entry is stale. */
module WaitLists {
  import opened Outcomes
  import opened CollectionTally
  import opened Eligibility

  /** Off is in nobody's list: not submitted, started, abandoned, or in hand. */
  datatype Loc = Off | InQueue | InWoken | AtTask(t: TaskId) | AtOpen(c: nat) | AtClosed(c: nat)

  datatype Lists = Lists(
    queue: seq<TaskId>,
    woken: seq<TaskId>,
    dependents: seq<seq<TaskId>>,
    tally: seq<Tally>)

  predicate Awaiting(p: Phase) { p == PhaseQueued || p == PhaseParked }

  predicate Stale(p: Phase) { p == PhaseRunning || p == PhaseAbandoned }

  ghost function ListAt(w: Lists, tag: Loc): multiset<TaskId> {
    match tag
    case Off => multiset{}
    case InQueue => multiset(w.queue)
    case InWoken => multiset(w.woken)
    case AtTask(t) => if t < |w.dependents| then multiset(w.dependents[t]) else multiset{}
    case AtOpen(c) => if c < |w.tally| then multiset(w.tally[c].open) else multiset{}
    case AtClosed(c) => if c < |w.tally| then multiset(Sts(w.tally[c].parked)) else multiset{}
  }

  ghost predicate ListOk(m: multiset<TaskId>, tag: Loc, loc: seq<Loc>, phase: seq<Phase>) {
    && |loc| == |phase|
    && (forall x :: x in m ==> x < |loc| && (loc[x] == tag || Stale(phase[x])))
    && (forall x :: 0 <= x < |loc| && loc[x] == tag ==> m[x] == 1)
  }

  /** A queued Task is in the queue or in hand; a parked one is woken, waiting
      somewhere, or in hand. */
  ghost predicate LocPhase(loc: seq<Loc>, phase: seq<Phase>) {
    && |loc| == |phase|
    && forall x :: 0 <= x < |loc| && loc[x] != Off ==>
         phase[x] == if loc[x] == InQueue then PhaseQueued else PhaseParked
  }

  ghost predicate Located(w: Lists, loc: seq<Loc>, phase: seq<Phase>) {
    && LocPhase(loc, phase)
    && forall tag :: tag != Off ==> ListOk(ListAt(w, tag), tag, loc, phase)
  }

  /** The submitted Tasks that a step holds, off every list. */
  ghost function Hands(loc: seq<Loc>, phase: seq<Phase>): set<TaskId> {
    set x | 0 <= x < |loc| && x < |phase| && loc[x] == Off && Awaiting(phase[x])
  }

  /** A Task in hand joins one list. */
  lemma Join(w: Lists, w': Lists, x: TaskId, tag: Loc, loc: seq<Loc>, phase: seq<Phase>, p: Phase)
    requires Located(w, loc, phase) && x < |loc| && loc[x] == Off && Awaiting(phase[x])
    requires tag != Off && p == if tag == InQueue then PhaseQueued else PhaseParked
    requires forall g :: ListAt(w', g) == ListAt(w, g) + if g == tag then multiset{x} else multiset{}
    ensures Located(w', loc[x := tag], phase[x := p])
  {
    var loc', phase' := loc[x := tag], phase[x := p];
    forall g: Loc | g != Off ensures ListOk(ListAt(w', g), g, loc', phase') {
      assert ListOk(ListAt(w, g), g, loc, phase);
      assert x !in ListAt(w, g);
    }
  }

  /** A batch leaves one list for the woken worklist. */
  function Moved(loc: seq<Loc>, tag: Loc, batch: multiset<TaskId>): (r: seq<Loc>)
    ensures |r| == |loc|
    ensures forall x :: 0 <= x < |loc| ==> r[x] == if loc[x] == tag && x in batch then InWoken else loc[x]
  {
    seq(|loc|, x requires 0 <= x < |loc| => if loc[x] == tag && x in batch then InWoken else loc[x])
  }

  lemma Move(w: Lists, w': Lists, tag: Loc, batch: multiset<TaskId>, loc: seq<Loc>, phase: seq<Phase>)
    requires Located(w, loc, phase) && tag != Off && tag != InWoken && tag != InQueue
    requires forall g {:trigger ListAt(w', g)} :: g != tag && g != InWoken ==> ListAt(w', g) == ListAt(w, g)
    requires ListAt(w', tag) + batch == ListAt(w, tag)
    requires ListAt(w', InWoken) == ListAt(w, InWoken) + batch
    ensures Located(w', Moved(loc, tag, batch), phase)
  {
    var loc' := Moved(loc, tag, batch);
    assert ListOk(ListAt(w, tag), tag, loc, phase);
    assert ListOk(ListAt(w, InWoken), InWoken, loc, phase);
    forall g: Loc | g != Off && g != tag && g != InWoken ensures ListOk(ListAt(w', g), g, loc', phase) {
      assert ListOk(ListAt(w, g), g, loc, phase);
    }
    MoveFrom(ListAt(w, tag), ListAt(w', tag), batch, tag, loc, phase);
    MoveTo(ListAt(w, InWoken), ListAt(w, tag), batch, tag, loc, phase);
  }

  lemma MoveFrom(m: multiset<TaskId>, m': multiset<TaskId>, batch: multiset<TaskId>, tag: Loc, loc: seq<Loc>,
      phase: seq<Phase>)
    requires LocPhase(loc, phase) && ListOk(m, tag, loc, phase) && m' + batch == m && tag != InWoken
    ensures ListOk(m', tag, Moved(loc, tag, batch), phase)
  {
    forall x | x in m' ensures x in m {}
    forall x | x in batch ensures x in m {}
  }

  lemma MoveTo(woken: multiset<TaskId>, m: multiset<TaskId>, batch: multiset<TaskId>, tag: Loc, loc: seq<Loc>,
      phase: seq<Phase>)
    requires LocPhase(loc, phase) && tag != Off && tag != InWoken && tag != InQueue
    requires ListOk(m, tag, loc, phase) && ListOk(woken, InWoken, loc, phase) && batch <= m
    ensures ListOk(woken + batch, InWoken, Moved(loc, tag, batch), phase)
  {
    var loc' := Moved(loc, tag, batch);
    forall x | 0 <= x < |loc| && loc'[x] == InWoken ensures (woken + batch)[x] == 1 {
      if loc[x] == InWoken {
        assert x !in m;
      } else {
        assert m[x] == 1 && x !in woken;
      }
    }
    forall x | x in woken + batch ensures x < |loc'| && (loc'[x] == InWoken || Stale(phase[x])) {
      if x in batch {
        assert x in m;
      }
    }
  }

  /** A Task that starts or settles leaves whatever list it was on behind. */
  lemma Depart(w: Lists, x: TaskId, loc: seq<Loc>, phase: seq<Phase>, p: Phase)
    requires Located(w, loc, phase) && x < |loc| && Stale(p)
    ensures Located(w, loc[x := Off], phase[x := p])
  {
    var loc', phase' := loc[x := Off], phase[x := p];
    forall g: Loc | g != Off ensures ListOk(ListAt(w, g), g, loc', phase') {
      assert ListOk(ListAt(w, g), g, loc, phase);
    }
  }

  /** One entry is taken off a list, into hand if it was not stale. */
  function Taken(loc: seq<Loc>, x: TaskId, tag: Loc): seq<Loc>
    requires x < |loc|
  {
    if loc[x] == tag then loc[x := Off] else loc
  }

  lemma Take(w: Lists, w': Lists, x: TaskId, tag: Loc, loc: seq<Loc>, phase: seq<Phase>)
    requires Located(w, loc, phase) && tag != Off && x in ListAt(w, tag)
    requires forall g {:trigger ListAt(w', g)} :: g != tag ==> ListAt(w', g) == ListAt(w, g)
    requires ListAt(w', tag) + multiset{x} == ListAt(w, tag)
    ensures x < |loc| && Located(w', Taken(loc, x, tag), phase)
    ensures loc[x] == tag || Stale(phase[x])
  {
    assert ListOk(ListAt(w, tag), tag, loc, phase);
    forall g: Loc | g != Off && g != tag ensures ListOk(ListAt(w', g), g, Taken(loc, x, tag), phase) {
      assert ListOk(ListAt(w, g), g, loc, phase);
    }
    TakeFrom(ListAt(w, tag), ListAt(w', tag), x, tag, loc, phase);
  }

  lemma TakeFrom(m: multiset<TaskId>, m': multiset<TaskId>, x: TaskId, tag: Loc, loc: seq<Loc>, phase: seq<Phase>)
    requires LocPhase(loc, phase) && tag != Off && ListOk(m, tag, loc, phase) && x in m && m' + multiset{x} == m
    ensures ListOk(m', tag, Taken(loc, x, tag), phase)
  {
    assert loc[x] == tag ==> m[x] == 1;
    forall y | y in m' ensures y in m && (y != x || loc[x] != tag) {
    }
  }

  /** Every waiting Task comes into hand at once: the drain's fresh start. */
  function Cleared(loc: seq<Loc>): (r: seq<Loc>)
    ensures |r| == |loc|
    ensures forall x :: 0 <= x < |loc| ==> r[x] == if loc[x] == InQueue then InQueue else Off
  {
    seq(|loc|, x requires 0 <= x < |loc| => if loc[x] == InQueue then InQueue else Off)
  }

  lemma ClearAll(w: Lists, w': Lists, loc: seq<Loc>, phase: seq<Phase>)
    requires Located(w, loc, phase) && w'.queue == w.queue
    requires forall g {:trigger ListAt(w', g)} :: g != InQueue ==> ListAt(w', g) == multiset{}
    ensures Located(w', Cleared(loc), phase)
  {
    assert ListOk(ListAt(w, InQueue), InQueue, loc, phase);
    forall g: Loc | g != Off ensures ListOk(ListAt(w', g), g, Cleared(loc), phase) {
    }
  }

  /** A newly declared Task is on no list. */
  lemma Grow(w: Lists, w': Lists, loc: seq<Loc>, phase: seq<Phase>)
    requires Located(w, loc, phase)
    requires forall g {:trigger ListAt(w', g)} :: ListAt(w', g) == ListAt(w, g)
    ensures Located(w', loc + [Off], phase + [PhaseDeclared])
  {
    var loc', phase' := loc + [Off], phase + [PhaseDeclared];
    forall g: Loc | g != Off ensures ListOk(ListAt(w', g), g, loc', phase') {
      assert ListOk(ListAt(w, g), g, loc, phase);
    }
  }

  /** A Task enters the scheduler's hands by being submitted. */
  lemma Submitted(w: Lists, x: TaskId, loc: seq<Loc>, phase: seq<Phase>)
    requires Located(w, loc, phase) && x < |loc| && phase[x] == PhaseDeclared
    ensures Located(w, loc, phase[x := PhaseQueued])
  {
    forall g: Loc | g != Off ensures ListOk(ListAt(w, g), g, loc, phase[x := PhaseQueued]) {
      assert ListOk(ListAt(w, g), g, loc, phase);
    }
  }
}
