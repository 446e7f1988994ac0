/** The run's bounded event log (journal.go). It compacts in batches, when it has
    grown to twice its cap or is read; retention depends only on the whole history. */
module Journal {

  datatype Event = Event(kind: string, sequence: nat)

  predicate Critical(e: Event) {
    e.kind in {"output.failed", "output.finished", "output.cancelled", "task.blocked", "task.failed", "output.started"}
  }

  function CountCritical(es: seq<Event>): (n: nat)
    ensures n <= |es|
  {
    if es == [] then 0 else CountCritical(es[..|es| - 1]) + if Critical(es[|es| - 1]) then 1 else 0
  }

  function Clip(n: int): nat { if n < 0 then 0 else n }

  // ---- what is retained ---------------------------------------------------

  /** The newest c critical events and the newest p others, in order. */
  function KeepNewest(es: seq<Event>, c: nat, p: nat): seq<Event> {
    if es == [] then []
    else
      var init, last := es[..|es| - 1], es[|es| - 1];
      if Critical(last) then
        if c > 0 then KeepNewest(init, c - 1, p) + [last] else KeepNewest(init, c, p)
      else
        if p > 0 then KeepNewest(init, c, p - 1) + [last] else KeepNewest(init, c, p)
  }

  /** Every critical event that fits in limit, the newest when even they overflow,
      then the newest others. No limit keeps everything. */
  function Retained(es: seq<Event>, limit: int): seq<Event> {
    if limit <= 0 then es else KeepNewest(es, limit, Clip(limit - CountCritical(es)))
  }

  lemma {:induction false} KeepsAll(es: seq<Event>, c: nat, p: nat)
    requires CountCritical(es) <= c && |es| - CountCritical(es) <= p
    ensures KeepNewest(es, c, p) == es
  {
    if es != [] {
      var init := es[..|es| - 1];
      KeepsAll(init, if Critical(es[|es| - 1]) then c - 1 else c, if Critical(es[|es| - 1]) then p else p - 1);
      assert init + [es[|es| - 1]] == es;
    }
  }

  lemma {:induction false} KeptCounts(es: seq<Event>, c: nat, p: nat)
    ensures var k := KeepNewest(es, c, p);
      && CountCritical(k) == (if CountCritical(es) < c then CountCritical(es) else c)
      && |k| - CountCritical(k) == (if |es| - CountCritical(es) < p then |es| - CountCritical(es) else p)
  {
    if es != [] {
      var init, last := es[..|es| - 1], es[|es| - 1];
      var crit := Critical(last);
      KeptCounts(init, if crit && c > 0 then c - 1 else c, if !crit && p > 0 then p - 1 else p);
      if (crit && c > 0) || (!crit && p > 0) {
        var k := KeepNewest(init, if crit then c - 1 else c, if crit then p else p - 1);
        assert (k + [last])[..|k|] == k;
      }
    }
  }

  /** What a class that still has room for one more keeps. */
  function Less(n: nat, now: bool): nat { if now && n > 0 then n - 1 else n }

  lemma KeepLast(init: seq<Event>, last: Event, c: nat, p: nat)
    ensures KeepNewest(init + [last], c, p) ==
      KeepNewest(init, Less(c, Critical(last)), Less(p, !Critical(last)))
      + if (if Critical(last) then c > 0 else p > 0) then [last] else []
  {
    var es := init + [last];
    assert es[..|es| - 1] == init;
    var k := KeepNewest(init, Less(c, Critical(last)), Less(p, !Critical(last)));
    assert k + [] == k;
  }

  /** Trimming a trimmed log further is trimming the log. */
  lemma {:induction false} KeepFewer(s: seq<Event>, c: nat, p: nat, c': nat, p': nat)
    requires c >= c' && p >= p'
    ensures KeepNewest(KeepNewest(s, c, p), c', p') == KeepNewest(s, c', p')
    decreases |s|
  {
    if s != [] {
      hide KeepNewest;
      var init, last := s[..|s| - 1], s[|s| - 1];
      assert s == init + [last];
      var crit := Critical(last);
      KeepLast(init, last, c, p);
      KeepLast(init, last, c', p');
      var k := KeepNewest(init, Less(c, crit), Less(p, !crit));
      KeepFewer(init, Less(c, crit), Less(p, !crit), Less(c', crit), Less(p', !crit));
      if (if crit then c > 0 else p > 0) {
        KeepLast(k, last, c', p');
      } else {
        assert k + [] == k;
      }
    }
  }

  /** Trimming a trimmed log, then more, is trimming the whole. */
  lemma {:induction false} KeepAfterKeep(s: seq<Event>, c: nat, p: nat, t: seq<Event>, c': nat, p': nat)
    requires c >= c' - CountCritical(t) && p >= p' - (|t| - CountCritical(t))
    ensures KeepNewest(KeepNewest(s, c, p) + t, c', p') == KeepNewest(s + t, c', p')
    decreases |t|
  {
    hide KeepNewest;
    var k := KeepNewest(s, c, p);
    if t == [] {
      assert s + [] == s && k + [] == k;
      KeepFewer(s, c, p, c', p');
    } else {
      var init, last := t[..|t| - 1], t[|t| - 1];
      assert k + t == k + init + [last] && s + t == s + init + [last];
      KeepLast(k + init, last, c', p');
      KeepLast(s + init, last, c', p');
      KeepAfterKeep(s, c, p, init, Less(c', Critical(last)), Less(p', !Critical(last)));
    }
  }

  lemma {:induction false} CountAppend(a: seq<Event>, b: seq<Event>)
    ensures CountCritical(a + b) == CountCritical(a) + CountCritical(b)
  {
    if b == [] {
      assert a + b == a;
    } else {
      CountAppend(a, b[..|b| - 1]);
      assert (a + b)[..|a + b| - 1] == a + b[..|b| - 1];
    }
  }

  /** compact(compact(s) + t) == compact(s + t). */
  lemma RetainedTwice(s: seq<Event>, t: seq<Event>, limit: int)
    ensures Retained(Retained(s, limit) + t, limit) == Retained(s + t, limit)
  {
    if limit > 0 {
      var p := Clip(limit - CountCritical(s));
      var k := KeepNewest(s, limit, p);
      KeptCounts(s, limit, p);
      CountAppend(k, t);
      CountAppend(s, t);
      KeepAfterKeep(s, limit, p, t, limit, Clip(limit - CountCritical(s + t)));
    }
  }

  lemma RetainedFits(s: seq<Event>, limit: int)
    requires limit > 0
    ensures |Retained(s, limit)| <= limit
    ensures |s| <= limit ==> Retained(s, limit) == s
  {
    KeptCounts(s, limit, Clip(limit - CountCritical(s)));
    if |s| <= limit {
      KeepsAll(s, limit, Clip(limit - CountCritical(s)));
    }
  }

  /** A log that evicted on every append, never holding more than its limit. */
  function Eager(history: seq<Event>, limit: int): seq<Event> {
    if history == [] then []
    else Retained(Eager(history[..|history| - 1], limit) + [history[|history| - 1]], limit)
  }

  /** Batches retain exactly what evicting at once would. */
  lemma {:induction false} EagerIsRetained(history: seq<Event>, limit: int)
    ensures Eager(history, limit) == Retained(history, limit)
  {
    if history != [] {
      var init, last := history[..|history| - 1], history[|history| - 1];
      EagerIsRetained(init, limit);
      RetainedTwice(init, [last], limit);
      assert init + [last] == history;
    }
  }

  /** What is retained is in the order it happened. */
  ghost predicate Increasing(es: seq<Event>) {
    forall i, j :: 0 <= i < j < |es| ==> es[i].sequence < es[j].sequence
  }

  lemma {:induction false} KeptIncreasing(es: seq<Event>, c: nat, p: nat)
    requires Increasing(es)
    ensures Increasing(KeepNewest(es, c, p))
    ensures forall e :: e in KeepNewest(es, c, p) ==> e in es
  {
    if es != [] {
      var init, last := es[..|es| - 1], es[|es| - 1];
      var crit := Critical(last);
      var k := KeepNewest(init, if crit && c > 0 then c - 1 else c, if !crit && p > 0 then p - 1 else p);
      KeptIncreasing(init, if crit && c > 0 then c - 1 else c, if !crit && p > 0 then p - 1 else p);
      forall i | 0 <= i < |k| ensures k[i].sequence < last.sequence {
        assert k[i] in init;
      }
    }
  }

  // ---- which events survive -----------------------------------------------

  /** The kinds that go last: how a run started and ended, and what failed or was
      blocked in it. */
  const LASTING := {"output.started", "output.finished", "output.failed", "output.cancelled", "task.blocked", "task.failed"}

  /** The events after i of the lasting kinds, or of the others. */
  ghost function LaterOf(es: seq<Event>, i: int, lasting: bool): set<int> {
    set j | 0 <= j < |es| && i < j && (es[j].kind in LASTING) == lasting
  }

  lemma CriticalIsLasting(e: Event)
    ensures Critical(e) <==> e.kind in LASTING
  {
  }

  lemma LaterLast(es: seq<Event>, i: int, lasting: bool)
    requires es != [] && i < |es| - 1
    ensures |LaterOf(es, i, lasting)| == |LaterOf(es[..|es| - 1], i, lasting)| + if (es[|es| - 1].kind in LASTING) == lasting then 1 else 0
  {
    hide LASTING;
    var n := |es| - 1;
    var a, b := LaterOf(es, i, lasting), LaterOf(es[..n], i, lasting);
    assert a == if (es[n].kind in LASTING) == lasting then b + {n} else b;
    assert n !in b;
  }

  lemma LaterNone(es: seq<Event>, i: int, lasting: bool)
    requires i >= |es| - 1
    ensures LaterOf(es, i, lasting) == {}
  {
  }

  lemma {:induction false} CountIsLater(es: seq<Event>)
    ensures CountCritical(es) == |LaterOf(es, -1, true)|
  {
    hide LASTING;
    if es == [] {
      LaterNone(es, -1, true);
    } else {
      CriticalIsLasting(es[|es| - 1]);
      LaterLast(es, -1, true);
      CountIsLater(es[..|es| - 1]);
    }
  }

  /** An event is among the newest of its class exactly when few enough come after it. */
  lemma {:induction false} KeptExactly(es: seq<Event>, c: nat, p: nat, i: nat)
    requires Increasing(es) && i < |es|
    ensures es[i] in KeepNewest(es, c, p) <==> |LaterOf(es, i, es[i].kind in LASTING)| < if es[i].kind in LASTING then c else p
    decreases |es|
  {
    hide LASTING, LaterOf;
    var n := |es| - 1;
    var init, last := es[..n], es[n];
    CriticalIsLasting(last);
    CriticalIsLasting(es[i]);
    var c', p' := if Critical(last) && c > 0 then c - 1 else c, if !Critical(last) && p > 0 then p - 1 else p;
    KeptIncreasing(init, c', p');
    if i == n {
      LaterNone(es, i, es[i].kind in LASTING);
      assert last !in init;
    } else {
      LaterLast(es, i, es[i].kind in LASTING);
      KeptExactly(init, c', p', i);
      assert es[i] != last;
    }
  }

  /** Within a limit, an event of a lasting kind is dropped only when that many of those
      kinds came after it; one of another kind as soon as it is not among the newest of
      the room those leave. */
  lemma Survives(es: seq<Event>, limit: int, i: nat)
    requires limit > 0 && Increasing(es) && i < |es|
    ensures es[i].kind in LASTING ==> (es[i] in Retained(es, limit) <==> |LaterOf(es, i, true)| < limit)
    ensures es[i].kind !in LASTING ==>
      (es[i] in Retained(es, limit) <==> |LaterOf(es, i, false)| < limit - |LaterOf(es, -1, true)|)
  {
    hide LASTING, LaterOf, KeepNewest, Increasing;
    CountIsLater(es);
    KeptExactly(es, limit, Clip(limit - CountCritical(es)), i);
  }

  // ---- the single pass that drops -----------------------------------------

  /** Without the oldest c critical events and the oldest p others. */
  function DropOldest(es: seq<Event>, c: nat, p: nat): seq<Event> {
    if es == [] then []
    else if Critical(es[0]) then
      if c > 0 then DropOldest(es[1..], c - 1, p) else [es[0]] + DropOldest(es[1..], c, p)
    else
      if p > 0 then DropOldest(es[1..], c, p - 1) else [es[0]] + DropOldest(es[1..], c, p)
  }

  lemma {:induction false} DropAtEnd(es: seq<Event>, last: Event, c: nat, p: nat)
    ensures DropOldest(es + [last], c, p) == DropOldest(es, c, p)
      + if (Critical(last) && c <= CountCritical(es)) || (!Critical(last) && p <= |es| - CountCritical(es)) then [last] else []
  {
    if es == [] {
      assert ([] + [last])[1..] == [] && [] + [last] == [last];
    } else {
      assert (es + [last])[1..] == es[1..] + [last];
      CountAppend([es[0]], es[1..]);
      assert [es[0]] + es[1..] == es && [es[0]][..0] == [];
      DropAtEnd(es[1..], last, if Critical(es[0]) && c > 0 then c - 1 else c, if !Critical(es[0]) && p > 0 then p - 1 else p);
    }
  }

  /** Dropping the oldest is keeping the newest. */
  lemma {:induction false} DropIsKeep(es: seq<Event>, c: nat, p: nat)
    requires c <= CountCritical(es) && p <= |es| - CountCritical(es)
    ensures DropOldest(es, c, p) == KeepNewest(es, CountCritical(es) - c, |es| - CountCritical(es) - p)
  {
    if es != [] {
      var init, last := es[..|es| - 1], es[|es| - 1];
      assert es == init + [last];
      DropAtEnd(init, last, c, p);
      var crit := Critical(last);
      if crit && c > CountCritical(init) {
        DropIsKeep(init, c - 1, p);
        DropOneMore(init, c - 1, p, true);
      } else if !crit && p > |init| - CountCritical(init) {
        DropIsKeep(init, c, p - 1);
        DropOneMore(init, c, p - 1, false);
      } else {
        DropIsKeep(init, c, p);
      }
    }
  }

  /** When all of a class is gone, dropping one more of it drops nothing. */
  lemma {:induction false} DropOneMore(es: seq<Event>, c: nat, p: nat, critical: bool)
    requires if critical then c >= CountCritical(es) else p >= |es| - CountCritical(es)
    ensures DropOldest(es, if critical then c + 1 else c, if critical then p else p + 1) == DropOldest(es, c, p)
    decreases |es|
  {
    if es != [] {
      CountAppend([es[0]], es[1..]);
      assert [es[0]] + es[1..] == es && [es[0]][..0] == [];
      DropOneMore(es[1..], if Critical(es[0]) && c > 0 then c - 1 else c, if !Critical(es[0]) && p > 0 then p - 1 else p, critical);
    }
  }

  // ---- the journal --------------------------------------------------------

  class Journal {
    /** How many events to keep; none or less keeps all. */
    const limit: int
    var events: seq<Event>
    var sequence: nat
    /** Every event ever appended. */
    ghost var history: seq<Event>

    ghost predicate Valid()
      reads this
    {
      && Increasing(history) && (forall e :: e in history ==> e.sequence <= sequence)
      && Increasing(events) && (forall e :: e in events ==> e.sequence <= sequence)
      && Retained(events, limit) == Retained(history, limit)
      && (limit > 0 ==> |events| <= 2 * limit)
    }

    constructor (cap: int)
      ensures Valid() && limit == cap && history == [] && sequence == 0
    {
      limit, events, sequence, history := cap, [], 0, [];
    }

    /** Records an event under the next sequence number. */
    method Append(kind: string) returns (e: Event)
      requires Valid()
      modifies this
      ensures Valid() && e == Event(kind, old(sequence) + 1) && sequence == old(sequence) + 1
      ensures history == old(history) + [e]
    {
      hide Retained, Increasing;
      e := Event(kind, sequence + 1);
      StampedLast(events, sequence, e);
      StampedLast(history, sequence, e);
      AppendRetained(events, history, e, limit);
      sequence := sequence + 1;
      events, history := events + [e], history + [e];
      if limit > 0 && |events| > 2 * limit {
        Compact();
      }
    }

    /** The events a reader is owed: what the whole history retains. */
    method Snapshot() returns (copy: seq<Event>)
      requires Valid()
      modifies this
      ensures Valid() && history == old(history) && sequence == old(sequence)
      ensures copy == Retained(history, limit) && Increasing(copy)
    {
      Compact();
      copy := events;
    }

    /** One pass that drops the oldest of each class. */
    method Compact()
      requires Increasing(events) && (forall e :: e in events ==> e.sequence <= sequence)
      modifies this`events
      ensures events == Retained(old(events), limit) && Retained(events, limit) == events
      ensures Increasing(events) && (forall e :: e in events ==> e.sequence <= sequence)
      ensures limit > 0 ==> |events| <= limit
    {
      hide Retained, Increasing;
      CompactKeeps(events, limit);
      if limit <= 0 || |events| <= limit {
        return;
      }
      var critical := CountEach(events);
      var dropCritical, keepPlain := Clip(critical - limit), Clip(limit - critical);
      var dropPlain := |events| - critical - keepPlain;
      DropIsRetained(events, limit);
      events := Delete(events, dropCritical, dropPlain);
    }
  }

  method CountEach(es: seq<Event>) returns (critical: nat)
    ensures critical == CountCritical(es)
  {
    critical := 0;
    for i := 0 to |es|
      invariant critical == CountCritical(es[..i])
    {
      assert es[..i + 1][..i] == es[..i];
      if Critical(es[i]) {
        critical := critical + 1;
      }
    }
    assert es[..|es|] == es;
  }

  /** slices.DeleteFunc with the two countdowns. */
  method Delete(es: seq<Event>, c: nat, p: nat) returns (kept: seq<Event>)
    ensures kept == DropOldest(es, c, p)
  {
    var dropCritical, dropPlain := c, p;
    kept := [];
    assert es[0..] == es && [] + DropOldest(es, c, p) == DropOldest(es, c, p);
    for i := 0 to |es|
      invariant kept + DropOldest(es[i..], dropCritical, dropPlain) == DropOldest(es, c, p)
    {
      var e := es[i];
      assert es[i..][0] == e && es[i..][1..] == es[i + 1..];
      if Critical(e) {
        if dropCritical > 0 {
          dropCritical := dropCritical - 1;
          continue;
        }
      } else if dropPlain > 0 {
        dropPlain := dropPlain - 1;
        continue;
      }
      Regroup(kept, e, DropOldest(es[i + 1..], dropCritical, dropPlain));
      kept := kept + [e];
    }
    assert kept + [] == kept;
  }

  lemma Regroup(a: seq<Event>, e: Event, b: seq<Event>)
    ensures a + ([e] + b) == a + [e] + b
  {
  }

  lemma StampedLast(es: seq<Event>, sequence: nat, e: Event)
    requires Increasing(es) && (forall x :: x in es ==> x.sequence <= sequence) && e.sequence == sequence + 1
    ensures Increasing(es + [e]) && (forall x :: x in es + [e] ==> x.sequence <= sequence + 1)
  {
    forall i | 0 <= i < |es| ensures es[i].sequence < e.sequence {
      assert es[i] in es;
    }
  }

  lemma AppendRetained(events: seq<Event>, history: seq<Event>, e: Event, limit: int)
    requires Retained(events, limit) == Retained(history, limit)
    ensures Retained(events + [e], limit) == Retained(history + [e], limit)
    ensures Retained(Retained(events + [e], limit), limit) == Retained(events + [e], limit)
  {
    RetainedTwice(events, [e], limit);
    RetainedTwice(history, [e], limit);
    RetainedTwice(events + [e], [], limit);
    assert Retained(events + [e], limit) + [] == Retained(events + [e], limit);
    assert events + [e] + [] == events + [e];
  }

  lemma CompactKeeps(es: seq<Event>, limit: int)
    requires Increasing(es)
    ensures var r := Retained(es, limit);
      && Retained(r, limit) == r && Increasing(r) && (forall e :: e in r ==> e in es)
      && (limit > 0 ==> |r| <= limit) && (limit <= 0 || |es| <= limit ==> r == es)
  {
    RetainedTwice(es, [], limit);
    assert es + [] == es && Retained(es, limit) + [] == Retained(es, limit);
    if limit > 0 {
      RetainedFits(es, limit);
      KeptIncreasing(es, limit, Clip(limit - CountCritical(es)));
    }
  }

  lemma DropIsRetained(es: seq<Event>, limit: int)
    requires 0 < limit < |es|
    ensures var critical := CountCritical(es);
      && |es| - critical - Clip(limit - critical) >= 0
      && DropOldest(es, Clip(critical - limit), |es| - critical - Clip(limit - critical)) == Retained(es, limit)
  {
    hide KeepNewest, DropOldest, CountCritical;
    var critical := CountCritical(es);
    var c, p := Clip(critical - limit), |es| - critical - Clip(limit - critical);
    DropIsKeep(es, c, p);
    KeepsAtLeast(es, critical - c, limit, |es| - critical - p);
  }

  /** Asking for more critical events than there are keeps them all. */
  lemma {:induction false} KeepsAtLeast(es: seq<Event>, c: nat, c': nat, p: nat)
    requires c == c' || (c >= CountCritical(es) && c' >= CountCritical(es))
    ensures KeepNewest(es, c, p) == KeepNewest(es, c', p)
  {
    if es != [] && c != c' {
      var crit := Critical(es[|es| - 1]);
      KeepsAtLeast(es[..|es| - 1], if crit then c - 1 else c, if crit then c' - 1 else c', if !crit && p > 0 then p - 1 else p);
    }
  }
}
