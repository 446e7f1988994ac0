/** Painting the live region from many goroutines (live_paint.go). A frame is
    snapshotted under one lock and rendered and painted later under another, so
    paints may land in any order, and after a clear. */
module LivePaint {
  import opened Screen
  import opened Ansi

  /** A rendered frame: its sequence number and its text. */
  datatype Frame = Frame(seqNo: nat, text: string)

  /** What the paint lock guards. */
  datatype Shown = Shown(floorSeq: nat, paintedSeq: nat, active: bool, text: string)

  predicate Superseded(s: Shown, f: Frame) {
    f.seqNo <= s.floorSeq || f.seqNo < s.paintedSeq
  }

  function Painted(s: Shown, f: Frame): Shown {
    if Superseded(s, f) then s else s.(paintedSeq := f.seqNo, active := true, text := f.text)
  }

  function PaintAll(s: Shown, frames: seq<Frame>): Shown
    decreases |frames|
  {
    if frames == [] then s else PaintAll(Painted(s, frames[0]), frames[1..])
  }

  /** f is what painting all of frames, in some order, leaves on screen. */
  ghost predicate Wins(s: Shown, frames: seq<Frame>, f: Frame) {
    && f in frames && !Superseded(s, f)
    && forall g :: g in frames && !Superseded(s, g) ==> g.seqNo <= f.seqNo
  }

  ghost predicate Distinct(frames: seq<Frame>) {
    forall f, g :: f in frames && g in frames && f.seqNo == g.seqNo ==> f == g
  }

  /** Paints land in whatever order: the newest frame not superseded is what stays,
      and when every frame is superseded nothing changes. */
  lemma {:induction false} NewestWins(s: Shown, frames: seq<Frame>)
    requires Distinct(frames)
    ensures (forall f :: f in frames ==> Superseded(s, f)) ==> PaintAll(s, frames) == s
    ensures forall f :: Wins(s, frames, f) ==> PaintAll(s, frames) == Shown(s.floorSeq, f.seqNo, true, f.text)
    decreases |frames|
  {
    if frames != [] {
      hide Wins;
      var head, rest := frames[0], frames[1..];
      var next := Painted(s, head);
      assert forall g :: g in frames <==> g == head || g in rest;
      NewestWins(next, rest);
      forall f | Wins(s, frames, f) ensures PaintAll(s, frames) == Shown(s.floorSeq, f.seqNo, true, f.text) {
        WinsOn(s, frames, f);
      }
    }
  }

  /** The winner still wins once the first paint has landed, or that paint was its own. */
  lemma WinsOn(s: Shown, frames: seq<Frame>, f: Frame)
    requires Distinct(frames) && Wins(s, frames, f) && frames != []
    ensures var next := Painted(s, frames[0]);
      if f in frames[1..] then Wins(next, frames[1..], f) && next.floorSeq == s.floorSeq
      else next == Shown(s.floorSeq, f.seqNo, true, f.text) && forall g :: g in frames[1..] ==> Superseded(next, g)
  {
    assert forall g :: g in frames <==> g == frames[0] || g in frames[1..];
  }

  /** So the order of the paints does not matter. */
  lemma PaintOrderDoesNotMatter(s: Shown, a: seq<Frame>, b: seq<Frame>)
    requires Distinct(a) && multiset(a) == multiset(b)
    ensures PaintAll(s, a) == PaintAll(s, b)
  {
    forall f ensures f in a <==> f in b {
      assert f in multiset(a) <==> f in multiset(b);
    }
    NewestWins(s, a);
    NewestWins(s, b);
    if exists f :: f in a && !Superseded(s, f) {
      var f := Newest(s, a);
      assert Wins(s, a, f) && Wins(s, b, f);
    }
  }

  lemma {:induction false} Newest(s: Shown, frames: seq<Frame>) returns (f: Frame)
    requires exists g :: g in frames && !Superseded(s, g)
    ensures Wins(s, frames, f)
    decreases |frames|
  {
    var head, rest := frames[0], frames[1..];
    assert forall g :: g in frames <==> g == head || g in rest;
    if exists g :: g in rest && !Superseded(s, g) {
      f := Newest(s, rest);
      if !Superseded(s, head) && head.seqNo > f.seqNo {
        f := head;
      }
    } else {
      f := head;
    }
  }

  /** The live engine and the surface it alone paints on. */
  class LiveEngine {
    const surface: Ansi
    var seqNo: nat
    var floorSeq: nat
    var paintedSeq: nat
    var lastLiveText: string
    var liveActive: bool

    ghost function Value(): Shown
      reads this
    {
      Shown(floorSeq, paintedSeq, liveActive, lastLiveText)
    }

    ghost predicate Valid()
      reads this, surface
    {
      && surface.Valid() && surface.interactive
      && floorSeq <= seqNo && paintedSeq <= seqNo
      && (liveActive ==> floorSeq < paintedSeq)
      && surface.live == if liveActive then PlainLines(SplitLines(lastLiveText)) else []
    }

    constructor (ansi: Ansi)
      requires ansi.Valid() && ansi.interactive && ansi.live == []
      ensures Valid() && surface == ansi && Value() == Shown(0, 0, false, "") && seqNo == 0
    {
      surface := ansi;
      seqNo, floorSeq, paintedSeq, lastLiveText, liveActive := 0, 0, 0, "", false;
    }

    /** Under the run's lock: the next frame's sequence number. */
    method Snapshot() returns (n: nat)
      requires Valid()
      modifies this`seqNo
      ensures Valid() && n == seqNo == old(seqNo) + 1
    {
      seqNo := seqNo + 1;
      n := seqNo;
    }

    /** Writes f unless a newer frame or a clear has superseded it. The same text
        again is not written, and is on screen already. */
    method Paint(f: Frame) returns (wrote: bool)
      requires Valid() && f.seqNo <= seqNo
      requires LinesFit(SplitLines(f.text), surface.width) && |SplitLines(f.text)| <= surface.height
      modifies this`paintedSeq, this`lastLiveText, this`liveActive, surface
      ensures Valid() && Value() == Painted(old(Value()), f)
      ensures surface.durable == old(surface.durable)
      ensures !Superseded(old(Value()), f) ==> surface.live == PlainLines(SplitLines(f.text))
      ensures !wrote ==> surface.written == old(surface.written)
    {
      if f.seqNo <= floorSeq || f.seqNo < paintedSeq {
        return false;
      }
      paintedSeq := f.seqNo;
      if f.text == lastLiveText && liveActive {
        return false;
      }
      surface.WriteLive(f.text);
      lastLiveText := f.text;
      liveActive := true;
      wrote := true;
    }

    /** Removes the live region. Every frame snapshotted before is superseded. */
    method Clear() returns (cleared: bool)
      requires Valid()
      modifies this`floorSeq, this`lastLiveText, this`liveActive, surface
      ensures Valid() && surface.live == [] && surface.durable == old(surface.durable)
      ensures floorSeq == seqNo && !liveActive && cleared == old(liveActive)
      ensures forall f: Frame :: f.seqNo <= seqNo ==> Superseded(Value(), f)
    {
      floorSeq := seqNo;
      if !liveActive {
        return false;
      }
      surface.ClearLive();
      liveActive := false;
      lastLiveText := "";
      cleared := true;
    }

    /** A durable line: no frame snapshotted before it can land below it. */
    method Durable(line: string)
      requires Valid() && LinesFit(TextLines(line), surface.width)
      modifies this`floorSeq, this`lastLiveText, this`liveActive, surface
      ensures Valid() && surface.live == []
      ensures surface.durable == old(surface.durable) + PlainLines(TextLines(line))
      ensures forall f: Frame :: f.seqNo <= seqNo ==> Superseded(Value(), f)
    {
      var cleared := Clear();
      surface.WriteDurable(line);
    }
  }

  /** A clear is never undone by a paint in flight: after any paints of frames
      snapshotted before it, nothing is shown. */
  lemma {:induction false} ClearIsFinal(s: Shown, frames: seq<Frame>, at: nat)
    requires s.floorSeq == at && !s.active && forall i :: 0 <= i < |frames| ==> frames[i].seqNo <= at
    ensures PaintAll(s, frames) == s
  {
    if frames != [] {
      assert Painted(s, frames[0]) == s;
      ClearIsFinal(s, frames[1..], at);
    }
  }
}
