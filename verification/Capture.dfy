/** A Task's retained process output (capture.go): a ring of completed lines bounded
    by count and bytes, fed by three streams with a pending line each. A character
    stands for one byte. */
module Capture {

  const MAX_CAPTURE_CHUNK := 8192

  datatype Stream = Combined | Stdout | Stderr

  datatype Line = Line(sequence: nat, stream: Stream, text: string)

  /** Sanitizing, redacting and cutting a raw line, whatever that does. */
  type Normalizer = string -> string

  // ---- the ring -----------------------------------------------------------

  function Bytes(lines: seq<Line>): nat {
    if lines == [] then 0 else |lines[0].text| + 1 + Bytes(lines[1..])
  }

  predicate Fits(lines: seq<Line>, maxLines: nat, maxBytes: nat) {
    |lines| <= maxLines && Bytes(lines) <= maxBytes
  }

  /** The longest suffix of lines that fits. */
  function LongestFitting(lines: seq<Line>, maxLines: nat, maxBytes: nat): seq<Line> {
    if Fits(lines, maxLines, maxBytes) then lines
    else LongestFitting(lines[1..], maxLines, maxBytes)
  }

  lemma {:induction false} BytesAppend(a: seq<Line>, b: seq<Line>)
    ensures Bytes(a + b) == Bytes(a) + Bytes(b)
  {
    if a == [] {
      assert a + b == b;
    } else {
      assert (a + b)[1..] == a[1..] + b;
      BytesAppend(a[1..], b);
    }
  }

  /** What it is: a suffix that fits, and every longer one does not. */
  lemma {:induction false} LongestIs(lines: seq<Line>, maxLines: nat, maxBytes: nat) returns (dropped: nat)
    ensures dropped <= |lines| && LongestFitting(lines, maxLines, maxBytes) == lines[dropped..]
    ensures Fits(lines[dropped..], maxLines, maxBytes)
    ensures forall k :: 0 <= k < dropped ==> !Fits(lines[k..], maxLines, maxBytes)
  {
    if Fits(lines, maxLines, maxBytes) {
      dropped := 0;
      assert lines[0..] == lines;
    } else {
      var d := LongestIs(lines[1..], maxLines, maxBytes);
      dropped := d + 1;
      assert lines[1..][d..] == lines[d + 1..];
      forall k | 0 <= k < dropped ensures !Fits(lines[k..], maxLines, maxBytes) {
        if k == 0 {
          assert lines[0..] == lines;
        } else {
          assert lines[1..][k - 1..] == lines[k..];
        }
      }
    }
  }

  lemma SuffixFits(a: seq<Line>, last: seq<Line>, maxLines: nat, maxBytes: nat)
    requires Fits(a + last, maxLines, maxBytes)
    ensures Fits(a, maxLines, maxBytes)
  {
    BytesAppend(a, last);
  }

  /** Evicting as lines arrive leaves what evicting from all of them would. */
  lemma {:induction false} LongestAppend(lines: seq<Line>, line: Line, maxLines: nat, maxBytes: nat)
    ensures LongestFitting(LongestFitting(lines, maxLines, maxBytes) + [line], maxLines, maxBytes)
         == LongestFitting(lines + [line], maxLines, maxBytes)
  {
    if !Fits(lines, maxLines, maxBytes) {
      if Fits(lines + [line], maxLines, maxBytes) {
        SuffixFits(lines, [line], maxLines, maxBytes);
      }
      assert (lines + [line])[1..] == lines[1..] + [line];
      LongestAppend(lines[1..], line, maxLines, maxBytes);
    }
  }

  /** Once something is dropped, something stays dropped. */
  lemma {:induction false} LongestShorter(lines: seq<Line>, maxLines: nat, maxBytes: nat)
    ensures |LongestFitting(lines, maxLines, maxBytes)| <= |lines|
    ensures |LongestFitting(lines, maxLines, maxBytes)| < |lines| <==> !Fits(lines, maxLines, maxBytes)
  {
    if !Fits(lines, maxLines, maxBytes) {
      LongestShorter(lines[1..], maxLines, maxBytes);
    }
  }

  lemma DroppedStays(lines: seq<Line>, line: Line, maxLines: nat, maxBytes: nat)
    ensures |LongestFitting(lines + [line], maxLines, maxBytes)| < |lines| + 1 <==>
      |LongestFitting(lines, maxLines, maxBytes)| < |lines|
      || |LongestFitting(LongestFitting(lines, maxLines, maxBytes) + [line], maxLines, maxBytes)| < |LongestFitting(lines, maxLines, maxBytes)| + 1
  {
    LongestAppend(lines, line, maxLines, maxBytes);
    LongestShorter(lines, maxLines, maxBytes);
    LongestShorter(lines + [line], maxLines, maxBytes);
    LongestShorter(LongestFitting(lines, maxLines, maxBytes) + [line], maxLines, maxBytes);
  }

  // ---- lines from raw bytes -----------------------------------------------

  /** What one stream's writer makes of raw bytes: the raw lines completed, and the
      part still pending. */
  function Feed(pending: string, raw: string): (seq<string>, string)
    decreases |raw|
  {
    if raw == "" then ([], pending)
    else if raw[0] == '\n' then
      var (lines, rest) := Feed("", raw[1..]);
      ([pending] + lines, rest)
    else Feed(pending + [raw[0]], raw[1..])
  }

  lemma {:induction false} FeedAppend(pending: string, a: string, b: string)
    ensures var (la, pa) := Feed(pending, a);
      var (lb, pb) := Feed(pa, b);
      Feed(pending, a + b) == (la + lb, pb)
    decreases |a|
  {
    if a == "" {
      assert a + b == b;
      assert [] + Feed(pending, b).0 == Feed(pending, b).0;
    } else {
      assert (a + b)[1..] == a[1..] + b;
      if a[0] == '\n' {
        FeedAppend("", a[1..], b);
        var (la, pa) := Feed("", a[1..]);
        assert [pending] + (la + Feed(pa, b).0) == [pending] + la + Feed(pa, b).0;
      } else {
        FeedAppend(pending + [a[0]], a[1..], b);
      }
    }
  }

  /** No completed line is longer than the chunk, and the part left pending is no
      longer than the first byte past it. */
  ghost predicate CutsAlike(pending: string, raw: string) {
    var (lines, rest) := Feed(pending, raw);
    |rest| <= MAX_CAPTURE_CHUNK + 1 && ShortAll(lines)
  }

  /** One Write: an overlong partial line is completed at its end. */
  function Written(pending: string, raw: string): (seq<string>, string) {
    var (lines, rest) := Feed(pending, raw);
    if |rest| > MAX_CAPTURE_CHUNK then (lines + [rest], "") else (lines, rest)
  }

  function WrittenAll(pending: string, writes: seq<string>): (seq<string>, string)
    decreases |writes|
  {
    if writes == [] then ([], pending)
    else
      var (lines, rest) := Written(pending, writes[0]);
      var (more, last) := WrittenAll(rest, writes[1..]);
      (lines + more, last)
  }

  function Joined(writes: seq<string>): string {
    if writes == [] then "" else writes[0] + Joined(writes[1..])
  }

  lemma {:induction false} PendingGrows(pending: string, raw: string)
    ensures var (lines, rest) := Feed(pending, raw);
      (if lines == [] then |rest| else |lines[0]|) >= |pending|
    decreases |raw|
  {
    if raw != "" && raw[0] != '\n' {
      PendingGrows(pending + [raw[0]], raw[1..]);
    }
  }

  ghost predicate ShortAll(lines: seq<string>) {
    forall i :: 0 <= i < |lines| ==> |lines[i]| <= MAX_CAPTURE_CHUNK
  }

  lemma ShortParts(a: seq<string>, b: seq<string>)
    requires ShortAll(a + b)
    ensures ShortAll(b) && (b != [] ==> |b[0]| <= MAX_CAPTURE_CHUNK)
  {
    forall i | 0 <= i < |b| ensures |b[i]| <= MAX_CAPTURE_CHUNK {
      assert (a + b)[|a| + i] == b[i];
    }
  }

  /** Short lines stay short on the way, and an overlong partial line is the end. */
  lemma ShortOnTheWay(pending: string, a: string, b: string)
    requires CutsAlike(pending, a + b)
    ensures CutsAlike(Feed(pending, a).1, b)
    ensures |Feed(pending, a).1| > MAX_CAPTURE_CHUNK ==> b == ""
  {
    FeedAppend(pending, a, b);
    var (la, pa) := Feed(pending, a);
    var (lb, pb) := Feed(pa, b);
    PendingGrows(pa, b);
    ShortParts(la, lb);
    if |pa| > MAX_CAPTURE_CHUNK && b != "" {
      PendingGrows(pa + [b[0]], b[1..]);
      assert false;
    }
  }

  /** How the same bytes are cut into Writes changes nothing, when no line is longer
      than the chunk. */
  lemma {:induction false} SplitWrites(pending: string, writes: seq<string>)
    requires |pending| <= MAX_CAPTURE_CHUNK && CutsAlike(pending, Joined(writes))
    ensures WrittenAll(pending, writes) == Written(pending, Joined(writes))
    ensures |Feed(pending, Joined(writes)).1| <= MAX_CAPTURE_CHUNK ==>
      WrittenAll(pending, writes) == Feed(pending, Joined(writes))
    decreases |writes|
  {
    if writes != [] {
      var a, b := writes[0], Joined(writes[1..]);
      ShortOnTheWay(pending, a, b);
      FeedAppend(pending, a, b);
      var (la, pa) := Feed(pending, a);
      if |pa| <= MAX_CAPTURE_CHUNK {
        SplitWrites(pa, writes[1..]);
        var (lb, pb) := Feed(pa, b);
        assert la + (lb + [pb]) == la + lb + [pb];
      } else {
        SplitWrites("", writes[1..]);
        assert la + [] == la && la + [pa] + [] == la + [pa];
      }
    }
  }

  /** The bytes before the newline that completes line i. */
  lemma {:induction false} CutBefore(pending: string, raw: string, i: nat) returns (a: string, b: string)
    requires i < |Feed(pending, raw).0|
    ensures raw == a + ("\n" + b) && Feed(pending, a) == (Feed(pending, raw).0[..i], Feed(pending, raw).0[i])
    decreases |raw|
  {
    var c := raw[0];
    if c == '\n' && i == 0 {
      a, b := "", raw[1..];
    } else if c == '\n' {
      a, b := CutBefore("", raw[1..], i - 1);
      var lines := Feed("", raw[1..]).0;
      assert [pending] + lines[..i - 1] == ([pending] + lines)[..i];
      assert (['\n'] + a)[1..] == a;
      a := ['\n'] + a;
    } else {
      a, b := CutBefore(pending + [c], raw[1..], i);
      assert ([c] + a)[1..] == a;
      a := [c] + a;
    }
  }

  /** A cut before the newline of an overlong line completes it twice. */
  lemma OverlongLineCut(pending: string, raw: string, i: nat) returns (writes: seq<string>)
    requires i < |Feed(pending, raw).0| && |Feed(pending, raw).0[i]| > MAX_CAPTURE_CHUNK
    ensures Joined(writes) == raw && WrittenAll(pending, writes) != Written(pending, raw)
  {
    var a, b := CutBefore(pending, raw, i);
    var line := Feed(pending, raw).0[i];
    writes := [a, "\n" + b];
    TwoWrites(pending, a, "\n" + b);
    FeedAppend(pending, a, "\n" + b);
    assert ("\n" + b)[1..] == b;
    var (lb, pb) := Feed("", b);
    assert Feed("", "\n" + b) == ([""] + lb, pb) && Feed(line, "\n" + b) == ([line] + lb, pb);
    assert |WrittenAll(pending, writes).0| == |Written(pending, raw).0| + 1;
  }

  lemma TwoWrites(pending: string, a: string, b: string)
    ensures Joined([a, b]) == a + b
    ensures var (la, pa) := Written(pending, a);
      var (lb, pb) := Written(pa, b);
      WrittenAll(pending, [a, b]) == (la + lb, pb)
  {
    hide Written;
    assert [a, b][1..] == [b] && [b][1..] == [];
    assert Joined([b]) == b + Joined([]) && b + "" == b;
    var (la, pa) := Written(pending, a);
    var (lb, pb) := Written(pa, b);
    assert WrittenAll(pa, [b]) == (lb + [], pb) && lb + [] == lb;
  }

  /** A cut before the last byte of an overlong tail leaves that byte pending. */
  lemma OverlongTailCut(pending: string, raw: string) returns (writes: seq<string>)
    requires |pending| <= MAX_CAPTURE_CHUNK && |Feed(pending, raw).1| > MAX_CAPTURE_CHUNK + 1
    ensures Joined(writes) == raw && WrittenAll(pending, writes) != Written(pending, raw)
  {
    assert raw != "";
    var n := |raw| - 1;
    var a, last := raw[..n], raw[n..];
    assert raw == a + last && last == [raw[n]] && last[1..] == "";
    writes := [a, last];
    TwoWrites(pending, a, last);
    FeedAppend(pending, a, last);
    var pa := Feed(pending, a).1;
    assert Feed(pa, last) == if raw[n] == '\n' then ([pa] + [], "") else ([], pa + [raw[n]]);
    assert Feed("", last) == ([], "" + [raw[n]]);
    assert Written("", last).1 == [raw[n]];
  }

  /** Exactly which bytes read the same however they are cut into Writes. */
  lemma SplitExactly(pending: string, raw: string)
    requires |pending| <= MAX_CAPTURE_CHUNK
    ensures CutsAlike(pending, raw) <==>
      forall writes :: Joined(writes) == raw ==> WrittenAll(pending, writes) == Written(pending, raw)
  {
    if CutsAlike(pending, raw) {
      forall writes | Joined(writes) == raw ensures WrittenAll(pending, writes) == Written(pending, raw) {
        SplitWrites(pending, writes);
      }
    } else if |Feed(pending, raw).1| > MAX_CAPTURE_CHUNK + 1 {
      var writes := OverlongTailCut(pending, raw);
    } else {
      var i :| 0 <= i < |Feed(pending, raw).0| && |Feed(pending, raw).0[i]| > MAX_CAPTURE_CHUNK;
      var writes := OverlongLineCut(pending, raw, i);
    }
  }

  lemma {:induction false} FeedPlain(pending: string, raw: string)
    requires forall i :: 0 <= i < |raw| ==> raw[i] != '\n'
    ensures Feed(pending, raw) == ([], pending + raw)
    decreases |raw|
  {
    if raw == "" {
      assert pending + raw == pending;
    } else {
      FeedPlain(pending + [raw[0]], raw[1..]);
      assert pending + [raw[0]] + raw[1..] == pending + raw;
    }
  }

  // ---- the lines retained -------------------------------------------------

  /** The non-empty normalized lines of raw lines, numbered after n. */
  function Numbered(normal: Normalizer, stream: Stream, raws: seq<string>, n: nat): seq<Line> {
    if raws == [] then []
    else
      var text := normal(raws[0]);
      if text == "" then Numbered(normal, stream, raws[1..], n)
      else [Line(n + 1, stream, text)] + Numbered(normal, stream, raws[1..], n + 1)
  }

  class Evidence {
    const maxLines: nat
    const maxBytes: nat
    const normal: Normalizer
    var pendingCombined: string
    var pendingStdout: string
    var pendingStderr: string
    var lines: seq<Line>
    var sequence: nat
    var nbytes: int
    var truncated: bool
    /** Every completed line so far. */
    ghost var all: seq<Line>

    ghost predicate Valid()
      reads this
    {
      && sequence == |all| && (forall i :: 0 <= i < |all| ==> all[i].sequence == i + 1)
      && lines == LongestFitting(all, maxLines, maxBytes)
      && nbytes == Bytes(lines)
      && truncated == (|lines| < |all|)
    }

    constructor (keepLines: nat, keepBytes: nat, normalize: Normalizer)
      ensures Valid() && all == [] && maxLines == keepLines && maxBytes == keepBytes && normal == normalize
      ensures pendingCombined == pendingStdout == pendingStderr == ""
    {
      maxLines, maxBytes, normal := keepLines, keepBytes, normalize;
      pendingCombined, pendingStdout, pendingStderr := "", "", "";
      lines, sequence, nbytes, truncated, all := [], 0, 0, false, [];
    }

    function Pending(stream: Stream): string
      reads this
    {
      match stream
      case Combined => pendingCombined
      case Stdout => pendingStdout
      case Stderr => pendingStderr
    }

    method SetPending(stream: Stream, text: string)
      modifies this`pendingCombined, this`pendingStdout, this`pendingStderr
      ensures Pending(stream) == text && forall s :: s != stream ==> Pending(s) == old(Pending(s))
    {
      match stream
      case Combined => pendingCombined := text;
      case Stdout => pendingStdout := text;
      case Stderr => pendingStderr := text;
    }

    /** Completes the stream's pending line and evicts from the front until the ring
        fits. */
    method FlushPending(stream: Stream)
      requires Valid()
      modifies this
      ensures Valid() && Pending(stream) == "" && forall s :: s != stream ==> Pending(s) == old(Pending(s))
      ensures all == old(all) + Numbered(normal, stream, [old(Pending(stream))], |old(all)|)
    {
      var raw := Pending(stream);
      SetPending(stream, "");
      var text := normal(raw);
      assert [raw][1..] == [];
      if text == "" {
        assert all + [] == all;
        return;
      }
      sequence := sequence + 1;
      var line := Line(sequence, stream, text);
      LongestAppend(all, line, maxLines, maxBytes);
      LongestShorter(all, maxLines, maxBytes);
      LongestShorter(all + [line], maxLines, maxBytes);
      DroppedStays(all, line, maxLines, maxBytes);
      Keep(line);
      all := all + [line];
      assert Numbered(normal, stream, [raw], |old(all)|) == [line];
    }

    /** Adds a line to the ring, and drops the oldest until it fits. */
    method Keep(line: Line)
      requires nbytes == Bytes(lines)
      modifies this`lines, this`nbytes, this`truncated
      ensures lines == LongestFitting(old(lines) + [line], maxLines, maxBytes) && nbytes == Bytes(lines)
      ensures truncated == (old(truncated) || |lines| < |old(lines)| + 1)
    {
      BytesAppend(lines, [line]);
      lines, nbytes := lines + [line], nbytes + |line.text| + 1;
      while |lines| > maxLines || nbytes > maxBytes
        invariant LongestFitting(lines, maxLines, maxBytes) == LongestFitting(old(lines) + [line], maxLines, maxBytes)
        invariant nbytes == Bytes(lines) && |lines| <= |old(lines)| + 1
        invariant truncated == (old(truncated) || |lines| < |old(lines)| + 1)
        decreases |lines|
      {
        if |lines| == 0 {
          break;
        }
        truncated := true;
        nbytes := nbytes - (|lines[0].text| + 1);
        lines := lines[1..];
      }
    }

    /** Splits p at newlines into completed lines, and keeps the rest pending. */
    method Write(stream: Stream, p: string)
      requires Valid()
      modifies this
      ensures Valid() && forall s :: s != stream ==> Pending(s) == old(Pending(s))
      ensures var (raws, rest) := Written(old(Pending(stream)), p);
        Pending(stream) == rest && all == old(all) + Numbered(normal, stream, raws, |old(all)|)
    {
      hide Feed, Numbered, LongestFitting, Bytes, Fed;
      ghost var start, was := Pending(stream), all;
      ghost var done: seq<string> := [];
      var left := p;
      FedNone(start, p);
      NoneNumbered(normal, stream, was);
      while |left| > 0
        invariant Valid() && forall s :: s != stream ==> Pending(s) == old(Pending(s))
        invariant Fed(start, p, done, Pending(stream), left)
        invariant all == was + Numbered(normal, stream, done, |was|)
        decreases |left|
      {
        var i := NewlineAt(left);
        FedTo(start, p, done, Pending(stream), left, i);
        if i == |left| {
          SetPending(stream, Pending(stream) + left);
          left := "";
        } else {
          SetPending(stream, Pending(stream) + left[..i]);
          done := Complete(stream, was, done);
          left := left[i + 1..];
        }
      }
      FedAll(start, p, done, Pending(stream));
      if |Pending(stream)| > MAX_CAPTURE_CHUNK {
        done := Complete(stream, was, done);
      }
    }

    /** Completes the pending line, the next raw line after done. */
    method Complete(stream: Stream, ghost was: seq<Line>, ghost done: seq<string>) returns (ghost done': seq<string>)
      requires Valid() && all == was + Numbered(normal, stream, done, |was|)
      modifies this
      ensures Valid() && Pending(stream) == "" && forall s :: s != stream ==> Pending(s) == old(Pending(s))
      ensures done' == done + [old(Pending(stream))] && all == was + Numbered(normal, stream, done', |was|)
    {
      hide Numbered, LongestFitting, Bytes;
      ghost var raw, before := Pending(stream), all;
      FlushPending(stream);
      NumberedMore(normal, stream, done, raw, |was|);
      done' := done + [raw];
      AppendTwice(was, Numbered(normal, stream, done, |was|), Numbered(normal, stream, [raw], |before|));
    }

    /** Close on the whole evidence: every partial line is completed, in stream order. */
    method Close()
      requires Valid()
      modifies this
      ensures Valid() && forall s :: Pending(s) == ""
      ensures var a := old(all) + Flushed(Combined, old(Pending(Combined)), |old(all)|);
        var b := a + Flushed(Stdout, old(Pending(Stdout)), |a|);
        all == b + Flushed(Stderr, old(Pending(Stderr)), |b|)
    {
      hide Numbered, LongestFitting, Bytes;
      FlushIfPresent(Combined);
      FlushIfPresent(Stdout);
      FlushIfPresent(Stderr);
      assert Pending(Combined) == "" && Pending(Stdout) == "" && Pending(Stderr) == "";
    }

    /** The line a partial one is completed to, when there is one. */
    ghost function Flushed(stream: Stream, raw: string, n: nat): seq<Line> {
      if raw == "" then [] else Numbered(normal, stream, [raw], n)
    }

    method FlushIfPresent(stream: Stream)
      requires Valid()
      modifies this
      ensures Valid() && Pending(stream) == "" && forall s :: s != stream ==> Pending(s) == old(Pending(s))
      ensures all == old(all) + Flushed(stream, old(Pending(stream)), |old(all)|)
    {
      hide Numbered, LongestFitting, Bytes;
      if |Pending(stream)| > 0 {
        FlushPending(stream);
      } else {
        assert all + [] == all;
      }
    }
  }

  lemma NoneNumbered(normal: Normalizer, stream: Stream, all: seq<Line>)
    ensures all + Numbered(normal, stream, [], |all|) == all
  {
  }

  lemma AppendTwice(a: seq<Line>, b: seq<Line>, c: seq<Line>)
    ensures a + b + c == a + (b + c)
  {
  }

  function NewlineAt(s: string): (n: nat)
    ensures n <= |s| && (forall i :: 0 <= i < n ==> s[i] != '\n') && (n < |s| ==> s[n] == '\n')
  {
    if s == "" || s[0] == '\n' then 0 else 1 + NewlineAt(s[1..])
  }

  /** Of p, fed from pending start, done is completed, pending is pending and left is
      still to come. */
  ghost predicate Fed(start: string, p: string, done: seq<string>, pending: string, left: string) {
    Feed(start, p) == (done + Feed(pending, left).0, Feed(pending, left).1)
  }

  lemma FedNone(start: string, p: string)
    ensures Fed(start, p, [], start, p)
  {
    assert [] + Feed(start, p).0 == Feed(start, p).0;
  }

  /** One line, with what was pending before it. */
  lemma FeedLine(pending: string, head: string, more: string)
    requires forall i :: 0 <= i < |head| ==> head[i] != '\n'
    ensures var (lines, rest) := Feed("", more);
      Feed(pending, head + ("\n" + more)) == ([pending + head] + lines, rest)
  {
    FeedPlain(pending, head);
    FeedAppend(pending, head, "\n" + more);
    assert ("\n" + more)[1..] == more;
    var lines := [pending + head] + Feed("", more).0;
    assert [] + lines == lines;
  }

  lemma FedToEnd(start: string, p: string, done: seq<string>, pending: string, left: string)
    requires Fed(start, p, done, pending, left) && forall i :: 0 <= i < |left| ==> left[i] != '\n'
    ensures Fed(start, p, done, pending + left, "")
  {
    FeedPlain(pending, left);
    assert Feed(pending + left, "") == ([], pending + left);
  }

  lemma FedToLine(start: string, p: string, done: seq<string>, pending: string, head: string, more: string)
    requires Fed(start, p, done, pending, head + ("\n" + more)) && forall i :: 0 <= i < |head| ==> head[i] != '\n'
    ensures Fed(start, p, done + [pending + head], "", more)
  {
    hide Feed;
    FeedLine(pending, head, more);
    var lines := Feed("", more).0;
    assert done + ([pending + head] + lines) == done + [pending + head] + lines;
  }

  lemma FedTo(start: string, p: string, done: seq<string>, pending: string, left: string, i: nat)
    requires Fed(start, p, done, pending, left) && i == NewlineAt(left)
    ensures i == |left| ==> Fed(start, p, done, pending + left, "")
    ensures i < |left| ==> Fed(start, p, done + [pending + left[..i]], "", left[i + 1..])
  {
    hide Fed;
    if i < |left| {
      assert left == left[..i] + ("\n" + left[i + 1..]);
      FedToLine(start, p, done, pending, left[..i], left[i + 1..]);
    } else {
      FedToEnd(start, p, done, pending, left);
    }
  }

  lemma FedAll(start: string, p: string, done: seq<string>, pending: string)
    requires Fed(start, p, done, pending, "")
    ensures Feed(start, p) == (done, pending)
  {
    assert done + [] == done;
  }

  lemma {:induction false} NumberedMore(normal: Normalizer, stream: Stream, done: seq<string>, raw: string, n: nat)
    ensures Numbered(normal, stream, done + [raw], n)
         == Numbered(normal, stream, done, n) + Numbered(normal, stream, [raw], n + |Numbered(normal, stream, done, n)|)
    decreases |done|
  {
    if done == [] {
      assert [] + [raw] == [raw];
      assert [] + Numbered(normal, stream, [raw], n) == Numbered(normal, stream, [raw], n);
    } else {
      assert (done + [raw])[1..] == done[1..] + [raw];
      var text := normal(done[0]);
      NumberedMore(normal, stream, done[1..], raw, if text == "" then n else n + 1);
      if text != "" {
        var rest := Numbered(normal, stream, done[1..], n + 1);
        assert [Line(n + 1, stream, text)] + (rest + Numbered(normal, stream, [raw], n + 1 + |rest|))
            == [Line(n + 1, stream, text)] + rest + Numbered(normal, stream, [raw], n + 1 + |rest|);
      }
    }
  }
}
