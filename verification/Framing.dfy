/** MCP stdio framing (cmd/evident-output-mcp): a reader that takes newline-delimited
    messages and Content-Length frames from one stream, and the printer for both.
    A character stands for one byte. */
module Framing {
  import opened Decimals

  const MAX_FRAME_BYTES := 8 * 1024 * 1024

  /** The widest int64. */
  const MAX_INT := 0x7fff_ffff_ffff_ffff

  datatype Mode = FrameNDJSON | FrameContentLength

  /** One readMCPMessage result. BadLength is an unreadable Content-Length value, and
      Ended any end of the stream. */
  datatype Read =
    | Message(body: string, mode: Mode)
    | TooLarge(over: Mode)
    | BadLength
    | Ended(at: Mode)

  datatype Option<T> = None | Some(value: T)

  // ---- text ---------------------------------------------------------------

  predicate Blank(c: char) { c == '\n' || c == '\r' }

  predicate Return(c: char) { c == '\r' }

  /** unicode.IsSpace on one byte. */
  predicate Space(c: char) { c == ' ' || '\t' <= c <= '\r' }

  predicate Digit(c: char) { '0' <= c <= '9' }

  function IndexOf(s: string, c: char): (n: nat)
    ensures n <= |s| && (forall i :: 0 <= i < n ==> s[i] != c) && (n < |s| ==> s[n] == c)
  {
    if s == "" || s[0] == c then 0 else 1 + IndexOf(s[1..], c)
  }

  function TrimRight(s: string, drop: char -> bool): string {
    if s != "" && drop(s[|s| - 1]) then TrimRight(s[..|s| - 1], drop) else s
  }

  function TrimLeft(s: string, drop: char -> bool): string {
    if s != "" && drop(s[0]) then TrimLeft(s[1..], drop) else s
  }

  function TrimSpace(s: string): string { TrimLeft(TrimRight(s, Space), Space) }

  function Lower(s: string): (r: string)
    ensures |r| == |s|
  {
    seq(|s|, i requires 0 <= i < |s| => if 'A' <= s[i] <= 'Z' then (s[i] as int + 32) as char else s[i])
  }

  predicate AllDigits(s: string) { forall i :: 0 <= i < |s| ==> Digit(s[i]) }

  /** strconv.Atoi: a sign, digits, and a value an int holds. */
  function Atoi(s: string): Option<int> {
    var negative := s != "" && s[0] == '-';
    var digits := if s != "" && (s[0] == '-' || s[0] == '+') then s[1..] else s;
    if digits == "" || !AllDigits(digits) then None
    else
      var n: int := if negative then 0 - Number(digits) else Number(digits);
      if -MAX_INT - 1 <= n <= MAX_INT then Some(n) else None
  }

  // ---- what a stream says -------------------------------------------------

  /** What one read gives of stream s, and what it leaves. */
  function Parse(s: string): (Read, string) {
    var t := TrimLeft(s, Blank);
    if t == "" then (Ended(FrameNDJSON), "")
    else if t[0] == 'C' || t[0] == 'c' then ParseHeader(t)
    else ParseLine(t)
  }

  /** The stream after the line s starts with. */
  function AfterLine(s: string): string {
    var k := IndexOf(s, '\n');
    if k < |s| then s[k + 1..] else ""
  }

  function ParseLine(s: string): (Read, string) {
    var k := IndexOf(s, '\n');
    var line := s[..k];
    if |line| > MAX_FRAME_BYTES then (TooLarge(FrameNDJSON), AfterLine(s))
    else if k == |s| && line == "" then (Ended(FrameNDJSON), "")
    else (Message(TrimRight(line, Return), FrameNDJSON), AfterLine(s))
  }

  function ParseHeader(s: string): (Read, string) {
    var k := IndexOf(s, '\n');
    if k == |s| then (Ended(FrameContentLength), "")
    else
      var line := TrimRight(s[..k + 1], Blank);
      var rest := s[k + 1..];
      var colon := IndexOf(line, ':');
      var value := if colon < |line| then line[colon + 1..] else "";
      if Lower(TrimSpace(line[..colon])) != "content-length" then (Message(line, FrameNDJSON), rest)
      else
        match Atoi(TrimSpace(value))
        case None => (BadLength, rest)
        case Some(n) => if n < 0 then (BadLength, rest) else ParseBody(n, rest)
  }

  function ParseBody(n: nat, s: string): (Read, string) {
    match SkipHeaders(s)
    case None => (Ended(FrameContentLength), "")
    case Some(body) =>
      if |body| < n then (Ended(FrameContentLength), "")
      else if n > MAX_FRAME_BYTES then (TooLarge(FrameContentLength), body[n..])
      else (Message(body[..n], FrameContentLength), body[n..])
  }

  /** The stream after the blank line that ends the headers. */
  function SkipHeaders(s: string): Option<string>
    decreases |s|
  {
    var k := IndexOf(s, '\n');
    if k == |s| then None
    else if s[..k + 1] == "\n" || s[..k + 1] == "\r\n" then Some(s[k + 1..])
    else SkipHeaders(s[k + 1..])
  }

  // ---- the buffered reader ------------------------------------------------

  datatype SliceEnd = AtDelimiter | BufferFull | AtEOF

  /** bufio.Reader over what is left of the stream, with a buffer of size bytes. */
  class BufReader {
    const size: nat
    var rest: string

    ghost predicate Valid()
      reads this
    {
      size >= 16
    }

    constructor (stream: string, buffer: nat)
      requires buffer >= 16
      ensures Valid() && rest == stream && size == buffer
    {
      rest, size := stream, buffer;
    }

    /** Up to and including c, or a whole buffer without it, or what is left. */
    method ReadSlice(c: char) returns (chunk: string, end: SliceEnd)
      requires Valid()
      modifies this
      ensures Valid() && old(rest) == chunk + rest
      ensures var k := IndexOf(old(rest), c);
        if k < |old(rest)| && k < size then end == AtDelimiter && |chunk| == k + 1
        else if |old(rest)| >= size then end == BufferFull && |chunk| == size
        else end == AtEOF && rest == ""
    {
      var k := IndexOf(rest, c);
      var n;
      if k < |rest| && k < size {
        n, end := k + 1, AtDelimiter;
      } else if |rest| >= size {
        n, end := size, BufferFull;
      } else {
        n, end := |rest|, AtEOF;
      }
      chunk, rest := rest[..n], rest[n..];
    }

    /** A line however long, or nothing when the stream ends first. */
    method ReadString() returns (line: Option<string>)
      requires Valid()
      modifies this
      ensures Valid()
      ensures var k := IndexOf(old(rest), '\n');
        if k < |old(rest)| then line == Some(old(rest)[..k + 1]) && rest == old(rest)[k + 1..] else line == None && rest == ""
    {
      var k := IndexOf(rest, '\n');
      if k < |rest| {
        line, rest := Some(rest[..k + 1]), rest[k + 1..];
      } else {
        line, rest := None, "";
      }
    }

    /** Exactly n bytes, or nothing when the stream ends first. */
    method ReadFull(n: nat) returns (body: Option<string>)
      requires Valid()
      modifies this
      ensures Valid()
      ensures if n <= |old(rest)| then body == Some(old(rest)[..n]) && rest == old(rest)[n..] else body == None && rest == ""
    {
      if n <= |rest| {
        body, rest := Some(rest[..n]), rest[n..];
      } else {
        body, rest := None, "";
      }
    }

    // ---- reading one message ----------------------------------------------

    method SkipBlankLines() returns (ended: bool)
      requires Valid()
      modifies this
      ensures Valid() && rest == TrimLeft(old(rest), Blank) && ended == (rest == "")
    {
      while rest != "" && Blank(rest[0])
        invariant Valid() && TrimLeft(rest, Blank) == TrimLeft(old(rest), Blank)
        decreases |rest|
      {
        rest := rest[1..];
      }
      ended := rest == "";
    }

    /** One newline-terminated message, taken a buffer at a time. What it gives does
        not depend on the buffer's size. */
    method ReadNDJSONFrame() returns (r: Read)
      requires Valid()
      modifies this
      ensures Valid() && (r, rest) == ParseLine(old(rest))
    {
      hide IndexOf, TrimRight;
      ghost var s := rest;
      var line := "";
      assert s == line + rest;
      while true
        invariant Valid() && s == line + rest && |line| <= IndexOf(s, '\n') && |line| <= MAX_FRAME_BYTES
        decreases |rest|
      {
        ghost var before := rest;
        var chunk, end := ReadSlice('\n');
        ChunkTaken(s, line, before, chunk, rest, end, size);
        var content := if end == AtDelimiter then chunk[..|chunk| - 1] else chunk;
        if |line| + |content| > MAX_FRAME_BYTES {
          if end == BufferFull {
            DiscardLine(s, line + chunk);
          }
          return TooLarge(FrameNDJSON);
        }
        line := line + content;
        match end {
          case AtDelimiter =>
          case BufferFull => continue;
          case AtEOF =>
            if |line| == 0 {
              return Ended(FrameNDJSON);
            }
        }
        return Message(TrimRight(line, Return), FrameNDJSON);
      }
    }

    /** Skips the rest of the line that begins s, of which taken is gone. */
    method DiscardLine(ghost s: string, ghost taken: string)
      requires Valid() && s == taken + rest && |taken| <= IndexOf(s, '\n')
      modifies this
      ensures Valid() && rest == AfterLine(s)
    {
      ghost var k := IndexOf(s, '\n');
      ghost var gone := taken;
      var end := BufferFull;
      while end == BufferFull
        invariant Valid() && s == gone + rest
        invariant if end == BufferFull then |gone| <= k else rest == AfterLine(s)
        decreases |rest|, if end == BufferFull then 1 else 0
      {
        LaterIndex(s, gone, rest, '\n');
        var chunk;
        chunk, end := ReadSlice('\n');
        gone := gone + chunk;
        assert end == AtDelimiter ==> |gone| == k + 1 && rest == s[k + 1..];
      }
    }

    /** One Content-Length frame, or a line that only looks like one. */
    method ReadContentLengthFrame() returns (r: Read)
      requires Valid()
      modifies this
      ensures Valid() && (r, rest) == ParseHeader(old(rest))
    {
      hide IndexOf, TrimRight, Lower, TrimSpace, Atoi, ParseBody;
      ghost var s := rest;
      var header := ReadString();
      if header.None? {
        return Ended(FrameContentLength);
      }
      var line := TrimRight(header.value, Blank);
      var colon := IndexOf(line, ':');
      var name := line[..colon];
      var value := if colon < |line| then line[colon + 1..] else "";
      if Lower(TrimSpace(name)) != "content-length" {
        return Message(line, FrameNDJSON);
      }
      var n := Atoi(TrimSpace(value));
      if n.None? || n.value < 0 {
        return BadLength;
      }
      r := ReadBody(n.value);
    }

    /** The rest of the headers, and a body of n bytes: discarded when too large, so
        that the next message starts where it ends. */
    method ReadBody(n: nat) returns (r: Read)
      requires Valid()
      modifies this
      ensures Valid() && (r, rest) == ParseBody(n, old(rest))
    {
      var more := true;
      while more
        invariant Valid() && (if more then SkipHeaders(rest) else Some(rest)) == SkipHeaders(old(rest))
        decreases |rest|, more
      {
        var line := ReadString();
        if line.None? {
          return Ended(FrameContentLength);
        }
        more := !(line.value == "\n" || line.value == "\r\n");
      }
      var body := ReadFull(n);
      if body.None? {
        return Ended(FrameContentLength);
      }
      if n > MAX_FRAME_BYTES {
        return TooLarge(FrameContentLength);
      }
      r := Message(body.value, FrameContentLength);
    }

    /** readMCPMessage. */
    method ReadMessage() returns (r: Read)
      requires Valid()
      modifies this
      ensures Valid() && (r, rest) == Parse(old(rest))
    {
      var ended := SkipBlankLines();
      if ended {
        return Ended(FrameNDJSON);
      }
      if rest[0] == 'C' || rest[0] == 'c' {
        r := ReadContentLengthFrame();
      } else {
        r := ReadNDJSONFrame();
      }
    }
  }

  /** What one slice of line s means, after line was taken of it. */
  lemma ChunkTaken(s: string, line: string, before: string, chunk: string, rest: string, end: SliceEnd, size: nat)
    requires s == line + before && before == chunk + rest && |line| <= IndexOf(s, '\n')
    requires var k := IndexOf(before, '\n');
      if k < |before| && k < size then end == AtDelimiter && |chunk| == k + 1
      else if |before| >= size then end == BufferFull && |chunk| == size
      else end == AtEOF && rest == ""
    ensures var k := IndexOf(s, '\n');
      match end
      case AtDelimiter => |chunk| > 0 && k < |s| && line + chunk[..|chunk| - 1] == s[..k] && rest == AfterLine(s)
      case BufferFull => s == line + chunk + rest && |line + chunk| <= k <= |s| && |chunk| == size
      case AtEOF => k == |s| && line + chunk == s && s[..k] == s && rest == AfterLine(s) == ""
  {
    LaterIndex(s, line, before, '\n');
    Slices(line, chunk, rest);
    Joins(line, chunk, rest);
    hide IndexOf;
    match end {
      case AtDelimiter =>
        AfterIs(s, |line| + |chunk| - 1);
      case BufferFull =>
      case AtEOF =>
        AfterNone(s);
    }
  }

  lemma Joins(line: string, chunk: string, rest: string)
    ensures line + (chunk + rest) == line + chunk + rest
    ensures rest == "" ==> line + (chunk + rest) == line + chunk
  {
  }

  lemma Slices(line: string, chunk: string, rest: string)
    ensures var s := line + chunk + rest;
      && s[|line| + |chunk|..] == rest && s[..|line| + |chunk|] == line + chunk
      && (chunk != "" ==> s[..|line| + |chunk| - 1] == line + chunk[..|chunk| - 1])
  {
  }

  lemma AfterIs(s: string, k: nat)
    requires k == IndexOf(s, '\n') < |s|
    ensures AfterLine(s) == s[k + 1..]
  {
  }

  lemma AfterNone(s: string)
    requires IndexOf(s, '\n') == |s|
    ensures AfterLine(s) == "" && s[..|s|] == s
  {
  }

  lemma IndexIs(s: string, c: char, k: nat)
    requires k <= |s| && (forall i :: 0 <= i < k ==> s[i] != c) && (k < |s| ==> s[k] == c)
    ensures IndexOf(s, c) == k
  {
  }

  lemma LaterIndex(s: string, taken: string, rest: string, c: char)
    requires s == taken + rest && |taken| <= IndexOf(s, c)
    ensures IndexOf(s, c) == |taken| + IndexOf(rest, c)
  {
    var j := IndexOf(rest, c);
    forall i | |taken| <= i < |taken| + j ensures s[i] != c {
      assert s[i] == rest[i - |taken|];
    }
    IndexIs(s, c, |taken| + j);
  }

  // ---- the printer --------------------------------------------------------

  /** A JSON object on one line. */
  ghost predicate IsMessage(m: string) {
    |m| >= 2 && m[0] == '{' && m[|m| - 1] == '}' && IndexOf(m, '\n') == |m| && |m| <= MAX_INT
  }

  const HEADER := "Content-Length: "

  /** writeFramed. */
  function Printed(m: string, mode: Mode): string {
    match mode
    case FrameContentLength => HEADER + Decimal(|m|) + "\r\n\r\n" + m
    case FrameNDJSON => m + "\n"
  }

  /** The shared output and the framing its reader asked for. */
  class Writer {
    var outMode: Mode
    var out: string

    constructor ()
      ensures outMode == FrameNDJSON && out == ""
    {
      outMode, out := FrameNDJSON, "";
    }

    method WriteFramed(data: string)
      modifies this
      ensures out == old(out) + Printed(data, outMode) && outMode == old(outMode)
    {
      match outMode
      case FrameContentLength =>
        out := out + (HEADER + Decimal(|data|) + "\r\n\r\n" + data);
      case FrameNDJSON =>
        out := out + data;
        assert old(out) + data + "\n" == old(out) + (data + "\n");
        out := out + "\n";
    }
  }

  /** What a reader is owed for message m. */
  function Owed(m: string, mode: Mode): Read {
    if |m| > MAX_FRAME_BYTES then TooLarge(mode) else Message(m, mode)
  }

  /** A text without c, then c, then anything, is cut at c. */
  lemma Halves(a: string, c: char, b: string)
    requires forall i :: 0 <= i < |a| ==> a[i] != c
    ensures var s := a + [c] + b;
      IndexOf(s, c) == |a| && s[..|a|] == a && s[..|a| + 1] == a + [c] && s[|a| + 1..] == b
  {
    IndexIs(a + [c] + b, c, |a|);
  }

  lemma TrimsNothing(s: string, drop: char -> bool)
    requires s == "" || !drop(s[|s| - 1])
    ensures TrimRight(s, drop) == s
  {
  }

  lemma TrimsOne(s: string, c: char, drop: char -> bool)
    requires drop(c)
    ensures TrimRight(s + [c], drop) == TrimRight(s, drop)
  {
    assert (s + [c])[..|s|] == s;
  }

  /** A message on its line is read back, or answered as too large, and the next
      frame is read from its first byte. */
  lemma LineReadsBack(m: string, tail: string)
    requires IsMessage(m)
    ensures Parse(Printed(m, FrameNDJSON) + tail) == (Owed(m, FrameNDJSON), tail)
  {
    var s := m + "\n" + tail;
    Halves(m, '\n', tail);
    assert s[0] == '{';
    TrimsNothing(m, Return);
  }

  lemma AtoiReads(n: nat)
    requires n <= MAX_INT
    ensures Atoi(Decimal(n)) == Some(n) && TrimSpace(" " + Decimal(n)) == Decimal(n)
  {
    DecimalReads(n);
    var d := Decimal(n);
    TrimsNothing(" " + d, Space);
    assert (" " + d)[1..] == d;
    assert TrimLeft(d, Space) == d;
  }

  const NAME := "Content-Length"

  lemma NameIsKnown()
    ensures Lower(TrimSpace(NAME)) == "content-length"
    ensures forall i :: 0 <= i < |NAME| ==> NAME[i] != ':' && NAME[i] != '\n'
    ensures HEADER == NAME + [':'] + " "
  {
    TrimsNothing(NAME, Space);
  }

  lemma HeaderLine(n: nat)
    requires n <= MAX_INT
    ensures var line := HEADER + Decimal(n);
      && IndexOf(line, ':') == |NAME| < |line|
      && Lower(TrimSpace(line[..|NAME|])) == "content-length"
      && Atoi(TrimSpace(line[|NAME| + 1..])) == Some(n)
  {
    hide Lower, TrimSpace, Atoi;
    NameIsKnown();
    assert HEADER + Decimal(n) == NAME + [':'] + (" " + Decimal(n));
    Halves(NAME, ':', " " + Decimal(n));
    AtoiReads(n);
  }

  lemma BlankHeaderEnds(body: string)
    ensures SkipHeaders("\r\n" + body) == Some(body)
  {
    var s := "\r" + ['\n'] + body;
    assert "\r\n" + body == s;
    Halves("\r", '\n', body);
    assert s[..2] == "\r\n";
  }

  lemma HeaderEnds(line: string, body: string)
    requires line != "" && !Blank(line[|line| - 1]) && forall i :: 0 <= i < |line| ==> line[i] != '\n'
    ensures var s := line + "\r\n\r\n" + body;
      var k := IndexOf(s, '\n');
      && k == |line| + 1 && k < |s| && TrimRight(s[..k + 1], Blank) == line
      && SkipHeaders(s[k + 1..]) == Some(body)
  {
    hide SkipHeaders;
    var a := line + ['\r'];
    var b := "\r\n" + body;
    assert line + "\r\n\r\n" + body == a + ['\n'] + b;
    Halves(a, '\n', b);
    TrimsOne(a, '\n', Blank);
    TrimsOne(line, '\r', Blank);
    TrimsNothing(line, Blank);
    BlankHeaderEnds(body);
  }

  lemma LineHasNoNewline(n: nat)
    ensures var line := HEADER + Decimal(n);
      line != "" && line[0] == 'C' && !Blank(line[|line| - 1]) && forall i :: 0 <= i < |line| ==> line[i] != '\n'
  {
  }

  /** The same for a Content-Length frame. */
  lemma FrameReadsBack(m: string, tail: string)
    requires IsMessage(m)
    ensures Parse(Printed(m, FrameContentLength) + tail) == (Owed(m, FrameContentLength), tail)
  {
    hide IndexOf, TrimRight, Lower, TrimSpace, Atoi, SkipHeaders, Decimal;
    var line := HEADER + Decimal(|m|);
    var s := line + "\r\n\r\n" + (m + tail);
    assert Printed(m, FrameContentLength) + tail == s;
    LineHasNoNewline(|m|);
    assert s[0] == 'C';
    HeaderEnds(line, m + tail);
    HeaderLine(|m|);
    BodyReadsBack(m, tail, s[IndexOf(s, '\n') + 1..]);
  }

  lemma BodyReadsBack(m: string, tail: string, s: string)
    requires SkipHeaders(s) == Some(m + tail)
    ensures ParseBody(|m|, s) == (Owed(m, FrameContentLength), tail)
  {
    hide SkipHeaders;
    assert (m + tail)[..|m|] == m && (m + tail)[|m|..] == tail;
  }

  // ---- frames with further headers ----------------------------------------

  /** A header line without its newline: anything but what ends the headers. */
  ghost predicate IsHeader(h: string) {
    h != "" && h != "\r" && forall i :: 0 <= i < |h| ==> h[i] != '\n'
  }

  function HeaderLines(headers: seq<string>): string {
    if headers == [] then "" else headers[0] + "\n" + HeaderLines(headers[1..])
  }

  /** Whatever headers there are, they are skipped, and what follows the first blank line
      is the body. */
  lemma {:induction false} HeadersSkipped(headers: seq<string>, blank: string, body: string)
    requires forall i :: 0 <= i < |headers| ==> IsHeader(headers[i])
    requires blank == "\n" || blank == "\r\n"
    ensures SkipHeaders(HeaderLines(headers) + blank + body) == Some(body)
    decreases |headers|
  {
    var s := HeaderLines(headers) + blank + body;
    if headers == [] {
      assert s == blank + body;
      if blank == "\r\n" {
        BlankHeaderEnds(body);
      } else {
        NewlineEnds(body);
      }
    } else {
      var h, more := headers[0], HeaderLines(headers[1..]) + blank + body;
      assert s == h + ['\n'] + more;
      HeaderSkipped(h, more);
      HeadersSkipped(headers[1..], blank, body);
    }
  }

  lemma NewlineEnds(body: string)
    ensures SkipHeaders("\n" + body) == Some(body)
  {
    var s := "" + ['\n'] + body;
    assert "\n" + body == s;
    Halves("", '\n', body);
    assert s[..1] == "\n";
  }

  lemma HeaderSkipped(h: string, more: string)
    requires IsHeader(h)
    ensures SkipHeaders(h + ['\n'] + more) == SkipHeaders(more)
  {
    var s := h + ['\n'] + more;
    Halves(h, '\n', more);
    var line := s[..|h| + 1];
    assert line == h + ['\n'];
    assert |h| == 1 ==> line[0] != '\r';
    assert line != "\n" && line != "\r\n";
  }

  /** A Content-Length frame with any further headers, ended by a blank line of either
      kind, is read back as one without, and the next frame is read from its first
      byte. */
  lemma HeadedFrameReadsBack(m: string, headers: seq<string>, blank: string, tail: string)
    requires |m| <= MAX_INT && (forall i :: 0 <= i < |headers| ==> IsHeader(headers[i]))
    requires blank == "\n" || blank == "\r\n"
    ensures Parse(HEADER + Decimal(|m|) + "\r\n" + (HeaderLines(headers) + blank + (m + tail))) == (Owed(m, FrameContentLength), tail)
  {
    hide IndexOf, TrimRight, Lower, TrimSpace, Atoi, SkipHeaders, Decimal, HeaderLines;
    var line, rest := HEADER + Decimal(|m|), HeaderLines(headers) + blank + (m + tail);
    var s := line + "\r\n" + rest;
    LineHasNoNewline(|m|);
    assert s[0] == 'C';
    FirstLine(line, rest);
    HeaderLine(|m|);
    HeadersSkipped(headers, blank, m + tail);
    BodyReadsBack(m, tail, rest);
  }

  lemma FirstLine(line: string, rest: string)
    requires line != "" && !Blank(line[|line| - 1]) && forall i :: 0 <= i < |line| ==> line[i] != '\n'
    ensures var s := line + "\r\n" + rest;
      var k := IndexOf(s, '\n');
      k == |line| + 1 && k < |s| && TrimRight(s[..k + 1], Blank) == line && s[k + 1..] == rest
  {
    var a := line + ['\r'];
    assert line + "\r\n" + rest == a + ['\n'] + rest;
    Halves(a, '\n', rest);
    TrimsOne(a, '\n', Blank);
    TrimsOne(line, '\r', Blank);
    TrimsNothing(line, Blank);
  }

  datatype Sent = Sent(body: string, mode: Mode)

  function PrintAll(sent: seq<Sent>): string {
    if sent == [] then "" else Printed(sent[0].body, sent[0].mode) + PrintAll(sent[1..])
  }

  /** n reads from s, and what they leave. */
  function ParseMany(s: string, n: nat): (seq<Read>, string)
    decreases n
  {
    if n == 0 then ([], s)
    else
      var (r, rest) := Parse(s);
      var (more, left) := ParseMany(rest, n - 1);
      ([r] + more, left)
  }

  /** Any mixture of the two framings is read back in order, each message whole or
      answered as too large, with nothing of the stream lost. */
  lemma {:induction false} RoundTrip(sent: seq<Sent>, tail: string)
    requires forall i :: 0 <= i < |sent| ==> IsMessage(sent[i].body)
    ensures var (got, left) := ParseMany(PrintAll(sent) + tail, |sent|);
      && |got| == |sent| && left == tail
      && forall i :: 0 <= i < |sent| ==> got[i] == Owed(sent[i].body, sent[i].mode)
    decreases |sent|
  {
    hide Parse, Printed, Owed;
    if sent == [] {
      assert PrintAll(sent) + tail == tail;
    } else {
      var head := sent[0];
      var rest := PrintAll(sent[1..]) + tail;
      assert PrintAll(sent) + tail == Printed(head.body, head.mode) + rest;
      if head.mode == FrameNDJSON {
        LineReadsBack(head.body, rest);
      } else {
        FrameReadsBack(head.body, rest);
      }
      RoundTrip(sent[1..], tail);
      var (more, left) := ParseMany(rest, |sent| - 1);
      assert forall i :: 0 < i < |sent| ==> sent[i] == sent[1..][i - 1] && ([Parse(PrintAll(sent) + tail).0] + more)[i] == more[i - 1];
    }
  }

  /** Reading it all through a buffer of any size gives the same. */
  method ReadAll(sent: seq<Sent>, buffer: nat) returns (got: seq<Read>)
    requires buffer >= 16 && forall i :: 0 <= i < |sent| ==> IsMessage(sent[i].body)
    ensures |got| == |sent| + 1 && got[|sent|] == Ended(FrameNDJSON)
    ensures forall i :: 0 <= i < |sent| ==> got[i] == Owed(sent[i].body, sent[i].mode)
  {
    hide Parse, ParseMany, PrintAll, Owed, IsMessage;
    var r := new BufReader(PrintAll(sent), buffer);
    ghost var s, n := r.rest, |sent|;
    RoundTrip(sent, "");
    assert PrintAll(sent) + "" == s;
    ghost var expected := ParseMany(s, n).0;
    got := [];
    assert expected[0..] == expected;
    for i := 0 to |sent|
      invariant r.Valid() && got == expected[..i]
      invariant ParseMany(r.rest, n - i) == (expected[i..], "")
    {
      ManyNext(r.rest, n - i);
      var read := r.ReadMessage();
      Shifted(expected, i);
      got := got + [read];
    }
    Shifted(expected, n);
    ManyNone(r.rest);
    var last := r.ReadMessage();
    EmptyEnds();
    got := got + [last];
  }

  lemma Shifted(got: seq<Read>, i: nat)
    requires i <= |got|
    ensures i < |got| ==> got[i..] != [] && got[i..][0] == got[i] && got[i..][1..] == got[i + 1..] && got[..i] + [got[i]] == got[..i + 1]
    ensures i == |got| ==> got[..i] == got && got[i..] == []
  {
  }

  lemma ManyNone(s: string)
    ensures ParseMany(s, 0) == ([], s)
  {
  }

  lemma ManyNext(s: string, n: nat)
    requires n > 0
    ensures var (r, rest) := Parse(s);
      ParseMany(s, n).0 != [] && ParseMany(s, n).0[0] == r && ParseMany(rest, n - 1) == (ParseMany(s, n).0[1..], ParseMany(s, n).1)
  {
  }

  lemma EmptyEnds()
    ensures Parse("") == (Ended(FrameNDJSON), "")
  {
  }
}
