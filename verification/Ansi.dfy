/** The live-region driver (terminal/ansi.go): it redraws and erases a region of
    rows with relative cursor moves, above which durable lines accumulate. */
module Ansi {
  import opened Screen

  // ---- text ---------------------------------------------------------------

  /** How many characters come before the first newline. */
  function LineLen(s: string): (n: nat)
    ensures n <= |s| && (forall i :: 0 <= i < n ==> s[i] != '\n') && (n < |s| ==> s[n] == '\n')
  {
    if s == "" || s[0] == '\n' then 0 else 1 + LineLen(s[1..])
  }

  /** strings.Split(s, "\n"). */
  function Split(s: string): (r: seq<string>)
    ensures |r| > 0
    decreases |s|
  {
    var n := LineLen(s);
    if n == |s| then [s] else [s[..n]] + Split(s[n + 1..])
  }

  function TrimNewlines(s: string): string {
    if s != "" && s[|s| - 1] == '\n' then TrimNewlines(s[..|s| - 1]) else s
  }

  function SplitLines(text: string): seq<string> {
    if text == "" then []
    else
      var trimmed := TrimNewlines(text);
      if trimmed == "" then [] else Split(trimmed)
  }

  predicate EndsLine(s: string) { s != "" && s[|s| - 1] == '\n' }

  /** The lines of a durable text, whose last one needs no newline. */
  function TextLines(text: string): seq<string> {
    if EndsLine(text) then Split(text[..|text| - 1]) else Split(text)
  }

  predicate LinesFit(lines: seq<string>, width: nat) {
    forall i :: 0 <= i < |lines| ==> LineOk(lines[i]) && |Plain(lines[i])| <= width
  }

  function PlainLines(lines: seq<string>): (r: seq<string>)
    ensures |r| == |lines| && forall i :: 0 <= i < |r| ==> r[i] == Plain(lines[i])
  {
    seq(|lines|, i requires 0 <= i < |lines| => Plain(lines[i]))
  }

  // ---- what is on screen --------------------------------------------------

  /** The rows are durable, then region, then blanks, with the cursor on row at of
      the region, which is all on screen. */
  ghost predicate Region(sc: Screen, durable: seq<string>, region: seq<string>, at: nat) {
    && ScreenOk(sc) && sc.top <= |durable|
    && |durable| + |region| <= |sc.rows|
    && sc.row == |durable| + at
    && (forall i :: 0 <= i < |durable| ==> sc.rows[i] == durable[i])
    && (forall i :: 0 <= i < |region| ==> sc.rows[|durable| + i] == region[i])
    && (forall i :: |durable| + |region| <= i < |sc.rows| ==> sc.rows[i] == "")
  }

  /** The durable lines so far, the live frame below them with the cursor on its
      last row, and nothing else; a fresh row when there is no frame. */
  ghost predicate Shows(sc: Screen, durable: seq<string>, live: seq<string>) {
    && Region(sc, durable, live, if live == [] then 0 else |live| - 1)
    && |live| <= sc.height && (live == [] ==> sc.col == 0)
  }

  lemma FreshShows(width: nat, height: nat)
    requires width > 0 && height > 0
    ensures Shows(Fresh(width, height), [], []) && !Fresh(width, height).hidden
  {
  }

  /** Only what is shown differs. */
  predicate SameTerminal(a: Screen, b: Screen) {
    b.width == a.width && b.height == a.height && b.hidden == a.hidden
  }

  // ---- one row ------------------------------------------------------------

  lemma RegionUp(sc: Screen, durable: seq<string>, region: seq<string>, at: nat, n: nat)
    requires Region(sc, durable, region, at) && n <= at
    ensures Region(Up(sc, n), durable, region, at - n) && SameTerminal(sc, Up(sc, n))
  {
  }

  /** "\r" and an erase clear the cursor's row. */
  lemma RegionErased(sc: Screen, durable: seq<string>, region: seq<string>, at: nat)
    requires Region(sc, durable, region, at) && at < |region|
    ensures var r := EraseLine(sc.(col := 0));
      Region(r, durable, region[at := ""], at) && r.col == 0 && SameTerminal(sc, r)
  {
  }

  lemma RegionDown(sc: Screen, durable: seq<string>, region: seq<string>, at: nat)
    requires Region(sc, durable, region, at) && at + 1 < |region|
    ensures Region(Down(sc), durable, region, at + 1) && SameTerminal(sc, Down(sc))
  {
  }

  /** A further row may scroll the screen, but never the region off it. */
  lemma RegionGrows(sc: Screen, durable: seq<string>, region: seq<string>)
    requires 0 < |region| < sc.height && Region(sc, durable, region, |region| - 1)
    ensures var r := Down(sc);
      Region(r, durable, region + [""], |region|) && r.height == sc.height && r.width == sc.width && r.hidden == sc.hidden
  {
  }

  lemma RegionTyped(sc: Screen, durable: seq<string>, region: seq<string>, at: nat, cells: string)
    requires Region(sc, durable, region, at) && at < |region| && region[at] == "" && sc.col == 0 && |cells| <= sc.width
    ensures Region(Typed(sc, cells), durable, region[at := cells], at)
  {
  }

  lemma RegionBlank(sc: Screen, durable: seq<string>, region: seq<string>)
    requires Region(sc, durable, region, 0) && forall i :: 0 <= i < |region| ==> region[i] == ""
    ensures Region(sc, durable, [], 0)
  {
    forall i | |durable| <= i < |durable| + |region| ensures sc.rows[i] == "" {
      assert sc.rows[|durable| + (i - |durable|)] == region[i - |durable|];
    }
  }

  lemma RegionOpens(sc: Screen, durable: seq<string>)
    requires Region(sc, durable, [], 0)
    ensures Region(sc, durable, [""], 0)
  {
  }

  /** A finished row becomes durable. */
  lemma RowKept(sc: Screen, durable: seq<string>, line: string)
    requires Region(sc, durable, [line], 0)
    ensures Shows(Down(sc), durable + [line], [])
  {
  }

  // ---- durable text -------------------------------------------------------

  lemma Cut(s: string, n: nat)
    requires n < |s| && s[n] == '\n'
    ensures s + "\n" == s[..n] + "\n" + (s[n + 1..] + "\n")
  {
    assert s[n..n + 1] == "\n";
    assert s == s[..n] + s[n..n + 1] + s[n + 1..];
  }

  lemma SplitFirst(s: string)
    ensures var n := LineLen(s);
      if n == |s| then Split(s) == [s] else Split(s) == [s[..n]] + Split(s[n + 1..])
  {
  }

  lemma PlainFirst(line: string, rest: seq<string>, durable: seq<string>)
    ensures durable + PlainLines([line] + rest) == durable + [Plain(line)] + PlainLines(rest)
  {
    hide Plain;
    assert PlainLines([line] + rest) == [Plain(line)] + PlainLines(rest);
  }

  lemma FitRest(line: string, rest: seq<string>, width: nat)
    requires LinesFit([line] + rest, width)
    ensures LineOk(line) && |Plain(line)| <= width && LinesFit(rest, width)
  {
    hide Plain, LineOk;
    assert ([line] + rest)[0] == line;
    assert forall i :: 0 <= i < |rest| ==> ([line] + rest)[i + 1] == rest[i];
  }

  lemma RunDurableLine(sc: Screen, durable: seq<string>, line: string)
    requires Shows(sc, durable, []) && LineOk(line) && |Plain(line)| <= sc.width
    ensures Whole(line + "\n")
    ensures var r := Run(sc, line + "\n");
      Shows(r, durable + [Plain(line)], []) && r.width == sc.width && r.height == sc.height && r.hidden == sc.hidden
  {
    RegionOpens(sc, durable);
    RunLine(sc, line);
    RegionTyped(sc, durable, [""], 0, Plain(line));
    assert [""][0 := Plain(line)] == [Plain(line)];
    RunAppend(sc, line, "\n");
    RunNewline(Run(sc, line));
    RowKept(Run(sc, line), durable, Plain(line));
  }

  /** A text and its last newline add its lines to the durable ones. */
  lemma {:induction false} RunDurable(sc: Screen, durable: seq<string>, text: string)
    requires Shows(sc, durable, []) && LinesFit(Split(text), sc.width)
    ensures Whole(text + "\n")
    ensures var r := Run(sc, text + "\n");
      Shows(r, durable + PlainLines(Split(text)), []) && r.width == sc.width && r.height == sc.height && r.hidden == sc.hidden
    decreases |text|
  {
    hide Shows, Region, Run, Step, Whole, LineOk, Plain, Finished, TokenLen, Split, LinesFit, PlainLines;
    var n := LineLen(text);
    SplitFirst(text);
    var line := text[..n];
    if n == |text| {
      assert [text] + [] == [text];
      FitRest(text, [], sc.width);
      RunDurableLine(sc, durable, text);
      PlainOne(text, durable);
    } else {
      var rest := text[n + 1..];
      FitRest(line, Split(rest), sc.width);
      RunDurableLine(sc, durable, line);
      RunDurable(Run(sc, line + "\n"), durable + [Plain(line)], rest);
      RunAppend(sc, line + "\n", rest + "\n");
      Cut(text, n);
      PlainFirst(line, Split(rest), durable);
    }
  }

  lemma PlainOne(line: string, durable: seq<string>)
    ensures durable + PlainLines([line]) == durable + [Plain(line)]
  {
    hide Plain;
    assert PlainLines([line]) == [Plain(line)];
  }

  // ---- the driver ---------------------------------------------------------

  class Ansi {
    const width: nat
    const height: nat
    const interactive: bool

    /** Every byte written so far. */
    var written: string
    var liveLines: nat
    var cursorHidden: bool

    /** The durable lines written so far and the latest live frame, as shown. */
    ghost var durable: seq<string>
    ghost var live: seq<string>

    ghost function Terminal(): Screen
      reads this
    {
      Run(Fresh(width, height), written)
    }

    ghost predicate Valid()
      reads this
    {
      && width > 0 && height > 0 && Whole(written)
      && Terminal().width == width && Terminal().height == height
      && Shows(Terminal(), durable, live) && |live| == liveLines
      && Terminal().hidden == cursorHidden
      && (!interactive ==> liveLines == 0 && !cursorHidden)
    }

    constructor (columns: nat, rows: nat, tty: bool)
      requires columns > 0 && rows > 0
      ensures Valid() && durable == [] && live == [] && interactive == tty && width == columns && height == rows
    {
      width, height, interactive := columns, rows, tty;
      written, liveLines, cursorHidden := "", 0, false;
      durable, live := [], [];
      new;
      FreshShows(columns, rows);
    }

    method WriteString(s: string)
      requires Whole(written) && Whole(s)
      modifies this`written
      ensures Whole(written) && written == old(written) + s
      ensures Terminal() == Run(old(Terminal()), s)
    {
      RunAppend(Fresh(width, height), written, s);
      written := written + s;
    }

    method HideCursor()
      requires Valid() && interactive
      modifies this`written, this`cursorHidden
      ensures Valid() && cursorHidden
      ensures Terminal() == old(Terminal()).(hidden := true)
    {
      if !cursorHidden {
        RunHide(Terminal());
        WriteString(HIDE_CURSOR);
        cursorHidden := true;
      }
    }

    method ShowCursor()
      requires Valid()
      modifies this`written, this`cursorHidden
      ensures Valid() && !cursorHidden
      ensures Terminal() == old(Terminal()).(hidden := false)
    {
      if cursorHidden {
        RunShow(Terminal());
        WriteString(SHOW_CURSOR);
        cursorHidden := false;
      }
    }

    /** "\r" and an erase of the cursor's row. */
    method ClearRow()
      requires Whole(written)
      modifies this`written
      ensures Whole(written) && Terminal() == EraseLine(old(Terminal()).(col := 0))
    {
      RunReturn(Terminal());
      RunEraseLine(Terminal().(col := 0));
      RunAppend(Terminal(), "\r", ERASE_LINE);
      WriteString("\r" + ERASE_LINE);
    }

    method Newline()
      requires Whole(written)
      modifies this`written
      ensures Whole(written) && Terminal() == Down(old(Terminal()))
    {
      RunNewline(Terminal());
      WriteString("\n");
    }

    /** The cursor rests on the last row of the region: up to its first row, down
        again clearing each, and back up. */
    method EraseLive()
      requires Valid()
      modifies this`written
      ensures Whole(written) && Shows(Terminal(), durable, [])
      ensures Terminal().width == width && Terminal().height == height && Terminal().hidden == cursorHidden
    {
      hide Region, Run, Up, Down, EraseLine, Shows, Whole;
      if liveLines <= 0 {
        NoRegion(live);
        return;
      }
      ShowsRegion(Terminal(), durable, live);
      var n := liveLines;
      if n > 1 {
        RegionUp(Terminal(), durable, live, n - 1, n - 1);
        RunCursorUp(Terminal(), n - 1);
        WriteString(CursorUp(n - 1));
      }
      ghost var region := live;
      for i := 0 to n
        invariant Whole(written) && |region| == n
        invariant Region(Terminal(), durable, region, if i == n then n - 1 else i)
        invariant forall j :: 0 <= j < i ==> region[j] == ""
        invariant Terminal().width == width && Terminal().height == height && Terminal().hidden == cursorHidden
      {
        RegionErased(Terminal(), durable, region, i);
        region := region[i := ""];
        ClearRow();
        if i < n - 1 {
          RegionDown(Terminal(), durable, region, i);
          Newline();
        }
      }
      if n > 1 {
        RegionUp(Terminal(), durable, region, n - 1, n - 1);
        RunCursorUp(Terminal(), n - 1);
        WriteString(CursorUp(n - 1));
      }
      RegionBlank(Terminal(), durable, region);
      RunReturn(Terminal());
      Returned(Terminal(), durable);
      WriteString("\r");
    }

    /** Writes lines without a last newline, so the cursor stays on the last one. */
    method WriteFrame(lines: seq<string>)
      requires Whole(written) && Shows(Terminal(), durable, [])
      requires Terminal().width == width && Terminal().height == height
      requires LinesFit(lines, width) && |lines| <= height
      modifies this`written
      ensures Whole(written) && Shows(Terminal(), durable, PlainLines(lines))
      ensures Terminal().width == width && Terminal().height == height && Terminal().hidden == old(Terminal()).hidden
    {
      hide Region, Shows, Framed, Run;
      FrameStarts(Terminal(), durable, PlainLines(lines));
      for i := 0 to |lines|
        invariant Whole(written) && Framed(Terminal(), durable, PlainLines(lines), i)
        invariant Terminal().width == width && Terminal().height == height && Terminal().hidden == old(Terminal()).hidden
      {
        FrameLine(Terminal(), durable, lines, i);
        WriteString("\r" + ERASE_LINE + lines[i]);
        if i < |lines| - 1 {
          FrameNext(Terminal(), durable, PlainLines(lines), i);
          Newline();
        } else {
          FrameLast(Terminal(), durable, PlainLines(lines));
        }
      }
      FrameEnds(Terminal(), durable, PlainLines(lines));
    }

    /** Redraws the whole live region. */
    method WriteLive(text: string)
      requires Valid()
      requires if interactive then LinesFit(SplitLines(text), width) && |SplitLines(text)| <= height else LinesFit(TextLines(text), width)
      modifies this
      ensures Valid()
      ensures if interactive then durable == old(durable) && live == PlainLines(SplitLines(text))
              else durable == old(durable) + PlainLines(TextLines(text)) && live == []
    {
      var lines := SplitLines(text);
      if interactive {
        HideCursor();
        EraseLive();
        WriteFrame(lines);
        liveLines := |lines|;
        live := PlainLines(lines);
        return;
      }
      WriteText(text);
      liveLines := 0;
    }

    /** text, and a newline unless it ends in one. */
    method WriteText(text: string)
      requires Whole(written) && Shows(Terminal(), durable, []) && LinesFit(TextLines(text), width)
      requires Terminal().width == width && Terminal().height == height
      modifies this`written, this`durable
      ensures Whole(written) && durable == old(durable) + PlainLines(TextLines(text)) && Shows(Terminal(), durable, [])
      ensures Terminal().width == width && Terminal().height == height && Terminal().hidden == old(Terminal()).hidden
    {
      hide Shows, LinesFit, Run, Whole, PlainLines, Split, Fresh;
      ghost var body := if EndsLine(text) then text[..|text| - 1] else text;
      RunDurable(Terminal(), durable, body);
      ghost var before := written;
      RunAppend(Fresh(width, height), written, body + "\n");
      written := written + text;
      if !EndsLine(text) {
        written := written + "\n";
      } else {
        assert text == body + "\n";
      }
      assert written == before + (body + "\n");
      durable := durable + PlainLines(TextLines(text));
    }

    /** Erases the live region and shows the cursor. */
    method ClearLive()
      requires Valid()
      modifies this
      ensures Valid() && durable == old(durable) && live == [] && !cursorHidden
    {
      EraseLive();
      liveLines, live := 0, [];
      ShowCursor();
    }

    /** Adds durable lines above whatever live frame comes next. */
    method WriteDurable(line: string)
      requires Valid() && LinesFit(TextLines(line), width)
      modifies this
      ensures Valid() && durable == old(durable) + PlainLines(TextLines(line)) && live == []
    {
      if liveLines > 0 {
        EraseLive();
        liveLines, live := 0, [];
      }
      WriteText(line);
    }

    /** Writes the final text and restores the cursor. */
    method WriteFinal(text: string)
      requires Valid() && LinesFit(TextLines(text), width)
      modifies this
      ensures Valid() && live == [] && !cursorHidden
      ensures durable == old(durable) + if text == "" then [] else PlainLines(TextLines(text))
    {
      if liveLines > 0 {
        EraseLive();
        liveLines, live := 0, [];
      }
      ShowCursor();
      if text != "" {
        WriteText(text);
      }
    }
  }

  lemma NoRegion(live: seq<string>)
    requires |live| == 0
    ensures live == []
  {
  }

  lemma ShowsRegion(sc: Screen, durable: seq<string>, live: seq<string>)
    requires Shows(sc, durable, live) && |live| > 0
    ensures Region(sc, durable, live, |live| - 1)
  {
  }

  lemma Returned(sc: Screen, durable: seq<string>)
    requires Region(sc, durable, [], 0)
    ensures Shows(sc.(col := 0), durable, [])
  {
  }

  /** Clearing row at and writing line on it. */
  lemma FrameRow(sc: Screen, durable: seq<string>, region: seq<string>, at: nat, line: string)
    requires Region(sc, durable, region, at) && at < |region| && region[at] == "" && LineOk(line) && |Plain(line)| <= sc.width
    ensures Whole("\r" + ERASE_LINE + line)
    ensures var r := Run(sc, "\r" + ERASE_LINE + line);
      Region(r, durable, region[at := Plain(line)], at) && r.width == sc.width && r.height == sc.height && r.hidden == sc.hidden
  {
    RunReturn(sc);
    RunEraseLine(sc.(col := 0));
    RunAppend(sc, "\r", ERASE_LINE);
    var mid := EraseLine(sc.(col := 0));
    RegionErased(sc, durable, region, at);
    assert region[at := ""] == region;
    RunLine(mid, line);
    RunAppend(sc, "\r" + ERASE_LINE, line);
    RegionTyped(mid, durable, region, at, Plain(line));
  }

  /** The first n rows of a frame are drawn, and the cursor is on the next one, or on
      the last one once there is no next. */
  ghost predicate Framed(sc: Screen, durable: seq<string>, shown: seq<string>, n: nat) {
    && n <= |shown| <= sc.height
    && if n < |shown| then Region(sc, durable, shown[..n] + [""], n)
       else if n > 0 then Region(sc, durable, shown, n - 1)
       else Shows(sc, durable, [])
  }

  lemma FrameStarts(sc: Screen, durable: seq<string>, shown: seq<string>)
    requires Shows(sc, durable, []) && |shown| <= sc.height
    ensures Framed(sc, durable, shown, 0)
  {
    hide Region;
    RegionOpens(sc, durable);
    assert shown != [] ==> shown[..0] + [""] == [""];
  }

  lemma FrameLine(sc: Screen, durable: seq<string>, lines: seq<string>, i: nat)
    requires i < |lines| && Framed(sc, durable, PlainLines(lines), i) && LinesFit(lines, sc.width)
    ensures Whole("\r" + ERASE_LINE + lines[i])
    ensures var r := Run(sc, "\r" + ERASE_LINE + lines[i]);
      && Region(r, durable, PlainLines(lines)[..i + 1], i)
      && r.width == sc.width && r.height == sc.height && r.hidden == sc.hidden
  {
    hide Region, Run, Whole;
    var shown := PlainLines(lines);
    FrameRow(sc, durable, shown[..i] + [""], i, lines[i]);
    assert (shown[..i] + [""])[i := shown[i]] == shown[..i + 1];
  }

  lemma FrameNext(sc: Screen, durable: seq<string>, shown: seq<string>, i: nat)
    requires i + 1 < |shown| <= sc.height && Region(sc, durable, shown[..i + 1], i)
    ensures var r := Down(sc);
      Framed(r, durable, shown, i + 1) && r.width == sc.width && r.height == sc.height && r.hidden == sc.hidden
  {
    hide Region;
    RegionGrows(sc, durable, shown[..i + 1]);
  }

  lemma FrameLast(sc: Screen, durable: seq<string>, shown: seq<string>)
    requires 0 < |shown| <= sc.height && Region(sc, durable, shown[..|shown|], |shown| - 1)
    ensures Framed(sc, durable, shown, |shown|)
  {
    assert shown[..|shown|] == shown;
  }

  lemma FrameEnds(sc: Screen, durable: seq<string>, shown: seq<string>)
    requires Framed(sc, durable, shown, |shown|)
    ensures Shows(sc, durable, shown)
  {
    hide Region;
  }
}
