/** What a terminal shows for the bytes written to it: enough of ECMA-48 for the
    inline live region (CUU section 8.3.22, EL 8.3.41, CR 8.3.15, LF 8.3.74), with
    LF also returning to column 0, autowrap, and a screen that scrolls. */
module Screen {
  import opened Decimals

  const ESC: char := '\U{1B}'

  /** rows holds every row ever scrolled in, top is the first one still on screen,
      and the cursor is at (row, col), col == width being a pending wrap. */
  datatype Screen = Screen(width: nat, height: nat, rows: seq<string>, top: nat, row: nat, col: nat, hidden: bool)

  ghost predicate ScreenOk(sc: Screen) {
    && sc.width > 0 && sc.height > 0
    && |sc.rows| == sc.top + sc.height && sc.top <= sc.row < |sc.rows| && sc.col <= sc.width
  }

  function Blanks(n: nat): (r: seq<string>)
    ensures |r| == n && forall i :: 0 <= i < n ==> r[i] == ""
  {
    seq(n, i => "")
  }

  function Fresh(width: nat, height: nat): Screen {
    Screen(width, height, Blanks(height), 0, 0, 0, false)
  }

  // ---- control functions --------------------------------------------------

  function Down(sc: Screen): Screen {
    if sc.row + 1 < |sc.rows| then sc.(row := sc.row + 1, col := 0)
    else sc.(rows := sc.rows + [""], top := sc.top + 1, row := sc.row + 1, col := 0)
  }

  /** The cursor goes up, but never off the screen. */
  function Up(sc: Screen, n: nat): Screen {
    sc.(row := if sc.row >= sc.top + n then sc.row - n else if sc.row < sc.top then sc.row else sc.top)
  }

  function EraseLine(sc: Screen): Screen {
    if sc.row < |sc.rows| then sc.(rows := sc.rows[sc.row := ""]) else sc
  }

  /** One cell, over whatever the row held there. */
  function Put(sc: Screen, c: char): Screen {
    var at := if sc.col >= sc.width then Down(sc) else sc;
    if at.row >= |at.rows| then at
    else
      var shown := at.rows[at.row];
      var padded := if |shown| < at.col then shown + seq(at.col - |shown|, i => ' ') else shown;
      var rest := if at.col + 1 <= |padded| then padded[at.col + 1..] else "";
      at.(rows := at.rows[at.row := padded[..at.col] + [c] + rest], col := at.col + 1)
  }

  // ---- reading the stream -------------------------------------------------

  predicate Printable(c: char) { ' ' <= c && c != '\U{7F}' }

  predicate IsParam(c: char) { '0' <= c <= '?' }

  /** How many parameter bytes lead s. */
  function ParamLen(s: string): (n: nat)
    ensures n <= |s| && (forall i :: 0 <= i < n ==> IsParam(s[i])) && (n < |s| ==> !IsParam(s[n]))
  {
    if s != "" && IsParam(s[0]) then 1 + ParamLen(s[1..]) else 0
  }

  /** The control sequences the driver writes; any other changes nothing shown. */
  function Csi(sc: Screen, params: string, end: char): Screen {
    if end == 'A' then Up(sc, if Number(params) == 0 then 1 else Number(params))
    else if end == 'K' && params == "2" then EraseLine(sc)
    else if end == 'l' && params == "?25" then sc.(hidden := true)
    else if end == 'h' && params == "?25" then sc.(hidden := false)
    else sc
  }

  /** s starts with a control sequence, finished or not. */
  predicate StartsCsi(s: string) { |s| >= 2 && s[0] == ESC && s[1] == '[' }

  function TokenLen(s: string): (n: nat)
    requires s != ""
    ensures 0 < n <= |s|
  {
    if StartsCsi(s) then
      var p := ParamLen(s[2..]);
      if 2 + p < |s| then 3 + p else |s|
    else 1
  }

  /** The first token of s cannot go on into what is written next. */
  predicate Finished(s: string)
    requires s != ""
  {
    if StartsCsi(s) then 2 + ParamLen(s[2..]) < |s| else s != [ESC]
  }

  function Step(sc: Screen, s: string): Screen
    requires s != ""
  {
    if StartsCsi(s) then
      var p := ParamLen(s[2..]);
      if 2 + p < |s| then Csi(sc, s[2..2 + p], s[2 + p]) else sc
    else if s[0] == '\r' then sc.(col := 0)
    else if s[0] == '\n' then Down(sc)
    else if Printable(s[0]) then Put(sc, s[0])
    else sc
  }

  /** The screen after s. */
  function Run(sc: Screen, s: string): Screen
    decreases |s|
  {
    if s == "" then sc else Run(Step(sc, s), s[TokenLen(s)..])
  }

  /** s ends between tokens. */
  predicate Whole(s: string)
    decreases |s|
  {
    s == "" || (Finished(s) && Whole(s[TokenLen(s)..]))
  }

  // ---- appending ----------------------------------------------------------

  lemma {:induction false} ParamLenPrefix(a: string, b: string)
    requires ParamLen(a) < |a|
    ensures ParamLen(a + b) == ParamLen(a)
  {
    if a != "" && IsParam(a[0]) {
      ParamLenPrefix(a[1..], b);
      assert (a + b)[1..] == a[1..] + b;
    }
  }

  lemma TokenPrefix(sc: Screen, a: string, b: string)
    requires a != "" && Finished(a)
    ensures Finished(a + b) && TokenLen(a + b) == TokenLen(a) && Step(sc, a + b) == Step(sc, a)
  {
    if StartsCsi(a) {
      ParamLenPrefix(a[2..], b);
      assert (a + b)[2..] == a[2..] + b;
      var p := ParamLen(a[2..]);
      assert (a + b)[2..2 + p] == a[2..2 + p];
    }
  }

  /** Writes compose: what was written between tokens is read as it was. */
  lemma {:induction false} RunAppend(sc: Screen, a: string, b: string)
    requires Whole(a)
    ensures Run(sc, a + b) == Run(Run(sc, a), b)
    ensures Whole(b) ==> Whole(a + b)
    decreases |a|
  {
    if a == "" {
      assert a + b == b;
    } else {
      TokenPrefix(sc, a, b);
      var n := TokenLen(a);
      assert (a + b)[n..] == a[n..] + b;
      RunAppend(Step(sc, a), a[n..], b);
    }
  }

  // ---- a line of text -----------------------------------------------------

  /** s starts with a finished style sequence (SGR). */
  predicate StartsStyle(s: string) {
    StartsCsi(s) && 2 + ParamLen(s[2..]) < |s| && s[2 + ParamLen(s[2..])] == 'm'
  }

  /** Printable characters and styles. */
  predicate LineOk(s: string)
    decreases |s|
  {
    s == "" || (Printable(s[0]) && LineOk(s[1..])) || (StartsStyle(s) && LineOk(s[TokenLen(s)..]))
  }

  /** The cells a line shows. */
  function Plain(s: string): string
    decreases |s|
  {
    if s == "" then ""
    else if StartsStyle(s) then Plain(s[TokenLen(s)..])
    else [s[0]] + Plain(s[1..])
  }

  function Typed(sc: Screen, cells: string): Screen
    requires sc.row < |sc.rows|
  {
    sc.(rows := sc.rows[sc.row := sc.rows[sc.row] + cells], col := sc.col + |cells|)
  }

  /** A line that fits is shown at the end of its row. */
  lemma {:induction false} RunLine(sc: Screen, s: string)
    requires LineOk(s) && sc.row < |sc.rows| && |sc.rows[sc.row]| == sc.col && sc.col + |Plain(s)| <= sc.width
    ensures Whole(s) && Run(sc, s) == Typed(sc, Plain(s))
    decreases |s|
  {
    if s == "" {
      assert sc.rows[sc.row] + "" == sc.rows[sc.row];
    } else if StartsStyle(s) {
      assert s[0] == ESC && !Printable(s[0]);
      RunLine(sc, s[TokenLen(s)..]);
    } else {
      assert Printable(s[0]) && s[0] != ESC;
      var next := Step(sc, s);
      var cell := sc.rows[sc.row] + [s[0]];
      assert sc.rows[sc.row][..sc.col] + [s[0]] + "" == cell;
      assert Plain(s) == [s[0]] + Plain(s[1..]);
      assert next.rows == sc.rows[sc.row := cell];
      RunLine(next, s[1..]);
      assert cell + Plain(s[1..]) == sc.rows[sc.row] + Plain(s);
      assert Typed(next, Plain(s[1..])) == Typed(sc, Plain(s));
    }
  }

  // ---- the driver's sequences ---------------------------------------------

  const HIDE_CURSOR: string := [ESC] + "[?25l"
  const SHOW_CURSOR: string := [ESC] + "[?25h"
  const ERASE_LINE: string := [ESC] + "[2K"

  /** fmt.Sprintf("\x1b[%dA", n). */
  function CursorUp(n: nat): string { [ESC] + "[" + Decimal(n) + "A" }

  lemma {:induction false} ParamLenIs(p: string, end: char, k: nat)
    requires k <= |p| && !IsParam(end) && forall i :: 0 <= i < |p| ==> IsParam(p[i])
    ensures ParamLen(p + [end]) == |p|
    decreases |p|
  {
    if p != "" {
      ParamLenIs(p[1..], end, 0);
      assert (p + [end])[1..] == p[1..] + [end];
    }
  }

  /** A whole control sequence is one token. */
  lemma RunCsi(sc: Screen, p: string, end: char)
    requires !IsParam(end) && forall i :: 0 <= i < |p| ==> IsParam(p[i])
    ensures var s := [ESC] + "[" + p + [end];
      Whole(s) && Run(sc, s) == Csi(sc, p, end)
  {
    var s := [ESC] + "[" + p + [end];
    assert s[0] == ESC && s[1] == '[';
    assert s[2..] == p + [end];
    ParamLenIs(p, end, 0);
    assert s[2..2 + |p|] == p && s[2 + |p|] == end;
    assert s[TokenLen(s)..] == "";
  }

  lemma RunCursorUp(sc: Screen, n: nat)
    requires n > 0
    ensures Whole(CursorUp(n)) && Run(sc, CursorUp(n)) == Up(sc, n)
  {
    DecimalReads(n);
    RunCsi(sc, Decimal(n), 'A');
  }

  lemma RunEraseLine(sc: Screen)
    ensures Whole(ERASE_LINE) && Run(sc, ERASE_LINE) == EraseLine(sc)
  {
    RunCsi(sc, "2", 'K');
    assert ERASE_LINE == [ESC] + "[" + "2" + ['K'];
  }

  lemma RunHide(sc: Screen)
    ensures Whole(HIDE_CURSOR) && Run(sc, HIDE_CURSOR) == sc.(hidden := true)
  {
    RunCsi(sc, "?25", 'l');
    assert HIDE_CURSOR == [ESC] + "[" + "?25" + ['l'];
  }

  lemma RunShow(sc: Screen)
    ensures Whole(SHOW_CURSOR) && Run(sc, SHOW_CURSOR) == sc.(hidden := false)
  {
    RunCsi(sc, "?25", 'h');
    assert SHOW_CURSOR == [ESC] + "[" + "?25" + ['h'];
  }

  lemma RunReturn(sc: Screen)
    ensures Whole("\r") && Run(sc, "\r") == sc.(col := 0)
  {
    assert Run(sc.(col := 0), "\r"[1..]) == sc.(col := 0);
  }

  lemma RunNewline(sc: Screen)
    ensures Whole("\n") && Run(sc, "\n") == Down(sc)
  {
    assert Run(Down(sc), "\n"[1..]) == Down(sc);
  }
}
