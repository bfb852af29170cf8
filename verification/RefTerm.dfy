/** The repository's row-list reference terminal, and the proof that the emulator refines it on every run. */
module RefTerm {
  import opened TerminalTypes
  import opened Grid
  import opened Scrollback
  import opened TermSpec
  import opened GridLaws
  import S = ScreenSpec

  datatype RefCell = RefCell(ch: char, width: u8)

  const BLANK := RefCell(' ', 1)

  datatype Ref = Ref(
    rows: nat,
    cols: nat,
    row: nat,
    col: nat,
    wrapPending: bool,
    grid: seq<seq<RefCell>>,
    scrollback: seq<seq<RefCell>>)

  datatype Token = Char(ch: char) | Wide(ch: char) | Cr | Lf

  // ---- the reference --------------------------------------------------

  ghost predicate Shaped(f: Ref) {
    && f.row < f.rows && f.col < f.cols && |f.grid| == f.rows
    && forall r :: 0 <= r < f.rows ==> |f.grid[r]| == f.cols
  }

  function RefNew(rows: nat, cols: nat): Ref {
    Ref(rows, cols, 0, 0, false, seq(rows, _ => seq(cols, _ => BLANK)), [])
  }

  function RefClear(row: seq<RefCell>, col: nat): (r: seq<RefCell>)
    ensures |r| == |row|
  {
    if col >= |row| then row
    else
      var r1 := if row[col].width == 0 && col > 0 then row[col - 1 := BLANK] else row;
      var r2 := if row[col].width == 2 && col + 1 < |row| then r1[col + 1 := BLANK] else r1;
      r2[col := BLANK]
  }

  predicate Draws(line: seq<RefCell>) {
    exists c :: 0 <= c < |line| && line[c].ch != ' '
  }

  function RefScroll(f: Ref): (r: Ref)
    requires Shaped(f)
    ensures Shaped(r)
  {
    var line := f.grid[0];
    f.(grid := f.grid[1..] + [seq(f.cols, _ => BLANK)],
       scrollback := if Draws(line) then f.scrollback + [line] else f.scrollback)
  }

  function RefLf(f: Ref): (r: Ref)
    requires Shaped(f)
    ensures Shaped(r) && r.col == f.col && r.cols == f.cols
  {
    var g := f.(wrapPending := false);
    if g.row + 1 >= g.rows then RefScroll(g) else g.(row := g.row + 1)
  }

  function RefBreak(f: Ref): (r: Ref)
    requires Shaped(f)
    ensures Shaped(r) && r.col == 0 && r.cols == f.cols
  {
    RefLf(f.(wrapPending := false, col := 0))
  }

  function RefPut(row: seq<RefCell>, col: nat, ch: char, width: u8): (r: seq<RefCell>)
    requires col + width <= |row| && 1 <= width <= 2
    ensures |r| == |row|
  {
    var cleared := if width == 2 then RefClear(RefClear(row, col), col + 1) else RefClear(row, col);
    var r := cleared[col := RefCell(ch, width)];
    if width == 2 then r[col + 1 := RefCell(' ', 0)] else r
  }

  /** Puts a glyph that fits and moves past it. */
  function RefPlace(f: Ref, ch: char, width: u8): (r: Ref)
    requires Shaped(f) && 1 <= width <= 2 && f.col + width <= f.cols
    ensures Shaped(r)
  {
    var g := f.(grid := f.grid[f.row := RefPut(f.grid[f.row], f.col, ch, width)]);
    if f.col + width >= f.cols then g.(col := f.cols - 1, wrapPending := true)
    else g.(col := f.col + width, wrapPending := false)
  }

  function RefWrap(f: Ref): (r: Ref)
    requires Shaped(f)
    ensures Shaped(r)
  {
    if f.wrapPending then RefBreak(f) else f
  }

  function RefRoom(f: Ref, width: u8): (r: Ref)
    requires Shaped(f)
    ensures Shaped(r)
  {
    if f.col + width > f.cols then RefBreak(f) else f
  }

  function RefFit(f: Ref, ch: char, width: u8): (r: Ref)
    requires Shaped(f) && 1 <= width <= 2
    ensures Shaped(r)
  {
    if f.col + width > f.cols then f else RefPlace(f, ch, width)
  }

  function RefPrint(f: Ref, ch: char, width: u8): (r: Ref)
    requires Shaped(f) && 1 <= width <= 2
    ensures Shaped(r)
  {
    RefFit(RefRoom(RefWrap(f), width), ch, width)
  }

  function RefApply(f: Ref, token: Token): (r: Ref)
    requires Shaped(f)
    ensures Shaped(r)
  {
    match token
    case Char(ch) => RefPrint(f, ch, 1)
    case Wide(ch) => RefPrint(f, ch, 2)
    case Cr => f.(wrapPending := false, col := 0)
    case Lf => RefLf(f)
  }

  function RefRun(f: Ref, tokens: seq<Token>): (r: Ref)
    requires Shaped(f)
    ensures Shaped(r)
    decreases |tokens|
  {
    if tokens == [] then f else RefRun(RefApply(f, tokens[0]), tokens[1..])
  }

  // ---- the emulator's view of the same text ---------------------------

  function ActionOf(token: Token): Action {
    match token
    case Char(ch) => Print(ch, Some(1))
    case Wide(ch) => Print(ch, Some(2))
    case Cr => Execute(0x0d)
    case Lf => Execute(0x0a)
  }

  function ActionsOf(tokens: seq<Token>): (actions: seq<Action>)
    ensures |actions| == |tokens|
  {
    seq(|tokens|, i requires 0 <= i < |tokens| => ActionOf(tokens[i]))
  }

  /** Glyph and width of every cell; the style is not part of the reference. */
  function Strip(row: Row): (r: seq<RefCell>)
    ensures |r| == |row|
  {
    seq(|row|, c requires 0 <= c < |row| => RefCell(row[c].ch, row[c].width))
  }

  function StripAll(rows: seq<Row>): (r: seq<seq<RefCell>>)
    ensures |r| == |rows|
  {
    seq(|rows|, i requires 0 <= i < |rows| => Strip(rows[i]))
  }

  /** Autowrapping replace mode over the whole primary screen. */
  ghost predicate PlainMode(t: Term) {
    t.modes.autowrap && !t.modes.insert && !t.onAlternate && t.top == 0 && t.bottom + 1 == t.rows
  }

  ghost predicate Matches(t: Term, f: Ref) {
    && WF(t) && PlainMode(t) && Shaped(f)
    && f.rows == t.rows && f.cols == t.cols
    && f.row == t.cursor.row && f.col == t.cursor.col
    && f.wrapPending == t.wrapPending
    && f.grid == StripAll(t.primary.grid)
    && f.scrollback == StripAll(t.scrollback)
  }

  // ---- one operation at a time ----------------------------------------

  lemma StripClear(row: Row, col: nat)
    ensures Strip(ClearAt(row, col)) == RefClear(Strip(row), col)
  {
  }

  lemma StripPut(row: Row, col: nat, ch: char, width: u8, style: Style)
    requires col + width <= |row| && 1 <= width <= 2
    ensures Strip(PutAt(row, col, ch, width, style)) == RefPut(Strip(row), col, ch, width)
  {
    StripClear(row, col);
    StripClear(ClearAt(row, col), col + 1);
  }

  lemma StripSet(g: Rows, i: nat, row: Row)
    requires i < |g|
    ensures StripAll(g[i := row]) == StripAll(g)[i := Strip(row)]
  {
  }

  /** One line scrolled off: the rows move up and a blank one follows. */
  lemma StripScroll(s: S.ScreenV, cols: nat, style: Style)
    requires |s.grid| > 0 && Rect(s.grid, |s.grid|, cols)
    ensures StripAll(S.ScrollUp(s, cols, 1, 0, |s.grid| - 1, style).grid)
      == StripAll(s.grid)[1..] + [seq(cols, _ => BLANK)]
    ensures S.Displaced(s, 1, 0, |s.grid| - 1) == [s.grid[0]]
  {
    var r := S.ScrollUp(s, cols, 1, 0, |s.grid| - 1, style).grid;
    if |s.grid| == 1 {
      EraseBlanks(s.grid[0], 0, cols, style);
      assert Strip(r[0]) == seq(cols, _ => BLANK);
    } else {
      assert r == s.grid[1..] + [BlankRow(cols, Blank(style))];
      assert Strip(BlankRow(cols, Blank(style))) == seq(cols, _ => BLANK);
    }
  }

  lemma StripDraws(row: Row)
    ensures Draws(Strip(row)) <==> !IsBlankRow(row)
  {
    if !IsBlankRow(row) {
      var c :| 0 <= c < |row| && row[c].ch != ' ';
      assert Strip(row)[c].ch != ' ';
    }
  }

  lemma MatchScroll(t: Term, f: Ref)
    requires Matches(t, f) && !t.wrapPending
    ensures Matches(ScrollUpScreen(t, 1), RefScroll(f))
  {
    var line := t.primary.grid[0];
    StripScroll(t.primary, t.cols, t.pen);
    StripDraws(line);
    assert f.grid[0] == Strip(line);
    assert Content([line]) == if IsBlankRow(line) then [] else [line] by {
      assert [line][1..] == [];
    }
    assert StripAll(t.scrollback + [line]) == StripAll(t.scrollback) + [Strip(line)];
    assert t.scrollback + [] == t.scrollback;
  }

  lemma MatchLineFeed(t: Term, f: Ref)
    requires Matches(t, f)
    ensures Matches(LineFeed(t), RefLf(f))
  {
    if t.cursor.row == t.bottom {
      MatchScroll(t.(wrapPending := false), f.(wrapPending := false));
    }
  }

  lemma MatchBreak(t: Term, f: Ref)
    requires Matches(t, f)
    ensures Matches(LineFeed(CarriageReturn(t)), RefBreak(f))
  {
    MatchLineFeed(CarriageReturn(t), f.(wrapPending := false, col := 0));
  }

  lemma MatchPlace(t: Term, f: Ref, ch: char, w: u8)
    requires Matches(t, f) && 1 <= w <= 2 && t.cursor.col + w <= t.cols
    ensures Matches(PutChar(t, ch, w), RefPlace(f, ch, w))
  {
    StripPut(t.primary.grid[f.row], f.col, ch, w, t.pen);
    StripSet(t.primary.grid, f.row, PutAt(t.primary.grid[f.row], f.col, ch, w, t.pen));
  }

  lemma MatchWrap(t: Term, f: Ref)
    requires Matches(t, f)
    ensures Matches(WrapPending(t), RefWrap(f))
  {
    if t.wrapPending {
      MatchBreak(t.(wrapPending := false), f.(wrapPending := false));
    }
  }

  lemma MatchRoom(t: Term, f: Ref, w: u8)
    requires Matches(t, f)
    ensures Matches(MakeRoom(t, w), RefRoom(f, w))
  {
    if f.col + w > f.cols {
      MatchBreak(t, f);
    }
  }

  lemma MatchFit(t: Term, f: Ref, ch: char, w: u8)
    requires Matches(t, f) && 1 <= w <= 2
    ensures Matches(PutIfRoom(t, ch, w), RefFit(f, ch, w))
  {
    if f.col + w <= f.cols {
      MatchPlace(t, f, ch, w);
    }
  }

  lemma MatchPrint(t: Term, f: Ref, ch: char, w: u8)
    requires Matches(t, f) && 1 <= w <= 2
    ensures Matches(PrintChar(t, ch, Some(w)), RefPrint(f, ch, w))
  {
    MatchWrap(t, f);
    MatchRoom(WrapPending(t), RefWrap(f), w);
    MatchFit(MakeRoom(WrapPending(t), w), RefRoom(RefWrap(f), w), ch, w);
  }

  lemma MatchToken(t: Term, f: Ref, token: Token)
    requires Matches(t, f)
    ensures Matches(Apply(t, ActionOf(token)), RefApply(f, token))
  {
    match token
    case Char(ch) => MatchPrint(t, f, ch, 1);
    case Wide(ch) => MatchPrint(t, f, ch, 2);
    case Cr =>
    case Lf => MatchLineFeed(t, f);
  }

  lemma {:induction false} MatchRun(t: Term, f: Ref, tokens: seq<Token>)
    requires Matches(t, f)
    ensures Matches(ApplyAll(t, ActionsOf(tokens)), RefRun(f, tokens))
    decreases |tokens|
  {
    hide Apply, RefApply;
    if tokens != [] {
      MatchToken(t, f, tokens[0]);
      assert ActionsOf(tokens)[1..] == ActionsOf(tokens[1..]);
      MatchRun(Apply(t, ActionOf(tokens[0])), RefApply(f, tokens[0]), tokens[1..]);
    }
  }

  lemma MatchNew(rows: NonZeroU16, cols: NonZeroU16)
    ensures Matches(New(rows, cols), RefNew(rows, cols))
  {
    assert Strip(BlankRow(cols, EMPTY)) == seq(cols, _ => BLANK);
  }

  /**
   * From a new terminal of any size, for every list of tokens fed at once: the
   * cells, cursor, pending wrap and history are those of the reference.
   */
  lemma Refines(rows: NonZeroU16, cols: NonZeroU16, tokens: seq<Token>)
    ensures Matches(Feed(New(rows, cols), ActionsOf(tokens)), RefRun(RefNew(rows, cols), tokens))
  {
    hide ApplyAll, RefRun;
    MatchNew(rows, cols);
    MatchRun(New(rows, cols), RefNew(rows, cols), tokens);
  }
}
