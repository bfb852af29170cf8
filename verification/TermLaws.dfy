/** Laws of the whole terminal, for every state and every run. */
module TermLaws {
  import opened TerminalTypes
  import opened Grid
  import opened Scrollback
  import opened TermSpec
  import opened GridLaws
  import Colors
  import Digits
  import S = ScreenSpec
  import Sgr

  // ---- where a control sequence goes ----------------------------------

  lemma MoveApplied(t: Term, params: seq<seq<u16>>, intermediates: seq<u8>, action: char)
    requires WF(t) && MovesCursor(action)
    ensures Apply(t, Csi(params, intermediates, false, action))
      == CsiMove(t, action, ParamOr(params, 0, 1), ParamOr(params, 1, 1))
  {
    hide CsiMove;
  }

  lemma EditApplied(t: Term, params: seq<seq<u16>>, intermediates: seq<u8>, action: char)
    requires WF(t) && EditsScreen(action)
    ensures Apply(t, Csi(params, intermediates, false, action))
      == CsiEdit(t, action, ParamOr(params, 0, 1), ParamOr(params, 0, 0))
  {
    hide CsiEdit;
  }

  lemma ModeApplied(t: Term, params: seq<seq<u16>>, intermediates: seq<u8>, action: char)
    requires WF(t) && !MovesCursor(action) && !EditsScreen(action)
    ensures Apply(t, Csi(params, intermediates, false, action))
      == CsiMode(t, params, |intermediates| > 0 && intermediates[0] == 63, intermediates == [], action)
  {
    hide CsiMode;
  }

  // ---- no visible text is lost ----------------------------------------

  /** The rows a user can scroll back through and see, blank ones aside. */
  function Text(t: Term): seq<Row> {
    Content(t.scrollback + t.primary.grid)
  }

  ghost predicate FullScreen(t: Term) {
    t.top == 0 && t.bottom + 1 == t.rows
  }

  lemma ScrolledGrid(s: S.ScreenV, cols: nat, count: nat, style: Style)
    requires |s.grid| > 0
    ensures var n := Min(count, |s.grid|);
      var r := S.ScrollUp(s, cols, count, 0, |s.grid| - 1, style).grid;
      && |r| == |s.grid|
      && r == s.grid[n..] + r[|s.grid| - n..]
      && (forall i :: |s.grid| - n <= i < |r| ==> IsBlankRow(r[i]))
      && S.Displaced(s, count, 0, |s.grid| - 1) == s.grid[..n]
  {
    var rows := |s.grid|;
    if 0 < count && count >= rows {
      forall i | 0 <= i < rows ensures IsBlankRow(EraseRowSpan(s.grid, 0, rows, style)[i]) {
        EraseBlanks(s.grid[i], 0, |s.grid[i]|, style);
      }
    }
  }

  lemma ScrolledText(history: seq<Row>, s: S.ScreenV, cols: nat, count: nat, style: Style)
    requires |s.grid| > 0
    ensures Content(history + Content(S.Displaced(s, count, 0, |s.grid| - 1))
                    + S.ScrollUp(s, cols, count, 0, |s.grid| - 1, style).grid)
      == Content(history + s.grid)
  {
    var g, n := s.grid, Min(count, |s.grid|);
    ScrolledGrid(s, cols, count, style);
    var r := S.ScrollUp(s, cols, count, 0, |g| - 1, style).grid;
    ContentMoves(history, g[..n], g[n..], r[|g| - n..]);
    assert g[..n] + g[n..] == g;
  }

  /** A full-screen scroll of any count moves text into the history and loses none. */
  lemma ScrollKeepsText(t: Term, count: nat)
    requires WF(t) && !t.onAlternate && FullScreen(t)
    ensures Text(ScrollUpScreen(t, count)) == Text(t)
  {
    ScrolledText(t.scrollback, t.primary, t.cols, count, t.pen);
    assert ScrollUpScreen(t, count).primary == S.ScrollUp(t.primary, t.cols, count, 0, t.rows - 1, t.pen);
  }

  /** So does a line feed, wherever the cursor is. */
  lemma LineFeedKeepsText(t: Term)
    requires WF(t) && !t.onAlternate && FullScreen(t)
    ensures Text(LineFeed(t)) == Text(t)
  {
    ScrollKeepsText(t.(wrapPending := false), 1);
  }

  /** A change of height moves text into the history and loses none. */
  lemma ResizeKeepsText(t: Term, rows: NonZeroU16)
    requires WF(t) && !t.onAlternate
    ensures Text(Resize(t, rows, t.cols)) == Text(t)
  {
    ResizeText(t.scrollback, t.primary.grid, rows, t.cols);
    if rows != t.rows {
      var g := t.primary.grid;
      assert Resize(t, rows, t.cols).primary.grid == ResizeRows(g, rows, t.cols);
      assert Resize(t, rows, t.cols).scrollback == t.scrollback + Content(g[..RowShift(g, rows)]);
    }
  }

  /** Where a change of height leaves the active rows and the cursor. */
  ghost predicate Moved(t: Term, r: Term, rows: NonZeroU16)
    requires WF(t) && WF(r)
  {
    var g := Active(t).grid;
    && Active(r).grid == ResizeRows(g, rows, t.cols) && r.rows == rows && r.cols == t.cols
    && r.cursor.row == Min(SatSub(t.cursor.row, RowShift(g, rows)), rows - 1)
    && (r.cursor.col == t.cursor.col
        || (r.cursor.col + 1 == t.cursor.col && Active(r).grid[r.cursor.row][t.cursor.col].width == 0))
  }

  /** The cursor is on the row it was on, or one column left of the trailing half it was on. */
  ghost predicate StaysOnRow(t: Term, r: Term)
    requires WF(t) && WF(r)
  {
    && Active(r).grid[r.cursor.row] == Active(t).grid[t.cursor.row]
    && (r.cursor.col == t.cursor.col
        || (TrailAt(Active(t).grid[t.cursor.row], t.cursor.col) && r.cursor.col + 1 == t.cursor.col))
  }

  lemma ResizeMoves(t: Term, rows: NonZeroU16)
    requires WF(t) && rows != t.rows
    ensures Moved(t, Resize(t, rows, t.cols), rows)
  {
  }

  lemma MovedStays(t: Term, r: Term, rows: NonZeroU16)
    requires WF(t) && WF(r) && Moved(t, r, rows)
    requires var g := Active(t).grid; RowShift(g, rows) <= t.cursor.row < EffectiveRows(g, rows)
    ensures StaysOnRow(t, r)
  {
    hide ResizeRows, RowShift, EffectiveRows;
    ResizeMovesRow(Active(t).grid, rows, t.cols, t.cursor.row);
  }

  /** A cursor on a row that stays on the screen stays on that row's text. */
  lemma ResizeKeepsCursorRow(t: Term, rows: NonZeroU16)
    requires WF(t)
    requires var g := Active(t).grid; RowShift(g, rows) <= t.cursor.row < EffectiveRows(g, rows)
    ensures StaysOnRow(t, Resize(t, rows, t.cols))
  {
    if rows != t.rows {
      ResizeMoves(t, rows);
      MovedStays(t, Resize(t, rows, t.cols), rows);
    }
  }

  // ---- wide glyphs stay whole -----------------------------------------

  predicate SplitsNothing(c: Call) {
    c.CallFeed? ==> forall i :: 0 <= i < |c.actions| ==> !Splits(c.actions[i])
  }

  /** From a new terminal, no run without ICH, DCH or insert mode ever halves a wide glyph. */
  lemma {:induction false} RunKeepsGlyphsWhole(t: Term, calls: seq<Call>)
    requires WF(t) && Plain(t)
    requires forall i :: 0 <= i < |calls| ==> SplitsNothing(calls[i])
    ensures Plain(Run(t, calls))
    decreases |calls|
  {
    if calls != [] {
      assert SplitsNothing(calls[0]);
      RunKeepsGlyphsWhole(Step(t, calls[0]), calls[1..]);
    }
  }

  lemma NewIsPlain(rows: NonZeroU16, cols: NonZeroU16)
    ensures Plain(New(rows, cols))
  {
  }

  // ---- what a feed reports --------------------------------------------

  /** A run leaves no unreported write behind: between calls the flag is down. */
  lemma {:induction false} RunLeavesNoDirt(t: Term, calls: seq<Call>)
    requires WF(t) && !t.primary.dirty
    ensures !Run(t, calls).primary.dirty
    decreases |calls|
  {
    if calls != [] {
      RunLeavesNoDirt(Step(t, calls[0]), calls[1..]);
    }
  }

  /** A list of actions fed one at a time without an update is fed in one go without one. */
  lemma {:induction false} QuietEach(t: Term, actions: seq<Action>)
    requires WF(t) && !t.primary.dirty && !FeedEach(t, actions).events.screenUpdated
    ensures ApplyAll(t, actions) == FeedEach(t, actions)
    ensures !ApplyAll(t, actions).primary.dirty
    ensures VisibleScalars(ApplyAll(t, actions)) == VisibleScalars(t)
    decreases |actions|
  {
    if actions != [] {
      var u := Feed(t, [actions[0]]);
      ApplyOne(t, actions[0]);
      assert !u.events.screenUpdated;
      QuietEach(u, actions[1..]);
    }
  }

  lemma ApplyOne(t: Term, a: Action)
    requires WF(t)
    ensures ApplyAll(t, [a]) == Apply(t, a)
  {
    assert [a][1..] == [];
    assert ApplyAll(Apply(t, a), []) == Apply(t, a);
  }

  lemma ApplyThree(t: Term, a: Action, b: Action, c: Action)
    requires WF(t)
    ensures ApplyAll(t, [a, b, c]) == Apply(Apply(Apply(t, a), b), c)
  {
    assert [a, b, c][1..] == [b, c] && [b, c][1..] == [c];
    ApplyOne(Apply(Apply(t, a), b), c);
  }

  /** If one batched feed reports an update, so does feeding the same actions one at a time. */
  lemma BatchUpdateIsSeen(t: Term, actions: seq<Action>)
    requires WF(t) && !t.primary.dirty && !t.events.screenUpdated
    requires Feed(t, actions).events.screenUpdated
    ensures FeedEach(t, actions).events.screenUpdated
  {
    if !FeedEach(t, actions).events.screenUpdated {
      QuietEach(t, actions);
    }
  }

  /** `ESC [ 2 J`. */
  function EraseAll(): Action { Csi([[2]], [], false, 'J') }

  /** The SGR code that turns bold on or off. */
  function BoldCode(on: bool): Action { Csi([[if on then 1 else 22]], [], false, 'm') }

  lemma EraseAllIsEraseRows(t: Term)
    requires WF(t)
    ensures Apply(t, EraseAll()) == EraseRows(t, 0, t.rows)
  {
    assert ParamOr([[2]], 0, 0) == 2;
    hide Apply;
    EditApplied(t, [[2]], [], 'J');
  }

  lemma EraseAllErases(t: Term)
    requires WF(t)
    ensures Active(Apply(t, EraseAll())).grid[0][t.cols - 1] == Blank(t.pen)
    ensures VisibleScalars(Apply(t, EraseAll())) == VisibleScalars(t)
    ensures t.onAlternate ==> Apply(t, EraseAll()).primary == t.primary
  {
    EraseAllIsEraseRows(t);
    EraseBlanks(Active(t).grid[0], 0, t.cols, t.pen);
    assert Active(EraseRows(t, 0, t.rows)).grid[0] == EraseSpan(Active(t).grid[0], 0, t.cols, t.pen);
  }

  lemma BoldCodeSets(t: Term, on: bool)
    requires WF(t)
    ensures Apply(t, BoldCode(on)) == t.(pen := t.pen.(bold := on))
  {
    var values: seq<u16> := [if on then 1 else 22];
    assert FlattenParams([values]) == values + FlattenParams([]) by { assert [values][1..] == []; }
    assert values + [] == values && values[1..] == [];
    assert Sgr.Apply(t.pen, values) == Sgr.Apply(Sgr.ApplyFirst(t.pen, values), []);
  }

  /** Erases the screen with bold flipped and flips it back. */
  function EraseFlipped(t: Term): seq<Action> {
    [BoldCode(!t.pen.bold), EraseAll(), BoldCode(t.pen.bold)]
  }

  lemma EraseFlippedIs(t: Term)
    requires WF(t)
    ensures var u := t.(pen := t.pen.(bold := !t.pen.bold));
      ApplyAll(t, EraseFlipped(t)) == Apply(u, EraseAll()).(pen := t.pen)
  {
    var u := t.(pen := t.pen.(bold := !t.pen.bold));
    var v := Apply(u, EraseAll());
    assert v.pen == u.pen by { EraseAllErases(u); }
    assert Apply(t, BoldCode(!t.pen.bold)) == u by { BoldCodeSets(t, !t.pen.bold); }
    assert Apply(v, BoldCode(t.pen.bold)) == v.(pen := t.pen) by { BoldCodeSets(v, t.pen.bold); }
    Sandwich(t, BoldCode(!t.pen.bold), EraseAll(), BoldCode(t.pen.bold), u, v);
  }

  lemma Sandwich(t: Term, a: Action, b: Action, c: Action, u: Term, v: Term)
    requires WF(t) && u == Apply(t, a) && v == Apply(u, b)
    ensures ApplyAll(t, [a, b, c]) == Apply(v, c)
  {
    ApplyThree(t, a, b, c);
  }

  lemma EraseFlippedErases(t: Term)
    requires WF(t) && t.onAlternate
    ensures var u := t.(pen := t.pen.(bold := !t.pen.bold));
      var r := Apply(u, EraseAll()).(pen := t.pen);
      && Active(r).grid[0][t.cols - 1] == Blank(u.pen)
      && VisibleScalars(r) == VisibleScalars(t) && r.primary == t.primary
  {
    EraseAllErases(t.(pen := t.pen.(bold := !t.pen.bold)));
  }

  /**
   * A feed that reports nothing has changed nothing visible, exactly while the
   * primary screen is shown: writes to the alternate screen are not polled.
   */
  lemma UpdatesReportedExactly(t: Term)
    requires WF(t) && !t.primary.dirty && !t.events.screenUpdated
    ensures !t.onAlternate <==>
      forall actions: seq<Action> ::
        !Feed(t, actions).events.screenUpdated ==> Active(Feed(t, actions)).grid == Active(t).grid
  {
    hide ApplyAll, Apply, EraseFlipped, EraseAll;
    if t.onAlternate {
      EraseAllErases(t);
      ApplyOne(t, EraseAll());
      EraseFlippedIs(t);
      EraseFlippedErases(t);
      var a, b := Feed(t, [EraseAll()]), Feed(t, EraseFlipped(t));
      assert !a.events.screenUpdated && !b.events.screenUpdated;
      assert Active(a).grid[0][t.cols - 1] != Active(b).grid[0][t.cols - 1];
    }
  }

  // ---- replies --------------------------------------------------------

  /** A cursor report reads back as the one-based position. */
  lemma CursorReportReads(row: nat, col: nat)
    requires row < 0xFFFF && col < 0xFFFF
    ensures var s := CursorReport(row, col);
      && 6 <= |s| <= REPLY_LIMIT
      && var body := s[2..|s| - 1];
         var i := Colors.Find(body, Colors.SEMICOLON);
         && i < |body|
         && Digits.AllDecimal(body[..i]) && Digits.DecimalValue(body[..i]) == row + 1
         && Digits.AllDecimal(body[i + 1..]) && Digits.DecimalValue(body[i + 1..]) == col + 1
  {
    hide Digits.Decimal, Digits.DecimalValue, Digits.AllDecimal;
    var r, c := Digits.Decimal(row + 1), Digits.Decimal(col + 1);
    Digits.DecimalRoundTrip(row + 1);
    Digits.DecimalRoundTrip(col + 1);
    var s := CursorReport(row, col);
    assert s[2..|s| - 1] == r + [Colors.SEMICOLON] + c;
    Colors.FindIn(r, Colors.SEMICOLON, c);
    assert (r + [Colors.SEMICOLON] + c)[..|r|] == r && (r + [Colors.SEMICOLON] + c)[|r| + 1..] == c;
  }

  /** The limit is reached, in the far corner of the largest grid. */
  lemma ReplyLimitReached()
    ensures |CursorReport(0xFFFE, 0xFFFE)| == REPLY_LIMIT
  {
    assert Digits.Decimal(6553) == Digits.Decimal(655) + [51];
    assert |Digits.Decimal(655)| == 3;
  }

  /** `ESC [ row ; col H`. */
  function MoveTo(row: u16, col: u16): Action { Csi([[row], [col]], [], false, 'H') }

  /** `ESC [ 6 n`. */
  const ASK_POSITION: Action := Csi([[6]], [], false, 'n')

  /** The rows a program can address: the region's in origin mode, else the screen's. */
  function AddressableRows(t: Term): int {
    if t.modes.origin then t.bottom - t.top + 1 else t.rows
  }

  /** Where a one-based row takes the cursor; the sixteen-bit sum of origin mode can wrap. */
  function RowReached(t: Term, row: u16): int {
    var n := Max(row, 1);
    if !t.modes.origin then Min(n, t.rows) - 1
    else if n - 1 + t.top <= 0xFFFF then Min(n - 1 + t.top, t.bottom)
    else t.top
  }

  function ColReached(t: Term, col: u16): int {
    Min(Max(col, 1), t.cols) - 1
  }

  lemma RowReachedIsTarget(t: Term, row: u16)
    requires WF(t)
    ensures RowTarget(t, Max(row, 1)) == RowReached(t, row)
  {
    var sum := Max(row, 1) - 1 + MinRow(t);
    assert sum % 0x1_0000 == if sum <= 0xFFFF then sum else sum - 0x1_0000;
  }

  lemma MoveToMoves(t: Term, row: u16, col: u16)
    requires WF(t)
    ensures 0 <= RowReached(t, row) < t.rows && 0 <= ColReached(t, col) < t.cols
    ensures Apply(t, MoveTo(row, col)) == t.(
      wrapPending := false, cursor := Position(RowReached(t, row), ColReached(t, col)))
  {
    RowReachedIsTarget(t, row);
    hide Apply;
    MoveApplied(t, [[row], [col]], [], 'H');
  }

  lemma PositionAsked(t: Term)
    requires WF(t)
    ensures Apply(t, ASK_POSITION) == t.(replies := t.replies + CursorReport(t.cursor.row, t.cursor.col))
  {
    hide Apply;
    ModeApplied(t, [[6]], [], 'n');
  }

  /** What a program reads back that moves the cursor and asks where it is, in either origin mode. */
  lemma ReportedWhereMoved(t: Term, row: u16, col: u16)
    requires WF(t)
    ensures 0 <= RowReached(t, row) < t.rows && 0 <= ColReached(t, col) < t.cols
    ensures ApplyAll(t, [MoveTo(row, col), ASK_POSITION]).replies
      == t.replies + CursorReport(RowReached(t, row), ColReached(t, col))
  {
    var u := Apply(t, MoveTo(row, col));
    MoveToMoves(t, row, col);
    PositionAsked(u);
    assert [MoveTo(row, col), ASK_POSITION][1..] == [ASK_POSITION];
    ApplyOne(u, ASK_POSITION);
  }

  /** Two reports that differ in the row differ. */
  lemma ReportTellsRow(row: nat, other: nat, col: nat)
    requires row < 0xFFFF && other < 0xFFFF && col < 0xFFFF
    ensures CursorReport(row, col) == CursorReport(other, col) <==> row == other
  {
    CursorReportReads(row, col);
    CursorReportReads(other, col);
  }

  /**
   * The report is the position asked for, clamped to the rows that can be
   * addressed, exactly outside origin mode, with a region that starts at the top,
   * or in one corner where the sixteen-bit sum wraps: the report is of the
   * screen, not of the region.
   */
  lemma ReportedAsAskedExactly(t: Term, row: u16, col: u16)
    requires WF(t)
    ensures 0 < Min(Max(row, 1), AddressableRows(t)) <= 0xFFFF
    ensures ApplyAll(t, [MoveTo(row, col), ASK_POSITION]).replies
        == t.replies + CursorReport(Min(Max(row, 1), AddressableRows(t)) - 1, ColReached(t, col))
      <==> !t.modes.origin || t.top == 0 || (Max(row, 1) - 1 + t.top > 0xFFFF && t.bottom == 2 * t.top)
  {
    hide ApplyAll, Apply;
    var asked := Min(Max(row, 1), AddressableRows(t)) - 1;
    ReportedWhereMoved(t, row, col);
    ReportTellsRow(RowReached(t, row), asked, ColReached(t, col));
    var reached := CursorReport(RowReached(t, row), ColReached(t, col));
    SamePrefix(t.replies, reached, CursorReport(asked, ColReached(t, col)));
  }

  /** Primary device attributes are answered exactly when asked without a marker, so `ESC [ ? c` gets no reply. */
  lemma DeviceAttributesAnswered(t: Term, params: seq<seq<u16>>, intermediates: seq<u8>)
    requires WF(t)
    ensures var r := Apply(t, Csi(params, intermediates, false, 'c'));
      && (r.replies == t.replies + PRIMARY_DA <==> intermediates == [])
      && (intermediates != [] ==> r == t)
  {
    hide Apply;
    ModeApplied(t, params, intermediates, 'c');
    assert |t.replies + PRIMARY_DA| > |t.replies|;
  }
}
