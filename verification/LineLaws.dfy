/** Where every row goes when lines are scrolled, inserted or deleted, and what the history gets of it. */
module LineLaws {
  import opened TerminalTypes
  import opened Grid
  import opened Scrollback
  import opened TermSpec
  import opened GridLaws
  import opened MotionLaws
  import S = ScreenSpec
  import TermLaws

  // ---- rows of a screen -----------------------------------------------

  /** A row of single blanks, in the pen's style throughout unless a glyph of the row it replaces was broken. */
  ghost predicate Emptied(was: Row, row: Row, style: Style) {
    |row| == |was| && BlankBetween(row, 0, |row|) && (Paired(was) ==> row == BlankRow(|was|, Blank(style)))
  }

  /** Rows `from` to `to` have moved up by `k`, and those left free at the bottom are empty. */
  ghost predicate Up(g: Rows, r: Rows, from: nat, to: nat, k: nat, style: Style)
    requires to < |g|
  {
    && |r| == |g|
    && forall i :: 0 <= i < |g| ==>
         if i < from || to < i then r[i] == g[i]
         else if i + k <= to then r[i] == g[i + k]
         else Emptied(g[i], r[i], style)
  }

  /** They have moved down, and those left free at the top are empty. */
  ghost predicate Down(g: Rows, r: Rows, from: nat, to: nat, k: nat, style: Style)
    requires to < |g|
  {
    && |r| == |g|
    && forall i :: 0 <= i < |g| ==>
         if i < from || to < i then r[i] == g[i]
         else if i >= from + k then r[i] == g[i - k]
         else Emptied(g[i], r[i], style)
  }

  lemma EraseEmpties(row: Row, style: Style)
    ensures Emptied(row, EraseSpan(row, 0, |row|, style), style)
  {
    hide EraseSpan;
    EraseBlanks(row, 0, |row|, style);
    if Paired(row) {
      EraseExact(row, 0, |row|, style);
    }
  }

  lemma BlankIsEmptied(was: Row, style: Style)
    ensures Emptied(was, BlankRow(|was|, Blank(style)), style)
  {
  }

  lemma RowsErased(s: S.ScreenV, top: nat, bottom: nat, k: nat, style: Style)
    requires top <= bottom < |s.grid| && k > bottom - top
    ensures var r := S.EraseRows(s, top, bottom + 1, style).grid;
      Up(s.grid, r, top, bottom, k, style) && Down(s.grid, r, top, bottom, k, style)
  {
    hide EraseSpan, Emptied;
    forall i | top <= i <= bottom ensures Emptied(s.grid[i], EraseSpan(s.grid[i], 0, |s.grid[i]|, style), style) {
      EraseEmpties(s.grid[i], style);
    }
  }

  lemma RowsDeleted(g: Rows, cols: nat, at: nat, k: nat, bottom: nat, style: Style)
    requires Rect(g, |g|, cols) && at + k <= bottom + 1 <= |g|
    ensures Up(g, DeleteRows(g, at, k, bottom + 1, BlankRow(cols, Blank(style))), at, bottom, k, style)
  {
    hide Emptied;
    forall i | 0 <= i < |g| ensures Emptied(g[i], BlankRow(cols, Blank(style)), style) {
      BlankIsEmptied(g[i], style);
    }
  }

  lemma RowsInserted(g: Rows, cols: nat, at: nat, k: nat, bottom: nat, style: Style)
    requires Rect(g, |g|, cols) && at + k <= bottom + 1 <= |g|
    ensures Down(g, InsertRows(g, at, k, bottom + 1, BlankRow(cols, Blank(style))), at, bottom, k, style)
  {
    hide Emptied;
    forall i | 0 <= i < |g| ensures Emptied(g[i], BlankRow(cols, Blank(style)), style) {
      BlankIsEmptied(g[i], style);
    }
  }

  lemma ScreenScrolls(s: S.ScreenV, cols: nat, k: nat, top: nat, bottom: nat, style: Style)
    requires S.Ok(s, |s.grid|, cols) && top <= bottom < |s.grid| && k > 0
    ensures Up(s.grid, S.ScrollUp(s, cols, k, top, bottom, style).grid, top, bottom, k, style)
    ensures Down(s.grid, S.ScrollDown(s, cols, k, top, bottom, style).grid, top, bottom, k, style)
    ensures S.Displaced(s, k, top, bottom) == s.grid[top..top + Min(k, bottom - top + 1)]
  {
    hide Up, Down, S.EraseRows, InsertRows, DeleteRows;
    if k <= bottom - top {
      RowsDeleted(s.grid, cols, top, k, bottom, style);
      RowsInserted(s.grid, cols, top, k, bottom, style);
    } else {
      RowsErased(s, top, bottom, k, style);
    }
  }

  lemma ScreenMovesLines(s: S.ScreenV, cols: nat, row: nat, n: nat, top: nat, bottom: nat, style: Style)
    requires S.Ok(s, |s.grid|, cols) && top <= row <= bottom < |s.grid| && n > 0
    ensures Down(s.grid, S.InsertLines(s, cols, row, n, top, bottom, style).grid,
      row, bottom, Min(n, bottom - row + 1), style)
    ensures Up(s.grid, S.DeleteLines(s, cols, row, n, top, bottom, style).grid,
      row, bottom, Min(n, bottom - row + 1), style)
  {
    hide Up, Down, InsertRows, DeleteRows;
    RowsInserted(s.grid, cols, row, Min(n, bottom - row + 1), bottom, style);
    RowsDeleted(s.grid, cols, row, Min(n, bottom - row + 1), bottom, style);
  }

  // ---- the controls ---------------------------------------------------

  /** Only the active screen differs, and the history has got these lines. */
  ghost predicate OnlyScreen(t: Term, r: Term, lines: seq<Row>) {
    && r == t.(
         primary := r.primary, alternate := r.alternate,
         scrollback := t.scrollback + lines, scrollbackCells := r.scrollbackCells,
         events := t.events.(scrollbackLineAdded := t.events.scrollbackLineAdded || lines != []))
    && (if t.onAlternate then r.primary == t.primary else r.alternate == t.alternate)
  }

  /** What `k` lines scrolled off the top leave in the history: only from the whole, primary screen. */
  function Retained(t: Term, k: nat): seq<Row>
    requires WF(t)
  {
    if t.onAlternate || t.top != 0 || t.bottom + 1 != t.rows then []
    else Content(t.primary.grid[..Min(k, t.rows)])
  }

  /** The region has scrolled up by `k`, and the history has got what left the screen. */
  ghost predicate ScrolledUp(t: Term, r: Term, k: nat)
    requires WF(t)
  {
    OnlyScreen(t, r, Retained(t, k)) && Up(Active(t).grid, Active(r).grid, t.top, t.bottom, k, t.pen)
  }

  ghost predicate ScrolledDown(t: Term, r: Term, k: nat)
    requires WF(t)
  {
    OnlyScreen(t, r, []) && Down(Active(t).grid, Active(r).grid, t.top, t.bottom, k, t.pen)
  }

  lemma ScrollUpScrolls(t: Term, k: nat)
    requires WF(t) && k > 0
    ensures ScrolledUp(t, ScrollUpScreen(t, k), k)
  {
    hide S.ScrollUp, S.Displaced, Up, Down, Content, CellCount;
    ScreenScrolls(Active(t), t.cols, k, t.top, t.bottom, t.pen);
    assert t.scrollback + [] == t.scrollback;
  }

  lemma ScrollDownScrolls(t: Term, k: nat)
    requires WF(t) && k > 0
    ensures ScrolledDown(t, ScrollDown(t, k), k)
  {
    hide S.ScrollDown, Up, Down;
    ScreenScrolls(Active(t), t.cols, k, t.top, t.bottom, t.pen);
    assert t.scrollback + [] == t.scrollback;
  }

  /**
   * SU and SD scroll the region by the count: every row in it moves that far, the
   * rows left free are blank in the pen's style, and only what leaves the whole
   * primary screen goes to the history.
   */
  lemma ScrollsExactly(t: Term, params: seq<seq<u16>>, intermediates: seq<u8>)
    requires WF(t)
    ensures ScrolledUp(t, Apply(t, Csi(params, intermediates, false, 'S')), Count(params, 0))
    ensures ScrolledDown(t, Apply(t, Csi(params, intermediates, false, 'T')), Count(params, 0))
  {
    hide Apply, ScrolledUp, ScrolledDown, ScrollUpScreen, ScrollDown;
    CountIs(params);
    TermLaws.EditApplied(t, params, intermediates, 'S');
    TermLaws.EditApplied(t, params, intermediates, 'T');
    ScrollUpScrolls(t, Count(params, 0));
    ScrollDownScrolls(t, Count(params, 0));
  }

  /** Lines from the cursor's on have moved down within the region, or up, unless the cursor is outside it. */
  ghost predicate LinesMoved(t: Term, r: Term, n: nat, down: bool)
    requires WF(t)
  {
    if t.cursor.row < t.top || t.bottom < t.cursor.row then r == t
    else
      var k := Min(n, t.bottom - t.cursor.row + 1);
      && OnlyScreen(t, r, [])
      && (down ==> Down(Active(t).grid, Active(r).grid, t.cursor.row, t.bottom, k, t.pen))
      && (!down ==> Up(Active(t).grid, Active(r).grid, t.cursor.row, t.bottom, k, t.pen))
  }

  lemma LinesMove(t: Term, n: nat)
    requires WF(t) && n > 0
    ensures LinesMoved(t, InsertLines(t, n), n, true) && LinesMoved(t, DeleteLines(t, n), n, false)
  {
    hide Up, Down, InsertRows, DeleteRows;
    if t.top <= t.cursor.row <= t.bottom {
      hide S.InsertLines, S.DeleteLines;
      ScreenMovesLines(Active(t), t.cols, t.cursor.row, n, t.top, t.bottom, t.pen);
      assert t.scrollback + [] == t.scrollback;
    }
  }

  /** IL and DL move the lines from the cursor's down to the region's bottom by the count, or do nothing outside it. */
  lemma LinesMoveExactly(t: Term, params: seq<seq<u16>>, intermediates: seq<u8>)
    requires WF(t)
    ensures LinesMoved(t, Apply(t, Csi(params, intermediates, false, 'L')), Count(params, 0), true)
    ensures LinesMoved(t, Apply(t, Csi(params, intermediates, false, 'M')), Count(params, 0), false)
  {
    hide Apply, LinesMoved, InsertLines, DeleteLines;
    CountIs(params);
    TermLaws.EditApplied(t, params, intermediates, 'L');
    TermLaws.EditApplied(t, params, intermediates, 'M');
    LinesMove(t, Count(params, 0));
  }

  /** One line down: at the region's bottom the region scrolls; on the last row outside it nothing moves. */
  ghost predicate Lowered(t: Term, r: Term)
    requires WF(t)
  {
    if t.cursor.row == t.bottom then ScrolledUp(t.(wrapPending := false), r, 1)
    else r == At(t, Min(t.cursor.row + 1, t.rows - 1), t.cursor.col)
  }

  /** One line up: at the region's top the region scrolls down. */
  ghost predicate Raised(t: Term, r: Term)
    requires WF(t)
  {
    if t.cursor.row == t.top then ScrolledDown(t.(wrapPending := false), r, 1)
    else r == At(t, if t.cursor.row == 0 then 0 else t.cursor.row - 1, t.cursor.col)
  }

  lemma LineFeedLowers(t: Term)
    requires WF(t)
    ensures Lowered(t, LineFeed(t))
  {
    hide ScrolledUp, ScrollUpScreen;
    ScrollUpScrolls(t.(wrapPending := false), 1);
  }

  lemma ReverseIndexRaises(t: Term)
    requires WF(t)
    ensures Raised(t, ReverseIndex(t))
  {
    hide ScrolledDown, ScrollDown;
    ScrollDownScrolls(t.(wrapPending := false), 1);
  }

  /** LF, VT, FF and `ESC D` go one line down, `ESC E` does from the first column, and `ESC M` goes one line up. */
  lemma LineControlsExactly(t: Term, byte: u8)
    requires WF(t) && 0x0a <= byte <= 0x0c
    ensures Lowered(t, Apply(t, Execute(byte))) && Lowered(t, Apply(t, Esc([], false, 68)))
    ensures Lowered(At(t, t.cursor.row, 0), Apply(t, Esc([], false, 69)))
    ensures Raised(t, Apply(t, Esc([], false, 77)))
  {
    hide Lowered, Raised, LineFeed, ReverseIndex;
    LineFeedLowers(t);
    LineFeedLowers(At(t, t.cursor.row, 0));
    ReverseIndexRaises(t);
  }
}
