/** What the editing controls do to the whole screen: erasing, and moving lines within the region. */
module EditLaws {
  import opened TerminalTypes
  import opened Grid
  import opened TermSpec
  import opened GridLaws
  import S = ScreenSpec

  // ---- erasing --------------------------------------------------------

  /** The columns of a row that ED erases: from the cursor on, up to it, or all. */
  function ErasedFrom(mode: u16, cursor: Position, cols: nat, row: nat): (r: nat)
    requires cursor.col < cols
    ensures r <= cols
  {
    if mode == 0 then (if row < cursor.row then cols else if row == cursor.row then cursor.col else 0)
    else 0
  }

  function ErasedTo(mode: u16, cursor: Position, cols: nat, row: nat): (r: nat)
    requires cursor.col < cols
    ensures ErasedFrom(mode, cursor, cols, row) <= r <= cols
  {
    if mode == 1 then (if row < cursor.row then cols else if row == cursor.row then cursor.col + 1 else 0)
    else cols
  }

  lemma BlankedNothing(row: Row, at: nat, style: Style)
    requires at <= |row|
    ensures BlankedExactly(row, row, at, at, style)
  {
  }

  /** All but the cells of the active screen is as it was. */
  ghost predicate OnlyCells(t: Term, u: Term) {
    && WF(u) && AllPaired(Active(u).grid)
    && u.rows == t.rows && u.cols == t.cols && u.cursor == t.cursor && u.pen == t.pen
  }

  /** Within some rows, some columns have been erased. */
  ghost predicate Erases(t: Term, u: Term, top: nat, bottom: nat, from: nat, to: nat)
    requires WF(t)
  {
    && from <= to <= t.cols && OnlyCells(t, u)
    && forall r :: 0 <= r < t.rows ==>
      if top <= r < bottom then BlankedExactly(Active(t).grid[r], Active(u).grid[r], from, to, t.pen)
      else Active(u).grid[r] == Active(t).grid[r]
  }

  lemma CellsErased(t: Term, row: nat, from: nat, to: nat)
    requires WF(t) && AllPaired(Active(t).grid) && row < t.rows && from <= to <= t.cols
    ensures Erases(t, EraseCells(t, row, from, to), row, row + 1, from, to)
  {
    hide EraseSpan, Paired;
    EraseExact(Active(t).grid[row], from, to, t.pen);
    BlankedNothing(Active(t).grid[row], from, t.pen);
  }

  lemma RowsErased(t: Term, from: nat, to: nat)
    requires WF(t) && AllPaired(Active(t).grid) && from <= to <= t.rows
    ensures Erases(t, EraseRows(t, from, to), from, to, 0, t.cols)
  {
    forall r | 0 <= r < t.rows
      ensures BlankedExactly(Active(t).grid[r], EraseSpan(Active(t).grid[r], 0, t.cols, t.pen), 0, t.cols, t.pen)
    {
      EraseExact(Active(t).grid[r], 0, t.cols, t.pen);
    }
  }

  lemma BelowCombined(t: Term, u: Term, v: Term, r: nat)
    requires WF(t) && WF(u) && r < t.rows
    requires Erases(t, u, t.cursor.row, t.cursor.row + 1, t.cursor.col, t.cols)
    requires Erases(u, v, t.cursor.row + 1, t.rows, 0, t.cols)
    ensures BlankedExactly(Active(t).grid[r], Active(v).grid[r],
      ErasedFrom(0, t.cursor, t.cols, r), ErasedTo(0, t.cursor, t.cols, r), t.pen)
  {
    BlankedNothing(Active(t).grid[r], t.cols, t.pen);
  }

  lemma AboveCombined(t: Term, u: Term, v: Term, r: nat)
    requires WF(t) && WF(u) && r < t.rows
    requires Erases(t, u, 0, t.cursor.row, 0, t.cols)
    requires Erases(u, v, t.cursor.row, t.cursor.row + 1, 0, t.cursor.col + 1)
    ensures BlankedExactly(Active(t).grid[r], Active(v).grid[r],
      ErasedFrom(1, t.cursor, t.cols, r), ErasedTo(1, t.cursor, t.cols, r), t.pen)
  {
    BlankedNothing(Active(t).grid[r], 0, t.pen);
  }

  lemma EraseBelowIs(t: Term)
    requires WF(t)
    ensures EraseBelow(t) == EraseRows(EraseCells(t, t.cursor.row, t.cursor.col, t.cols), t.cursor.row + 1, t.rows)
  {
  }

  lemma EraseBelowExact(t: Term, r: nat)
    requires WF(t) && AllPaired(Active(t).grid) && r < t.rows
    ensures BlankedExactly(Active(t).grid[r], Active(EraseBelow(t)).grid[r],
      ErasedFrom(0, t.cursor, t.cols, r), ErasedTo(0, t.cursor, t.cols, r), t.pen)
  {
    hide BlankedExactly, EraseSpan, S.EraseCells, S.EraseRows;
    var u := EraseCells(t, t.cursor.row, t.cursor.col, t.cols);
    CellsErased(t, t.cursor.row, t.cursor.col, t.cols);
    RowsErased(u, t.cursor.row + 1, t.rows);
    EraseBelowIs(t);
    BelowCombined(t, u, EraseBelow(t), r);
  }

  lemma EraseAboveExact(t: Term, r: nat)
    requires WF(t) && AllPaired(Active(t).grid) && r < t.rows
    ensures BlankedExactly(Active(t).grid[r], Active(EraseAbove(t)).grid[r],
      ErasedFrom(1, t.cursor, t.cols, r), ErasedTo(1, t.cursor, t.cols, r), t.pen)
  {
    hide BlankedExactly, EraseSpan, S.EraseCells, S.EraseRows;
    var u := EraseRows(t, 0, t.cursor.row);
    RowsErased(t, 0, t.cursor.row);
    CellsErased(u, t.cursor.row, 0, t.cursor.col + 1);
    AboveCombined(t, u, EraseAbove(t), r);
  }

  /**
   * ED 0, 1 and 2 blank exactly the cells from the cursor on, up to and with the
   * cursor, or all of them, in the pen's style; of the rest at most the broken
   * partner beside the cursor is emptied.
   */
  lemma EraseDisplayExact(t: Term, mode: u16, r: nat)
    requires WF(t) && AllPaired(Active(t).grid) && mode <= 2 && r < t.rows
    ensures BlankedExactly(Active(t).grid[r], Active(EraseDisplay(t, mode)).grid[r],
      ErasedFrom(mode, t.cursor, t.cols, r), ErasedTo(mode, t.cursor, t.cols, r), t.pen)
  {
    if mode == 0 {
      EraseBelowExact(t, r);
    } else if mode == 1 {
      EraseAboveExact(t, r);
    } else {
      RowsErased(t, 0, t.rows);
    }
  }

  /** EL blanks the same part of the cursor's row and leaves every other row alone. */
  lemma EraseLineExact(t: Term, mode: u16, r: nat)
    requires WF(t) && AllPaired(Active(t).grid) && mode <= 2 && r < t.rows
    ensures var g := Active(EraseLine(t, mode)).grid;
      if r != t.cursor.row then g[r] == Active(t).grid[r]
      else BlankedExactly(Active(t).grid[r], g[r],
        ErasedFrom(mode, t.cursor, t.cols, r), ErasedTo(mode, t.cursor, t.cols, r), t.pen)
  {
    hide S.EraseCells, EraseSpan;
    CellsErased(t, t.cursor.row, ErasedFrom(mode, t.cursor, t.cols, t.cursor.row),
      ErasedTo(mode, t.cursor, t.cols, t.cursor.row));
  }

  // ---- lines within the region ----------------------------------------

  /** The rows with `[from, to)` replaced by blank ones. */
  function BlankedRows(g: Rows, from: nat, to: nat, blank: Row): Rows
    requires from <= to <= |g|
  {
    g[..from] + Repeat(to - from, blank) + g[to..]
  }

  lemma DeletedAfterInsert(g: Rows, at: nat, n: nat, end: nat, blank: Row)
    requires at + n <= end <= |g|
    ensures DeleteRows(InsertRows(g, at, n, end, blank), at, n, end, blank) == BlankedRows(g, end - n, end, blank)
  {
    var u := InsertRows(g, at, n, end, blank);
    assert u[..at] == g[..at] && u[at + n..end] == g[at..end - n] && u[end..] == g[end..];
    assert g[..at] + g[at..end - n] == g[..end - n];
  }

  lemma InsertedAfterDelete(g: Rows, at: nat, n: nat, end: nat, blank: Row)
    requires at + n <= end <= |g|
    ensures InsertRows(DeleteRows(g, at, n, end, blank), at, n, end, blank) == BlankedRows(g, at, at + n, blank)
  {
    var u := DeleteRows(g, at, n, end, blank);
    assert u[..at] == g[..at] && u[at..end - n] == g[at + n..end] && u[end..] == g[end..];
    assert g[at + n..end] + g[end..] == g[at + n..];
  }

  /** Lines are moved only while the cursor is within the region. */
  predicate MovesLines(t: Term, n: nat) {
    t.top <= t.cursor.row <= t.bottom && n > 0
  }

  /** How many: never more than reach the region's bottom. */
  function LinesMoved(t: Term, n: nat): (k: nat)
    requires MovesLines(t, n)
    ensures k <= n && t.cursor.row + k <= t.bottom + 1
  {
    Min(n, t.bottom - t.cursor.row + 1)
  }

  lemma ScreenDeleteAfterInsert(s: S.ScreenV, cols: nat, row: nat, n: nat, top: nat, bottom: nat, style: Style)
    requires top <= row <= bottom < |s.grid| && n > 0
    ensures S.DeleteLines(S.InsertLines(s, cols, row, n, top, bottom, style), cols, row, n, top, bottom, style)
      == S.ScreenV(BlankedRows(s.grid, bottom + 1 - Min(n, bottom - row + 1), bottom + 1,
        BlankRow(cols, Blank(style))), true)
  {
    hide InsertRows, DeleteRows, BlankedRows;
    DeletedAfterInsert(s.grid, row, Min(n, bottom - row + 1), bottom + 1, BlankRow(cols, Blank(style)));
  }

  lemma ScreenInsertAfterDelete(s: S.ScreenV, cols: nat, row: nat, n: nat, top: nat, bottom: nat, style: Style)
    requires top <= row <= bottom < |s.grid| && n > 0
    ensures S.InsertLines(S.DeleteLines(s, cols, row, n, top, bottom, style), cols, row, n, top, bottom, style)
      == S.ScreenV(BlankedRows(s.grid, row, row + Min(n, bottom - row + 1), BlankRow(cols, Blank(style))), true)
  {
    hide InsertRows, DeleteRows, BlankedRows;
    InsertedAfterDelete(s.grid, row, Min(n, bottom - row + 1), bottom + 1, BlankRow(cols, Blank(style)));
  }

  /** The active screen with a span of its lines blank in the pen's style. */
  function Reblanked(t: Term, from: nat, to: nat): S.ScreenV
    requires from <= to <= |Active(t).grid|
  {
    S.ScreenV(BlankedRows(Active(t).grid, from, to, BlankRow(t.cols, Blank(t.pen))), true)
  }

  /** The two controls, one after the other, are the screen's two operations; nothing else changes. */
  lemma DeleteAfterInsert(t: Term, n: nat, s: S.ScreenV)
    requires WF(t)
    requires s == S.DeleteLines(S.InsertLines(Active(t), t.cols, t.cursor.row, n, t.top, t.bottom, t.pen),
      t.cols, t.cursor.row, n, t.top, t.bottom, t.pen)
    ensures DeleteLines(InsertLines(t, n), n) == WithActive(t, s)
  {
  }

  lemma InsertAfterDelete(t: Term, n: nat, s: S.ScreenV)
    requires WF(t)
    requires s == S.InsertLines(S.DeleteLines(Active(t), t.cols, t.cursor.row, n, t.top, t.bottom, t.pen),
      t.cols, t.cursor.row, n, t.top, t.bottom, t.pen)
    ensures InsertLines(DeleteLines(t, n), n) == WithActive(t, s)
  {
  }

  lemma LinesStay(t: Term, n: nat)
    requires WF(t) && !MovesLines(t, n)
    ensures InsertLines(t, n) == t == DeleteLines(t, n)
  {
  }

  /**
   * IL followed by as many DL gives the terminal back, but for the lines pushed
   * past the bottom of the region, which come back blank in the pen's style.
   */
  lemma DeleteUndoesInsert(t: Term, n: nat)
    requires WF(t)
    ensures DeleteLines(InsertLines(t, n), n) == if !MovesLines(t, n) then t
      else WithActive(t, Reblanked(t, t.bottom + 1 - LinesMoved(t, n), t.bottom + 1))
  {
    hide InsertLines, DeleteLines, S.InsertLines, S.DeleteLines, BlankedRows;
    if MovesLines(t, n) {
      ScreenDeleteAfterInsert(Active(t), t.cols, t.cursor.row, n, t.top, t.bottom, t.pen);
      DeleteAfterInsert(t, n, Reblanked(t, t.bottom + 1 - LinesMoved(t, n), t.bottom + 1));
    } else {
      LinesStay(t, n);
    }
  }

  /** DL followed by as many IL gives back all but the lines deleted, which come back blank. */
  lemma InsertUndoesDelete(t: Term, n: nat)
    requires WF(t)
    ensures InsertLines(DeleteLines(t, n), n) == if !MovesLines(t, n) then t
      else WithActive(t, Reblanked(t, t.cursor.row, t.cursor.row + LinesMoved(t, n)))
  {
    hide InsertLines, DeleteLines, S.InsertLines, S.DeleteLines, BlankedRows;
    if MovesLines(t, n) {
      ScreenInsertAfterDelete(Active(t), t.cols, t.cursor.row, n, t.top, t.bottom, t.pen);
      InsertAfterDelete(t, n, Reblanked(t, t.cursor.row, t.cursor.row + LinesMoved(t, n)));
    } else {
      LinesStay(t, n);
    }
  }

  /** Rows outside a span are the same in both. */
  predicate SameOutside(g: Rows, r: Rows, top: nat, bottom: nat) {
    |r| == |g| && forall i :: 0 <= i < |g| && (i < top || bottom < i) ==> r[i] == g[i]
  }

  lemma SpanConfined(g: Rows, at: nat, n: nat, end: nat, blank: Row, top: nat)
    requires top <= at && at + n <= end <= |g| && end > 0
    ensures SameOutside(g, InsertRows(g, at, n, end, blank), top, end - 1)
    ensures SameOutside(g, DeleteRows(g, at, n, end, blank), top, end - 1)
  {
  }

  lemma ScrollsConfined(s: S.ScreenV, cols: nat, n: nat, top: nat, bottom: nat, style: Style)
    requires top <= bottom < |s.grid|
    ensures SameOutside(s.grid, S.ScrollUp(s, cols, n, top, bottom, style).grid, top, bottom)
    ensures SameOutside(s.grid, S.ScrollDown(s, cols, n, top, bottom, style).grid, top, bottom)
  {
    if n <= bottom - top {
      SpanConfined(s.grid, top, n, bottom + 1, BlankRow(cols, Blank(style)), top);
    }
  }

  lemma LinesConfined(s: S.ScreenV, cols: nat, row: nat, n: nat, top: nat, bottom: nat, style: Style)
    requires top <= bottom < |s.grid|
    ensures SameOutside(s.grid, S.InsertLines(s, cols, row, n, top, bottom, style).grid, top, bottom)
    ensures SameOutside(s.grid, S.DeleteLines(s, cols, row, n, top, bottom, style).grid, top, bottom)
  {
    if top <= row <= bottom {
      SpanConfined(s.grid, row, Min(n, bottom - row + 1), bottom + 1, BlankRow(cols, Blank(style)), top);
    }
  }

  /** SU, SD, IL and DL never touch a row outside the scroll region. */
  lemma ScrollingIsConfined(t: Term, n: u16)
    requires WF(t)
    ensures SameOutside(Active(t).grid, Active(ScrollUpScreen(t, n)).grid, t.top, t.bottom)
    ensures SameOutside(Active(t).grid, Active(ScrollDown(t, n)).grid, t.top, t.bottom)
    ensures SameOutside(Active(t).grid, Active(InsertLines(t, n)).grid, t.top, t.bottom)
    ensures SameOutside(Active(t).grid, Active(DeleteLines(t, n)).grid, t.top, t.bottom)
  {
    ScrollsConfined(Active(t), t.cols, n, t.top, t.bottom, t.pen);
    LinesConfined(Active(t), t.cols, t.cursor.row, n, t.top, t.bottom, t.pen);
  }
}
