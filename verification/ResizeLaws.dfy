/** What every cell, row and field is after a resize, and what a trim keeps of the history. */
module ResizeLaws {
  import opened TerminalTypes
  import opened Grid
  import opened Scrollback
  import opened TermSpec
  import S = ScreenSpec

  // ---- one cell -------------------------------------------------------

  /** How many rows of a grid are placed: all of them, or when some must go only down to the last that draws. */
  function Placed(g: Rows, rows: nat): nat {
    if |g| <= rows then |g| else ContentHeight(g)
  }

  /** How many of those leave at the top. */
  function LeaveAtTop(g: Rows, rows: nat): nat {
    SatSub(Placed(g, rows), rows)
  }

  /** What a row holds at another width: its cells, but a lead that has lost its other half is emptied. */
  function FittedCell(row: Row, cols: nat, c: nat): Cell {
    if c >= Min(|row|, cols) || (c + 1 == Min(|row|, cols) && row[c].width == 2) then EMPTY else row[c]
  }

  lemma FitAt(row: Row, cols: nat, c: nat)
    requires c < cols
    ensures FitRow(row, cols)[c] == FittedCell(row, cols, c)
  {
  }

  /** Every cell of a resized screen, for every old and new size. */
  ghost predicate ResizedCells(g: Rows, r: Rows, rows: nat, cols: nat) {
    && Rect(r, rows, cols)
    && forall i: nat, c: nat :: i < rows && c < cols ==>
      r[i][c] == if i + LeaveAtTop(g, rows) < Placed(g, rows) then FittedCell(g[i + LeaveAtTop(g, rows)], cols, c)
                 else EMPTY
  }

  lemma SameWidthKeepsCell(row: Row, c: nat)
    requires c < |row| && EdgeOk(row)
    ensures FittedCell(row, |row|, c) == row[c]
  {
  }

  lemma SameSizeKeepsCells(g: Rows, cols: nat)
    requires Rect(g, |g|, cols) && NoWideEdge(g)
    ensures ResizedCells(g, g, |g|, cols)
  {
    hide FittedCell, EdgeOk;
    forall i: nat, c: nat | i < |g| && c < cols ensures FittedCell(g[i], cols, c) == g[i][c] {
      assert EdgeOk(g[i]);
      SameWidthKeepsCell(g[i], c);
    }
    assert Placed(g, |g|) == |g| && LeaveAtTop(g, |g|) == 0;
  }

  lemma RowResized(g: Rows, rows: nat, cols: nat, i: nat, c: nat)
    requires i < rows && c < cols
    ensures ResizeRows(g, rows, cols)[i][c]
      == if i + LeaveAtTop(g, rows) < Placed(g, rows) then FittedCell(g[i + LeaveAtTop(g, rows)], cols, c) else EMPTY
  {
    hide FitRow, FittedCell, ContentHeight;
    if i + LeaveAtTop(g, rows) < Placed(g, rows) {
      FitAt(g[i + LeaveAtTop(g, rows)], cols, c);
    }
  }

  /** The rows of the old screen that stay are at the top of the new one, in their order; the rest is empty. */
  lemma ResizedExactly(s: S.ScreenV, oldCols: nat, rows: nat, cols: nat)
    requires S.Ok(s, |s.grid|, oldCols)
    ensures ResizedCells(s.grid, S.Resize(s, oldCols, rows, cols).grid, rows, cols)
    ensures S.ResizeDropped(s, oldCols, rows, cols) == s.grid[..LeaveAtTop(s.grid, rows)]
  {
    hide FitRow, FittedCell, ContentHeight, ResizeRows;
    var g := s.grid;
    if rows == |g| && cols == oldCols {
      SameSizeKeepsCells(g, cols);
      assert g[..LeaveAtTop(g, rows)] == [];
    } else {
      forall i: nat, c: nat | i < rows && c < cols
        ensures ResizeRows(g, rows, cols)[i][c]
          == if i + LeaveAtTop(g, rows) < Placed(g, rows) then FittedCell(g[i + LeaveAtTop(g, rows)], cols, c)
             else EMPTY
      {
        RowResized(g, rows, cols, i, c);
      }
    }
  }

  /** Widening a screen and narrowing it back gives every cell back. */
  lemma WidenAndBack(s: S.ScreenV, cols: nat, wider: nat)
    requires S.Ok(s, |s.grid|, cols) && cols <= wider
    ensures S.Resize(S.Resize(s, cols, |s.grid|, wider), wider, |s.grid|, cols).grid == s.grid
  {
    hide S.Resize, ContentHeight, S.ResizeDropped;
    var rows := |s.grid|;
    var w := S.Resize(s, cols, rows, wider);
    var r := S.Resize(w, wider, rows, cols);
    ResizedExactly(s, cols, rows, wider);
    assert |w.grid| == rows;
    ResizedExactly(w, wider, rows, cols);
    forall i: nat | i < rows ensures r.grid[i] == s.grid[i] {
      assert EdgeOk(s.grid[i]);
      forall c: nat | c < cols ensures r.grid[i][c] == s.grid[i][c] {
        assert r.grid[i][c] == FittedCell(w.grid[i], cols, c);
        assert w.grid[i][c] == FittedCell(s.grid[i], wider, c);
      }
    }
  }

  lemma {:induction false} ContentHeightIs(g: Rows, h: nat)
    requires h <= |g| && (forall r :: h <= r < |g| ==> IsBlankRow(g[r])) && (h > 0 ==> !IsBlankRow(g[h - 1]))
    ensures ContentHeight(g) == h
  {
  }

  /** Rows of a larger screen draw what the rows they came from drew. */
  lemma GrownDraws(g: Rows, w: Rows, cols: nat, rows: nat, wider: nat, i: nat)
    requires Rect(g, |g|, cols) && NoWideEdge(g) && |g| <= rows && cols <= wider && i < rows
    requires ResizedCells(g, w, rows, wider)
    ensures i < |g| ==> (IsBlankRow(w[i]) <==> IsBlankRow(g[i])) && forall c :: 0 <= c < cols ==> w[i][c] == g[i][c]
    ensures i >= |g| ==> IsBlankRow(w[i])
  {
    hide ContentHeight;
    if i < |g| {
      assert EdgeOk(g[i]);
      forall c: nat | c < wider ensures w[i][c] == if c < cols then g[i][c] else EMPTY {
        assert w[i][c] == FittedCell(g[i], wider, c);
      }
    } else {
      forall c: nat | c < wider ensures w[i][c] == EMPTY {
      }
    }
  }

  lemma GrownHeight(g: Rows, w: Rows, cols: nat, rows: nat, wider: nat)
    requires Rect(g, |g|, cols) && NoWideEdge(g) && |g| <= rows && cols <= wider
    requires ResizedCells(g, w, rows, wider)
    ensures ContentHeight(w) == ContentHeight(g)
  {
    assert |w| == rows;
    hide ResizedCells, IsBlankRow;
    forall i: nat | i < rows
      ensures i < |g| ==> (IsBlankRow(w[i]) <==> IsBlankRow(g[i]))
      ensures i >= |g| ==> IsBlankRow(w[i])
    {
      GrownDraws(g, w, cols, rows, wider, i);
    }
    ContentHeightIs(w, ContentHeight(g));
  }

  /**
   * Enlarging a screen and shrinking it back to its size gives back every row
   * down to the last that draws anything, and empty ones below it.
   */
  lemma GrowAndBack(s: S.ScreenV, cols: nat, taller: nat, wider: nat)
    requires S.Ok(s, |s.grid|, cols) && cols <= wider && |s.grid| < taller
    ensures var r := S.Resize(S.Resize(s, cols, taller, wider), wider, |s.grid|, cols).grid;
      |r| == |s.grid| && forall i :: 0 <= i < |r| ==>
        r[i] == if i < ContentHeight(s.grid) then s.grid[i] else BlankRow(cols, EMPTY)
  {
    hide S.Resize, ContentHeight, S.ResizeDropped;
    var g, rows := s.grid, |s.grid|;
    var w := S.Resize(s, cols, taller, wider);
    var r := S.Resize(w, wider, rows, cols);
    ResizedExactly(s, cols, taller, wider);
    assert |w.grid| == taller;
    ResizedExactly(w, wider, rows, cols);
    GrownHeight(g, w.grid, cols, taller, wider);
    forall i: nat | i < rows
      ensures r.grid[i] == if i < ContentHeight(g) then g[i] else BlankRow(cols, EMPTY)
    {
      GrownDraws(g, w.grid, cols, taller, wider, i);
      GotBack(g, w.grid, r.grid, cols, taller, wider, i);
    }
  }

  lemma GotBack(g: Rows, w: Rows, r: Rows, cols: nat, taller: nat, wider: nat, i: nat)
    requires Rect(g, |g|, cols) && NoWideEdge(g) && Rect(w, taller, wider) && i < |g| < taller && cols <= wider
    requires ResizedCells(w, r, |g|, cols) && ContentHeight(w) == ContentHeight(g)
    requires forall c :: 0 <= c < cols ==> w[i][c] == g[i][c]
    ensures r[i] == if i < ContentHeight(g) then g[i] else BlankRow(cols, EMPTY)
  {
    hide ContentHeight;
    assert EdgeOk(g[i]);
    forall c: nat | c < cols
      ensures r[i][c] == if i < ContentHeight(g) then g[i][c] else EMPTY
    {
      assert r[i][c] == if i < ContentHeight(g) then FittedCell(w[i], cols, c) else EMPTY;
    }
  }

  // ---- the whole terminal ---------------------------------------------

  /** Where a resize leaves the cursor before it steps off a trailing half. */
  function CursorAfter(t: Term, rows: NonZeroU16, cols: NonZeroU16): Position {
    var row := t.cursor.row - Min(t.cursor.row, LeaveAtTop(Active(t).grid, rows));
    Position(Min(row, rows - 1), Min(t.cursor.col, cols - 1))
  }

  /** What the primary screen hands to the history: the rows that leave and draw something. */
  function HandedOver(t: Term, rows: NonZeroU16): seq<Row> {
    if t.onAlternate then [] else Content(t.primary.grid[..LeaveAtTop(t.primary.grid, rows)])
  }

  /** Every field after a resize to another size, from the screens' cells and the cursor's column. */
  ghost predicate ResizedTerm(t: Term, r: Term, rows: NonZeroU16, cols: NonZeroU16)
    requires WF(t) && WF(r)
  {
    var at, lines := CursorAfter(t, rows, cols), HandedOver(t, rows);
    && r == t.(
         rows := rows, cols := cols, top := 0, bottom := rows - 1, wrapPending := false,
         primary := S.ScreenV(r.primary.grid, false), alternate := r.alternate,
         cursor := Position(at.row, r.cursor.col),
         scrollback := t.scrollback + lines, scrollbackCells := r.scrollbackCells,
         events := t.events.(
           screenUpdated := true, scrollbackLineAdded := t.events.scrollbackLineAdded || lines != []))
    && ResizedCells(t.primary.grid, r.primary.grid, rows, cols)
    && ResizedCells(t.alternate.grid, r.alternate.grid, rows, cols)
    && at.col < cols
    && r.cursor.col
      == if at.col > 0 && Active(r).grid[at.row][at.col].width == 0 then at.col - 1 else at.col
  }

  lemma CursorFits(t: Term, rows: NonZeroU16, cols: NonZeroU16)
    ensures CursorAfter(t, rows, cols).col < cols
  {
  }

  lemma BothLaidOut(t: Term, rows: NonZeroU16, cols: NonZeroU16)
    requires WF(t)
    ensures var u := TermSpec.LaidOut(t, rows, cols);
      && u == t.(
           rows := rows, cols := cols, top := 0, bottom := rows - 1, wrapPending := false,
           cursor := CursorAfter(t, rows, cols), primary := u.primary, alternate := u.alternate)
      && ResizedCells(t.primary.grid, u.primary.grid, rows, cols)
      && ResizedCells(t.alternate.grid, u.alternate.grid, rows, cols)
  {
    assert LeaveAtTop(Active(t).grid, rows) <= |Active(t).grid|;
    hide S.Resize, S.ResizeDropped, ContentHeight, ResizedCells, LeaveAtTop;
    ResizedExactly(t.primary, t.cols, rows, cols);
    ResizedExactly(t.alternate, t.cols, rows, cols);
  }

  lemma HandedOverIs(t: Term, u: Term, rows: NonZeroU16, cols: NonZeroU16)
    requires WF(t) && WF(u) && u.scrollback == t.scrollback && u.events == t.events
    ensures var v := if t.onAlternate then u else PushDisplaced(u, S.ResizeDropped(t.primary, t.cols, rows, cols));
      var lines := HandedOver(t, rows);
      v == u.(
        scrollback := t.scrollback + lines, scrollbackCells := v.scrollbackCells,
        events := t.events.(scrollbackLineAdded := t.events.scrollbackLineAdded || lines != []))
  {
    hide S.Resize, S.ResizeDropped, ContentHeight, Content, LeaveAtTop, ResizedCells;
    assert t.scrollback + [] == t.scrollback;
    ResizedExactly(t.primary, t.cols, rows, cols);
  }

  lemma StepsOffTrail(v: Term)
    requires WF(v)
    ensures RepairCursorCell(v) == v.(cursor := Position(v.cursor.row,
      if v.cursor.col > 0 && Active(v).grid[v.cursor.row][v.cursor.col].width == 0 then v.cursor.col - 1
      else v.cursor.col))
  {
  }

  /**
   * A resize to the size there is changes nothing; any other lays both screens out,
   * resets the region and the pending wrap, moves the cursor with its row, keeps the
   * rows displaced from a shown primary screen that draw something, reports an
   * update, and leaves every other field alone.
   */
  lemma ResizeExactly(t: Term, rows: NonZeroU16, cols: NonZeroU16)
    requires WF(t)
    ensures var r := Resize(t, rows, cols);
      if rows == t.rows && cols == t.cols then r == t else ResizedTerm(t, r, rows, cols)
  {
    hide TermSpec.LaidOut, PushDisplaced, RepairCursorCell, ResizedCells, CursorAfter, HandedOver;
    if rows != t.rows || cols != t.cols {
      var u := TermSpec.LaidOut(t, rows, cols);
      BothLaidOut(t, rows, cols);
      HandedOverIs(t, u, rows, cols);
      CursorFits(t, rows, cols);
      var v := if t.onAlternate then u else PushDisplaced(u, S.ResizeDropped(t.primary, t.cols, rows, cols));
      StepsOffTrail(v);
    }
  }

  /**
   * A resize to another size resets the scroll region. That is clamping it into
   * the new height exactly when it reaches the new bottom and begins at the top.
   */
  lemma RegionClampedExactly(t: Term, rows: NonZeroU16, cols: NonZeroU16)
    requires WF(t) && (rows != t.rows || cols != t.cols)
    ensures var r := Resize(t, rows, cols);
      r.top == Min(t.top, rows - 1) && r.bottom == Min(t.bottom, rows - 1)
      <==> (t.top == 0 || rows == 1) && t.bottom >= rows - 1
  {
    hide Resize;
    ResizeExactly(t, rows, cols);
  }

  // ---- trimming -------------------------------------------------------

  /** How many cells `n` lines of equal width take. */
  lemma {:induction false} CellsOfEqualLines(lines: seq<Row>, cols: nat)
    requires forall i :: 0 <= i < |lines| ==> |lines[i]| == cols
    ensures CellCount(lines) == |lines| * cols
  {
    if lines != [] {
      CellsOfEqualLines(lines[1..], cols);
    }
  }

  /**
   * A trim touches the history alone: what is kept is its newest lines, within
   * both limits, and no more of them would be; a limit of no cells keeps none.
   */
  lemma TrimExactly(t: Term, maxLines: nat, maxCells: nat)
    requires WF(t)
    ensures var r := TrimScrollback(t, maxLines, maxCells);
      var n := |t.scrollback| - |r.scrollback|;
      && r == t.(scrollback := r.scrollback, scrollbackCells := CellCount(r.scrollback))
      && n >= 0 && r.scrollback == t.scrollback[n..]
      && |r.scrollback| <= maxLines && CellCount(r.scrollback) <= maxCells
      && (maxCells == 0 ==> r.scrollback == [])
      && forall k :: 0 <= k < n ==>
           |t.scrollback| - k > maxLines || CellCount(t.scrollback[k..]) > maxCells || maxCells == 0
  {
    hide Trimmed, CellCount;
    TrimmedIsLongest(t.scrollback, maxLines, maxCells);
    var r := Trimmed(t.scrollback, maxLines, maxCells);
    assert Fits(r, maxLines, maxCells);
    forall k | 0 <= k < |t.scrollback| - |r|
      ensures |t.scrollback| - k > maxLines || CellCount(t.scrollback[k..]) > maxCells || maxCells == 0
    {
      assert !FitsFrom(t.scrollback, k, maxLines, maxCells);
    }
  }
}
