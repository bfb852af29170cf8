/** Laws of the row operations: wide-glyph pairing and conservation of text. */
module GridLaws {
  import opened TerminalTypes
  import opened Grid
  import opened Scrollback

  // ---- erasing --------------------------------------------------------

  /** One cell is a styled blank, at most one broken partner is emptied, the rest is untouched. */
  predicate BlankedAt(row: Row, r: Row, col: nat, style: Style)
    requires col < |row|
  {
    && |r| == |row|
    && forall k :: 0 <= k < |row| ==>
      r[k] == if k == col then Blank(style)
              else if (k + 1 == col && row[col].width == 0) || (k == col + 1 && row[col].width == 2) then EMPTY
              else row[k]
  }

  /**
   * The cells `[start, end)` are styled blanks, at most the broken partner on
   * each side is emptied, and the rest is untouched.
   */
  predicate BlankedExactly(row: Row, r: Row, start: nat, end: nat, style: Style)
    requires start <= end <= |row|
  {
    && |r| == |row|
    && forall k :: 0 <= k < |row| ==>
      r[k] == if start <= k < end then Blank(style)
              else if k + 1 == start < end && row[start].width == 0 then EMPTY
              else if k == end > start && row[end - 1].width == 2 then EMPTY
              else row[k]
  }

  lemma BlankedCell(row: Row, col: nat, style: Style)
    requires col < |row|
    ensures BlankedAt(row, ClearAt(row, col)[col := Blank(style)], col, style)
  {
  }

  lemma BlankedStep(row: Row, before: Row, r: Row, start: nat, end: nat, style: Style)
    requires Paired(row) && start < end <= |row|
    requires BlankedExactly(row, before, start, end - 1, style) && BlankedAt(before, r, end - 1, style)
    ensures BlankedExactly(row, r, start, end, style)
  {
    assert before[end - 1] == if end - 1 > start && row[end - 2].width == 2 then EMPTY else row[end - 1];
  }

  /**
   * On a paired row an erase sets exactly its range to styled blanks, and
   * otherwise empties at most the broken partner on each side.
   */
  lemma {:induction false} EraseExact(row: Row, start: nat, end: nat, style: Style)
    requires Paired(row) && start <= end <= |row|
    ensures BlankedExactly(row, EraseSpan(row, start, end, style), start, end, style)
    decreases end
  {
    hide ClearAt, Paired, BlankedAt;
    if start < end {
      var before := EraseSpan(row, start, end - 1, style);
      EraseExact(row, start, end - 1, style);
      BlankedCell(before, end - 1, style);
      BlankedStep(row, before, ClearAt(before, end - 1)[end - 1 := Blank(style)], start, end, style);
    }
  }

  /** Single blanks throughout a range. */
  predicate BlankBetween(r: Row, start: nat, end: nat)
    requires start <= end <= |r|
  {
    forall k :: start <= k < end ==> r[k].ch == ' ' && r[k].width == 1
  }

  /** Whatever the row holds, an erased range is single blanks and its last cell has the pen's style. */
  lemma {:induction false} EraseBlanks(row: Row, start: nat, end: nat, style: Style)
    requires start <= end <= |row|
    ensures BlankBetween(EraseSpan(row, start, end, style), start, end)
    ensures start < end ==> EraseSpan(row, start, end, style)[end - 1] == Blank(style)
    decreases end
  {
    if start < end {
      var before := EraseSpan(row, start, end - 1, style);
      EraseBlanks(row, start, end - 1, style);
      BlankedCell(before, end - 1, style);
      BlanksGrow(before, ClearAt(before, end - 1)[end - 1 := Blank(style)], start, end, style);
    }
  }

  lemma BlanksGrow(before: Row, r: Row, start: nat, end: nat, style: Style)
    requires start < end <= |before| && BlankBetween(before, start, end - 1) && BlankedAt(before, r, end - 1, style)
    ensures BlankBetween(r, start, end)
  {
  }

  /** Blanks in the range, at most the cell on each side of it emptied, the rest untouched. */
  predicate BlankedRoughly(row: Row, r: Row, start: nat, end: nat)
    requires start <= end <= |row|
  {
    && |r| == |row| && BlankBetween(r, start, end) && (start == end ==> r == row)
    && forall k :: 0 <= k < |row| && (k < start || end <= k) ==>
         r[k] == row[k] || (r[k] == EMPTY && (k + 1 == start || k == end))
  }

  /** Whatever the row holds, halved glyphs included, an erase is confined to its range and the cell on each side. */
  lemma {:induction false} EraseConfined(row: Row, start: nat, end: nat, style: Style)
    requires start <= end <= |row|
    ensures BlankedRoughly(row, EraseSpan(row, start, end, style), start, end)
    decreases end
  {
    hide ClearAt, BlankedAt;
    EraseBlanks(row, start, end, style);
    if start < end {
      var before := EraseSpan(row, start, end - 1, style);
      EraseConfined(row, start, end - 1, style);
      BlankedCell(before, end - 1, style);
      ConfinedStep(row, before, EraseSpan(row, start, end, style), start, end, style);
    }
  }

  lemma ConfinedStep(row: Row, before: Row, r: Row, start: nat, end: nat, style: Style)
    requires start < end <= |row| && |r| == |row| && BlankBetween(r, start, end)
    requires BlankedRoughly(row, before, start, end - 1) && BlankedAt(before, r, end - 1, style)
    ensures BlankedRoughly(row, r, start, end)
  {
  }

  // ---- shifting cells within a row ------------------------------------

  /** What is in a column once cells from another on have moved right; a lead that reaches the edge is emptied. */
  function FromLeft(row: Row, col: nat, k: nat, style: Style, c: nat): Cell
    requires c < |row|
  {
    if c < col then row[c]
    else if c < col + k then Blank(style)
    else if c + 1 == |row| && row[c - k].width == 2 then EMPTY
    else row[c - k]
  }

  /** What is there once they have moved left over the cells taken out. */
  function FromRight(row: Row, col: nat, k: nat, style: Style, c: nat): Cell
    requires c < |row|
  {
    if c < col then row[c] else if c + k < |row| then row[c + k] else Blank(style)
  }

  predicate ShiftedRight(row: Row, r: Row, col: nat, k: nat, style: Style) {
    |r| == |row| && forall c: nat :: c < |row| ==> r[c] == FromLeft(row, col, k, style, c)
  }

  predicate ShiftedLeft(row: Row, r: Row, col: nat, k: nat, style: Style) {
    |r| == |row| && forall c: nat :: c < |row| ==> r[c] == FromRight(row, col, k, style, c)
  }

  /** What each cell of a row holds after an insertion. */
  lemma InsertedAt(row: Row, col: nat, count: nat, style: Style)
    requires count > 0 && col + count <= |row|
    ensures ShiftedRight(row, InsertCells(row, col, count, style), col, count, style)
  {
    var shifted := row[..col] + BlankRow(count, Blank(style)) + row[col..|row| - count];
    assert shifted[|row| - 1] == if col + count < |row| then row[|row| - 1 - count] else Blank(style);
  }

  lemma OpenedUp(row: Row, r: Row, col: nat, count: nat)
    requires Paired(row) && |r| == |row| && count > 0 && col + count <= |row| && row[col].width != 0
    requires forall k :: 0 <= k < col ==> r[k] == row[k]
    requires forall k :: col <= k < col + count ==> r[k].width == 1
    requires forall k :: col + count <= k < |row| ==>
      r[k].width == if k + 1 == |row| && row[k - count].width == 2 then 1 else row[k - count].width
    ensures Paired(r)
  {
    forall c | 0 <= c < |r| && r[c].width == 2 ensures c + 1 < |r| && r[c + 1].width == 0 {
      var from := if c < col then c else c - count;
      assert row[from].width == 2 && row[from + 1].width == 0;
    }
    forall c | 0 <= c < |r| && r[c].width == 0 ensures c > 0 && r[c - 1].width == 2 {
      var from := if c < col then c else c - count;
      assert row[from].width == 0 && row[from - 1].width == 2;
    }
  }

  lemma ShiftKeepsPairs(row: Row, r: Row, col: nat, count: nat)
    requires Paired(row) && |r| == |row| && count > 0 && col + count <= |row|
    requires forall k :: 0 <= k < col ==> r[k] == row[k]
    requires forall k :: col <= k < col + count ==> r[k].width == 1
    requires forall k :: col + count <= k < |row| ==>
      r[k] == if k + 1 == |row| && row[k - count].width == 2 then EMPTY else row[k - count]
    ensures Paired(r) <==> row[col].width != 0
  {
    if row[col].width == 0 {
      assert r[col - 1].width == 2 && r[col].width == 1;
    } else {
      OpenedUp(row, r, col, count);
    }
  }

  /**
   * Inserting cells keeps wide glyphs whole exactly when the insertion point is
   * not the trailing half of one.
   */
  lemma InsertKeepsPairs(row: Row, col: nat, count: nat, style: Style)
    requires Paired(row) && count > 0 && col + count <= |row|
    ensures Paired(InsertCells(row, col, count, style)) <==> row[col].width != 0
  {
    InsertedAt(row, col, count, style);
    ShiftKeepsPairs(row, InsertCells(row, col, count, style), col, count);
  }

  /** Whether the cell at a column is the trailing half of a wide glyph. */
  predicate TrailAt(row: Row, col: nat) {
    col < |row| && row[col].width == 0
  }

  /** What each cell of a row holds after a deletion. */
  lemma DeletedAt(row: Row, col: nat, count: nat, style: Style)
    requires count > 0 && col + count <= |row|
    ensures ShiftedLeft(row, DeleteCells(row, col, count, style), col, count, style)
  {
    var shifted := row[..col] + row[col + count..] + BlankRow(count, Blank(style));
    assert shifted[|row| - 1] == Blank(style);
  }

  lemma ClosedUp(row: Row, r: Row, col: nat, count: nat)
    requires Paired(row) && |r| == |row| && count > 0 && col + count <= |row|
    requires forall k :: 0 <= k < col ==> r[k] == row[k]
    requires forall k :: col <= k < |row| - count ==> r[k] == row[k + count]
    requires forall k :: |row| - count <= k < |row| ==> r[k].width == 1
    requires TrailAt(row, col) <==> TrailAt(row, col + count)
    ensures Paired(r)
  {
    forall c | 0 <= c < |r| && r[c].width == 2 ensures c + 1 < |r| && r[c + 1].width == 0 {
      var from := if c < col then c else c + count;
      assert row[from].width == 2 && row[from + 1].width == 0;
    }
    forall c | 0 <= c < |r| && r[c].width == 0 ensures c > 0 && r[c - 1].width == 2 {
      var from := if c < col then c else c + count;
      assert row[from].width == 0 && row[from - 1].width == 2;
      if c == col {
        assert row[col].width == 0 && row[col - 1].width == 2;
      }
    }
  }

  /**
   * Deleting cells keeps wide glyphs whole exactly when it starts and ends
   * alike: both ends on a trailing half, or neither.
   */
  lemma DeleteKeepsPairs(row: Row, col: nat, count: nat, style: Style)
    requires Paired(row) && count > 0 && col + count <= |row|
    ensures Paired(DeleteCells(row, col, count, style)) <==> (TrailAt(row, col) <==> TrailAt(row, col + count))
  {
    var r := DeleteCells(row, col, count, style);
    DeletedAt(row, col, count, style);
    if TrailAt(row, col) && !TrailAt(row, col + count) {
      assert r[col - 1].width == 2 && r[col].width != 0;
    } else if !TrailAt(row, col) && TrailAt(row, col + count) {
      assert r[col].width == 0 && (col > 0 ==> r[col - 1].width != 2);
    } else {
      ClosedUp(row, r, col, count);
    }
  }

  // ---- text -----------------------------------------------------------

  lemma {:induction false} ContentOfBlank(rows: seq<Row>)
    requires forall i :: 0 <= i < |rows| ==> IsBlankRow(rows[i])
    ensures Content(rows) == []
  {
    if rows != [] {
      ContentOfBlank(rows[1..]);
    }
  }

  /** Rows that all draw something are all content. */
  lemma {:induction false} ContentAll(rows: seq<Row>)
    requires forall i :: 0 <= i < |rows| ==> !IsBlankRow(rows[i])
    ensures Content(rows) == rows
  {
    if rows != [] {
      ContentAll(rows[1..]);
      assert rows == [rows[0]] + rows[1..];
    }
  }

  lemma ContentPadded(rows: seq<Row>, added: seq<Row>)
    requires forall i :: 0 <= i < |added| ==> IsBlankRow(added[i])
    ensures Content(rows + added) == Content(rows)
  {
    ContentAppend(rows, added);
    ContentOfBlank(added);
    assert Content(rows) + [] == Content(rows);
  }

  /** Rows that leave at the top and are kept as content lose no text. */
  lemma ContentMoves(history: seq<Row>, left: seq<Row>, stay: seq<Row>, added: seq<Row>)
    requires forall i :: 0 <= i < |added| ==> IsBlankRow(added[i])
    ensures Content((history + Content(left)) + (stay + added)) == Content(history + (left + stay))
  {
    ContentAppend(history + Content(left), stay + added);
    ContentAppend(history, Content(left));
    ContentAll(Content(left));
    ContentPadded(stay, added);
    ContentAppend(history, left + stay);
    ContentAppend(left, stay);
    Associate(Content(history), Content(left), Content(stay));
  }

  /** A row refitted to its own width is unchanged. */
  lemma FitSame(row: Row)
    requires EdgeOk(row)
    ensures FitRow(row, |row|) == row
  {
    assert row[..|row|] == row;
  }

  lemma ResizedSame(g: Rows, rows: nat, cols: nat, i: nat)
    requires Rect(g, |g|, cols) && NoWideEdge(g)
    ensures ResizedRow(g, rows, cols, i)
      == if i + RowShift(g, rows) < EffectiveRows(g, rows) then g[i + RowShift(g, rows)] else BlankRow(cols, EMPTY)
  {
    if i + RowShift(g, rows) < EffectiveRows(g, rows) {
      FitSame(g[i + RowShift(g, rows)]);
    }
  }

  /** A change of height keeps the rows `[shift, effective)` and adds blank ones. */
  lemma ResizeSameWidth(g: Rows, rows: nat, cols: nat)
    requires Rect(g, |g|, cols) && NoWideEdge(g)
    ensures RowShift(g, rows) <= EffectiveRows(g, rows) <= RowShift(g, rows) + rows
    ensures ResizeRows(g, rows, cols)
      == g[RowShift(g, rows)..EffectiveRows(g, rows)]
         + BlankRows(rows - (EffectiveRows(g, rows) - RowShift(g, rows)), cols, EMPTY)
    ensures forall r :: EffectiveRows(g, rows) <= r < |g| ==> IsBlankRow(g[r])
  {
    var shift, effective := RowShift(g, rows), EffectiveRows(g, rows);
    var r := ResizeRows(g, rows, cols);
    var kept, blank := g[shift..effective], BlankRows(rows - (effective - shift), cols, EMPTY);
    assert |kept + blank| == rows;
    forall i | 0 <= i < rows ensures r[i] == (kept + blank)[i] {
      ResizedSame(g, rows, cols, i);
    }
  }

  /** What a change of height hands back and keeps holds the text it had. */
  lemma ResizeText(history: seq<Row>, g: Rows, rows: nat, cols: nat)
    requires Rect(g, |g|, cols) && NoWideEdge(g)
    ensures Content(history + Content(g[..RowShift(g, rows)]) + ResizeRows(g, rows, cols)) == Content(history + g)
  {
    hide ResizeRows, RowShift;
    var shift, effective := RowShift(g, rows), EffectiveRows(g, rows);
    ResizeSameWidth(g, rows, cols);
    ContentMoves(history, g[..shift], g[shift..effective], BlankRows(rows - (effective - shift), cols, EMPTY));
    assert g[..shift] + g[shift..effective] == g[..effective];
    ContentPadded(history + g[..effective], g[effective..]);
    assert history + g == (history + g[..effective]) + g[effective..] by {
      assert g == g[..effective] + g[effective..];
      Associate(history, g[..effective], g[effective..]);
    }
  }

  /** Rows that survive a change of height move up together. */
  lemma ResizeMovesRow(g: Rows, rows: nat, cols: nat, row: nat)
    requires Rect(g, |g|, cols) && NoWideEdge(g)
    requires RowShift(g, rows) <= row < EffectiveRows(g, rows)
    ensures row - RowShift(g, rows) < rows
    ensures ResizeRows(g, rows, cols)[row - RowShift(g, rows)] == g[row]
  {
    ResizeSameWidth(g, rows, cols);
  }
}
