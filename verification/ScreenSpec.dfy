/** What each `Screen` operation does, on rows instead of the flat cell array. */
module ScreenSpec {
  import opened TerminalTypes
  import opened Grid

  /** Rows of a screen and whether a cell was written since the last poll. */
  datatype ScreenV = ScreenV(grid: Rows, dirty: bool)

  ghost predicate Ok(s: ScreenV, rows: nat, cols: nat) {
    Rect(s.grid, rows, cols) && NoWideEdge(s.grid)
  }

  function BlankScreen(rows: nat, cols: nat): (s: ScreenV)
    ensures Ok(s, rows, cols)
    ensures !s.dirty && AllPaired(s.grid)
  {
    ScreenV(BlankRows(rows, cols, EMPTY), false)
  }

  function ClearAll(s: ScreenV, rows: nat, cols: nat, style: Style): (r: ScreenV)
    ensures Ok(r, rows, cols)
    ensures r.dirty && AllPaired(r.grid)
  {
    ScreenV(BlankRows(rows, cols, Blank(style)), true)
  }

  function PutGlyph(s: ScreenV, row: nat, col: nat, ch: char, width: u8, style: Style): (r: ScreenV)
    requires row < |s.grid| && col < |s.grid[row]|
    requires width == 2 ==> col + 1 < |s.grid[row]|
    ensures forall rows: nat, cols: nat :: Ok(s, rows, cols) ==> Ok(r, rows, cols)
    ensures r.dirty || r == s
    ensures AllPaired(s.grid) && width != 0 ==> AllPaired(r.grid)
  {
    ScreenV(s.grid[row := PutAt(s.grid[row], col, ch, width, style)], true)
  }

  function ClearCell(s: ScreenV, row: nat, col: nat): (r: ScreenV)
    ensures forall rows: nat, cols: nat :: Ok(s, rows, cols) ==> Ok(r, rows, cols)
    ensures r.dirty || r == s
    ensures AllPaired(s.grid) ==> AllPaired(r.grid)
  {
    if row < |s.grid| && col < |s.grid[row]| then
      ScreenV(s.grid[row := ClearAt(s.grid[row], col)], true)
    else s
  }

  function EraseCells(s: ScreenV, row: nat, colStart: nat, colEnd: nat, style: Style): (r: ScreenV)
    ensures forall rows: nat, cols: nat :: Ok(s, rows, cols) ==> Ok(r, rows, cols)
    ensures r.dirty || r == s
    ensures AllPaired(s.grid) ==> AllPaired(r.grid)
  {
    if row < |s.grid| && Min(colStart, |s.grid[row]|) < Min(colEnd, |s.grid[row]|) then
      var cols := |s.grid[row]|;
      ScreenV(s.grid[row := EraseSpan(s.grid[row], Min(colStart, cols), Min(colEnd, cols), style)], true)
    else s
  }

  function EraseRows(s: ScreenV, rowStart: nat, rowEnd: nat, style: Style): (r: ScreenV)
    ensures forall rows: nat, cols: nat :: Ok(s, rows, cols) ==> Ok(r, rows, cols)
    ensures r.dirty || r == s
    ensures AllPaired(s.grid) ==> AllPaired(r.grid)
  {
    var start, end := Min(rowStart, |s.grid|), Min(rowEnd, |s.grid|);
    if start < end then ScreenV(EraseRowSpan(s.grid, start, end, style), true) else s
  }

  function InsertColumns(s: ScreenV, row: nat, col: nat, count: nat, style: Style): (r: ScreenV)
    ensures forall rows: nat, cols: nat :: Ok(s, rows, cols) ==> Ok(r, rows, cols)
    ensures r.dirty || r == s
  {
    if row >= |s.grid| || col >= |s.grid[row]| || count == 0 then s
    else ScreenV(s.grid[row := InsertCells(s.grid[row], col, Min(count, |s.grid[row]| - col), style)], true)
  }

  function DeleteColumns(s: ScreenV, row: nat, col: nat, count: nat, style: Style): (r: ScreenV)
    ensures forall rows: nat, cols: nat :: Ok(s, rows, cols) ==> Ok(r, rows, cols)
    ensures r.dirty || r == s
  {
    if row >= |s.grid| || col >= |s.grid[row]| || count == 0 then s
    else ScreenV(s.grid[row := DeleteCells(s.grid[row], col, Min(count, |s.grid[row]| - col), style)], true)
  }

  function InsertLines(s: ScreenV, cols: nat, row: nat, count: nat, top: nat, bottom: nat, style: Style): (r: ScreenV)
    requires bottom < |s.grid|
    ensures Ok(s, |s.grid|, cols) ==> Ok(r, |s.grid|, cols)
    ensures r.dirty || r == s
    ensures AllPaired(s.grid) ==> AllPaired(r.grid)
  {
    if count == 0 || row < top || row > bottom then s
    else ScreenV(InsertRows(s.grid, row, Min(count, bottom - row + 1), bottom + 1, BlankRow(cols, Blank(style))), true)
  }

  function DeleteLines(s: ScreenV, cols: nat, row: nat, count: nat, top: nat, bottom: nat, style: Style): (r: ScreenV)
    requires bottom < |s.grid|
    ensures Ok(s, |s.grid|, cols) ==> Ok(r, |s.grid|, cols)
    ensures r.dirty || r == s
    ensures AllPaired(s.grid) ==> AllPaired(r.grid)
  {
    if count == 0 || row < top || row > bottom then s
    else ScreenV(DeleteRows(s.grid, row, Min(count, bottom - row + 1), bottom + 1, BlankRow(cols, Blank(style))), true)
  }

  /** The rows that leave a region scrolled up by `count`. */
  function Displaced(s: ScreenV, count: nat, top: nat, bottom: nat): (rows: seq<Row>)
    requires bottom < |s.grid|
  {
    if count == 0 || top > bottom then [] else s.grid[top..top + Min(count, bottom - top + 1)]
  }

  function ScrollUp(s: ScreenV, cols: nat, count: nat, top: nat, bottom: nat, style: Style): (r: ScreenV)
    requires bottom < |s.grid|
    ensures Ok(s, |s.grid|, cols) ==> Ok(r, |s.grid|, cols)
    ensures r.dirty || r == s
    ensures AllPaired(s.grid) ==> AllPaired(r.grid)
  {
    if count == 0 || top > bottom then s
    else if count >= bottom - top + 1 then EraseRows(s, top, bottom + 1, style)
    else ScreenV(DeleteRows(s.grid, top, count, bottom + 1, BlankRow(cols, Blank(style))), true)
  }

  function ScrollDown(s: ScreenV, cols: nat, count: nat, top: nat, bottom: nat, style: Style): (r: ScreenV)
    requires bottom < |s.grid|
    ensures Ok(s, |s.grid|, cols) ==> Ok(r, |s.grid|, cols)
    ensures r.dirty || r == s
    ensures AllPaired(s.grid) ==> AllPaired(r.grid)
  {
    if count == 0 || top > bottom then s
    else if count >= bottom - top + 1 then EraseRows(s, top, bottom + 1, style)
    else ScreenV(InsertRows(s.grid, top, count, bottom + 1, BlankRow(cols, Blank(style))), true)
  }

  /** A resize to the size the screen already has changes nothing. */
  function Resize(s: ScreenV, oldCols: nat, rows: nat, cols: nat): (r: ScreenV)
    ensures Ok(s, |s.grid|, oldCols) ==> Ok(r, rows, cols)
    ensures r.dirty || r == s
    ensures AllPaired(s.grid) ==> AllPaired(r.grid)
  {
    if rows == |s.grid| && cols == oldCols then s
    else ScreenV(ResizeRows(s.grid, rows, cols), true)
  }

  /** Rows a resize hands back, at the width they had. */
  function ResizeDropped(s: ScreenV, oldCols: nat, rows: nat, cols: nat): (dropped: seq<Row>) {
    if rows == |s.grid| && cols == oldCols then [] else s.grid[..RowShift(s.grid, rows)]
  }
}
