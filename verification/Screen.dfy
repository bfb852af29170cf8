/** The flat cell buffer, changed in place. */
module ScreenBuffer {
  import opened TerminalTypes
  import opened Grid
  import Spec = ScreenSpec

  // ---- slice operations of the standard library -----------------------

  method RotateLeft(a: array<Cell>, lo: nat, hi: nat, k: nat)
    requires lo + k <= hi <= a.Length
    modifies a
    ensures var s := old(a[..]);
      a[..] == s[..lo] + s[lo + k..hi] + s[lo..lo + k] + s[hi..]
  {
    var s := a[..];
    forall i | lo <= i < hi {
      a[i] := if i + k < hi then s[i + k] else s[i + k - (hi - lo)];
    }
    ghost var rotated := s[..lo] + s[lo + k..hi] + s[lo..lo + k] + s[hi..];
    assert |rotated| == a.Length;
    forall i | 0 <= i < a.Length ensures a[i] == rotated[i] {
    }
  }

  method RotateRight(a: array<Cell>, lo: nat, hi: nat, k: nat)
    requires lo + k <= hi <= a.Length
    modifies a
    ensures var s := old(a[..]);
      a[..] == s[..lo] + s[hi - k..hi] + s[lo..hi - k] + s[hi..]
  {
    RotateLeft(a, lo, hi, hi - lo - k);
  }

  method Fill(a: array<Cell>, lo: nat, hi: nat, x: Cell)
    requires lo <= hi <= a.Length
    modifies a
    ensures var s := old(a[..]);
      a[..] == s[..lo] + BlankRow(hi - lo, x) + s[hi..]
  {
    forall i | lo <= i < hi {
      a[i] := x;
    }
  }

  ghost function ShiftedRight(s: seq<Cell>, lo: nat, hi: nat, k: nat, x: Cell): seq<Cell>
    requires lo + k <= hi <= |s|
  {
    s[..lo] + BlankRow(k, x) + s[lo..hi - k] + s[hi..]
  }

  ghost function ShiftedLeft(s: seq<Cell>, lo: nat, hi: nat, k: nat, x: Cell): seq<Cell>
    requires lo + k <= hi <= |s|
  {
    s[..lo] + s[lo + k..hi] + BlankRow(k, x) + s[hi..]
  }

  /** A rotate to the right whose wrapped cells are then blanked. */
  method ShiftRight(a: array<Cell>, lo: nat, hi: nat, k: nat, x: Cell)
    requires lo + k <= hi <= a.Length
    modifies a
    ensures a[..] == ShiftedRight(old(a[..]), lo, hi, k, x)
  {
    RotateRight(a, lo, hi, k);
    Fill(a, lo, lo + k, x);
  }

  /** A rotate to the left whose wrapped cells are then blanked. */
  method ShiftLeft(a: array<Cell>, lo: nat, hi: nat, k: nat, x: Cell)
    requires lo + k <= hi <= a.Length
    modifies a
    ensures a[..] == ShiftedLeft(old(a[..]), lo, hi, k, x)
  {
    RotateLeft(a, lo, hi, k);
    Fill(a, hi - k, hi, x);
  }

  method BlankCells(rows: nat, cols: nat) returns (a: array<Cell>, ghost g: Rows)
    ensures fresh(a) && g == BlankRows(rows, cols, EMPTY) && a[..] == Flatten(g)
  {
    MulMono(0, rows, cols);
    a := new Cell[rows * cols](_ => EMPTY);
    g := BlankRows(rows, cols, EMPTY);
    FlattenBlank(rows, cols, EMPTY);
    assert a[..] == Flatten(g);
  }

  /** Stores one cell of a row list through its flat index. */
  method StoreCell(a: array<Cell>, ghost g: Rows, cols: nat, row: nat, col: nat, x: Cell) returns (ghost g': Rows)
    requires Rect(g, |g|, cols) && a[..] == Flatten(g) && row < |g| && col < cols
    modifies a
    ensures g' == g[row := g[row][col := x]] && Rect(g', |g|, cols) && a[..] == Flatten(g')
  {
    FlattenSet(g, cols, row, col, x);
    a[row * cols + col] := x;
    g' := g[row := g[row][col := x]];
  }

  /** One more item of a list laid over blanks. */
  lemma NextItem<T>(items: seq<T>, i: nat, n: nat, blank: T)
    requires i < |items| && i < n
    ensures (items[..i] + seq(n - i, _ => blank))[i := items[i]] == items[..i + 1] + seq(n - i - 1, _ => blank)
  {
  }

  /** The first `n` cells of a row, then empty ones. */
  function Laid(source: Row, n: nat, cols: nat): (r: Row)
    requires n <= cols && n <= |source|
    ensures |r| == cols
  {
    source[..n] + BlankRow(cols - n, EMPTY)
  }

  lemma LaidNone(source: Row, cols: nat)
    ensures Laid(source, 0, cols) == BlankRow(cols, EMPTY)
  {
    assert source[..0] == [];
  }

  lemma NextCell(g: Rows, g': Rows, row: nat, source: Row, n: nat, cols: nat)
    requires row < |g| && n < cols && n < |source| && g' == g[row := Laid(source, n, cols)]
    ensures g'[row := g'[row][n := source[n]]] == g[row := Laid(source, n + 1, cols)]
  {
    assert Laid(source, n, cols)[n := source[n]] == Laid(source, n + 1, cols);
  }

  method CopyCells(a: array<Cell>, ghost g: Rows, cols: nat, row: nat, source: Row, kept: nat) returns (ghost g': Rows)
    requires Rect(g, |g|, cols) && a[..] == Flatten(g) && row < |g|
    requires g[row] == BlankRow(cols, EMPTY) && kept <= cols && kept <= |source|
    modifies a
    ensures g' == g[row := Laid(source, kept, cols)]
    ensures Rect(g', |g|, cols) && a[..] == Flatten(g')
  {
    g' := g;
    LaidNone(source, cols);
    assert g == g[row := g[row]];
    for col := 0 to kept
      invariant g' == g[row := Laid(source, col, cols)]
      invariant Rect(g', |g|, cols) && a[..] == Flatten(g')
    {
      NextCell(g, g', row, source, col, cols);
      g' := StoreCell(a, g', cols, row, col, source[col]);
    }
  }

  /** Copies the kept part of a row over a blank one and repairs its new edge. */
  method CopyRow(a: array<Cell>, ghost g: Rows, cols: nat, row: nat, source: Row) returns (ghost g': Rows)
    requires Rect(g, |g|, cols) && a[..] == Flatten(g) && row < |g|
    requires g[row] == BlankRow(cols, EMPTY)
    modifies a
    ensures g' == g[row := FitRow(source, cols)] && Rect(g', |g|, cols) && a[..] == Flatten(g')
  {
    var kept := Min(|source|, cols);
    g' := CopyCells(a, g, cols, row, source, kept);
    ghost var part := source[..kept];
    if kept > 0 {
      FlattenAt(g', cols, row, kept - 1);
      if a[row * cols + kept - 1].width == 2 {
        g' := StoreCell(a, g', cols, row, kept - 1, EMPTY);
        part := part[kept - 1 := EMPTY];
      }
    }
    assert g'[row] == part + BlankRow(cols - kept, EMPTY);
  }

  /** What a resize pushed off the top, and how far every other row moved up. */
  datatype Displaced = Displaced(rows: seq<Row>, rowShift: u16)

  class Screen {
    var rows: NonZeroU16
    var cols: NonZeroU16
    var cells: array<Cell>
    var dirty: bool
    ghost var grid: Rows

    ghost predicate Valid()
      reads this, cells
    {
      Rect(grid, rows, cols) && cells[..] == Flatten(grid)
    }

    ghost function View(): Spec.ScreenV
      reads this
    {
      Spec.ScreenV(grid, dirty)
    }

    constructor (rows: NonZeroU16, cols: NonZeroU16)
      ensures Valid() && fresh(cells) && this.rows == rows && this.cols == cols
      ensures View() == Spec.BlankScreen(rows, cols)
    {
      this.rows, this.cols, dirty := rows, cols, false;
      MulMono(0, rows, cols);
      cells := new Cell[rows * cols](_ => EMPTY);
      grid := BlankRows(rows, cols, EMPTY);
      new;
      FlattenBlank(rows, cols, EMPTY);
      assert cells[..] == Flatten(grid);
    }

    method TakeDirty() returns (was: bool)
      requires Valid()
      modifies `dirty
      ensures Valid() && was == old(dirty) && !dirty
    {
      was := dirty;
      dirty := false;
    }

    method MarkDirty()
      requires Valid()
      modifies `dirty
      ensures Valid() && dirty
    {
      dirty := true;
    }

    function Index(row: nat, col: nat): (i: Option<nat>)
      reads this
    {
      if row >= rows || col >= cols then None else Some(row * cols + col)
    }

    /** The cell at a position, if it is on the screen. */
    method Get(row: nat, col: nat) returns (c: Option<Cell>)
      requires Valid()
      ensures c == if row < rows && col < cols then Some(grid[row][col]) else None
    {
      match Index(row, col)
      case None => c := None;
      case Some(i) =>
        FlattenAt(grid, cols, row, col);
        c := Some(cells[i]);
    }

    /** Stores one cell through its flat index. */
    method Store(row: nat, col: nat, x: Cell)
      requires Valid() && row < rows && col < cols
      modifies `grid, cells
      ensures Valid() && grid == old(grid)[row := old(grid)[row][col := x]]
    {
      grid := StoreCell(cells, grid, cols, row, col, x);
    }

    method ClearAll(style: Style)
      requires Valid()
      modifies `grid, `dirty, cells
      ensures Valid() && View() == Spec.ClearAll(old(View()), rows, cols, style)
    {
      Fill(cells, 0, cells.Length, Blank(style));
      FlattenLength(grid, cols);
      grid := BlankRows(rows, cols, Blank(style));
      FlattenBlank(rows, cols, Blank(style));
      assert cells[..] == Flatten(grid);
      dirty := true;
    }

    /** Index of the last row that draws anything. */
    method LastContentRow() returns (last: Option<nat>)
      requires Valid()
      ensures ContentHeight(grid) == match last case None => 0 case Some(r) => r + 1
    {
      var row: nat := rows;
      assert grid[..row] == grid;
      while row > 0
        invariant row <= rows
        invariant ContentHeight(grid) == ContentHeight(grid[..row])
      {
        row := row - 1;
        assert grid[..row + 1][..row] == grid[..row];
        FlattenSlice(grid, cols, row, row + 1);
        MulSplit(row, 1, cols);
        assert Flatten(grid[row..row + 1]) == grid[row] by {
          assert grid[row..row + 1] == [grid[row]];
          assert Flatten([grid[row]]) == grid[row];
        }
        if !IsBlankRow(cells[row * cols..row * cols + cols]) {
          return Some(row);
        }
      }
      last := None;
    }

    /** A copy of one row. */
    method CopyOf(row: nat) returns (r: Row)
      requires Valid() && row < rows
      ensures r == grid[row]
    {
      FlattenRow(grid, cols, row, grid[row]);
      r := cells[row * cols..row * cols + cols];
    }

    /** Copies of the rows `[from, from + n)`. */
    method TakeRows(from: nat, n: nat) returns (taken: seq<Row>)
      requires Valid() && from + n <= rows
      ensures taken == grid[from..from + n]
    {
      taken := [];
      for i := 0 to n
        invariant taken == grid[from..from + i]
      {
        var row := CopyOf(from + i);
        taken := taken + [row];
      }
    }

    /** Builds the cell array of a new size from the rows `[shift, shift + copyRows)`. */
    method LayOut(newRows: NonZeroU16, newCols: NonZeroU16, copyRows: nat, shift: nat)
        returns (target: array<Cell>, ghost g: Rows)
      requires Valid() && copyRows + shift <= rows && copyRows <= newRows
      ensures fresh(target) && target[..] == Flatten(g) && Rect(g, newRows, newCols)
      ensures g == Fitted(grid, shift, copyRows, newCols) + BlankRows(newRows - copyRows, newCols, EMPTY)
    {
      hide Flatten, FitRow;
      ghost var fitted := Fitted(grid, shift, copyRows, newCols);
      target, g := BlankCells(newRows, newCols);
      assert g == fitted[..0] + BlankRows(newRows, newCols, EMPTY);
      for row := 0 to copyRows
        invariant fresh(target) && Valid()
        invariant Rect(g, newRows, newCols) && target[..] == Flatten(g)
        invariant g == fitted[..row] + BlankRows(newRows - row, newCols, EMPTY)
      {
        var source := CopyOf(row + shift);
        g := CopyRow(target, g, newCols, row, source);
        NextItem(fitted, row, newRows, BlankRow(newCols, EMPTY));
      }
    }

    /** A shrink drops the blank rows below the content; a grow places every row. */
    method RowsToPlace(newRows: NonZeroU16) returns (n: nat)
      requires Valid()
      ensures n == EffectiveRows(grid, newRows)
    {
      if newRows >= rows {
        return rows;
      }
      var last := LastContentRow();
      n := match last case None => 0 case Some(row) => row + 1;
    }

    /**
     * Lays the screen out at a new size. A shrink keeps the newest content rows
     * and hands back the older ones at the width they had.
     */
    method Resize(newRows: NonZeroU16, newCols: NonZeroU16) returns (d: Displaced)
      requires Valid()
      modifies this
      ensures Valid() && rows == newRows && cols == newCols
      ensures cells == old(cells) || fresh(cells)
      ensures View() == Spec.Resize(old(View()), old(cols), newRows, newCols)
      ensures d.rows == Spec.ResizeDropped(old(View()), old(cols), newRows, newCols)
      ensures d.rowShift == |d.rows|
    {
      hide Flatten, FitRow, BlankRow;
      if newRows == rows && newCols == cols {
        return Displaced([], 0);
      }
      var effective := RowsToPlace(newRows);
      var copyRows := Min(effective, newRows);
      var shift := effective - copyRows;
      var dropped := TakeRows(0, shift);
      LaidOut(grid, newRows, newCols);
      ghost var laid := ResizeRows(grid, newRows, newCols);
      var target, g := LayOut(newRows, newCols, copyRows, shift);
      assert g == laid;
      rows, cols, cells, grid, dirty := newRows, newCols, target, g, true;
      d := Displaced(dropped, shift);
    }

    method ClearCell(row: nat, col: nat)
      requires Valid()
      modifies `grid, `dirty, cells
      ensures Valid() && View() == Spec.ClearCell(old(View()), row, col)
    {
      hide Flatten;
      match Index(row, col)
      case None =>
      case Some(index) =>
        FlattenAt(grid, cols, row, col);
        var width := cells[index].width;
        if width == 0 {
          if col > 0 {
            Store(row, col - 1, EMPTY);
          }
          Store(row, col, EMPTY);
        } else if width == 2 {
          Store(row, col, EMPTY);
          if Index(row, col + 1).Some? {
            Store(row, col + 1, EMPTY);
          }
        } else {
          Store(row, col, EMPTY);
        }
        dirty := true;
    }

    /** The caller has checked that the whole glyph fits. */
    method PutGlyph(row: nat, col: nat, ch: char, width: u8, style: Style)
      requires Valid() && row < rows && col < cols && (width == 2 ==> col + 1 < cols)
      modifies `grid, `dirty, cells
      ensures Valid() && View() == Spec.PutGlyph(old(View()), row, col, ch, width, style)
    {
      ClearCell(row, col);
      if width == 2 {
        ClearCell(row, col + 1);
      }
      Store(row, col, Cell(ch, width, style));
      if width == 2 {
        Store(row, col + 1, Cell(' ', 0, style));
      }
      dirty := true;
    }

    method EraseCell(row: nat, col: nat, style: Style)
      requires Valid() && row < rows && col < cols
      modifies `grid, `dirty, cells
      ensures Valid() && dirty
      ensures grid == old(grid)[row := ClearAt(old(grid)[row], col)[col := Blank(style)]]
    {
      hide Flatten;
      ClearCell(row, col);
      Store(row, col, Blank(style));
      dirty := true;
    }

    method EraseCells(row: nat, colStart: nat, colEnd: nat, style: Style)
      requires Valid()
      modifies `grid, `dirty, cells
      ensures Valid() && View() == Spec.EraseCells(old(View()), row, colStart, colEnd, style)
    {
      hide Flatten, ClearAt;
      var start, end := Min(colStart, cols), Min(colEnd, cols);
      var col := start;
      assert row < rows ==> grid == grid[row := grid[row]];
      while col < end
        invariant start <= col <= Max(start, end)
        invariant Valid()
        invariant row >= rows ==> View() == old(View())
        invariant row < rows ==> grid == old(grid)[row := EraseSpan(old(grid)[row], start, col, style)]
        invariant row < rows ==> dirty == (old(dirty) || start < col)
      {
        if Index(row, col).Some? {
          EraseCell(row, col, style);
        }
        col := col + 1;
      }
    }

    method EraseRows(rowStart: nat, rowEnd: nat, style: Style)
      requires Valid()
      modifies `grid, `dirty, cells
      ensures Valid() && View() == Spec.EraseRows(old(View()), rowStart, rowEnd, style)
    {
      var start, end := Min(rowStart, rows), Min(rowEnd, rows);
      var row := start;
      while row < end
        invariant start <= row <= Max(start, end)
        invariant Valid()
        invariant forall r :: 0 <= r < rows ==>
          grid[r] == if start <= r < row then EraseSpan(old(grid)[r], 0, cols, style) else old(grid)[r]
        invariant dirty == (old(dirty) || start < row)
      {
        EraseCells(row, 0, cols, style);
        row := row + 1;
      }
      if start < end {
        assert grid == EraseRowSpan(old(grid), start, end, style);
      } else {
        assert grid == old(grid);
      }
    }

    method FixRowEdge(row: nat)
      requires Valid() && row < rows
      modifies `grid, `dirty, cells
      ensures Valid() && grid == old(grid)[row := FixEdge(old(grid)[row])]
      ensures old(dirty) ==> dirty
    {
      FlattenAt(grid, cols, row, cols - 1);
      assert grid == grid[row := grid[row]];
      if cells[row * cols + cols - 1].width == 2 {
        Store(row, cols - 1, EMPTY);
        dirty := true;
      }
    }

    /** Moves the tail of a row right, blanking what it leaves behind. */
    method ShiftRowRight(row: nat, col: nat, n: nat, x: Cell)
      requires Valid() && row < rows && col + n <= cols
      modifies `grid, cells
      ensures Valid()
      ensures grid == old(grid)[row := OpenRow(old(grid)[row], col, n, x)]
    {
      hide Flatten, OpenRow;
      var start := row * cols;
      InsertInRow(grid, cols, row, start, col, n, x);
      ShiftRight(cells, start + col, start + cols, n, x);
      grid := grid[row := OpenRow(grid[row], col, n, x)];
    }

    method ShiftRowLeft(row: nat, col: nat, n: nat, x: Cell)
      requires Valid() && row < rows && col + n <= cols
      modifies `grid, cells
      ensures Valid()
      ensures grid == old(grid)[row := CloseRow(old(grid)[row], col, n, x)]
    {
      hide Flatten, CloseRow;
      var start := row * cols;
      DeleteInRow(grid, cols, row, start, col, n, x);
      ShiftLeft(cells, start + col, start + cols, n, x);
      grid := grid[row := CloseRow(grid[row], col, n, x)];
    }

    /** Moves the rows `[at, end)` down by `n`, blanking what they leave behind. */
    method ShiftRowsDown(at: nat, n: nat, end: nat, x: Cell)
      requires Valid() && at + n <= end <= rows
      modifies `grid, cells
      ensures Valid() && grid == InsertRows(old(grid), at, n, end, BlankRow(cols, x))
    {
      hide Flatten;
      InsertBlock(grid, cols, at, n, end, x);
      ShiftRight(cells, at * cols, end * cols, n * cols, x);
      grid := InsertRows(grid, at, n, end, BlankRow(cols, x));
    }

    method ShiftRowsUp(at: nat, n: nat, end: nat, x: Cell)
      requires Valid() && at + n <= end <= rows
      modifies `grid, cells
      ensures Valid() && grid == DeleteRows(old(grid), at, n, end, BlankRow(cols, x))
    {
      hide Flatten;
      DeleteBlock(grid, cols, at, n, end, x);
      ShiftLeft(cells, at * cols, end * cols, n * cols, x);
      grid := DeleteRows(grid, at, n, end, BlankRow(cols, x));
    }

    method InsertColumns(row: nat, col: nat, count: nat, style: Style)
      requires Valid()
      modifies `grid, `dirty, cells
      ensures Valid() && View() == Spec.InsertColumns(old(View()), row, col, count, style)
    {
      hide Flatten, OpenRow;
      if row >= rows || col >= cols || count == 0 {
        return;
      }
      ShiftRowRight(row, col, Min(count, cols - col), Blank(style));
      FixRowEdge(row);
      dirty := true;
    }

    method DeleteColumns(row: nat, col: nat, count: nat, style: Style)
      requires Valid()
      modifies `grid, `dirty, cells
      ensures Valid() && View() == Spec.DeleteColumns(old(View()), row, col, count, style)
    {
      hide Flatten, CloseRow;
      if row >= rows || col >= cols || count == 0 {
        return;
      }
      ShiftRowLeft(row, col, Min(count, cols - col), Blank(style));
      FixRowEdge(row);
      dirty := true;
    }

    method InsertLines(row: nat, count: nat, top: nat, bottom: nat, style: Style)
      requires Valid() && bottom < rows
      modifies `grid, `dirty, cells
      ensures Valid() && View() == Spec.InsertLines(old(View()), cols, row, count, top, bottom, style)
    {
      if count == 0 || row < top || row > bottom {
        return;
      }
      ShiftRowsDown(row, Min(count, bottom - row + 1), bottom + 1, Blank(style));
      dirty := true;
    }

    method DeleteLines(row: nat, count: nat, top: nat, bottom: nat, style: Style)
      requires Valid() && bottom < rows
      modifies `grid, `dirty, cells
      ensures Valid() && View() == Spec.DeleteLines(old(View()), cols, row, count, top, bottom, style)
    {
      if count == 0 || row < top || row > bottom {
        return;
      }
      ShiftRowsUp(row, Min(count, bottom - row + 1), bottom + 1, Blank(style));
      dirty := true;
    }

    /** Scrolls a region up and hands back the rows that left it, oldest first. */
    method ScrollUp(count: nat, top: nat, bottom: nat, style: Style) returns (displaced: seq<Row>)
      requires Valid() && bottom < rows
      modifies `grid, `dirty, cells
      ensures Valid() && View() == Spec.ScrollUp(old(View()), cols, count, top, bottom, style)
      ensures displaced == Spec.Displaced(old(View()), count, top, bottom)
    {
      hide Flatten, DeleteRows, EraseRowSpan;
      displaced := [];
      if count == 0 || top > bottom {
        return;
      }
      var regionRows := bottom - top + 1;
      displaced := TakeRows(top, Min(count, regionRows));
      if count >= regionRows {
        EraseRows(top, bottom + 1, style);
        return;
      }
      ShiftRowsUp(top, count, bottom + 1, Blank(style));
      dirty := true;
    }

    method ScrollDown(count: nat, top: nat, bottom: nat, style: Style)
      requires Valid() && bottom < rows
      modifies `grid, `dirty, cells
      ensures Valid() && View() == Spec.ScrollDown(old(View()), cols, count, top, bottom, style)
    {
      hide Flatten, InsertRows, EraseRowSpan;
      if count == 0 || top > bottom {
        return;
      }
      if count >= bottom - top + 1 {
        EraseRows(top, bottom + 1, style);
        return;
      }
      ShiftRowsDown(top, count, bottom + 1, Blank(style));
      dirty := true;
    }
  }

  // ---- slices of the layout that are rows or parts of rows ------------

  /** Cells pushed in at a column of one row, seen in the layout. */
  lemma InsertInRow(g: Rows, cols: nat, row: nat, start: int, col: nat, n: nat, x: Cell)
    requires Rect(g, |g|, cols) && row < |g| && start == row * cols && col + n <= cols
    ensures 0 <= start && start + cols <= |Flatten(g)|
    ensures ShiftedRight(Flatten(g), start + col, start + cols, n, x)
      == Flatten(g[row := OpenRow(g[row], col, n, x)])
  {
    FlattenRow(g, cols, row, OpenRow(g[row], col, n, x));
    ShiftRightInside(Flatten(g), start, cols, col, n, x);
  }

  lemma ShiftRightInside(s: seq<Cell>, start: nat, cols: nat, col: nat, n: nat, x: Cell)
    requires start + cols <= |s| && col + n <= cols
    ensures var r := s[start..start + cols];
      ShiftedRight(s, start + col, start + cols, n, x)
      == s[..start] + OpenRow(r, col, n, x) + s[start + cols..]
  {
    CutRow(s, start, cols, col, cols - n);
    HeadOfRow(s, start, cols, col);
  }

  lemma ShiftLeftInside(s: seq<Cell>, start: nat, cols: nat, col: nat, n: nat, x: Cell)
    requires start + cols <= |s| && col + n <= cols
    ensures var r := s[start..start + cols];
      ShiftedLeft(s, start + col, start + cols, n, x)
      == s[..start] + CloseRow(r, col, n, x) + s[start + cols..]
  {
    CutRow(s, start, cols, col + n, cols);
    HeadOfRow(s, start, cols, col);
  }

  lemma DeleteInRow(g: Rows, cols: nat, row: nat, start: int, col: nat, n: nat, x: Cell)
    requires Rect(g, |g|, cols) && row < |g| && start == row * cols && col + n <= cols
    ensures 0 <= start && start + cols <= |Flatten(g)|
    ensures ShiftedLeft(Flatten(g), start + col, start + cols, n, x)
      == Flatten(g[row := CloseRow(g[row], col, n, x)])
  {
    FlattenRow(g, cols, row, CloseRow(g[row], col, n, x));
    ShiftLeftInside(Flatten(g), start, cols, col, n, x);
  }

  lemma HeadOfRow(s: seq<Cell>, start: nat, cols: nat, col: nat)
    requires start + cols <= |s| && col <= cols
    ensures s[..start + col] == s[..start] + s[start..start + cols][..col]
  {
    CutRow(s, start, cols, 0, col);
  }

  lemma CutRow(s: seq<Cell>, start: nat, cols: nat, i: nat, j: nat)
    requires start + cols <= |s| && i <= j <= cols
    ensures s[start + i..start + j] == s[start..start + cols][i..j]
  {
    var row := s[start..start + cols];
    assert |row[i..j]| == j - i == |s[start + i..start + j]|;
    forall k | 0 <= k < j - i ensures s[start + i..start + j][k] == row[i..j][k] {
      assert row[i..j][k] == row[i + k];
    }
  }

  lemma BlankBlock(n: nat, cols: nat, cell: Cell)
    ensures Flatten(Repeat(n, BlankRow(cols, cell))) == BlankRow(n * cols, cell)
  {
    FlattenBlank(n, cols, cell);
  }

  lemma ShiftedRightParts(a: seq<Cell>, b: seq<Cell>, c: seq<Cell>, d: seq<Cell>, lo: nat, hi: nat, k: nat, x: Cell)
    requires lo == |a| && hi == |a| + |b| + |c| && k == |c|
    ensures ShiftedRight(a + b + c + d, lo, hi, k, x) == a + BlankRow(k, x) + b + d
  {
    var s := a + b + c + d;
    assert s[..|a|] == a && s[|a|..|a| + |b|] == b && s[|a| + |b| + |c|..] == d;
  }

  lemma ShiftedLeftParts(a: seq<Cell>, b: seq<Cell>, c: seq<Cell>, d: seq<Cell>, lo: nat, hi: nat, k: nat, x: Cell)
    requires lo == |a| && hi == |a| + |b| + |c| && k == |b|
    ensures ShiftedLeft(a + b + c + d, lo, hi, k, x) == a + c + BlankRow(k, x) + d
  {
    var s := a + b + c + d;
    assert s[..|a|] == a && s[|a| + |b|..|a| + |b| + |c|] == c && s[|a| + |b| + |c|..] == d;
  }

  lemma FlattenFour(a: Rows, b: Rows, c: Rows, d: Rows)
    ensures Flatten(a + b + c + d) == Flatten(a) + Flatten(b) + Flatten(c) + Flatten(d)
  {
    FlattenAppend(a + b + c, d);
    FlattenAppend(a + b, c);
    FlattenAppend(a, b);
  }

  lemma FlattenCut(g: Rows, i: nat)
    requires i <= |g|
    ensures Flatten(g) == Flatten(g[..i]) + Flatten(g[i..])
  {
    assert g == g[..i] + g[i..];
    FlattenAppend(g[..i], g[i..]);
  }

  lemma FlattenParts(g: Rows, i: nat, j: nat, k: nat)
    requires i <= j <= k <= |g|
    ensures Flatten(g) == Flatten(g[..i]) + Flatten(g[i..j]) + Flatten(g[j..k]) + Flatten(g[k..])
  {
    FlattenCut(g, k);
    FlattenCut(g[..k], j);
    FlattenCut(g[..j], i);
    assert g[..k][..j] == g[..j] && g[..k][j..] == g[j..k];
    assert g[..j][..i] == g[..i] && g[..j][i..] == g[i..j];
  }

  /** Where stretches of whole rows begin and end in the layout. */
  lemma PartLengths(g: Rows, cols: nat, i: nat, j: nat, k: nat)
    requires Rect(g, |g|, cols) && i <= j <= k <= |g|
    ensures |Flatten(g[..i])| == i * cols
    ensures |Flatten(g[i..j])| == (j - i) * cols && |Flatten(g[j..k])| == (k - j) * cols
    ensures |Flatten(g[..i])| + |Flatten(g[i..j])| + |Flatten(g[j..k])| == k * cols
  {
    FlattenLength(g[..i], cols);
    FlattenLength(g[i..j], cols);
    FlattenLength(g[j..k], cols);
    MulSplit(i, j - i, cols);
    MulSplit(j, k - j, cols);
  }

  lemma ShiftedRightBlock(g: Rows, i: nat, j: nat, k: nat, lo: nat, hi: nat, n: nat, x: Cell)
    requires i <= j <= k <= |g|
    requires lo == |Flatten(g[..i])| && n == |Flatten(g[j..k])| && hi == lo + |Flatten(g[i..j])| + n
    ensures lo + n <= hi <= |Flatten(g)|
    ensures ShiftedRight(Flatten(g), lo, hi, n, x)
      == Flatten(g[..i]) + BlankRow(n, x) + Flatten(g[i..j]) + Flatten(g[k..])
  {
    FlattenParts(g, i, j, k);
    ShiftedRightParts(Flatten(g[..i]), Flatten(g[i..j]), Flatten(g[j..k]), Flatten(g[k..]), lo, hi, n, x);
  }

  lemma ShiftedLeftBlock(g: Rows, i: nat, j: nat, k: nat, lo: nat, hi: nat, n: nat, x: Cell)
    requires i <= j <= k <= |g|
    requires lo == |Flatten(g[..i])| && n == |Flatten(g[i..j])| && hi == lo + n + |Flatten(g[j..k])|
    ensures lo + n <= hi <= |Flatten(g)|
    ensures ShiftedLeft(Flatten(g), lo, hi, n, x)
      == Flatten(g[..i]) + Flatten(g[j..k]) + BlankRow(n, x) + Flatten(g[k..])
  {
    FlattenParts(g, i, j, k);
    ShiftedLeftParts(Flatten(g[..i]), Flatten(g[i..j]), Flatten(g[j..k]), Flatten(g[k..]), lo, hi, n, x);
  }

  lemma InsertedLayout(g: Rows, cols: nat, at: nat, n: nat, end: nat, cell: Cell)
    requires Rect(g, |g|, cols) && at + n <= end <= |g|
    ensures Flatten(InsertRows(g, at, n, end, BlankRow(cols, cell)))
      == Flatten(g[..at]) + BlankRow(n * cols, cell) + Flatten(g[at..end - n]) + Flatten(g[end..])
  {
    FlattenFour(g[..at], Repeat(n, BlankRow(cols, cell)), g[at..end - n], g[end..]);
    BlankBlock(n, cols, cell);
  }

  lemma DeletedLayout(g: Rows, cols: nat, at: nat, n: nat, end: nat, cell: Cell)
    requires Rect(g, |g|, cols) && at + n <= end <= |g|
    ensures Flatten(DeleteRows(g, at, n, end, BlankRow(cols, cell)))
      == Flatten(g[..at]) + Flatten(g[at + n..end]) + BlankRow(n * cols, cell) + Flatten(g[end..])
  {
    FlattenFour(g[..at], g[at + n..end], Repeat(n, BlankRow(cols, cell)), g[end..]);
    BlankBlock(n, cols, cell);
  }

  /** Blank rows pushed in at `at` are blank cells pushed in at `at * cols`. */
  lemma InsertBlock(g: Rows, cols: nat, at: nat, n: nat, end: nat, cell: Cell)
    requires Rect(g, |g|, cols) && at + n <= end <= |g|
    ensures at * cols + n * cols <= end * cols <= |Flatten(g)|
    ensures at * cols >= 0 && n * cols >= 0
    ensures Flatten(InsertRows(g, at, n, end, BlankRow(cols, cell)))
      == ShiftedRight(Flatten(g), at * cols, end * cols, n * cols, cell)
  {
    PartLengths(g, cols, at, end - n, end);
    assert end - (end - n) == n;
    ShiftedRightBlock(g, at, end - n, end, at * cols, end * cols, n * cols, cell);
    InsertedLayout(g, cols, at, n, end, cell);
  }

  lemma DeleteBlock(g: Rows, cols: nat, at: nat, n: nat, end: nat, cell: Cell)
    requires Rect(g, |g|, cols) && at + n <= end <= |g|
    ensures at * cols + n * cols <= end * cols <= |Flatten(g)|
    ensures at * cols >= 0 && n * cols >= 0
    ensures Flatten(DeleteRows(g, at, n, end, BlankRow(cols, cell)))
      == ShiftedLeft(Flatten(g), at * cols, end * cols, n * cols, cell)
  {
    PartLengths(g, cols, at, at + n, end);
    assert at + n - at == n;
    ShiftedLeftBlock(g, at, at + n, end, at * cols, end * cols, n * cols, cell);
    DeletedLayout(g, cols, at, n, end, cell);
  }
}
