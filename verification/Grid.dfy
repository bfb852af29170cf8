/**
 * The screen as a list of rows: the simple form the flat cell array of
 * `Screen` is proved against.
 */
module Grid {
  import opened TerminalTypes

  type Row = seq<Cell>
  type Rows = seq<Row>

  // ---- shape ----------------------------------------------------------

  ghost predicate Rect(g: Rows, rows: nat, cols: nat) {
    |g| == rows && forall r :: 0 <= r < rows ==> |g[r]| == cols
  }

  /** A wide lead in the last column would have no cell for its other half. */
  predicate EdgeOk(row: Row) {
    |row| > 0 ==> row[|row| - 1].width != 2
  }

  ghost predicate NoWideEdge(g: Rows) {
    forall r :: 0 <= r < |g| ==> EdgeOk(g[r])
  }

  /** A width-2 cell if and only if a width-0 cell follows it. */
  predicate Paired(row: Row) {
    && (forall c :: 0 <= c < |row| && row[c].width == 2 ==> c + 1 < |row| && row[c + 1].width == 0)
    && (forall c :: 0 <= c < |row| && row[c].width == 0 ==> c > 0 && row[c - 1].width == 2)
  }

  ghost predicate AllPaired(g: Rows) {
    forall r :: 0 <= r < |g| ==> Paired(g[r])
  }

  predicate IsBlankRow(row: Row) {
    forall c :: 0 <= c < |row| ==> row[c].ch == ' '
  }

  function BlankRow(cols: nat, cell: Cell): (row: Row)
    ensures |row| == cols
    ensures cell.width == 1 ==> Paired(row) && EdgeOk(row)
  {
    seq(cols, _ => cell)
  }

  function Repeat(n: nat, row: Row): (g: Rows) {
    seq(n, _ => row)
  }

  function BlankRows(rows: nat, cols: nat, cell: Cell): (g: Rows) {
    Repeat(rows, BlankRow(cols, cell))
  }

  // ---- the flat layout ------------------------------------------------

  /** Row-major layout of a row list. */
  function Flatten(g: Rows): seq<Cell> {
    if g == [] then [] else g[0] + Flatten(g[1..])
  }

  lemma MulSplit(a: nat, b: nat, cols: nat)
    ensures (a + b) * cols == a * cols + b * cols
  {
  }

  lemma MulMono(a: nat, b: nat, cols: nat)
    requires a <= b
    ensures a * cols <= b * cols
  {
    MulSplit(a, b - a, cols);
    assert (b - a) * cols >= 0;
  }

  lemma {:induction false} FlattenLength(g: Rows, cols: nat)
    requires Rect(g, |g|, cols)
    ensures |Flatten(g)| == |g| * cols
  {
    if g != [] {
      FlattenLength(g[1..], cols);
      MulSplit(1, |g| - 1, cols);
    }
  }

  lemma {:induction false} FlattenAppend(a: Rows, b: Rows)
    ensures Flatten(a + b) == Flatten(a) + Flatten(b)
  {
    if a == [] {
      assert a + b == b;
    } else {
      FlattenAppend(a[1..], b);
      assert (a + b)[1..] == a[1..] + b;
      Associate(a[0], Flatten(a[1..]), Flatten(b));
    }
  }

  /** A block of whole rows is one contiguous slice of the layout. */
  lemma FlattenSlice(g: Rows, cols: nat, i: nat, j: nat)
    requires Rect(g, |g|, cols) && i <= j <= |g|
    ensures 0 <= i * cols <= j * cols <= |Flatten(g)|
    ensures Flatten(g)[i * cols..j * cols] == Flatten(g[i..j])
  {
    var a, b, c := g[..i], g[i..j], g[j..];
    assert g == a + b + c;
    FlattenAppend(a + b, c);
    FlattenAppend(a, b);
    FlattenLength(a, cols);
    FlattenLength(b, cols);
    FlattenLength(a + b, cols);
    FlattenLength(g, cols);
    MulMono(i, j, cols);
    MulMono(j, |g|, cols);
    assert |a + b| == j;
  }

  lemma FlattenAt(g: Rows, cols: nat, r: nat, c: nat)
    requires Rect(g, |g|, cols) && r < |g| && c < cols
    ensures 0 <= r * cols + c < |Flatten(g)|
    ensures Flatten(g)[r * cols + c] == g[r][c]
  {
    FlattenSlice(g, cols, r, r + 1);
    MulSplit(r, 1, cols);
    assert g[r..r + 1] == [g[r]];
    assert Flatten([g[r]]) == g[r];
    assert Flatten(g)[r * cols..(r + 1) * cols][c] == g[r][c];
  }

  lemma FlattenSplit(a: Rows, row: Row, b: Rows)
    ensures Flatten(a + [row] + b) == Flatten(a) + row + Flatten(b)
  {
    FlattenAppend(a + [row], b);
    FlattenAppend(a, [row]);
    assert Flatten([row]) == row;
  }

  /** The three parts of a concatenation. */
  lemma Parts<T>(p: seq<T>, m: seq<T>, q: seq<T>)
    ensures (p + m + q)[..|p|] == p
    ensures (p + m + q)[|p|..|p| + |m|] == m
    ensures (p + m + q)[|p| + |m|..] == q
  {
  }

  /** Replacing one row of the layout is replacing one row of the list. */
  lemma FlattenRow(g: Rows, cols: nat, row: nat, r: Row)
    requires Rect(g, |g|, cols) && row < |g|
    ensures 0 <= row * cols <= row * cols + cols <= |Flatten(g)|
    ensures Flatten(g)[row * cols..row * cols + cols] == g[row]
    ensures Flatten(g[row := r]) == Flatten(g)[..row * cols] + r + Flatten(g)[row * cols + cols..]
  {
    var a, b := g[..row], g[row + 1..];
    assert |Flatten(a)| == row * cols by { FlattenLength(a, cols); }
    assert Flatten(g) == Flatten(a) + g[row] + Flatten(b) by {
      assert g == a + [g[row]] + b;
      FlattenSplit(a, g[row], b);
    }
    assert Flatten(g[row := r]) == Flatten(a) + r + Flatten(b) by {
      assert g[row := r] == a + [r] + b;
      FlattenSplit(a, r, b);
    }
    Parts(Flatten(a), g[row], Flatten(b));
  }

  lemma SetSlice<T>(s: seq<T>, lo: nat, hi: nat, c: nat, x: T)
    requires lo + c < hi <= |s|
    ensures s[..lo] + s[lo..hi][c := x] + s[hi..] == s[lo + c := x]
  {
  }

  /** Storing one cell of the layout is storing one cell of one row. */
  lemma FlattenSet(g: Rows, cols: nat, r: nat, c: nat, x: Cell)
    requires Rect(g, |g|, cols) && r < |g| && c < cols
    ensures 0 <= r * cols + c < |Flatten(g)|
    ensures Flatten(g[r := g[r][c := x]]) == Flatten(g)[r * cols + c := x]
  {
    FlattenRow(g, cols, r, g[r][c := x]);
    SetSlice(Flatten(g), r * cols, r * cols + cols, c, x);
  }

  lemma {:induction false} FlattenBlank(rows: nat, cols: nat, cell: Cell)
    ensures |Flatten(BlankRows(rows, cols, cell))| == rows * cols
    ensures forall k :: 0 <= k < rows * cols ==> Flatten(BlankRows(rows, cols, cell))[k] == cell
  {
    var g := BlankRows(rows, cols, cell);
    FlattenLength(g, cols);
    if rows > 0 {
      FlattenBlank(rows - 1, cols, cell);
      assert g[1..] == BlankRows(rows - 1, cols, cell);
      MulSplit(1, rows - 1, cols);
    }
  }

  // ---- one row --------------------------------------------------------

  /** Blanking a stretch that cuts no glyph keeps glyphs whole. */
  lemma BlankKeepsPairs(row: Row, r: Row, lo: nat, hi: nat)
    requires |r| == |row| && lo < hi <= |row|
    requires forall k :: 0 <= k < |row| && (k < lo || hi <= k) ==> r[k] == row[k]
    requires forall k :: lo <= k < hi ==> r[k].width == 1
    ensures Paired(row) && row[lo].width != 0 && (hi < |row| ==> row[hi].width != 0) ==> Paired(r)
  {
    if Paired(row) && row[lo].width != 0 && (hi < |row| ==> row[hi].width != 0) {
      forall c | 0 <= c < |r| && r[c].width == 2 ensures c + 1 < |r| && r[c + 1].width == 0 {
        assert row[c].width == 2 && row[c + 1].width == 0 && c + 1 != lo;
      }
      forall c | 0 <= c < |r| && r[c].width == 0 ensures c > 0 && r[c - 1].width == 2 {
        assert row[c].width == 0 && row[c - 1].width == 2 && c != hi;
      }
    }
  }

  /** Where the glyph that covers a cell of a paired row ends. */
  lemma GlyphAt(row: Row, col: nat)
    requires col < |row|
    ensures Paired(row) && row[col].width == 0 ==>
      col > 0 && row[col - 1].width == 2 && (col + 1 < |row| ==> row[col + 1].width != 0)
    ensures Paired(row) && row[col].width == 2 ==>
      col + 1 < |row| && row[col + 1].width == 0 && (col + 2 < |row| ==> row[col + 2].width != 0)
    ensures Paired(row) && row[col].width != 2 ==> (col + 1 < |row| ==> row[col + 1].width != 0)
  {
  }

  /** Blanks a cell together with the other half of a wide glyph it belongs to. */
  function ClearAt(row: Row, col: nat): (r: Row)
    ensures |r| == |row|
    ensures EdgeOk(row) ==> EdgeOk(r)
    ensures Paired(row) ==> Paired(r)
  {
    if col >= |row| then row
    else
      GlyphAt(row, col);
      if row[col].width == 0 then
        var r := (if col > 0 then row[col - 1 := EMPTY] else row)[col := EMPTY];
        BlankKeepsPairs(row, r, SatSub(col, 1), col + 1);
        r
      else if row[col].width == 2 then
        var r := row[col := EMPTY];
        var r2 := if col + 1 < |row| then r[col + 1 := EMPTY] else r;
        BlankKeepsPairs(row, r2, col, Min(col + 2, |row|));
        r2
      else
        var r := row[col := EMPTY];
        BlankKeepsPairs(row, r, col, col + 1);
        r
  }

  function PutAt(row: Row, col: nat, ch: char, width: u8, style: Style): (r: Row)
    requires col < |row| && (width == 2 ==> col + 1 < |row|)
    ensures |r| == |row|
    ensures EdgeOk(row) ==> EdgeOk(r)
    ensures Paired(row) && width != 0 ==> Paired(r)
  {
    var cleared := if width == 2 then ClearAt(ClearAt(row, col), col + 1) else ClearAt(row, col);
    var r := cleared[col := Cell(ch, width, style)];
    if width == 2 then r[col + 1 := Cell(' ', 0, style)] else r
  }

  /** Erases `[start, end)` left to right, one cell at a time. */
  function EraseSpan(row: Row, start: nat, end: nat, style: Style): (r: Row)
    requires start <= end <= |row|
    ensures |r| == |row|
    ensures EdgeOk(row) ==> EdgeOk(r)
    ensures Paired(row) ==> Paired(r)
    decreases end
  {
    if start == end then row
    else ClearAt(EraseSpan(row, start, end - 1, style), end - 1)[end - 1 := Blank(style)]
  }

  function FixEdge(row: Row): (r: Row)
    ensures |r| == |row| && EdgeOk(r)
  {
    if |row| > 0 && row[|row| - 1].width == 2 then row[|row| - 1 := EMPTY] else row
  }

  /** Cells pushed in at a column, those at the end falling off. */
  function OpenRow(row: Row, col: nat, count: nat, cell: Cell): (r: Row)
    requires col + count <= |row|
    ensures |r| == |row|
  {
    row[..col] + BlankRow(count, cell) + row[col..|row| - count]
  }

  /** Cells taken out at a column, the rest moving up. */
  function CloseRow(row: Row, col: nat, count: nat, cell: Cell): (r: Row)
    requires col + count <= |row|
    ensures |r| == |row|
  {
    row[..col] + row[col + count..] + BlankRow(count, cell)
  }

  function InsertCells(row: Row, col: nat, count: nat, style: Style): (r: Row)
    requires col + count <= |row|
    ensures |r| == |row| && EdgeOk(r)
  {
    FixEdge(OpenRow(row, col, count, Blank(style)))
  }

  function DeleteCells(row: Row, col: nat, count: nat, style: Style): (r: Row)
    requires col + count <= |row|
    ensures |r| == |row| && EdgeOk(r)
  {
    FixEdge(CloseRow(row, col, count, Blank(style)))
  }

  /** The part of a row kept at a new width, padded with empty cells. */
  function FitRow(row: Row, cols: nat): (r: Row)
    ensures |r| == cols && EdgeOk(r)
    ensures Paired(row) ==> Paired(r)
  {
    var kept := Min(|row|, cols);
    FixEdge(row[..kept]) + BlankRow(cols - kept, EMPTY)
  }

  // ---- blocks of rows -------------------------------------------------

  function InsertRows(g: Rows, at: nat, count: nat, end: nat, blank: Row): (r: Rows)
    requires at + count <= end <= |g|
  {
    g[..at] + Repeat(count, blank) + g[at..end - count] + g[end..]
  }

  function DeleteRows(g: Rows, at: nat, count: nat, end: nat, blank: Row): (r: Rows)
    requires at + count <= end <= |g|
  {
    g[..at] + g[at + count..end] + Repeat(count, blank) + g[end..]
  }

  /** Erases whole rows `[start, end)`. */
  function EraseRowSpan(g: Rows, start: nat, end: nat, style: Style): (r: Rows)
    requires start <= end <= |g|
    ensures |r| == |g|
    ensures forall rows: nat, cols: nat :: Rect(g, rows, cols) ==> Rect(r, rows, cols)
    ensures NoWideEdge(g) ==> NoWideEdge(r)
    ensures AllPaired(g) ==> AllPaired(r)
  {
    seq(|g|, i requires 0 <= i < |g| => if start <= i < end then EraseSpan(g[i], 0, |g[i]|, style) else g[i])
  }

  /** Number of rows up to and including the last one that draws anything. */
  function ContentHeight(g: Rows): (n: nat)
    ensures n <= |g|
    ensures forall r :: n <= r < |g| ==> IsBlankRow(g[r])
    ensures n > 0 ==> !IsBlankRow(g[n - 1])
  {
    if g == [] then 0
    else if !IsBlankRow(g[|g| - 1]) then |g|
    else ContentHeight(g[..|g| - 1])
  }

  /** Rows a change of height has to place, and how many of them leave at the top. */
  function EffectiveRows(g: Rows, rows: nat): (n: nat)
    ensures n <= |g|
  {
    if rows >= |g| then |g| else ContentHeight(g)
  }

  function RowShift(g: Rows, rows: nat): (n: nat)
    ensures n <= EffectiveRows(g, rows)
  {
    EffectiveRows(g, rows) - Min(EffectiveRows(g, rows), rows)
  }

  function ResizeRows(g: Rows, rows: nat, cols: nat): (r: Rows)
    ensures Rect(r, rows, cols) && NoWideEdge(r)
    ensures AllPaired(g) ==> AllPaired(r)
  {
    seq(rows, i requires 0 <= i < rows => ResizedRow(g, rows, cols, i))
  }

  function ResizedRow(g: Rows, rows: nat, cols: nat, i: nat): (row: Row)
    ensures |row| == cols && EdgeOk(row)
    ensures AllPaired(g) ==> Paired(row)
  {
    if i + RowShift(g, rows) < EffectiveRows(g, rows) then FitRow(g[i + RowShift(g, rows)], cols)
    else BlankRow(cols, EMPTY)
  }

  /** The rows `[shift, shift + n)` refitted to a width. */
  function Fitted(g: Rows, shift: nat, n: nat, cols: nat): (r: Rows)
    requires shift + n <= |g|
    ensures |r| == n
  {
    seq(n, i requires 0 <= i < n => FitRow(g[i + shift], cols))
  }

  /** A resize lays out the surviving rows, then blank ones. */
  lemma LaidOut(g: Rows, rows: nat, cols: nat)
    ensures var shift := RowShift(g, rows);
      var n := EffectiveRows(g, rows) - shift;
      n <= rows && ResizeRows(g, rows, cols) == Fitted(g, shift, n, cols) + BlankRows(rows - n, cols, EMPTY)
  {
    hide FitRow;
    var shift := RowShift(g, rows);
    var n := EffectiveRows(g, rows) - shift;
    var laid, parts := ResizeRows(g, rows, cols), Fitted(g, shift, n, cols) + BlankRows(rows - n, cols, EMPTY);
    forall r | 0 <= r < rows ensures laid[r] == parts[r] {
      if r < n {
        assert parts[r] == FitRow(g[r + shift], cols);
      } else {
        assert parts[r] == BlankRow(cols, EMPTY);
      }
    }
    assert |parts| == rows;
  }
}
