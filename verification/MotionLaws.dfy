/** Where every cursor motion takes the cursor, and what saving and restoring it brings back. */
module MotionLaws {
  import opened TerminalTypes
  import opened TermSpec
  import TermLaws

  /** A parameter as a program gives it: the first number of its group, or zero when there is none. */
  function Asked(params: seq<seq<u16>>, i: nat): u16 {
    if i >= |params| || params[i] == [] then 0 else params[i][0]
  }

  /** A count or a one-based place: one when none or zero is given. */
  function Count(params: seq<seq<u16>>, i: nat): u16 {
    Max(1, Asked(params, i))
  }

  lemma CountIs(params: seq<seq<u16>>)
    ensures ParamOr(params, 0, 1) == Count(params, 0) && ParamOr(params, 1, 1) == Count(params, 1)
    ensures ParamOr(params, 0, 0) == Asked(params, 0)
  {
  }

  /** The terminal with its cursor elsewhere and no wrap pending. */
  function At(t: Term, row: u16, col: u16): Term {
    t.(cursor := Position(row, col), wrapPending := false)
  }

  // ---- relative -------------------------------------------------------

  /** How many rows above the cursor can be reached; a cursor above the region in origin mode is not within reach. */
  function RowsAbove(t: Term): int {
    if t.modes.origin then t.cursor.row - t.top else t.cursor.row
  }

  function RowsBelow(t: Term): int {
    if t.modes.origin then t.bottom - t.cursor.row else t.rows - 1 - t.cursor.row
  }

  /** `n` rows up, as far as there are rows; from above the region in origin mode, onto its first row. */
  function RowUp(t: Term, n: nat): int {
    t.cursor.row - Min(n, RowsAbove(t))
  }

  /** `n` rows down; from below the region in origin mode, onto its last row. */
  function RowDown(t: Term, n: nat): int {
    t.cursor.row + Min(n, RowsBelow(t))
  }

  lemma ReachesRows(t: Term, n: nat)
    requires WF(t)
    ensures 0 <= RowUp(t, n) < t.rows && 0 <= RowDown(t, n) < t.rows
  {
  }

  /** CUU and CUD move that many rows, CPL and CNL do and go to the first column; nothing else changes. */
  lemma VerticalMoves(t: Term, params: seq<seq<u16>>, intermediates: seq<u8>)
    requires WF(t)
    ensures 0 <= RowUp(t, Count(params, 0)) < t.rows && 0 <= RowDown(t, Count(params, 0)) < t.rows
    ensures var up, down := RowUp(t, Count(params, 0)), RowDown(t, Count(params, 0));
      && Apply(t, Csi(params, intermediates, false, 'A')) == At(t, up, t.cursor.col)
      && Apply(t, Csi(params, intermediates, false, 'B')) == At(t, down, t.cursor.col)
      && Apply(t, Csi(params, intermediates, false, 'E')) == At(t, down, 0)
      && Apply(t, Csi(params, intermediates, false, 'F')) == At(t, up, 0)
  {
    hide Apply;
    CountIs(params);
    ReachesRows(t, Count(params, 0));
    TermLaws.MoveApplied(t, params, intermediates, 'A');
    TermLaws.MoveApplied(t, params, intermediates, 'B');
    TermLaws.MoveApplied(t, params, intermediates, 'E');
    TermLaws.MoveApplied(t, params, intermediates, 'F');
  }

  /** CUF and CUB move that many columns within the row. */
  lemma HorizontalMoves(t: Term, params: seq<seq<u16>>, intermediates: seq<u8>)
    requires WF(t)
    ensures var n := Count(params, 0);
      && Apply(t, Csi(params, intermediates, false, 'C'))
        == At(t, t.cursor.row, t.cursor.col + Min(n, t.cols - 1 - t.cursor.col))
      && Apply(t, Csi(params, intermediates, false, 'D'))
        == At(t, t.cursor.row, t.cursor.col - Min(n, t.cursor.col))
  {
    hide Apply;
    CountIs(params);
    TermLaws.MoveApplied(t, params, intermediates, 'C');
    TermLaws.MoveApplied(t, params, intermediates, 'D');
  }

  /** Going up and coming back down, or the reverse, gives the row back exactly when there are as many rows. */
  lemma UpAndDown(t: Term, n: u16)
    requires WF(t) && n > 0 && t.top <= t.cursor.row <= t.bottom
    ensures RowsAbove(t) >= 0 && RowsBelow(t) >= 0
    ensures var u := Apply(t, Csi([[n]], [], false, 'A'));
      Apply(u, Csi([[n]], [], false, 'B')).cursor == t.cursor <==> n <= RowsAbove(t) || RowsBelow(t) == 0
    ensures var d := Apply(t, Csi([[n]], [], false, 'B'));
      Apply(d, Csi([[n]], [], false, 'A')).cursor == t.cursor <==> n <= RowsBelow(t) || RowsAbove(t) == 0
  {
    hide Apply;
    VerticalMoves(t, [[n]], []);
    VerticalMoves(Apply(t, Csi([[n]], [], false, 'A')), [[n]], []);
    VerticalMoves(Apply(t, Csi([[n]], [], false, 'B')), [[n]], []);
  }

  // ---- absolute -------------------------------------------------------

  /** CHA and HPA set the column and VPA the row; rows count from the region's first in origin mode. */
  lemma ColumnAndRowMoves(t: Term, params: seq<seq<u16>>, intermediates: seq<u8>)
    requires WF(t)
    ensures var row, col := TermLaws.RowReached(t, Asked(params, 0)), TermLaws.ColReached(t, Asked(params, 0));
      && 0 <= row < t.rows && 0 <= col < t.cols
      && Apply(t, Csi(params, intermediates, false, 'G')) == At(t, t.cursor.row, col)
      && Apply(t, Csi(params, intermediates, false, '`')) == At(t, t.cursor.row, col)
      && Apply(t, Csi(params, intermediates, false, 'd')) == At(t, row, t.cursor.col)
  {
    hide Apply, RowTarget;
    CountIs(params);
    TermLaws.RowReachedIsTarget(t, Asked(params, 0));
    TermLaws.MoveApplied(t, params, intermediates, 'G');
    TermLaws.MoveApplied(t, params, intermediates, '`');
    TermLaws.MoveApplied(t, params, intermediates, 'd');
  }

  /** CUP and HVP set both. */
  lemma PositionMoves(t: Term, params: seq<seq<u16>>, intermediates: seq<u8>)
    requires WF(t)
    ensures var row, col := TermLaws.RowReached(t, Asked(params, 0)), TermLaws.ColReached(t, Asked(params, 1));
      && 0 <= row < t.rows && 0 <= col < t.cols
      && Apply(t, Csi(params, intermediates, false, 'H')) == At(t, row, col)
      && Apply(t, Csi(params, intermediates, false, 'f')) == At(t, row, col)
  {
    hide Apply, RowTarget;
    CountIs(params);
    TermLaws.RowReachedIsTarget(t, Asked(params, 0));
    TermLaws.MoveApplied(t, params, intermediates, 'H');
    TermLaws.MoveApplied(t, params, intermediates, 'f');
  }

  // ---- C0 controls ----------------------------------------------------

  /** The next of the tab stops, which are every eight columns, or the last column; past 65528 the sum wraps to zero. */
  predicate NextStop(col: nat, cols: nat, stop: nat) {
    if col >= 0xFFF8 then stop == 0
    else stop == cols - 1 <= (col / 8 + 1) * 8 || (col < stop <= col + 8 && stop % 8 == 0 && stop < cols)
  }

  /** BS, HT and CR move within the row, and nothing else changes. */
  lemma ControlsMove(t: Term)
    requires WF(t)
    ensures Apply(t, Execute(0x08)) == At(t, t.cursor.row, if t.cursor.col == 0 then 0 else t.cursor.col - 1)
    ensures Apply(t, Execute(0x0d)) == At(t, t.cursor.row, 0)
    ensures var r := Apply(t, Execute(0x09));
      r == At(t, t.cursor.row, r.cursor.col) && NextStop(t.cursor.col, t.cols, r.cursor.col)
  {
    hide PrintChar, HandleOsc, HandleCsi, HandleEsc, LineFeed;
  }

  // ---- saving and restoring -------------------------------------------

  /** `ESC 7` and `CSI s` take down the position, pen, pending wrap and origin mode. */
  lemma SavesExactly(t: Term, params: seq<seq<u16>>)
    requires WF(t)
    ensures var saved := t.(saved := SavedCursor(t.cursor, t.pen, t.wrapPending, t.modes.origin));
      && Apply(t, Esc([], false, 55)) == saved
      && Apply(t, Csi(params, [], false, 's')) == saved
  {
    TermLaws.ModeApplied(t, params, [], 's');
  }

  /** The saved position as it fits the screen there is now: within the region in origin mode. */
  function SavedRow(t: Term): nat
    requires WF(t)
  {
    if !t.saved.origin then Min(t.saved.cursor.row, t.rows - 1)
    else Min(Max(t.saved.cursor.row, t.top), t.bottom)
  }

  /** Its column, or the one before if that is the trailing half of a wide glyph. */
  function SavedCol(t: Term): nat
    requires WF(t)
  {
    var col := Min(t.saved.cursor.col, t.cols - 1);
    if col > 0 && Active(t).grid[SavedRow(t)][col].width == 0 then col - 1 else col
  }

  lemma RestoreApplied(t: Term, params: seq<seq<u16>>)
    requires WF(t)
    ensures Apply(t, Esc([], false, 56)) == Apply(t, Csi(params, [], false, 'u')) == RestoreCursor(t)
  {
    hide RestoreCursor;
    TermLaws.ModeApplied(t, params, [], 'u');
  }

  /** `ESC 8` and `CSI u` bring them back, the position as far as it fits, and change nothing else. */
  lemma RestoresExactly(t: Term, params: seq<seq<u16>>)
    requires WF(t)
    ensures SavedRow(t) < t.rows && SavedCol(t) < t.cols
    ensures Apply(t, Esc([], false, 56)) == Apply(t, Csi(params, [], false, 'u')) == t.(
      cursor := Position(SavedRow(t), SavedCol(t)), pen := t.saved.pen, wrapPending := t.saved.wrapPending,
      modes := t.modes.(origin := t.saved.origin))
  {
    hide Apply;
    RestoreApplied(t, params);
  }

  /** Whatever was done since, at the same size and without saving again, the cursor and pen come back. */
  lemma SaveAndRestore(t: Term, u: Term)
    requires WF(t) && WF(u) && u.saved == Apply(t, Esc([], false, 55)).saved
    requires u.rows == t.rows && u.cols == t.cols && !t.modes.origin
    requires Active(u).grid[t.cursor.row][t.cursor.col].width != 0
    ensures var r := Apply(u, Esc([], false, 56));
      r.cursor == t.cursor && r.pen == t.pen && r.wrapPending == t.wrapPending && !r.modes.origin
  {
    hide Apply;
    SavesExactly(t, []);
    RestoresExactly(u, []);
  }
}
