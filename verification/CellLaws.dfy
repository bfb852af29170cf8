/** What every cell holds after printing, and after the controls that erase or shift cells. */
module CellLaws {
  import opened TerminalTypes
  import opened Grid
  import opened TermSpec
  import opened GridLaws
  import opened MotionLaws
  import opened LineLaws
  import opened PairLaws
  import ChunkLaws
  import EditLaws
  import S = ScreenSpec
  import TermLaws

  /** Only the cursor's row of the active screen differs. */
  ghost predicate OnlyLine(t: Term, r: Term) {
    && OnlyScreen(t, r, []) && |Active(r).grid| == |Active(t).grid|
    && forall i :: 0 <= i < |Active(t).grid| && i != t.cursor.row ==> Active(r).grid[i] == Active(t).grid[i]
  }

  // ---- shifting cells -------------------------------------------------

  lemma ColumnsShift(t: Term, n: u16)
    requires WF(t) && n > 0
    ensures var k, r := Min(n, t.cols - t.cursor.col), InsertColumns(t, n);
      OnlyLine(t, r) && ShiftedRight(CursorRow(t), CursorRow(r), t.cursor.col, k, t.pen)
    ensures var k, r := Min(n, t.cols - t.cursor.col), DeleteColumns(t, n);
      OnlyLine(t, r) && ShiftedLeft(CursorRow(t), CursorRow(r), t.cursor.col, k, t.pen)
  {
    hide InsertCells, DeleteCells;
    var k := Min(n, t.cols - t.cursor.col);
    ShiftedRow(t, n);
    InsertedAt(CursorRow(t), t.cursor.col, k, t.pen);
    DeletedAt(CursorRow(t), t.cursor.col, k, t.pen);
    assert CursorRow(InsertColumns(t, n)) == InsertCells(CursorRow(t), t.cursor.col, k, t.pen);
    assert CursorRow(DeleteColumns(t, n)) == DeleteCells(CursorRow(t), t.cursor.col, k, t.pen);
    assert t.scrollback + [] == t.scrollback;
  }

  /** ICH and DCH shift the rest of the cursor's row by the count, as far as there are cells, and nothing else. */
  lemma ShiftsExactly(t: Term, params: seq<seq<u16>>, intermediates: seq<u8>)
    requires WF(t)
    ensures var k, r := Min(Count(params, 0), t.cols - t.cursor.col), Apply(t, Csi(params, intermediates, false, '@'));
      OnlyLine(t, r) && ShiftedRight(CursorRow(t), CursorRow(r), t.cursor.col, k, t.pen)
    ensures var k, r := Min(Count(params, 0), t.cols - t.cursor.col), Apply(t, Csi(params, intermediates, false, 'P'));
      OnlyLine(t, r) && ShiftedLeft(CursorRow(t), CursorRow(r), t.cursor.col, k, t.pen)
  {
    hide Apply, InsertColumns, DeleteColumns, OnlyLine, ShiftedRight, ShiftedLeft;
    CountIs(params);
    CsiShifts(t, params, intermediates);
    ColumnsShift(t, Count(params, 0));
  }

  // ---- erasing --------------------------------------------------------

  lemma EraseIsOnlyScreen(t: Term, mode: u16)
    requires WF(t) && mode <= 2
    ensures OnlyScreen(t, EraseDisplay(t, mode), []) && OnlyScreen(t, EraseLine(t, mode), [])
  {
    hide S.EraseCells, S.EraseRows;
    assert t.scrollback + [] == t.scrollback;
  }

  /**
   * A part of a row has been erased in the pen's style; the cell on each side is
   * at most emptied, and on a row without halved glyphs only if its other half was erased.
   */
  ghost predicate ErasedPart(row: Row, r: Row, start: nat, end: nat, style: Style)
    requires start <= end <= |row|
  {
    BlankedRoughly(row, r, start, end) && (Paired(row) ==> BlankedExactly(row, r, start, end, style))
  }

  lemma RowErased(t: Term, row: nat, from: nat, to: nat, i: nat)
    requires WF(t) && i < t.rows && from <= to <= t.cols
    ensures var g, r := Active(t).grid[i], Active(EraseCells(t, row, from, to)).grid[i];
      if i == row then ErasedPart(g, r, from, to, t.pen) else r == g
    ensures forall a: nat, b: nat :: a <= b <= t.rows ==>
      var g, r := Active(t).grid[i], Active(EraseRows(t, a, b)).grid[i];
      if a <= i < b then ErasedPart(g, r, 0, t.cols, t.pen) else r == g
    ensures EraseCells(t, row, from, to).pen == t.pen && forall a: nat, b: nat :: EraseRows(t, a, b).pen == t.pen
  {
    hide EraseSpan, ErasedPart;
    SpanErased(Active(t).grid[i], from, to, t.pen);
    SpanErased(Active(t).grid[i], 0, t.cols, t.pen);
    if from == to {
      NothingErased(Active(t).grid[i], from, t.pen);
    }
  }

  lemma SpanErased(row: Row, start: nat, end: nat, style: Style)
    requires start <= end <= |row|
    ensures ErasedPart(row, EraseSpan(row, start, end, style), start, end, style)
  {
    hide EraseSpan, BlankedExactly, BlankedRoughly;
    EraseConfined(row, start, end, style);
    if Paired(row) {
      EraseExact(row, start, end, style);
    }
  }

  lemma NothingErased(row: Row, at: nat, style: Style)
    requires at <= |row|
    ensures ErasedPart(row, row, at, at, style)
  {
  }

  /** The part of each row that ED or EL erases is erased, and no other. */
  lemma PartsErased(t: Term, mode: u16, i: nat)
    requires WF(t) && mode <= 2 && i < t.rows
    ensures ErasedPart(Active(t).grid[i], Active(EraseDisplay(t, mode)).grid[i],
      EditLaws.ErasedFrom(mode, t.cursor, t.cols, i), EditLaws.ErasedTo(mode, t.cursor, t.cols, i), t.pen)
    ensures var g, r := Active(t).grid[i], Active(EraseLine(t, mode)).grid[i];
      if i != t.cursor.row then r == g
      else ErasedPart(g, r,
        EditLaws.ErasedFrom(mode, t.cursor, t.cols, i), EditLaws.ErasedTo(mode, t.cursor, t.cols, i), t.pen)
  {
    hide EraseCells, EraseRows, ErasedPart;
    var row, col := t.cursor.row, t.cursor.col;
    NothingErased(Active(t).grid[i], 0, t.pen);
    NothingErased(Active(t).grid[i], t.cols, t.pen);
    RowErased(t, row, if mode == 0 then col else 0, if mode == 1 then col + 1 else t.cols, i);
    if mode == 0 {
      RowErased(EraseCells(t, row, col, t.cols), 0, 0, 0, i);
    } else if mode == 1 {
      RowErased(EraseRows(t, 0, row), row, 0, col + 1, i);
    }
  }

  /**
   * ED and EL erase exactly their cells, in the pen's style; ED 3 drops the
   * history alone, and no other mode does anything.
   */
  lemma ErasesExactly(t: Term, params: seq<seq<u16>>, intermediates: seq<u8>, i: nat)
    requires WF(t) && i < t.rows
    ensures var mode, r := Asked(params, 0), Apply(t, Csi(params, intermediates, false, 'J'));
      if mode == 3 then r == t.(scrollback := [], scrollbackCells := 0)
      else if mode > 3 then r == t
      else OnlyScreen(t, r, []) && ErasedPart(Active(t).grid[i], Active(r).grid[i],
        EditLaws.ErasedFrom(mode, t.cursor, t.cols, i), EditLaws.ErasedTo(mode, t.cursor, t.cols, i), t.pen)
    ensures var mode, r := Asked(params, 0), Apply(t, Csi(params, intermediates, false, 'K'));
      if mode > 2 then r == t
      else OnlyLine(t, r) && ErasedPart(CursorRow(t), CursorRow(r),
        EditLaws.ErasedFrom(mode, t.cursor, t.cols, t.cursor.row),
        EditLaws.ErasedTo(mode, t.cursor, t.cols, t.cursor.row), t.pen)
  {
    hide Apply, ErasedPart, AllPaired;
    var mode := Asked(params, 0);
    CountIs(params);
    TermLaws.EditApplied(t, params, intermediates, 'J');
    TermLaws.EditApplied(t, params, intermediates, 'K');
    if mode <= 2 {
      EraseIsOnlyScreen(t, mode);
      PartsErased(t, mode, i);
      LineErased(t, mode);
    }
  }

  lemma LineErased(t: Term, mode: u16)
    requires WF(t) && mode <= 2
    ensures var r := EraseLine(t, mode);
      OnlyLine(t, r) && ErasedPart(CursorRow(t), CursorRow(r),
        EditLaws.ErasedFrom(mode, t.cursor, t.cols, t.cursor.row),
        EditLaws.ErasedTo(mode, t.cursor, t.cols, t.cursor.row), t.pen)
  {
    hide EraseLine, EraseDisplay, ErasedPart;
    EraseIsOnlyScreen(t, mode);
    forall i | 0 <= i < t.rows && i != t.cursor.row
      ensures Active(EraseLine(t, mode)).grid[i] == Active(t).grid[i]
    {
      PartsErased(t, mode, i);
    }
    PartsErased(t, mode, t.cursor.row);
  }

  /** ECH erases the count of cells from the cursor on, as far as there are any. */
  lemma ErasesCharacters(t: Term, params: seq<seq<u16>>, intermediates: seq<u8>)
    requires WF(t)
    ensures var r := Apply(t, Csi(params, intermediates, false, 'X'));
      && OnlyLine(t, r)
      && ErasedPart(CursorRow(t), CursorRow(r), t.cursor.col, Min(t.cursor.col + Count(params, 0), t.cols), t.pen)
  {
    hide Apply, ErasedPart, EraseSpan;
    CountIs(params);
    TermLaws.EditApplied(t, params, intermediates, 'X');
    SpanErased(CursorRow(t), t.cursor.col, Min(t.cursor.col + Count(params, 0), t.cols), t.pen);
    assert t.scrollback + [] == t.scrollback;
  }

  /** A cell that is cleared takes the other half of its glyph with it, and nothing else. */
  lemma ClearsExactly(s: S.ScreenV, row: nat, col: nat)
    ensures var r := S.ClearCell(s, row, col);
      if row >= |s.grid| || col >= |s.grid[row]| then r == s
      else
        var g := s.grid[row];
        && r.dirty && |r.grid| == |s.grid| && r.grid == s.grid[row := r.grid[row]] && |r.grid[row]| == |g|
        && forall c :: 0 <= c < |g| ==>
             r.grid[row][c]
               == if c == col || (c + 1 == col && g[col].width == 0) || (c == col + 1 && g[col].width == 2) then EMPTY
                  else g[c]
  {
  }

  // ---- printing -------------------------------------------------------

  /** The cells a glyph takes: none, one or two; widths no character has count as one. */
  function CellsTaken(width: Option<nat>): nat {
    if width.None? || width.value == 0 then 0 else if width.value == 2 then 2 else 1
  }

  /** A row with a glyph written over what was there: the broken halves of other glyphs beside it are emptied. */
  ghost predicate Written(row: Row, r: Row, col: nat, ch: char, w: nat, style: Style)
    requires 1 <= w <= 2 && col + w <= |row|
  {
    && |r| == |row|
    && forall c :: 0 <= c < |row| ==>
         r[c] == if c == col then Cell(ch, w, style)
                 else if w == 2 && c == col + 1 then Cell(' ', 0, style)
                 else if c + 1 == col && row[col].width == 0 then EMPTY
                 else if c == col + 1 && row[col].width == 2 then EMPTY
                 else if w == 2 && c == col + 2 && row[col].width != 2 && row[col + 1].width == 2 then EMPTY
                 else row[c]
  }

  /** A row with a glyph written into cells opened up for it. */
  ghost predicate Squeezed(row: Row, r: Row, col: nat, ch: char, w: nat, style: Style)
    requires 1 <= w <= 2 && col + w <= |row|
  {
    && |r| == |row|
    && forall c: nat :: c < |row| ==>
         r[c] == if c == col then Cell(ch, w, style)
                 else if w == 2 && c == col + 1 then Cell(' ', 0, style)
                 else FromLeft(row, col, w, style, c)
  }

  lemma PutWrites(row: Row, col: nat, ch: char, w: nat, style: Style)
    requires 1 <= w <= 2 && col + w <= |row|
    ensures Written(row, PutAt(row, col, ch, w, style), col, ch, w, style)
  {
  }

  lemma WrittenIntoRoom(row: Row, room: Row, r: Row, col: nat, ch: char, w: nat, style: Style)
    requires 1 <= w <= 2 && col + w <= |row|
    requires ShiftedRight(row, room, col, w, style) && Written(room, r, col, ch, w, style)
    ensures Squeezed(row, r, col, ch, w, style)
  {
    assert room[col].width == 1 && room[col + w - 1].width == 1;
  }

  lemma PutSqueezes(row: Row, col: nat, ch: char, w: nat, style: Style)
    requires 1 <= w <= 2 && col + w <= |row|
    ensures Squeezed(row, PutAt(InsertCells(row, col, w, style), col, ch, w, style), col, ch, w, style)
  {
    hide InsertCells, PutAt;
    var room := InsertCells(row, col, w, style);
    InsertedAt(row, col, w, style);
    PutWrites(room, col, ch, w, style);
    WrittenIntoRoom(row, room, PutAt(room, col, ch, w, style), col, ch, w, style);
  }

  /** The cursor past a glyph; at the right edge it stays on the last column, the wrap pending if lines wrap. */
  function Past(t: Term, w: nat): Term
    requires WF(t) && 1 <= w <= 2
  {
    var edge := t.cursor.col + w >= t.cols;
    t.(cursor := Position(t.cursor.row, if edge then t.cols - 1 else t.cursor.col + w),
       wrapPending := edge && t.modes.autowrap)
  }

  /** A glyph is put where the cursor is, in the pen's style, over or before what is there. */
  ghost predicate Printed(t: Term, r: Term, ch: char, w: nat)
    requires WF(t) && 1 <= w <= 2 && t.cursor.col + w <= t.cols
  {
    && OnlyLine(Past(t, w), r)
    && (if t.modes.insert then Squeezed(CursorRow(t), Active(r).grid[t.cursor.row], t.cursor.col, ch, w, t.pen)
        else Written(CursorRow(t), Active(r).grid[t.cursor.row], t.cursor.col, ch, w, t.pen))
  }

  lemma ScreenIsOnlyScreen(t: Term, s: S.ScreenV)
    ensures OnlyScreen(t, WithActive(t, s), [])
  {
    assert t.scrollback + [] == t.scrollback;
  }

  lemma OnlyScreenTwice(t: Term, u: Term, r: Term)
    requires OnlyScreen(t, u, []) && OnlyScreen(u, r, [])
    ensures OnlyScreen(t, r, [])
  {
    assert t.scrollback + [] == t.scrollback;
  }

  lemma AdvanceIsPast(t: Term, u: Term, w: nat)
    requires WF(t) && WF(u) && OnlyScreen(t, u, []) && 1 <= w <= 2
    ensures OnlyScreen(Past(t, w), Advance(u, w), [])
  {
  }

  lemma SameActive(t: Term, u: Term)
    ensures WithActive(t, Active(t)) == t
    ensures OnlyScreen(t, u, []) ==> u.rows == t.rows && u.cols == t.cols && u.cursor == t.cursor
  {
  }

  lemma PutReplaces(t: Term, ch: char, w: nat)
    requires WF(t) && !t.modes.insert && 1 <= w <= 2 && t.cursor.col + w <= t.cols
    ensures PutChar(t, ch, w) == Advance(PutGlyph(t, ch, w), w)
  {
  }

  lemma PutIsOnlyScreen(t: Term, ch: char, w: nat)
    requires WF(t) && 1 <= w <= 2 && t.cursor.col + w <= t.cols
    ensures OnlyScreen(Past(t, w), PutChar(t, ch, w), [])
  {
    hide S.PutGlyph, S.InsertColumns, OnlyScreen, Past, Advance, WithActive;
    var u := if t.modes.insert then InsertColumns(t, w) else t;
    var s := S.InsertColumns(Active(t), t.cursor.row, t.cursor.col, w, t.pen);
    ScreenIsOnlyScreen(t, if t.modes.insert then s else Active(t));
    SameActive(t, u);
    var g := S.PutGlyph(Active(u), u.cursor.row, u.cursor.col, ch, w, u.pen);
    ScreenIsOnlyScreen(u, g);
    OnlyScreenTwice(t, u, WithActive(u, g));
    AdvanceIsPast(t, PutGlyph(u, ch, w), w);
  }

  lemma PutCharPrints(t: Term, ch: char, w: nat)
    requires WF(t) && 1 <= w <= 2 && t.cursor.col + w <= t.cols
    ensures Printed(t, PutChar(t, ch, w), ch, w)
  {
    hide PutAt, InsertCells, Written, Squeezed, OnlyScreen, PutChar;
    PutIsOnlyScreen(t, ch, w);
    if t.modes.insert {
      InsertedGlyph(t, ch, w);
      PutSqueezes(CursorRow(t), t.cursor.col, ch, w, t.pen);
    } else {
      PutReplaces(t, ch, w);
      PlacedGlyph(t, ch, w);
      PutWrites(CursorRow(t), t.cursor.col, ch, w, t.pen);
    }
  }

  /** Whether a glyph goes to the next line, which lines that wrap have room for. */
  predicate Wraps(t: Term, w: nat) {
    t.modes.autowrap && (t.wrapPending || t.cursor.col + w > t.cols)
  }

  /** A carriage return and a line feed. */
  const NEW_LINE: seq<Action> := [Execute(0x0d), Execute(0x0a)]

  /**
   * A glyph that does not wrap is put where the cursor is, if there is room. One
   * that does is printed after a carriage return and a line feed; a wide one on a
   * single column moves on and is never put. One of no width does nothing.
   */
  lemma PrintsExactly(t: Term, ch: char, width: Option<nat>)
    requires WF(t)
    ensures var w, r := CellsTaken(width), Apply(t, Print(ch, width));
      if w == 0 then r == t
      else if Wraps(t, w) then
        r == ApplyAll(t, if w <= t.cols then NEW_LINE + [Print(ch, width)]
                         else if t.wrapPending then NEW_LINE + NEW_LINE else NEW_LINE)
      else if t.cursor.col + w <= t.cols then Printed(t, r, ch, w)
      else r == t.(wrapPending := false)
  {
    hide ApplyAll;
    var w := CellsTaken(width);
    if w > 0 {
      if Wraps(t, w) {
        if w <= t.cols {
          WrapIsNewLine(t, ch, width);
        } else {
          WrapNeverFits(t, ch, width);
        }
      } else if t.cursor.col + w <= t.cols {
        InPlace(t, ch, width);
      }
    }
  }

  lemma WrapIsOverwritten(t: Term, r: Term, ch: char, w: nat)
    requires WF(t) && 1 <= w <= 2 && t.cursor.col + w <= t.cols
    requires Printed(t.(wrapPending := false), r, ch, w)
    ensures Printed(t, r, ch, w)
  {
  }

  lemma InPlace(t: Term, ch: char, width: Option<nat>)
    requires WF(t) && CellsTaken(width) > 0 && !Wraps(t, CellsTaken(width))
    requires t.cursor.col + CellsTaken(width) <= t.cols
    ensures Printed(t, Apply(t, Print(ch, width)), ch, CellsTaken(width))
  {
    hide PutChar, Printed, HandleOsc, HandleCsi, HandleEsc, HandleExecute, LineFeed;
    var w, u := CellsTaken(width), t.(wrapPending := false);
    assert Apply(t, Print(ch, width)) == PutChar(u, ch, w);
    PutCharPrints(u, ch, w);
    WrapIsOverwritten(t, PutChar(u, ch, w), ch, w);
  }

  lemma LandsOnNewLine(t: Term, w: nat)
    requires WF(t) && 0 < w <= t.cols && Wraps(t, w)
    ensures var u := LineFeed(CarriageReturn(t));
      Landing(t, w) == u && Landing(u, w) == u
  {
    hide LineFeed;
    NewLine(t);
  }

  lemma NewLineApplied(t: Term)
    requires WF(t)
    ensures Apply(Apply(t, Execute(0x0d)), Execute(0x0a)) == LineFeed(CarriageReturn(t))
  {
    hide LineFeed;
  }

  lemma PrintApplied(t: Term, ch: char, width: Option<nat>)
    requires WF(t) && CellsTaken(width) > 0
    ensures var w := CellsTaken(width); Apply(t, Print(ch, width)) == PutIfRoom(Landing(t, w), ch, w)
  {
    hide PutIfRoom, WrapPending, MakeRoom;
  }

  lemma WrapIsNewLine(t: Term, ch: char, width: Option<nat>)
    requires WF(t) && 0 < CellsTaken(width) <= t.cols && Wraps(t, CellsTaken(width))
    ensures Apply(t, Print(ch, width)) == ApplyAll(t, NEW_LINE + [Print(ch, width)])
  {
    hide LineFeed, PutIfRoom, Landing, Apply, ApplyAll, CarriageReturn;
    var u := LineFeed(CarriageReturn(t));
    assert u.rows == t.rows && u.cols == t.cols;
    LandsOnNewLine(t, CellsTaken(width));
    PrintApplied(t, ch, width);
    PrintApplied(u, ch, width);
    NewLineApplied(t);
    TermLaws.ApplyThree(t, Execute(0x0d), Execute(0x0a), Print(ch, width));
    assert NEW_LINE + [Print(ch, width)] == [Execute(0x0d), Execute(0x0a), Print(ch, width)];
  }

  lemma NewLinesApplied(t: Term)
    requires WF(t)
    ensures ApplyAll(t, NEW_LINE) == LineFeed(CarriageReturn(t))
    ensures ApplyAll(t, NEW_LINE + NEW_LINE) == LineFeed(CarriageReturn(LineFeed(CarriageReturn(t))))
  {
    hide LineFeed, CarriageReturn, Apply;
    var u := LineFeed(CarriageReturn(t));
    NewLineApplied(t);
    NewLineApplied(u);
    assert NEW_LINE[1..] == [Execute(0x0a)];
    TermLaws.ApplyOne(Apply(t, Execute(0x0d)), Execute(0x0a));
    TermLaws.ApplyOne(Apply(u, Execute(0x0d)), Execute(0x0a));
    ChunkLaws.ApplyAllAppend(t, NEW_LINE, NEW_LINE);
  }

  lemma WrapNeverFits(t: Term, ch: char, width: Option<nat>)
    requires WF(t) && CellsTaken(width) > t.cols && Wraps(t, CellsTaken(width))
    ensures Apply(t, Print(ch, width)) == ApplyAll(t, if t.wrapPending then NEW_LINE + NEW_LINE else NEW_LINE)
  {
    hide LineFeed, Apply, ApplyAll;
    PrintApplied(t, ch, width);
    NewLine(t);
    NewLine(LineFeed(CarriageReturn(t)));
    NewLinesApplied(t);
  }

  lemma NewLine(t: Term)
    requires WF(t)
    ensures var u := LineFeed(CarriageReturn(t));
      u.cursor.col == 0 && !u.wrapPending && u.modes == t.modes && u.cols == t.cols
    ensures LineFeed(CarriageReturn(t.(wrapPending := false))) == LineFeed(CarriageReturn(t))
  {
    hide LineFeed, Up;
    LineFeedLowers(CarriageReturn(t));
  }
}
