/** The emulator with its state updated in place, proved against `TermSpec`. */
module Terminal {
  import opened TerminalTypes
  import opened Grid
  import opened Scrollback
  import opened TermSpec
  import opened EventChannel
  import opened ScreenBuffer
  import Colors
  import S = ScreenSpec
  import Sgr
  import Base64

  /** Sub-parameters flattened into one list. */
  method Flattened(params: seq<seq<u16>>) returns (out: seq<u16>)
    ensures out == FlattenParams(params)
  {
    out := [];
    for i := 0 to |params|
      invariant out + FlattenParams(params[i..]) == FlattenParams(params)
    {
      var sub := if params[i] == [] then [0] else params[i];
      assert params[i..][1..] == params[i + 1..];
      Associate(out, sub, FlattenParams(params[i + 1..]));
      out := out + sub;
    }
  }

  /** Peels `index ; spec` pairs off the front; an odd field at the end is ignored. */
  method PaletteLoop(fields: seq<seq<u8>>) returns (requests: seq<Colors.ChildRequest>)
    ensures requests == Colors.PaletteRequests(fields)
  {
    var rest := fields;
    requests := [];
    while |rest| >= 2
      invariant requests + Colors.PaletteRequests(rest) == Colors.PaletteRequests(fields)
    {
      var index := Colors.ParseIndex(rest[0]);
      var made := if index.None? then [] else Colors.ColorRequest(Colors.PaletteEntry(index.value), rest[1]);
      Associate(requests, made, Colors.PaletteRequests(rest[2..]));
      requests := requests + made;
      rest := rest[2..];
    }
    assert requests + [] == requests;
  }

  /** Rows displaced one after another are displaced together. */
  lemma PushSnoc(t: Term, rows: seq<Row>, row: Row)
    requires WF(t)
    ensures TermSpec.PushDisplaced(TermSpec.PushDisplaced(t, rows), [row]) == TermSpec.PushDisplaced(t, rows + [row])
  {
    var lines, last := Content(rows), Content([row]);
    var all := lines + last;
    assert Content(rows + [row]) == all by { ContentAppend(rows, [row]); }
    assert CellCount(all) == CellCount(lines) + CellCount(last) by { CellCountAppend(lines, last); }
    assert (t.scrollback + lines) + last == t.scrollback + all;
    assert all == [] <==> lines == [] && last == [];
  }

  lemma RequestSnoc(t: Term, requests: seq<Colors.ChildRequest>, i: nat)
    requires WF(t) && i < |requests|
    ensures TermSpec.PushRequests(t, requests[..i + 1])
      == PushEvent(TermSpec.PushRequests(t, requests[..i]), RequestReceived(requests[i]))
  {
  }

  method NewScreens(rows: NonZeroU16, cols: NonZeroU16) returns (primary: Screen, alternate: Screen)
    ensures fresh(primary) && fresh(alternate) && fresh(primary.cells) && fresh(alternate.cells)
    ensures primary != alternate && primary.cells != alternate.cells && primary.Valid() && alternate.Valid()
    ensures primary.rows == alternate.rows == rows && primary.cols == alternate.cols == cols
    ensures primary.View() == alternate.View() == S.BlankScreen(rows, cols)
  {
    primary := new Screen(rows, cols);
    alternate := new Screen(rows, cols);
  }

  class TerminalState {
    var rows: NonZeroU16
    var cols: NonZeroU16
    var primary: Screen
    var alternate: Screen
    var onAlternate: bool
    var cursor: Position
    var saved: SavedCursor
    var wrapPending: bool
    var pen: Style
    var modes: Modes
    var title: seq<u8>
    var top: u16
    var bottom: u16
    const replies: ReplyBuf
    var scrollback: seq<Row>
    var scrollbackCells: nat
    var nextLink: nat
    const events: EventQueue

    ghost function Footprint(): set<object>
      reads this, primary, alternate
    {
      {this, primary, primary.cells, alternate, alternate.cells, replies, events}
    }

    /** The objects are consistent; that the state they hold is well formed is `WF(View())`. */
    ghost predicate Valid()
      reads this, primary, alternate, primary.cells, alternate.cells, replies, events
    {
      && primary != alternate && primary.cells != alternate.cells
      && primary.Valid() && alternate.Valid() && replies.Valid()
      && primary.rows == alternate.rows == rows && primary.cols == alternate.cols == cols
    }

    ghost function View(): Term
      requires replies.Valid()
      reads this, primary, alternate, replies, events
    {
      Term(rows, cols, primary.View(), alternate.View(), onAlternate, cursor, saved, wrapPending, pen, modes,
        title, top, bottom, replies.Pending(), scrollback, scrollbackCells, nextLink, events.View())
    }

    constructor (rows: NonZeroU16, cols: NonZeroU16)
      ensures Valid() && fresh(Footprint())
      ensures View() == New(rows, cols)
    {
      this.rows, this.cols := rows, cols;
      var shown, other := NewScreens(rows, cols);
      primary, alternate := shown, other;
      onAlternate, cursor, saved, wrapPending := false, ORIGIN, DEFAULT_SAVED, false;
      pen, modes, title, top, bottom := DEFAULT_STYLE, DEFAULT_MODES, [], 0, rows - 1;
      replies := new ReplyBuf();
      scrollback, scrollbackCells, nextLink := [], 0, 1;
      events := new EventQueue();
    }

    // ---- single fields ------------------------------------------------

    method MoveCursor(p: Position)
      requires replies.Valid()
      modifies `cursor, `wrapPending
      ensures View() == old(View()).(cursor := p, wrapPending := false)
    {
      cursor := p;
      wrapPending := false;
    }

    method SetRegion(first: u16, last: u16)
      requires replies.Valid()
      modifies `top, `bottom
      ensures View() == old(View()).(top := first, bottom := last)
    {
      top := first;
      bottom := last;
    }

    // ---- the active screen --------------------------------------------

    function ActiveScreen(): Screen
      reads this
    {
      if onAlternate then alternate else primary
    }

    method EraseCells(row: nat, colStart: nat, colEnd: nat)
      requires Valid() && WF(View())
      modifies Footprint()
      ensures Valid() && Footprint() == old(Footprint())
      ensures View() == TermSpec.EraseCells(old(View()), row, colStart, colEnd)
    {
      ActiveScreen().EraseCells(row, colStart, colEnd, pen);
    }

    method EraseRows(rowStart: nat, rowEnd: nat)
      requires Valid() && WF(View())
      modifies Footprint()
      ensures Valid() && Footprint() == old(Footprint())
      ensures View() == TermSpec.EraseRows(old(View()), rowStart, rowEnd)
    {
      ActiveScreen().EraseRows(rowStart, rowEnd, pen);
    }

    method InsertColumns(count: nat)
      requires Valid() && WF(View())
      modifies Footprint()
      ensures Valid() && Footprint() == old(Footprint())
      ensures View() == TermSpec.InsertColumns(old(View()), count)
    {
      ActiveScreen().InsertColumns(cursor.row, cursor.col, count, pen);
    }

    method DeleteColumns(count: nat)
      requires Valid() && WF(View())
      modifies Footprint()
      ensures Valid() && Footprint() == old(Footprint())
      ensures View() == TermSpec.DeleteColumns(old(View()), count)
    {
      ActiveScreen().DeleteColumns(cursor.row, cursor.col, count, pen);
    }

    method InsertLines(count: nat)
      requires Valid() && WF(View())
      modifies Footprint()
      ensures Valid() && Footprint() == old(Footprint())
      ensures View() == TermSpec.InsertLines(old(View()), count)
    {
      ActiveScreen().InsertLines(cursor.row, count, top, bottom, pen);
    }

    method DeleteLines(count: nat)
      requires Valid() && WF(View())
      modifies Footprint()
      ensures Valid() && Footprint() == old(Footprint())
      ensures View() == TermSpec.DeleteLines(old(View()), count)
    {
      ActiveScreen().DeleteLines(cursor.row, count, top, bottom, pen);
    }

    method ScrollDown(count: nat)
      requires Valid() && WF(View())
      modifies Footprint()
      ensures Valid() && Footprint() == old(Footprint())
      ensures View() == TermSpec.ScrollDown(old(View()), count)
    {
      ActiveScreen().ScrollDown(count, top, bottom, pen);
    }

    /** Appends one displaced row to the history if it draws something. */
    method PushRow(row: Row)
      requires Valid() && WF(View())
      modifies `scrollback, `scrollbackCells, events
      ensures Valid() && View() == TermSpec.PushDisplaced(old(View()), [row])
    {
      hide Flatten, Rect;
      assert [row][1..] == [];
      CellCountAppend(scrollback, [row]);
      if IsBlankRow(row) {
        assert Content([row]) == [] && scrollback + [] == scrollback;
      } else {
        assert Content([row]) == [row];
        scrollbackCells := scrollbackCells + |row|;
        scrollback := scrollback + [row];
        events.MarkScrollbackLineAdded();
      }
    }

    method PushDisplaced(displaced: seq<Row>)
      requires Valid() && WF(View())
      modifies `scrollback, `scrollbackCells, events
      ensures Valid() && View() == TermSpec.PushDisplaced(old(View()), displaced)
    {
      hide Flatten, Rect;
      assert scrollback + [] == scrollback;
      for i := 0 to |displaced|
        invariant Valid() && View() == TermSpec.PushDisplaced(old(View()), displaced[..i])
      {
        PushSnoc(old(View()), displaced[..i], displaced[i]);
        PushRow(displaced[i]);
        assert displaced[..i] + [displaced[i]] == displaced[..i + 1];
      }
      assert displaced[..|displaced|] == displaced;
    }

    method ScrollUpScreen(count: nat)
      requires Valid() && WF(View())
      modifies Footprint()
      ensures Valid() && Footprint() == old(Footprint())
      ensures View() == TermSpec.ScrollUpScreen(old(View()), count)
    {
      var fullScreen := top == 0 && bottom + 1 == rows;
      var displaced := ActiveScreen().ScrollUp(count, top, bottom, pen);
      if fullScreen && !onAlternate {
        PushDisplaced(displaced);
      }
    }

    // ---- printing and cursor motion -----------------------------------

    method LineFeed()
      requires Valid() && WF(View())
      modifies Footprint()
      ensures Valid() && Footprint() == old(Footprint())
      ensures View() == TermSpec.LineFeed(old(View()))
    {
      wrapPending := false;
      if cursor.row == bottom {
        ScrollUpScreen(1);
      } else if cursor.row + 1 < rows {
        cursor := Position(cursor.row + 1, cursor.col);
      }
    }

    method CarriageReturn()
      requires Valid() && WF(View())
      modifies Footprint()
      ensures Valid() && Footprint() == old(Footprint())
      ensures View() == TermSpec.CarriageReturn(old(View()))
    {
      MoveCursor(Position(cursor.row, 0));
    }

    method TakeWrap()
      requires Valid() && WF(View())
      modifies Footprint()
      ensures Valid() && Footprint() == old(Footprint())
      ensures View() == TermSpec.WrapPending(old(View()))
    {
      if wrapPending {
        wrapPending := false;
        if modes.autowrap {
          CarriageReturn();
          LineFeed();
        }
      }
    }

    method MakeRoom(w: nat)
      requires Valid() && WF(View())
      modifies Footprint()
      ensures Valid() && Footprint() == old(Footprint())
      ensures View() == TermSpec.MakeRoom(old(View()), w)
    {
      if cursor.col + w > cols {
        if modes.autowrap {
          CarriageReturn();
          LineFeed();
        } else {
          cursor := Position(cursor.row, cols - 1);
        }
      }
    }

    method PutGlyph(ch: char, w: nat)
      requires Valid() && WF(View()) && 1 <= w <= 2 && cursor.col + w <= cols
      modifies Footprint()
      ensures Valid() && Footprint() == old(Footprint())
      ensures View() == TermSpec.PutGlyph(old(View()), ch, w)
    {
      ActiveScreen().PutGlyph(cursor.row, cursor.col, ch, w, pen);
    }

    method Advance(w: nat)
      requires Valid() && WF(View()) && 1 <= w <= 2
      modifies Footprint()
      ensures Valid() && Footprint() == old(Footprint())
      ensures View() == TermSpec.Advance(old(View()), w)
    {
      var next := cursor.col + w;
      if next >= cols {
        cursor := Position(cursor.row, cols - 1);
        wrapPending := modes.autowrap;
      } else {
        cursor := Position(cursor.row, next);
        wrapPending := false;
      }
    }

    method PutChar(ch: char, w: nat)
      requires Valid() && WF(View()) && 1 <= w <= 2 && cursor.col + w <= cols
      modifies Footprint()
      ensures Valid() && Footprint() == old(Footprint())
      ensures View() == TermSpec.PutChar(old(View()), ch, w)
    {
      if modes.insert {
        InsertColumns(w);
      }
      PutGlyph(ch, w);
      Advance(w);
    }

    method PrintChar(ch: char, width: Option<nat>)
      requires Valid() && WF(View())
      modifies Footprint()
      ensures Valid() && Footprint() == old(Footprint())
      ensures View() == TermSpec.PrintChar(old(View()), ch, width)
    {
      var w := DisplayWidth(width);
      if w == 0 {
        return;
      }
      TakeWrap();
      MakeRoom(w);
      if cursor.col + w > cols {
        return;
      }
      PutChar(ch, w);
    }

    method Backspace()
      requires Valid() && WF(View())
      modifies Footprint()
      ensures Valid() && Footprint() == old(Footprint())
      ensures View() == TermSpec.Backspace(old(View()))
    {
      wrapPending := false;
      cursor := Position(cursor.row, SatSub(cursor.col, 1));
    }

    method HorizontalTab()
      requires Valid() && WF(View())
      modifies Footprint()
      ensures Valid() && Footprint() == old(Footprint())
      ensures View() == TermSpec.HorizontalTab(old(View()))
    {
      var next := (cursor.col / 8 * 8 + 8) % 0x1_0000;
      MoveCursor(Position(cursor.row, Min(next, cols - 1)));
    }

    method ReverseIndex()
      requires Valid() && WF(View())
      modifies Footprint()
      ensures Valid() && Footprint() == old(Footprint())
      ensures View() == TermSpec.ReverseIndex(old(View()))
    {
      wrapPending := false;
      if cursor.row == top {
        ScrollDown(1);
      } else if cursor.row > 0 {
        cursor := Position(cursor.row - 1, cursor.col);
      }
    }

    method RepairCursorCell()
      requires Valid() && WF(View())
      modifies Footprint()
      ensures Valid() && Footprint() == old(Footprint())
      ensures View() == TermSpec.RepairCursorCell(old(View()))
    {
      var cell := ActiveScreen().Get(cursor.row, cursor.col);
      if cell.Some? && cell.value.width == 0 && cursor.col > 0 {
        cursor := Position(cursor.row, cursor.col - 1);
      }
    }

    method SaveCursor()
      requires Valid() && WF(View())
      modifies Footprint()
      ensures Valid() && Footprint() == old(Footprint())
      ensures View() == TermSpec.SaveCursor(old(View()))
    {
      saved := SavedCursor(cursor, pen, wrapPending, modes.origin);
    }

    function OriginBounds(): (bounds: (u16, u16))
      reads this
    {
      if modes.origin then (top, bottom) else (0, rows - 1)
    }

    method LoadSaved()
      requires Valid() && WF(View())
      modifies Footprint()
      ensures Valid() && Footprint() == old(Footprint())
      ensures View() == TermSpec.LoadSaved(old(View()))
    {
      hide Flatten, Rect;
      pen, wrapPending := saved.pen, saved.wrapPending;
      modes := modes.(origin := saved.origin);
    }

    method PlaceSaved()
      requires Valid() && WF(View())
      modifies Footprint()
      ensures Valid() && Footprint() == old(Footprint())
      ensures View() == TermSpec.PlaceSaved(old(View()))
    {
      var bounds := OriginBounds();
      cursor := Position(Clamp(saved.cursor.row, bounds.0, bounds.1), Min(saved.cursor.col, cols - 1));
    }

    method RestoreCursor()
      requires Valid() && WF(View())
      modifies Footprint()
      ensures Valid() && Footprint() == old(Footprint())
      ensures View() == TermSpec.RestoreCursor(old(View()))
    {
      LoadSaved();
      PlaceSaved();
      RepairCursorCell();
    }

    method CursorUp(n: u16)
      requires Valid() && WF(View())
      modifies Footprint()
      ensures Valid() && Footprint() == old(Footprint())
      ensures View() == TermSpec.CursorUp(old(View()), n)
    {
      wrapPending := false;
      cursor := Position(Max(SatSub(cursor.row, n), OriginBounds().0), cursor.col);
    }

    method CursorDown(n: u16)
      requires Valid() && WF(View())
      modifies Footprint()
      ensures Valid() && Footprint() == old(Footprint())
      ensures View() == TermSpec.CursorDown(old(View()), n)
    {
      wrapPending := false;
      cursor := Position(Min(SatAdd16(cursor.row, n), OriginBounds().1), cursor.col);
    }

    method CursorForward(n: u16)
      requires Valid() && WF(View())
      modifies Footprint()
      ensures Valid() && Footprint() == old(Footprint())
      ensures View() == TermSpec.CursorForward(old(View()), n)
    {
      wrapPending := false;
      cursor := Position(cursor.row, Min(SatAdd16(cursor.col, n), cols - 1));
    }

    method CursorBackward(n: u16)
      requires Valid() && WF(View())
      modifies Footprint()
      ensures Valid() && Footprint() == old(Footprint())
      ensures View() == TermSpec.CursorBackward(old(View()), n)
    {
      wrapPending := false;
      cursor := Position(cursor.row, SatSub(cursor.col, n));
    }

    method SetCol(col: u16)
      requires Valid() && WF(View())
      modifies Footprint()
      ensures Valid() && Footprint() == old(Footprint())
      ensures View() == TermSpec.SetCol(old(View()), col)
    {
      wrapPending := false;
      cursor := Position(cursor.row, Min(SatSub(col, 1), cols - 1));
    }

    method SetRow(row: u16)
      requires Valid() && WF(View())
      modifies Footprint()
      ensures Valid() && Footprint() == old(Footprint())
      ensures View() == TermSpec.SetRow(old(View()), row)
    {
      var bounds := OriginBounds();
      var target := (SatSub(row, 1) + bounds.0) % 0x1_0000;
      MoveCursor(Position(Clamp(target, bounds.0, bounds.1), cursor.col));
    }

    method SetPosition(row: u16, col: u16)
      requires Valid() && WF(View())
      modifies Footprint()
      ensures Valid() && Footprint() == old(Footprint())
      ensures View() == TermSpec.SetPosition(old(View()), row, col)
    {
      var bounds := OriginBounds();
      var target := (SatSub(row, 1) + bounds.0) % 0x1_0000;
      MoveCursor(Position(Clamp(target, bounds.0, bounds.1), Min(SatSub(col, 1), cols - 1)));
    }

    // ---- control sequences --------------------------------------------

    method EraseDisplay(mode: u16)
      requires Valid() && WF(View())
      modifies Footprint()
      ensures Valid() && Footprint() == old(Footprint())
      ensures View() == TermSpec.EraseDisplay(old(View()), mode)
    {
      if mode == 0 {
        EraseCells(cursor.row, cursor.col, cols);
        EraseRows(SatAdd16(cursor.row, 1), rows);
      } else if mode == 1 {
        EraseRows(0, cursor.row);
        EraseCells(cursor.row, 0, SatAdd16(cursor.col, 1));
      } else if mode == 2 {
        EraseRows(0, rows);
      } else if mode == 3 {
        ClearHistory();
      }
    }

    method EraseLine(mode: u16)
      requires Valid() && WF(View())
      modifies Footprint()
      ensures Valid() && Footprint() == old(Footprint())
      ensures View() == TermSpec.EraseLine(old(View()), mode)
    {
      if mode == 0 {
        EraseCells(cursor.row, cursor.col, cols);
      } else if mode == 1 {
        EraseCells(cursor.row, 0, SatAdd16(cursor.col, 1));
      } else if mode == 2 {
        EraseCells(cursor.row, 0, cols);
      }
    }

    method SetScrollRegion(params: seq<seq<u16>>)
      requires Valid() && WF(View())
      modifies Footprint()
      ensures Valid() && Footprint() == old(Footprint())
      ensures View() == TermSpec.SetScrollRegion(old(View()), params)
    {
      var region := NewRegion(rows, params, top, bottom);
      SetRegion(region.0, region.1);
      MoveCursor(if modes.origin then Position(region.0, 0) else ORIGIN);
    }

    method EnterAlternate()
      requires Valid() && WF(View())
      modifies Footprint()
      ensures Valid() && Footprint() == old(Footprint())
      ensures View() == TermSpec.EnterAlternate(old(View()))
    {
      if !onAlternate {
        SaveCursor();
        onAlternate := true;
      }
    }

    method ClearAlternate()
      requires Valid() && WF(View())
      modifies Footprint()
      ensures Valid() && Footprint() == old(Footprint())
      ensures View() == TermSpec.ClearAlternate(old(View()))
    {
      alternate.ClearAll(DEFAULT_STYLE);
      MoveCursor(ORIGIN);
      SetRegion(0, rows - 1);
    }

    method SetAlternate(enable: bool, clearOnEnter: bool)
      requires Valid() && WF(View())
      modifies Footprint()
      ensures Valid() && Footprint() == old(Footprint())
      ensures View() == TermSpec.SetAlternate(old(View()), enable, clearOnEnter)
    {
      if enable {
        EnterAlternate();
        if clearOnEnter {
          ClearAlternate();
        }
      } else if onAlternate {
        onAlternate := false;
        RestoreCursor();
      }
    }

    method SetMode(param: u16, private: bool, enable: bool)
      requires Valid() && WF(View())
      modifies Footprint()
      ensures Valid() && Footprint() == old(Footprint())
      ensures View() == TermSpec.SetMode(old(View()), param, private, enable)
    {
      if private {
        if param == 6 {
          modes := modes.(origin := enable);
          SetPosition(1, 1);
        } else if param == 47 || param == 1047 {
          SetAlternate(enable, false);
        } else if param == 1049 {
          SetAlternate(enable, true);
        } else {
          modes := FlagMode(modes, param, enable);
        }
      } else if param == 4 {
        modes := modes.(insert := enable);
      }
    }

    method SetModes(params: seq<u16>, private: bool, enable: bool)
      requires Valid() && WF(View())
      modifies Footprint()
      ensures Valid() && Footprint() == old(Footprint())
      ensures View() == TermSpec.SetModes(old(View()), params, private, enable)
    {
      for i := 0 to |params|
        invariant Valid() && WF(View()) && Footprint() == old(Footprint())
        invariant TermSpec.SetModes(View(), params[i..], private, enable)
          == TermSpec.SetModes(old(View()), params, private, enable)
      {
        assert params[i..][1..] == params[i + 1..];
        SetMode(params[i], private, enable);
      }
    }

    method DeviceStatus(params: seq<seq<u16>>, private: bool)
      requires Valid() && WF(View())
      modifies Footprint()
      ensures Valid() && Footprint() == old(Footprint())
      ensures View() == TermSpec.DeviceStatus(old(View()), params, private)
    {
      if private {
        return;
      }
      var query := ParamOr(params, 0, 0);
      if query == 5 {
        replies.Push([Colors.ESC, 91, 48, 110]);
      } else if query == 6 {
        replies.Push(CursorReport(cursor.row, cursor.col));
      } else {
        assert replies.Pending() + [] == replies.Pending();
      }
    }

    /** The first column; a pending wrap stays. */
    method ColumnZero()
      requires Valid() && WF(View())
      modifies `cursor
      ensures Valid() && View() == ToColumnZero(old(View()))
    {
      cursor := Position(cursor.row, 0);
    }

    method CsiMove(action: char, n: u16, m: u16)
      requires Valid() && WF(View())
      modifies Footprint()
      ensures Valid() && Footprint() == old(Footprint())
      ensures View() == TermSpec.CsiMove(old(View()), action, n, m)
    {
      hide Flatten, Rect;
      match action
      case 'A' => CursorUp(n);
      case 'B' => CursorDown(n);
      case 'C' => CursorForward(n);
      case 'D' => CursorBackward(n);
      case 'E' =>
        CursorDown(n);
        ColumnZero();
      case 'F' =>
        CursorUp(n);
        ColumnZero();
      case 'G' => SetCol(n);
      case '`' => SetCol(n);
      case 'H' => SetPosition(n, m);
      case 'f' => SetPosition(n, m);
      case _ => SetRow(n);
    }

    method CsiEdit(action: char, n: u16, mode: u16)
      requires Valid() && WF(View())
      modifies Footprint()
      ensures Valid() && Footprint() == old(Footprint())
      ensures View() == TermSpec.CsiEdit(old(View()), action, n, mode)
    {
      match action
      case 'J' => EraseDisplay(mode);
      case 'K' => EraseLine(mode);
      case 'L' => InsertLines(n);
      case 'M' => DeleteLines(n);
      case '@' => InsertColumns(n);
      case 'P' => DeleteColumns(n);
      case 'X' => EraseCells(cursor.row, cursor.col, SatAdd16(cursor.col, n));
      case 'S' => ScrollUpScreen(n);
      case _ => ScrollDown(n);
    }

    method CsiMode(params: seq<seq<u16>>, private: bool, plain: bool, action: char)
      requires Valid() && WF(View())
      modifies Footprint()
      ensures Valid() && Footprint() == old(Footprint())
      ensures View() == TermSpec.CsiMode(old(View()), params, private, plain, action)
    {
      hide TermSpec.SetScrollRegion, TermSpec.SetModes, TermSpec.DeviceStatus, TermSpec.SaveCursor,
        TermSpec.RestoreCursor;
      var values := Flattened(params);
      match action
      case 'r' =>
        if !private {
          SetScrollRegion(params);
        }
      case 'm' =>
        if !private {
          pen := Sgr.HandleSgr(pen, values);
        }
      case 'h' => SetModes(values, private, true);
      case 'l' => SetModes(values, private, false);
      case 'n' => DeviceStatus(params, private);
      case 'c' =>
        if plain {
          replies.Push(PRIMARY_DA);
        }
      case 's' =>
        if !private {
          SaveCursor();
        }
      case 'u' =>
        if !private {
          RestoreCursor();
        }
      case _ =>
    }

    method HandleCsi(params: seq<seq<u16>>, intermediates: seq<u8>, action: char)
      requires Valid() && WF(View())
      modifies Footprint()
      ensures Valid() && Footprint() == old(Footprint())
      ensures View() == TermSpec.HandleCsi(old(View()), params, intermediates, action)
    {
      if MovesCursor(action) {
        CsiMove(action, ParamOr(params, 0, 1), ParamOr(params, 1, 1));
      } else if EditsScreen(action) {
        CsiEdit(action, ParamOr(params, 0, 1), ParamOr(params, 0, 0));
      } else {
        CsiMode(params, |intermediates| > 0 && intermediates[0] == 63, intermediates == [], action);
      }
    }

    // ---- C0, escapes and operating-system commands --------------------

    method PushRequests(requests: seq<Colors.ChildRequest>)
      requires Valid() && WF(View())
      modifies Footprint()
      ensures Valid() && Footprint() == old(Footprint())
      ensures View() == TermSpec.PushRequests(old(View()), requests)
    {
      hide Flatten, Rect;
      assert events.payload + [] == events.payload;
      for i := 0 to |requests|
        invariant Valid() && Footprint() == old(Footprint())
        invariant View() == TermSpec.PushRequests(old(View()), requests[..i])
      {
        events.Push(RequestReceived(requests[i]));
        RequestSnoc(old(View()), requests, i);
      }
      assert requests[..|requests|] == requests;
    }

    method HandleExecute(byte: u8)
      requires Valid() && WF(View())
      modifies Footprint()
      ensures Valid() && Footprint() == old(Footprint())
      ensures View() == TermSpec.HandleExecute(old(View()), byte)
    {
      if byte == 0x08 {
        Backspace();
      } else if byte == 0x09 {
        HorizontalTab();
      } else if 0x0a <= byte <= 0x0c {
        LineFeed();
      } else if byte == 0x0d {
        CarriageReturn();
      } else if byte == 0x07 {
        PushRequests([Colors.RingBell]);
      }
    }

    method ReplacePrimary()
      requires Valid() && WF(View())
      modifies Footprint()
      ensures Valid() && fresh(Footprint() - old(Footprint()))
      ensures View() == TermSpec.ReplacePrimary(old(View()))
    {
      hide Flatten, Rect, BlankRows, AllPaired, NoWideEdge;
      primary := new Screen(rows, cols);
      primary.MarkDirty();
      onAlternate := false;
    }

    method ReplaceAlternate()
      requires Valid() && WF(View())
      modifies Footprint()
      ensures Valid() && fresh(Footprint() - old(Footprint()))
      ensures View() == TermSpec.ReplaceAlternate(old(View()))
    {
      alternate := new Screen(rows, cols);
    }

    method ResetCursor()
      requires Valid() && WF(View())
      modifies Footprint()
      ensures Valid() && Footprint() == old(Footprint())
      ensures View() == TermSpec.ResetCursor(old(View()))
    {
      hide Flatten, Rect;
      cursor, saved, wrapPending := ORIGIN, DEFAULT_SAVED, false;
    }

    method ResetRegion()
      requires Valid() && WF(View())
      modifies Footprint()
      ensures Valid() && Footprint() == old(Footprint())
      ensures View() == TermSpec.ResetRegion(old(View()))
    {
      SetRegion(0, rows - 1);
    }

    method ResetModes()
      requires Valid() && WF(View())
      modifies Footprint()
      ensures Valid() && Footprint() == old(Footprint())
      ensures View() == TermSpec.ResetModes(old(View()))
    {
      hide Flatten, Rect;
      pen, modes, title := DEFAULT_STYLE, DEFAULT_MODES, [];
    }

    method ClearHistory()
      requires Valid() && WF(View())
      modifies Footprint()
      ensures Valid() && Footprint() == old(Footprint())
      ensures View() == TermSpec.ClearHistory(old(View()))
    {
      scrollback, scrollbackCells := [], 0;
    }

    method ReportReset()
      requires Valid() && WF(View())
      modifies Footprint()
      ensures Valid() && Footprint() == old(Footprint())
      ensures View() == TermSpec.ReportReset(old(View()))
    {
      events.ClearRequests();
      events.MarkTerminalReset();
    }

    method ReplaceScreens()
      requires Valid() && WF(View())
      modifies Footprint()
      ensures Valid() && fresh(Footprint() - old(Footprint()))
      ensures View() == TermSpec.ReplaceAlternate(TermSpec.ReplacePrimary(old(View())))
    {
      hide Flatten, Rect;
      ReplacePrimary();
      ReplaceAlternate();
    }

    method ResetSettings()
      requires Valid() && WF(View())
      modifies Footprint()
      ensures Valid() && Footprint() == old(Footprint())
      ensures View() == TermSpec.ResetModes(TermSpec.ResetRegion(TermSpec.ResetCursor(old(View()))))
    {
      ResetCursor();
      ResetRegion();
      ResetModes();
    }

    method ResetChildState()
      requires Valid() && WF(View())
      modifies Footprint()
      ensures Valid() && fresh(Footprint() - old(Footprint()))
      ensures View() == TermSpec.ResetChildState(old(View()))
    {
      ReplaceScreens();
      ResetSettings();
      ClearHistory();
      ReportReset();
    }

    method HandleEsc(final: u8)
      requires Valid() && WF(View())
      modifies Footprint()
      ensures Valid() && fresh(Footprint() - old(Footprint()))
      ensures View() == TermSpec.HandleEsc(old(View()), final)
    {
      if final == 55 {
        SaveCursor();
      } else if final == 56 {
        RestoreCursor();
      } else if final == 68 {
        LineFeed();
      } else if final == 69 {
        CarriageReturn();
        LineFeed();
      } else if final == 77 {
        ReverseIndex();
      } else if final == 99 {
        ResetChildState();
      }
    }

    method SetHyperlink(url: seq<u8>)
      requires Valid() && WF(View())
      modifies Footprint()
      ensures Valid() && Footprint() == old(Footprint())
      ensures View() == TermSpec.SetHyperlink(old(View()), url)
    {
      hide Flatten, Rect;
      if url == [] {
        pen := pen.(hyperlink := None);
        return;
      }
      var id := nextLink;
      nextLink := NextLink(id);
      events.Push(HyperlinkAdded(id, url));
      pen := pen.(hyperlink := Some(id));
    }

    method OscClipboard(fields: seq<seq<u8>>)
      requires Valid() && WF(View())
      modifies Footprint()
      ensures Valid() && Footprint() == old(Footprint())
      ensures View() == TermSpec.PushRequests(old(View()), ClipboardRequests(fields))
    {
      var payload := if |fields| < 3 then [] else fields[2];
      if payload == Colors.QUESTION {
        PushRequests([Colors.GetClipboard(Selection(fields))]);
        return;
      }
      var append := |payload| > 0 && payload[0] == Colors.PLUS;
      var text := Base64.Decode(if append then payload[1..] else payload);
      match text
      case Some(bytes) => PushRequests([Colors.SetClipboard(bytes, Selection(fields), append)]);
      case None => PushRequests([]);
    }

    method OscPalette(fields: seq<seq<u8>>)
      requires Valid() && WF(View())
      modifies Footprint()
      ensures Valid() && Footprint() == old(Footprint())
      ensures View() == TermSpec.PushRequests(old(View()), Colors.PaletteRequests(fields))
    {
      var requests := PaletteLoop(fields);
      PushRequests(requests);
    }

    method HandleOsc(fields: seq<seq<u8>>)
      requires Valid() && WF(View())
      modifies Footprint()
      ensures Valid() && Footprint() == old(Footprint())
      ensures View() == TermSpec.HandleOsc(old(View()), fields)
    {
      hide Flatten, Rect;
      if fields == [] {
        return;
      }
      var id := fields[0];
      if id == [48] || id == [50] {
        title := if |fields| < 2 then [] else fields[1];
        events.MarkTitleUpdated();
      } else if id == [53, 50] {
        OscClipboard(fields);
      } else if id == [52] {
        OscPalette(fields[1..]);
      } else if IsColorId(id) {
        PushRequests(Colors.ColorRequests(fields));
      } else if id == [56] {
        SetHyperlink(if |fields| < 3 then [] else fields[2]);
      } else {
        PushRequests([Colors.OtherOsc(id, fields[1..])]);
      }
    }

    // ---- whole feeds, resize and trim ---------------------------------

    method Perform(a: Action)
      requires Valid() && WF(View())
      modifies Footprint()
      ensures Valid() && fresh(Footprint() - old(Footprint()))
      ensures View() == TermSpec.Apply(old(View()), a)
    {
      hide TermSpec.PrintChar, TermSpec.HandleExecute, TermSpec.HandleEsc, TermSpec.HandleCsi, TermSpec.HandleOsc;
      match a
      case Print(ch, width) => PrintChar(ch, width);
      case Execute(byte) => HandleExecute(byte);
      case Esc(intermediates, ignored, final) =>
        if !ignored && intermediates == [] {
          HandleEsc(final);
        }
      case Csi(params, intermediates, ignored, action) =>
        if !ignored {
          HandleCsi(params, intermediates, action);
        }
      case Osc(fields) => HandleOsc(fields);
    }

    /** The tokenizer hands over the actions of a feed one after another. */
    method PerformAll(actions: seq<Action>)
      requires Valid() && WF(View())
      modifies Footprint()
      ensures Valid() && fresh(Footprint() - old(Footprint()))
      ensures View() == ApplyAll(old(View()), actions)
      decreases |actions|
    {
      hide Apply, Flatten, Rect, Answered, HistoryKept, Plain, CellCount, AllPaired;
      if actions == [] {
        return;
      }
      Perform(actions[0]);
      PerformAll(actions[1..]);
    }

    method Report(before: Scalars)
      requires Valid() && WF(View())
      modifies Footprint()
      ensures Valid() && Footprint() == old(Footprint())
      ensures View() == TermSpec.Report(old(View()), before)
    {
      var primaryDirty := primary.TakeDirty();
      var after := Scalars(rows, cols, onAlternate, cursor, wrapPending, pen, modes);
      if primaryDirty || after != before {
        events.MarkScreenUpdated();
      }
    }

    method Feed(actions: seq<Action>)
      requires Valid() && WF(View())
      modifies Footprint()
      ensures Valid() && fresh(Footprint() - old(Footprint()))
      ensures View() == TermSpec.Feed(old(View()), actions)
    {
      var before := Scalars(rows, cols, onAlternate, cursor, wrapPending, pen, modes);
      PerformAll(actions);
      Report(before);
    }

    method SetGeometry(newRows: NonZeroU16, newCols: NonZeroU16, shift: nat)
      requires replies.Valid()
      modifies `rows, `cols, `top, `bottom, `cursor, `wrapPending
      ensures View() == Geometry(old(View()), newRows, newCols, shift)
    {
      rows := newRows;
      cols := newCols;
      SetRegion(0, newRows - 1);
      MoveCursor(Position(Min(SatSub(cursor.row, shift), newRows - 1), Min(cursor.col, newCols - 1)));
    }

    /** Resizes both screens; returns what left the primary one and how far the active one moved up. */
    method ResizeScreens(newRows: NonZeroU16, newCols: NonZeroU16) returns (dropped: seq<Row>, shift: nat)
      requires Valid()
      modifies primary, alternate
      ensures primary.Valid() && alternate.Valid() && primary.cells != alternate.cells
      ensures fresh({primary.cells, alternate.cells} - old({primary.cells, alternate.cells}))
      ensures primary.rows == alternate.rows == newRows && primary.cols == alternate.cols == newCols
      ensures primary.View() == S.Resize(old(primary.View()), cols, newRows, newCols)
      ensures alternate.View() == S.Resize(old(alternate.View()), cols, newRows, newCols)
      ensures dropped == S.ResizeDropped(old(primary.View()), cols, newRows, newCols)
      ensures shift == ShiftOf(old(if onAlternate then alternate.View() else primary.View()), cols, newRows, newCols)
    {
      var left := primary.Resize(newRows, newCols);
      var altLeft := alternate.Resize(newRows, newCols);
      dropped, shift := left.rows, if onAlternate then altLeft.rowShift else left.rowShift;
    }

    /** Lays out both screens and moves the cursor with the active one. */
    method LayOut(newRows: NonZeroU16, newCols: NonZeroU16) returns (dropped: seq<Row>)
      requires Valid() && WF(View())
      modifies Footprint()
      ensures Valid() && fresh(Footprint() - old(Footprint()))
      ensures View() == TermSpec.LaidOut(old(View()), newRows, newCols)
      ensures dropped == S.ResizeDropped(old(primary.View()), old(cols), newRows, newCols)
    {
      var shift;
      dropped, shift := ResizeScreens(newRows, newCols);
      SetGeometry(newRows, newCols, shift);
    }

    method MarkResized()
      requires Valid() && WF(View())
      modifies Footprint()
      ensures Valid() && Footprint() == old(Footprint())
      ensures View() == MarkScreenUpdated(TakeDirty(old(View())))
    {
      var _ := primary.TakeDirty();
      events.MarkScreenUpdated();
    }

    method Resize(newRows: NonZeroU16, newCols: NonZeroU16)
      requires Valid() && WF(View())
      modifies Footprint()
      ensures Valid() && fresh(Footprint() - old(Footprint()))
      ensures View() == TermSpec.Resize(old(View()), newRows, newCols)
    {
      hide Flatten, Rect, AllPaired, NoWideEdge, S.Resize, S.ResizeDropped;
      if newRows == rows && newCols == cols {
        return;
      }
      var dropped := LayOut(newRows, newCols);
      if !onAlternate {
        PushDisplaced(dropped);
      }
      RepairCursorCell();
      MarkResized();
    }

    method TrimScrollback(maxLines: nat, maxCells: nat)
      requires Valid() && WF(View())
      modifies Footprint()
      ensures Valid() && Footprint() == old(Footprint())
      ensures View() == TermSpec.TrimScrollback(old(View()), maxLines, maxCells)
    {
      var lines, count := Trim(scrollback, scrollbackCells, maxLines, maxCells);
      scrollback, scrollbackCells := lines, count;
    }

    method AdvanceReplyBytes(n: nat)
      requires Valid() && WF(View()) && n <= |replies.Pending()|
      modifies Footprint()
      ensures Valid() && Footprint() == old(Footprint())
      ensures View() == old(View()).(replies := old(replies.Pending())[n..])
    {
      replies.Advance(n);
    }

    method DequeueEvent() returns (event: Option<Event>)
      requires Valid() && WF(View())
      modifies Footprint()
      ensures Valid() && Footprint() == old(Footprint())
      ensures (event, events.View()) == Next(old(events.View()))
      ensures View() == old(View()).(events := events.View())
    {
      event := events.Dequeue();
    }
  }
}
