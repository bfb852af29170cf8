/** No operation depends on the two marks a feed handles. */
module MarkLaws {
  import opened TerminalTypes
  import opened Grid
  import opened TermSpec
  import Colors
  import S = ScreenSpec

  /** The terminal without the marks of an unreported and a reported update. */
  function Unmarked(t: Term): Term {
    t.(primary := t.primary.(dirty := false), events := t.events.(screenUpdated := false))
  }

  /** Equal in everything but those marks. */
  ghost predicate Same(t: Term, u: Term) {
    WF(t) && WF(u) && Unmarked(t) == Unmarked(u)
  }

  lemma SameSteps(t: Term, u: Term, n: u16)
    requires Same(t, u)
    ensures Same(Backspace(t), Backspace(u)) && Same(HorizontalTab(t), HorizontalTab(u))
    ensures Same(CursorUp(t, n), CursorUp(u, n)) && Same(CursorDown(t, n), CursorDown(u, n))
    ensures Same(CursorForward(t, n), CursorForward(u, n)) && Same(CursorBackward(t, n), CursorBackward(u, n))
  {
  }

  lemma SamePlaces(t: Term, u: Term, n: u16, m: u16)
    requires Same(t, u)
    ensures Same(SetCol(t, n), SetCol(u, n)) && Same(SetRow(t, n), SetRow(u, n))
    ensures Same(SetPosition(t, n, m), SetPosition(u, n, m))
    ensures Same(CarriageReturn(t), CarriageReturn(u)) && Same(SaveCursor(t), SaveCursor(u))
  {
  }

  lemma SameSpans(t: Term, u: Term, row: nat, from: nat, to: nat)
    requires Same(t, u)
    ensures Same(EraseCells(t, row, from, to), EraseCells(u, row, from, to))
    ensures Same(EraseRows(t, from, to), EraseRows(u, from, to))
  {
  }

  lemma SameScrollDown(t: Term, u: Term, n: nat)
    requires Same(t, u)
    ensures Same(ScrollDown(t, n), ScrollDown(u, n))
  {
    hide InsertRows, EraseRowSpan;
  }

  lemma SameColumns(t: Term, u: Term, n: nat)
    requires Same(t, u)
    ensures Same(InsertColumns(t, n), InsertColumns(u, n)) && Same(DeleteColumns(t, n), DeleteColumns(u, n))
  {
    hide InsertCells, DeleteCells, AllPaired, Rect;
  }

  lemma SameLines(t: Term, u: Term, n: nat)
    requires Same(t, u)
    ensures Same(InsertLines(t, n), InsertLines(u, n)) && Same(DeleteLines(t, n), DeleteLines(u, n))
  {
    hide InsertRows, DeleteRows, BlankRow;
  }

  lemma SameScrolled(t: Term, u: Term, n: nat)
    requires Same(t, u)
    ensures Same(
      WithActive(t, S.ScrollUp(Active(t), t.cols, n, t.top, t.bottom, t.pen)),
      WithActive(u, S.ScrollUp(Active(u), u.cols, n, u.top, u.bottom, u.pen)))
    ensures S.Displaced(Active(t), n, t.top, t.bottom) == S.Displaced(Active(u), n, u.top, u.bottom)
  {
    hide DeleteRows, EraseRowSpan;
  }

  lemma SameScroll(t: Term, u: Term, n: nat)
    requires Same(t, u)
    ensures Same(ScrollUpScreen(t, n), ScrollUpScreen(u, n))
  {
    SameScrolled(t, u, n);
  }

  lemma SameLineFeed(t: Term, u: Term)
    requires Same(t, u)
    ensures Same(LineFeed(t), LineFeed(u))
  {
    SameScroll(t.(wrapPending := false), u.(wrapPending := false), 1);
  }

  lemma SameNextLine(t: Term, u: Term)
    requires Same(t, u)
    ensures Same(LineFeed(CarriageReturn(t)), LineFeed(CarriageReturn(u)))
  {
    SameLineFeed(CarriageReturn(t), CarriageReturn(u));
  }

  lemma SameReverseIndex(t: Term, u: Term)
    requires Same(t, u)
    ensures Same(ReverseIndex(t), ReverseIndex(u))
  {
    SameScrollDown(t.(wrapPending := false), u.(wrapPending := false), 1);
  }

  lemma SameRepair(t: Term, u: Term)
    requires Same(t, u)
    ensures Same(RepairCursorCell(t), RepairCursorCell(u))
  {
  }

  lemma SameRestore(t: Term, u: Term)
    requires Same(t, u)
    ensures Same(RestoreCursor(t), RestoreCursor(u))
  {
    SameRepair(PlaceSaved(LoadSaved(t)), PlaceSaved(LoadSaved(u)));
  }

  lemma SameGlyph(t: Term, u: Term, ch: char, w: nat)
    requires Same(t, u) && 1 <= w <= 2 && t.cursor.col + w <= t.cols
    ensures Same(Advance(PutGlyph(t, ch, w), w), Advance(PutGlyph(u, ch, w), w))
  {
  }

  lemma SamePut(t: Term, u: Term, ch: char, w: nat)
    requires Same(t, u) && 1 <= w <= 2 && t.cursor.col + w <= t.cols
    ensures Same(PutChar(t, ch, w), PutChar(u, ch, w))
  {
    if t.modes.insert {
      SameColumns(t, u, w);
      SameGlyph(InsertColumns(t, w), InsertColumns(u, w), ch, w);
    } else {
      SameGlyph(t, u, ch, w);
    }
  }

  lemma SameWrap(t: Term, u: Term)
    requires Same(t, u)
    ensures Same(WrapPending(t), WrapPending(u))
  {
    SameNextLine(t.(wrapPending := false), u.(wrapPending := false));
  }

  lemma SameRoom(t: Term, u: Term, w: nat)
    requires Same(t, u)
    ensures Same(MakeRoom(t, w), MakeRoom(u, w))
  {
    SameNextLine(t, u);
  }

  lemma SamePrint(t: Term, u: Term, ch: char, width: Option<nat>)
    requires Same(t, u)
    ensures Same(PrintChar(t, ch, width), PrintChar(u, ch, width))
  {
    var w := DisplayWidth(width);
    if w > 0 {
      SameWrap(t, u);
      SameRoom(WrapPending(t), WrapPending(u), w);
      var t1, u1 := MakeRoom(WrapPending(t), w), MakeRoom(WrapPending(u), w);
      if t1.cursor.col + w <= t1.cols {
        SamePut(t1, u1, ch, w);
      }
    }
  }

  lemma SameEraseDisplay(t: Term, u: Term, mode: u16)
    requires Same(t, u)
    ensures Same(EraseDisplay(t, mode), EraseDisplay(u, mode))
  {
    var row, col := t.cursor.row, t.cursor.col;
    if mode == 0 {
      SameSpans(t, u, row, col, t.cols);
      SameSpans(EraseCells(t, row, col, t.cols), EraseCells(u, row, col, t.cols), 0, SatAdd16(row, 1), t.rows);
    } else if mode == 1 {
      SameSpans(t, u, 0, 0, row);
      SameSpans(EraseRows(t, 0, row), EraseRows(u, 0, row), row, 0, SatAdd16(col, 1));
    } else if mode == 2 {
      SameSpans(t, u, 0, 0, t.rows);
    }
  }

  lemma SameEraseLine(t: Term, u: Term, mode: u16)
    requires Same(t, u)
    ensures Same(EraseLine(t, mode), EraseLine(u, mode))
  {
    if mode == 0 {
      SameSpans(t, u, t.cursor.row, t.cursor.col, t.cols);
    } else if mode == 1 {
      SameSpans(t, u, t.cursor.row, 0, SatAdd16(t.cursor.col, 1));
    } else if mode == 2 {
      SameSpans(t, u, t.cursor.row, 0, t.cols);
    }
  }

  lemma SameAlternate(t: Term, u: Term, enable: bool, clear: bool)
    requires Same(t, u)
    ensures Same(SetAlternate(t, enable, clear), SetAlternate(u, enable, clear))
  {
    if !enable && t.onAlternate {
      SameRestore(t.(onAlternate := false), u.(onAlternate := false));
    }
  }

  lemma SameMode(t: Term, u: Term, param: u16, private: bool, enable: bool)
    requires Same(t, u)
    ensures Same(SetMode(t, param, private, enable), SetMode(u, param, private, enable))
  {
    if private && param == 6 {
      SamePlaces(t.(modes := t.modes.(origin := enable)), u.(modes := u.modes.(origin := enable)), 1, 1);
    } else if private && (param == 47 || param == 1047) {
      SameAlternate(t, u, enable, false);
    } else if private && param == 1049 {
      SameAlternate(t, u, enable, true);
    }
  }

  lemma {:induction false} SameModes(t: Term, u: Term, params: seq<u16>, private: bool, enable: bool)
    requires Same(t, u)
    ensures Same(SetModes(t, params, private, enable), SetModes(u, params, private, enable))
    decreases |params|
  {
    if params != [] {
      SameMode(t, u, params[0], private, enable);
      SameModes(SetMode(t, params[0], private, enable), SetMode(u, params[0], private, enable),
        params[1..], private, enable);
    }
  }

  lemma SameControls(t: Term, u: Term, params: seq<seq<u16>>, private: bool)
    requires Same(t, u)
    ensures Same(SetScrollRegion(t, params), SetScrollRegion(u, params))
    ensures Same(DeviceStatus(t, params, private), DeviceStatus(u, params, private))
  {
  }

  lemma SameLineMoves(t: Term, u: Term, n: u16)
    requires Same(t, u)
    ensures Same(ToColumnZero(CursorDown(t, n)), ToColumnZero(CursorDown(u, n)))
    ensures Same(ToColumnZero(CursorUp(t, n)), ToColumnZero(CursorUp(u, n)))
  {
  }

  lemma SameMove(t: Term, u: Term, action: char, n: u16, m: u16)
    requires Same(t, u)
    ensures Same(CsiMove(t, action, n, m), CsiMove(u, action, n, m))
  {
    SameSteps(t, u, n);
    SamePlaces(t, u, n, m);
    SameLineMoves(t, u, n);
  }

  lemma SameEdit(t: Term, u: Term, action: char, n: u16, mode: u16)
    requires Same(t, u)
    ensures Same(CsiEdit(t, action, n, mode), CsiEdit(u, action, n, mode))
  {
    if action == 'J' {
      SameEraseDisplay(t, u, mode);
    } else if action == 'K' {
      SameEraseLine(t, u, mode);
    } else if action == 'L' || action == 'M' {
      SameLines(t, u, n);
    } else if action == '@' || action == 'P' {
      SameColumns(t, u, n);
    } else if action == 'X' {
      SameSpans(t, u, t.cursor.row, t.cursor.col, SatAdd16(t.cursor.col, n));
    } else if action == 'S' {
      SameScroll(t, u, n);
    } else {
      SameScrollDown(t, u, n);
    }
  }

  lemma SameCsiMode(t: Term, u: Term, params: seq<seq<u16>>, private: bool, plain: bool, action: char)
    requires Same(t, u)
    ensures Same(CsiMode(t, params, private, plain, action), CsiMode(u, params, private, plain, action))
  {
    if action == 'r' {
      SameControls(t, u, params, private);
    } else if action == 'h' || action == 'l' {
      SameModes(t, u, FlattenParams(params), private, action == 'h');
    } else if action == 'n' {
      SameControls(t, u, params, private);
    } else if action == 's' {
      SamePlaces(t, u, 0, 0);
    } else if action == 'u' {
      SameRestore(t, u);
    }
  }

  lemma SameCsi(t: Term, u: Term, params: seq<seq<u16>>, intermediates: seq<u8>, action: char)
    requires Same(t, u)
    ensures Same(HandleCsi(t, params, intermediates, action), HandleCsi(u, params, intermediates, action))
  {
    SameMove(t, u, action, ParamOr(params, 0, 1), ParamOr(params, 1, 1));
    SameEdit(t, u, action, ParamOr(params, 0, 1), ParamOr(params, 0, 0));
    SameCsiMode(t, u, params, |intermediates| > 0 && intermediates[0] == 63, intermediates == [], action);
  }

  lemma SameReset(t: Term, u: Term)
    requires Same(t, u)
    ensures Same(ResetChildState(t), ResetChildState(u))
  {
  }

  lemma SameEsc(t: Term, u: Term, final: u8)
    requires Same(t, u)
    ensures Same(HandleEsc(t, final), HandleEsc(u, final))
  {
    if final == 55 {
      SamePlaces(t, u, 0, 0);
    } else if final == 56 {
      SameRestore(t, u);
    } else if final == 68 {
      SameLineFeed(t, u);
    } else if final == 69 {
      SameNextLine(t, u);
    } else if final == 77 {
      SameReverseIndex(t, u);
    } else if final == 99 {
      SameReset(t, u);
    }
  }

  lemma SameRequests(t: Term, u: Term, requests: seq<Colors.ChildRequest>)
    requires Same(t, u)
    ensures Same(PushRequests(t, requests), PushRequests(u, requests))
  {
  }

  lemma SameLink(t: Term, u: Term, url: seq<u8>)
    requires Same(t, u)
    ensures Same(SetHyperlink(t, url), SetHyperlink(u, url))
  {
  }

  lemma SameOsc(t: Term, u: Term, fields: seq<seq<u8>>)
    requires Same(t, u)
    ensures Same(HandleOsc(t, fields), HandleOsc(u, fields))
  {
    if fields != [] {
      SameRequests(t, u, if fields[0] == [53, 50] then ClipboardRequests(fields)
        else if IsColorId(fields[0]) then Colors.ColorRequests(fields)
        else [Colors.OtherOsc(fields[0], fields[1..])]);
      SameLink(t, u, if |fields| < 3 then [] else fields[2]);
    }
  }

  lemma SameExecute(t: Term, u: Term, byte: u8)
    requires Same(t, u)
    ensures Same(HandleExecute(t, byte), HandleExecute(u, byte))
  {
    if byte == 0x08 || byte == 0x09 {
      SameSteps(t, u, 0);
    } else if byte == 0x0d {
      SamePlaces(t, u, 0, 0);
    } else if 0x0a <= byte <= 0x0c {
      SameLineFeed(t, u);
    } else if byte == 0x07 {
      SameRequests(t, u, [Colors.RingBell]);
    }
  }

  lemma SameApply(t: Term, u: Term, a: Action)
    requires Same(t, u)
    ensures Same(Apply(t, a), Apply(u, a))
  {
    match a
    case Print(ch, width) => SamePrint(t, u, ch, width);
    case Execute(byte) => SameExecute(t, u, byte);
    case Esc(_, _, final) => SameEsc(t, u, final);
    case Csi(params, intermediates, _, action) => SameCsi(t, u, params, intermediates, action);
    case Osc(fields) => SameOsc(t, u, fields);
  }

  lemma {:induction false} SameApplyAll(t: Term, u: Term, actions: seq<Action>)
    requires Same(t, u)
    ensures Same(ApplyAll(t, actions), ApplyAll(u, actions))
    decreases |actions|
  {
    if actions != [] {
      SameApply(t, u, actions[0]);
      SameApplyAll(Apply(t, actions[0]), Apply(u, actions[0]), actions[1..]);
    }
  }
}
