/** The emulator as a value: what each action, feed and resize does to the whole terminal; all of them keep `WF`. */
module TermSpec {
  import opened TerminalTypes
  import opened Grid
  import opened Colors
  import opened Scrollback
  import opened Digits
  import S = ScreenSpec
  import Sgr
  import Base64

  datatype Position = Position(row: u16, col: u16)

  datatype Mouse = MouseOff | X10 | Normal | ButtonEvent | AnyEvent

  datatype Modes = Modes(
    autowrap: bool,
    origin: bool,
    insert: bool,
    applicationCursor: bool,
    applicationKeypad: bool,
    bracketedPaste: bool,
    cursorVisible: bool,
    mouse: Mouse,
    mouseSgr: bool)

  const DEFAULT_MODES := Modes(true, false, false, false, false, false, true, MouseOff, false)

  const ORIGIN := Position(0, 0)

  datatype SavedCursor = SavedCursor(cursor: Position, pen: Style, wrapPending: bool, origin: bool)

  const DEFAULT_SAVED := SavedCursor(ORIGIN, DEFAULT_STYLE, false, false)

  datatype Event =
    | TerminalReset
    | ScreenUpdated
    | ScrollbackLineAppended
    | TitleUpdated
    | RequestReceived(request: ChildRequest)
    | HyperlinkAdded(id: nat, url: seq<u8>)

  /** Merged state-change flags, and payload events in the order they came. */
  datatype Events = Events(
    terminalReset: bool,
    screenUpdated: bool,
    scrollbackLineAdded: bool,
    titleUpdated: bool,
    payload: seq<Event>)

  const NO_EVENTS := Events(false, false, false, false, [])

  /** What the tokenizer makes of output bytes. */
  datatype Action =
    | Print(ch: char, width: Option<nat>)
    | Execute(byte: u8)
    | Esc(intermediates: seq<u8>, ignored: bool, final: u8)
    | Csi(params: seq<seq<u16>>, intermediates: seq<u8>, ignored: bool, action: char)
    | Osc(fields: seq<seq<u8>>)

  datatype Term = Term(
    rows: NonZeroU16,
    cols: NonZeroU16,
    primary: S.ScreenV,
    alternate: S.ScreenV,
    onAlternate: bool,
    cursor: Position,
    saved: SavedCursor,
    wrapPending: bool,
    pen: Style,
    modes: Modes,
    title: seq<u8>,
    top: u16,
    bottom: u16,
    replies: seq<u8>,
    scrollback: seq<Row>,
    scrollbackCells: nat,
    nextLink: nat,
    events: Events)

  ghost predicate WF(t: Term) {
    && S.Ok(t.primary, t.rows, t.cols)
    && S.Ok(t.alternate, t.rows, t.cols)
    && t.cursor.row < t.rows && t.cursor.col < t.cols
    && t.top <= t.bottom < t.rows
    && t.scrollbackCells == CellCount(t.scrollback)
  }

  /** Wide glyphs are whole on both screens, and printing replaces cells. */
  ghost predicate Plain(t: Term) {
    AllPaired(t.primary.grid) && AllPaired(t.alternate.grid) && !t.modes.insert
  }

  /** The history only grows at its end, and growth is reported. */
  ghost predicate HistoryKept(t: Term, r: Term) {
    && t.scrollback <= r.scrollback
    && (t.scrollback == r.scrollback || r.events.scrollbackLineAdded)
    && (t.events.scrollbackLineAdded ==> r.events.scrollbackLineAdded)
  }

  /** What every action keeps: shape, size, and no unmarked write to the primary screen. */
  ghost predicate Kept(t: Term, r: Term) {
    && WF(r) && r.rows == t.rows && r.cols == t.cols
    && r.events.screenUpdated == t.events.screenUpdated
    && (r.primary.dirty || r.primary == t.primary)
  }

  /** What every action but a query, a reset, a history erase and a cell shift keeps too. */
  ghost predicate Steady(t: Term, r: Term) {
    Kept(t, r) && HistoryKept(t, r) && r.replies == t.replies && (Plain(t) ==> Plain(r))
  }

  function New(rows: NonZeroU16, cols: NonZeroU16): (t: Term)
    ensures WF(t)
  {
    Term(rows, cols, S.BlankScreen(rows, cols), S.BlankScreen(rows, cols), false, ORIGIN, DEFAULT_SAVED,
      false, DEFAULT_STYLE, DEFAULT_MODES, [], 0, rows - 1, [], [], 0, 1, NO_EVENTS)
  }

  // ---- the active screen ----------------------------------------------

  function Active(t: Term): S.ScreenV {
    if t.onAlternate then t.alternate else t.primary
  }

  function WithActive(t: Term, s: S.ScreenV): (r: Term)
    ensures WF(t) && S.Ok(s, t.rows, t.cols) ==> WF(r)
  {
    if t.onAlternate then t.(alternate := s) else t.(primary := s)
  }

  function EraseCells(t: Term, row: nat, colStart: nat, colEnd: nat): (r: Term)
    requires WF(t)
    ensures Steady(t, r)
  {
    WithActive(t, S.EraseCells(Active(t), row, colStart, colEnd, t.pen))
  }

  function EraseRows(t: Term, rowStart: nat, rowEnd: nat): (r: Term)
    requires WF(t)
    ensures Steady(t, r)
  {
    WithActive(t, S.EraseRows(Active(t), rowStart, rowEnd, t.pen))
  }

  function InsertColumns(t: Term, count: nat): (r: Term)
    requires WF(t)
    ensures Kept(t, r) && HistoryKept(t, r) && r.replies == t.replies
    ensures r.modes == t.modes && r.cursor == t.cursor
  {
    WithActive(t, S.InsertColumns(Active(t), t.cursor.row, t.cursor.col, count, t.pen))
  }

  function DeleteColumns(t: Term, count: nat): (r: Term)
    requires WF(t)
    ensures Kept(t, r) && HistoryKept(t, r) && r.replies == t.replies
    ensures r.modes == t.modes && r.cursor == t.cursor
  {
    WithActive(t, S.DeleteColumns(Active(t), t.cursor.row, t.cursor.col, count, t.pen))
  }

  function InsertLines(t: Term, count: nat): (r: Term)
    requires WF(t)
    ensures Steady(t, r)
  {
    WithActive(t, S.InsertLines(Active(t), t.cols, t.cursor.row, count, t.top, t.bottom, t.pen))
  }

  function DeleteLines(t: Term, count: nat): (r: Term)
    requires WF(t)
    ensures Steady(t, r)
  {
    WithActive(t, S.DeleteLines(Active(t), t.cols, t.cursor.row, count, t.top, t.bottom, t.pen))
  }

  function ScrollDown(t: Term, count: nat): (r: Term)
    requires WF(t)
    ensures Steady(t, r)
  {
    WithActive(t, S.ScrollDown(Active(t), t.cols, count, t.top, t.bottom, t.pen))
  }

  /** Appends displaced rows that draw something to the history. */
  function PushDisplaced(t: Term, rows: seq<Row>): (r: Term)
    requires WF(t)
    ensures Steady(t, r)
  {
    var lines := Content(rows);
    CellCountAppend(t.scrollback, lines);
    t.(scrollback := t.scrollback + lines,
       scrollbackCells := t.scrollbackCells + CellCount(lines),
       events := if lines == [] then t.events else t.events.(scrollbackLineAdded := true))
  }

  /** Only a full-screen scroll of the primary screen feeds the history. */
  function ScrollUpScreen(t: Term, count: nat): (r: Term)
    requires WF(t)
    ensures Steady(t, r)
  {
    var scrolled := WithActive(t, S.ScrollUp(Active(t), t.cols, count, t.top, t.bottom, t.pen));
    if t.top == 0 && t.bottom + 1 == t.rows && !t.onAlternate then
      PushDisplaced(scrolled, S.Displaced(Active(t), count, t.top, t.bottom))
    else scrolled
  }

  // ---- printing and cursor motion -------------------------------------

  function LineFeed(t: Term): (r: Term)
    requires WF(t)
    ensures Steady(t, r)
  {
    var u := t.(wrapPending := false);
    if u.cursor.row == u.bottom then ScrollUpScreen(u, 1)
    else if u.cursor.row + 1 < u.rows then u.(cursor := Position(u.cursor.row + 1, u.cursor.col))
    else u
  }

  function CarriageReturn(t: Term): (r: Term)
    requires WF(t)
    ensures Steady(t, r)
  {
    t.(wrapPending := false, cursor := Position(t.cursor.row, 0))
  }

  /** A width the character tables do not give draws nothing; any other counts as one cell. */
  function DisplayWidth(width: Option<nat>): (w: nat)
    ensures w <= 2
  {
    match width case None => 0 case Some(n) => if n <= 2 then n else 1
  }

  function WrapPending(t: Term): (r: Term)
    requires WF(t)
    ensures Steady(t, r)
  {
    if !t.wrapPending then t
    else if t.modes.autowrap then LineFeed(CarriageReturn(t.(wrapPending := false)))
    else t.(wrapPending := false)
  }

  /** Moves to where a glyph of width `w` can start, if there is such a place. */
  function MakeRoom(t: Term, w: nat): (r: Term)
    requires WF(t)
    ensures Steady(t, r)
  {
    if t.cursor.col + w <= t.cols then t
    else if t.modes.autowrap then LineFeed(CarriageReturn(t))
    else t.(cursor := Position(t.cursor.row, t.cols - 1))
  }

  /** Moves past a glyph; at the right edge the wrap waits for the next one. */
  function Advance(t: Term, w: nat): (r: Term)
    requires WF(t) && 1 <= w <= 2
    ensures Steady(t, r)
  {
    if t.cursor.col + w >= t.cols then
      t.(cursor := Position(t.cursor.row, t.cols - 1), wrapPending := t.modes.autowrap)
    else
      t.(cursor := Position(t.cursor.row, t.cursor.col + w), wrapPending := false)
  }

  function PutGlyph(t: Term, ch: char, w: nat): (r: Term)
    requires WF(t) && 1 <= w <= 2 && t.cursor.col + w <= t.cols
    ensures Steady(t, r)
  {
    WithActive(t, S.PutGlyph(Active(t), t.cursor.row, t.cursor.col, ch, w, t.pen))
  }

  function PutChar(t: Term, ch: char, w: nat): (r: Term)
    requires WF(t) && 1 <= w <= 2 && t.cursor.col + w <= t.cols
    ensures Steady(t, r)
  {
    Advance(PutGlyph(if t.modes.insert then InsertColumns(t, w) else t, ch, w), w)
  }

  function PutIfRoom(t: Term, ch: char, w: nat): (r: Term)
    requires WF(t) && 1 <= w <= 2
    ensures Steady(t, r)
  {
    if t.cursor.col + w > t.cols then t else PutChar(t, ch, w)
  }

  function PrintChar(t: Term, ch: char, width: Option<nat>): (r: Term)
    requires WF(t)
    ensures Steady(t, r)
  {
    var w := DisplayWidth(width);
    if w == 0 then t else PutIfRoom(MakeRoom(WrapPending(t), w), ch, w)
  }

  function Backspace(t: Term): (r: Term)
    requires WF(t)
    ensures Steady(t, r)
  {
    t.(wrapPending := false, cursor := Position(t.cursor.row, SatSub(t.cursor.col, 1)))
  }

  /** The next multiple of eight, in sixteen bits, then clamped to the row. */
  function HorizontalTab(t: Term): (r: Term)
    requires WF(t)
    ensures Steady(t, r)
  {
    var next := (t.cursor.col / 8 * 8 + 8) % 0x1_0000;
    t.(wrapPending := false, cursor := Position(t.cursor.row, Min(next, t.cols - 1)))
  }

  function ReverseIndex(t: Term): (r: Term)
    requires WF(t)
    ensures Steady(t, r)
  {
    var u := t.(wrapPending := false);
    if u.cursor.row == u.top then ScrollDown(u, 1)
    else if u.cursor.row > 0 then u.(cursor := Position(u.cursor.row - 1, u.cursor.col))
    else u
  }

  function Clamp(x: int, lo: int, hi: int): int
    requires lo <= hi
  {
    if x < lo then lo else if x > hi then hi else x
  }

  function MinRow(t: Term): u16 { if t.modes.origin then t.top else 0 }

  function MaxRow(t: Term): u16 { if t.modes.origin then t.bottom else t.rows - 1 }

  /** Steps off the trailing half of a wide glyph. */
  function RepairCursorCell(t: Term): (r: Term)
    requires WF(t)
    ensures Steady(t, r)
  {
    if Active(t).grid[t.cursor.row][t.cursor.col].width == 0 && t.cursor.col > 0 then
      t.(cursor := Position(t.cursor.row, t.cursor.col - 1))
    else t
  }

  function SaveCursor(t: Term): (r: Term)
    requires WF(t)
    ensures Steady(t, r)
  {
    t.(saved := SavedCursor(t.cursor, t.pen, t.wrapPending, t.modes.origin))
  }

  function LoadSaved(t: Term): (r: Term)
    requires WF(t)
    ensures Steady(t, r)
  {
    t.(pen := t.saved.pen, wrapPending := t.saved.wrapPending, modes := t.modes.(origin := t.saved.origin))
  }

  /** The saved position, clamped into a screen that may have shrunk since. */
  function PlaceSaved(t: Term): (r: Term)
    requires WF(t)
    ensures Steady(t, r)
  {
    t.(cursor := Position(Clamp(t.saved.cursor.row, MinRow(t), MaxRow(t)), Min(t.saved.cursor.col, t.cols - 1)))
  }

  function RestoreCursor(t: Term): (r: Term)
    requires WF(t)
    ensures Steady(t, r)
  {
    RepairCursorCell(PlaceSaved(LoadSaved(t)))
  }

  function CursorUp(t: Term, n: u16): (r: Term)
    requires WF(t)
    ensures Steady(t, r)
  {
    t.(wrapPending := false, cursor := Position(Max(SatSub(t.cursor.row, n), MinRow(t)), t.cursor.col))
  }

  function CursorDown(t: Term, n: u16): (r: Term)
    requires WF(t)
    ensures Steady(t, r)
  {
    t.(wrapPending := false, cursor := Position(Min(SatAdd16(t.cursor.row, n), MaxRow(t)), t.cursor.col))
  }

  function CursorForward(t: Term, n: u16): (r: Term)
    requires WF(t)
    ensures Steady(t, r)
  {
    t.(wrapPending := false, cursor := Position(t.cursor.row, Min(SatAdd16(t.cursor.col, n), t.cols - 1)))
  }

  function CursorBackward(t: Term, n: u16): (r: Term)
    requires WF(t)
    ensures Steady(t, r)
  {
    t.(wrapPending := false, cursor := Position(t.cursor.row, SatSub(t.cursor.col, n)))
  }

  function SetCol(t: Term, col: u16): (r: Term)
    requires WF(t)
    ensures Steady(t, r)
  {
    t.(wrapPending := false, cursor := Position(t.cursor.row, Min(SatSub(col, 1), t.cols - 1)))
  }

  /** A one-based row, offset by the region in origin mode, in sixteen bits. */
  function RowTarget(t: Term, row: u16): (r: u16)
    requires WF(t)
    ensures r < t.rows
  {
    Clamp((SatSub(row, 1) + MinRow(t)) % 0x1_0000, MinRow(t), MaxRow(t))
  }

  function SetRow(t: Term, row: u16): (r: Term)
    requires WF(t)
    ensures Steady(t, r)
  {
    t.(wrapPending := false, cursor := Position(RowTarget(t, row), t.cursor.col))
  }

  function SetPosition(t: Term, row: u16, col: u16): (r: Term)
    requires WF(t)
    ensures Steady(t, r)
  {
    t.(wrapPending := false, cursor := Position(RowTarget(t, row), Min(SatSub(col, 1), t.cols - 1)))
  }

  // ---- control sequences ----------------------------------------------

  function ParamOr(params: seq<seq<u16>>, i: nat, default: u16): (v: u16) {
    if i < |params| && |params[i]| > 0 && params[i][0] != 0 then params[i][0] else default
  }

  /** Sub-parameters count like parameters; an empty one is zero. */
  function FlattenParams(params: seq<seq<u16>>): seq<u16> {
    if params == [] then []
    else (if params[0] == [] then [0] else params[0]) + FlattenParams(params[1..])
  }

  /** From the cursor to the end of the screen. */
  function EraseBelow(t: Term): (r: Term)
    requires WF(t)
    ensures Steady(t, r)
  {
    EraseRows(EraseCells(t, t.cursor.row, t.cursor.col, t.cols), SatAdd16(t.cursor.row, 1), t.rows)
  }

  /** From the start of the screen to the cursor, which is included. */
  function EraseAbove(t: Term): (r: Term)
    requires WF(t)
    ensures Steady(t, r)
  {
    EraseCells(EraseRows(t, 0, t.cursor.row), t.cursor.row, 0, SatAdd16(t.cursor.col, 1))
  }

  function EraseDisplay(t: Term, mode: u16): (r: Term)
    requires WF(t)
    ensures Kept(t, r) && r.replies == t.replies && (Plain(t) ==> Plain(r))
    ensures mode != 3 ==> HistoryKept(t, r)
    ensures mode == 3 ==> r.scrollback == []
  {
    if mode == 0 then EraseBelow(t)
    else if mode == 1 then EraseAbove(t)
    else if mode == 2 then EraseRows(t, 0, t.rows)
    else if mode == 3 then ClearHistory(t)
    else t
  }

  function EraseLine(t: Term, mode: u16): (r: Term)
    requires WF(t)
    ensures Steady(t, r)
  {
    if mode == 0 then EraseCells(t, t.cursor.row, t.cursor.col, t.cols)
    else if mode == 1 then EraseCells(t, t.cursor.row, 0, SatAdd16(t.cursor.col, 1))
    else if mode == 2 then EraseCells(t, t.cursor.row, 0, t.cols)
    else t
  }

  /** The region a request sets: a proper one is taken, an empty request resets it. */
  function NewRegion(rows: NonZeroU16, params: seq<seq<u16>>, top0: u16, bottom0: u16): (region: (u16, u16))
    requires top0 <= bottom0 < rows
    ensures region.0 <= region.1 < rows
  {
    var top := SatSub(ParamOr(params, 0, 1), 1);
    var bottom := if |params| >= 2 then SatSub(ParamOr(params, 1, rows), 1) else rows - 1;
    if top < rows && bottom < rows && top < bottom then (top, bottom)
    else if |params| == 0 then (0, rows - 1)
    else (top0, bottom0)
  }

  function SetScrollRegion(t: Term, params: seq<seq<u16>>): (r: Term)
    requires WF(t)
    ensures Steady(t, r)
  {
    var region := NewRegion(t.rows, params, t.top, t.bottom);
    t.(top := region.0, bottom := region.1, wrapPending := false,
       cursor := Position(if t.modes.origin then region.0 else 0, 0))
  }

  /** Enters the alternate screen with the cursor saved; entering it again saves nothing. */
  function EnterAlternate(t: Term): (r: Term)
    requires WF(t)
    ensures Steady(t, r)
  {
    if t.onAlternate then t else SaveCursor(t).(onAlternate := true)
  }

  function ClearAlternate(t: Term): (r: Term)
    requires WF(t)
    ensures Steady(t, r)
  {
    t.(alternate := S.ClearAll(t.alternate, t.rows, t.cols, DEFAULT_STYLE),
       cursor := ORIGIN, wrapPending := false, top := 0, bottom := t.rows - 1)
  }

  function SetAlternate(t: Term, enable: bool, clearOnEnter: bool): (r: Term)
    requires WF(t)
    ensures Steady(t, r)
  {
    if enable then (if clearOnEnter then ClearAlternate(EnterAlternate(t)) else EnterAlternate(t))
    else if t.onAlternate then RestoreCursor(t.(onAlternate := false))
    else t
  }

  /** The private modes that only set a flag; mouse modes replace one another. */
  function FlagMode(m: Modes, param: u16, enable: bool): (r: Modes)
    ensures r.insert == m.insert && r.origin == m.origin
  {
    if param == 1 then m.(applicationCursor := enable)
    else if param == 7 then m.(autowrap := enable)
    else if param == 25 then m.(cursorVisible := enable)
    else if param == 9 then m.(mouse := if enable then X10 else MouseOff)
    else if param == 1000 then m.(mouse := if enable then Normal else MouseOff)
    else if param == 1002 then m.(mouse := if enable then ButtonEvent else MouseOff)
    else if param == 1003 then m.(mouse := if enable then AnyEvent else MouseOff)
    else if param == 1006 then m.(mouseSgr := enable)
    else if param == 66 then m.(applicationKeypad := enable)
    else if param == 2004 then m.(bracketedPaste := enable)
    else m
  }

  function SetPrivateMode(t: Term, param: u16, enable: bool): (r: Term)
    requires WF(t)
    ensures Steady(t, r)
  {
    if param == 6 then SetPosition(t.(modes := t.modes.(origin := enable)), 1, 1)
    else if param == 47 || param == 1047 then SetAlternate(t, enable, false)
    else if param == 1049 then SetAlternate(t, enable, true)
    else t.(modes := FlagMode(t.modes, param, enable))
  }

  function SetMode(t: Term, param: u16, private: bool, enable: bool): (r: Term)
    requires WF(t)
    ensures Kept(t, r) && HistoryKept(t, r) && r.replies == t.replies
    ensures Plain(t) && (private || !enable || param != 4) ==> Plain(r)
  {
    if private then SetPrivateMode(t, param, enable)
    else if param == 4 then t.(modes := t.modes.(insert := enable))
    else t
  }

  function SetModes(t: Term, params: seq<u16>, private: bool, enable: bool): (r: Term)
    requires WF(t)
    decreases |params|
    ensures Kept(t, r) && HistoryKept(t, r) && r.replies == t.replies
    ensures Plain(t) && (private || !enable || 4 !in params) ==> Plain(r)
  {
    if params == [] then t
    else SetModes(SetMode(t, params[0], private, enable), params[1..], private, enable)
  }

  /** `ESC [ row ; col R`, one-based; both numbers have at most five digits. */
  function CursorReport(row: nat, col: nat): (s: seq<u8>)
    requires row < 0xFFFF && col < 0xFFFF
    ensures SHORTEST_REPLY <= |s| <= REPLY_LIMIT
  {
    DecimalLength(row + 1, 5);
    DecimalLength(col + 1, 5);
    [ESC, 91] + Decimal(row + 1) + [SEMICOLON] + Decimal(col + 1) + [82]
  }

  /** The longest reply, which the session relies on. */
  const REPLY_LIMIT: nat := 14

  /** The shortest one, `ESC [ 0 n`. */
  const SHORTEST_REPLY: nat := 4

  /** At most one reply of bounded length was queued. */
  ghost predicate Answered(t: Term, r: Term) {
    && t.replies <= r.replies
    && (r.replies == t.replies || |t.replies| + SHORTEST_REPLY <= |r.replies| <= |t.replies| + REPLY_LIMIT)
  }

  /** An action that can leave half a wide glyph: ICH, DCH, or turning insert mode on. */
  predicate Splits(a: Action) {
    a.Csi? && !a.ignored &&
    (a.action == '@' || a.action == 'P'
     || (a.action == 'h' && !(|a.intermediates| > 0 && a.intermediates[0] == 63) && 4 in FlattenParams(a.params)))
  }

  /** The answer to a status query: `ESC [ 0 n`, or where the cursor is. */
  function StatusReply(query: u16, cursor: Position): (s: seq<u8>)
    requires cursor.row < 0xFFFF && cursor.col < 0xFFFF
    ensures s == [] || SHORTEST_REPLY <= |s| <= REPLY_LIMIT
  {
    if query == 5 then [ESC, 91, 48, 110]
    else if query == 6 then CursorReport(cursor.row, cursor.col)
    else []
  }

  function DeviceStatus(t: Term, params: seq<seq<u16>>, private: bool): (r: Term)
    requires WF(t)
    ensures Kept(t, r) && HistoryKept(t, r) && (Plain(t) ==> Plain(r))
    ensures Answered(t, r)
  {
    if private then t else t.(replies := t.replies + StatusReply(ParamOr(params, 0, 0), t.cursor))
  }

  /** `ESC [ ? 6 c` */
  const PRIMARY_DA: seq<u8> := [ESC, 91, 63, 54, 99]

  function ToColumnZero(t: Term): (r: Term)
    requires WF(t)
    ensures Steady(t, r)
  {
    t.(cursor := Position(t.cursor.row, 0))
  }

  /** Cursor motion, by the final byte and its first two parameters. */
  function CsiMove(t: Term, action: char, n: u16, m: u16): (r: Term)
    requires WF(t)
    ensures Steady(t, r)
  {
    if action == 'A' then CursorUp(t, n)
    else if action == 'B' then CursorDown(t, n)
    else if action == 'C' then CursorForward(t, n)
    else if action == 'D' then CursorBackward(t, n)
    else if action == 'E' then ToColumnZero(CursorDown(t, n))
    else if action == 'F' then ToColumnZero(CursorUp(t, n))
    else if action == 'G' || action == '`' then SetCol(t, n)
    else if action == 'H' || action == 'f' then SetPosition(t, n, m)
    else SetRow(t, n)
  }

  /** Erasing, shifting and scrolling; `mode` is the first parameter when it defaults to zero. */
  function CsiEdit(t: Term, action: char, n: u16, mode: u16): (r: Term)
    requires WF(t)
    ensures Kept(t, r) && r.replies == t.replies
    ensures HistoryKept(t, r) || r.scrollback == []
    ensures Plain(t) && action != '@' && action != 'P' ==> Plain(r)
  {
    if action == 'J' then EraseDisplay(t, mode)
    else if action == 'K' then EraseLine(t, mode)
    else if action == 'L' then InsertLines(t, n)
    else if action == 'M' then DeleteLines(t, n)
    else if action == '@' then InsertColumns(t, n)
    else if action == 'P' then DeleteColumns(t, n)
    else if action == 'X' then EraseCells(t, t.cursor.row, t.cursor.col, SatAdd16(t.cursor.col, n))
    else if action == 'S' then ScrollUpScreen(t, n)
    else ScrollDown(t, n)
  }

  /** Modes, the pen, the region, queries and the saved cursor. */
  function CsiMode(t: Term, params: seq<seq<u16>>, private: bool, plain: bool, action: char): (r: Term)
    requires WF(t)
    ensures Kept(t, r) && Answered(t, r) && HistoryKept(t, r)
    ensures Plain(t) && (private || action != 'h' || 4 !in FlattenParams(params)) ==> Plain(r)
  {
    if action == 'r' && !private then SetScrollRegion(t, params)
    else if action == 'm' && !private then t.(pen := Sgr.Render(t.pen, FlattenParams(params)))
    else if action == 'h' then SetModes(t, FlattenParams(params), private, true)
    else if action == 'l' then SetModes(t, FlattenParams(params), private, false)
    else if action == 'n' then DeviceStatus(t, params, private)
    else if action == 'c' && plain then t.(replies := t.replies + PRIMARY_DA)
    else if action == 's' && !private then SaveCursor(t)
    else if action == 'u' && !private then RestoreCursor(t)
    else t
  }

  /** The final bytes of cursor motion. */
  predicate MovesCursor(action: char) {
    'A' <= action <= 'H' || action == '`' || action == 'f' || action == 'd'
  }

  /** The final bytes of erasing, shifting and scrolling. */
  predicate EditsScreen(action: char) {
    'J' <= action <= 'M' || action == '@' || action == 'P' || action == 'X' || action == 'S' || action == 'T'
  }

  /** Only `?` selects the private form; a query with any marker is not a DA1. */
  function HandleCsi(t: Term, params: seq<seq<u16>>, intermediates: seq<u8>, action: char): (r: Term)
    requires WF(t)
    ensures Kept(t, r) && Answered(t, r)
    ensures HistoryKept(t, r) || r.scrollback == []
    ensures Plain(t) && !Splits(Csi(params, intermediates, false, action)) ==> Plain(r)
  {
    if MovesCursor(action) then CsiMove(t, action, ParamOr(params, 0, 1), ParamOr(params, 1, 1))
    else if EditsScreen(action) then CsiEdit(t, action, ParamOr(params, 0, 1), ParamOr(params, 0, 0))
    else CsiMode(t, params, |intermediates| > 0 && intermediates[0] == 63, intermediates == [], action)
  }

  // ---- C0, escapes and operating-system commands ----------------------

  function PushEvent(t: Term, e: Event): Term {
    t.(events := t.events.(payload := t.events.payload + [e]))
  }

  function PushRequests(t: Term, requests: seq<ChildRequest>): (r: Term)
    requires WF(t)
    ensures Steady(t, r)
  {
    var events := seq(|requests|, i requires 0 <= i < |requests| => RequestReceived(requests[i]));
    t.(events := t.events.(payload := t.events.payload + events))
  }

  function HandleExecute(t: Term, byte: u8): (r: Term)
    requires WF(t)
    ensures Steady(t, r)
  {
    if byte == 0x08 then Backspace(t)
    else if byte == 0x09 then HorizontalTab(t)
    else if 0x0a <= byte <= 0x0c then LineFeed(t)
    else if byte == 0x0d then CarriageReturn(t)
    else if byte == 0x07 then PushRequests(t, [RingBell])
    else t
  }

  /** A blank primary screen, shown and marked as changed. */
  function ReplacePrimary(t: Term): (r: Term)
    requires WF(t)
    ensures Steady(t, r)
  {
    t.(primary := S.BlankScreen(t.rows, t.cols).(dirty := true), onAlternate := false)
  }

  function ReplaceAlternate(t: Term): (r: Term)
    requires WF(t)
    ensures Steady(t, r)
  {
    t.(alternate := S.BlankScreen(t.rows, t.cols))
  }

  function ResetCursor(t: Term): (r: Term)
    requires WF(t)
    ensures Steady(t, r)
  {
    t.(cursor := ORIGIN, saved := DEFAULT_SAVED, wrapPending := false)
  }

  function ResetRegion(t: Term): (r: Term)
    requires WF(t)
    ensures Steady(t, r)
  {
    t.(top := 0, bottom := t.rows - 1)
  }

  function ResetModes(t: Term): (r: Term)
    requires WF(t)
    ensures Steady(t, r)
  {
    t.(pen := DEFAULT_STYLE, modes := DEFAULT_MODES, title := [])
  }

  function ClearHistory(t: Term): (r: Term)
    requires WF(t)
    ensures Kept(t, r) && r.replies == t.replies && (Plain(t) ==> Plain(r)) && r.scrollback == []
  {
    t.(scrollback := [], scrollbackCells := 0)
  }

  function ReportReset(t: Term): (r: Term)
    requires WF(t)
    ensures Steady(t, r)
  {
    t.(events := t.events.(payload := [], terminalReset := true))
  }

  /** RIS: a new terminal but for the reply queue, the hyperlink counter and the merged events. */
  function ResetChildState(t: Term): (r: Term)
    requires WF(t)
    ensures Kept(t, r) && (Plain(t) ==> Plain(r)) && r.scrollback == []
    ensures r == New(t.rows, t.cols).(
      primary := S.BlankScreen(t.rows, t.cols).(dirty := true), replies := t.replies, nextLink := t.nextLink,
      events := t.events.(payload := [], terminalReset := true))
  {
    ReportReset(ClearHistory(ResetModes(ResetRegion(ResetCursor(ReplaceAlternate(ReplacePrimary(t)))))))
  }

  function HandleEsc(t: Term, final: u8): (r: Term)
    requires WF(t)
    ensures Kept(t, r) && r.replies == t.replies && (Plain(t) ==> Plain(r))
    ensures HistoryKept(t, r) || r.scrollback == []
  {
    if final == 55 then SaveCursor(t)
    else if final == 56 then RestoreCursor(t)
    else if final == 68 then LineFeed(t)
    else if final == 69 then LineFeed(CarriageReturn(t))
    else if final == 77 then ReverseIndex(t)
    else if final == 99 then ResetChildState(t)
    else t
  }

  function Selection(fields: seq<seq<u8>>): ClipboardSelection {
    if |fields| < 2 || fields[1] == [] || fields[1] == [99] then Clipboard
    else if fields[1] == [112] then Primary
    else OtherSelection(fields[1])
  }

  /** The request of OSC 52: a read, or a well-formed set or append. */
  function ClipboardRequests(fields: seq<seq<u8>>): seq<ChildRequest> {
    var payload := if |fields| < 3 then [] else fields[2];
    if payload == QUESTION then [GetClipboard(Selection(fields))]
    else
      var append := |payload| > 0 && payload[0] == PLUS;
      match Base64.Decoded(if append then payload[1..] else payload)
      case Some(text) => [SetClipboard(text, Selection(fields), append)]
      case None => []
  }

  /** Identifiers are never reused until the counter wraps, and never zero. */
  function NextLink(id: nat): nat {
    if id >= 0xFFFF_FFFF then 1 else id + 1
  }

  function SetHyperlink(t: Term, url: seq<u8>): (r: Term)
    requires WF(t)
    ensures Steady(t, r)
  {
    if url == [] then t.(pen := t.pen.(hyperlink := None))
    else
      PushEvent(t.(nextLink := NextLink(t.nextLink), pen := t.pen.(hyperlink := Some(t.nextLink))),
        HyperlinkAdded(t.nextLink, url))
  }

  function IsColorId(id: seq<u8>): bool {
    id == [52] || id == [49, 48] || id == [49, 49] || id == [49, 50]
  }

  function HandleOsc(t: Term, fields: seq<seq<u8>>): (r: Term)
    requires WF(t)
    ensures Steady(t, r)
  {
    if fields == [] then t
    else if fields[0] == [48] || fields[0] == [50] then
      t.(title := if |fields| < 2 then [] else fields[1], events := t.events.(titleUpdated := true))
    else if fields[0] == [53, 50] then PushRequests(t, ClipboardRequests(fields))
    else if IsColorId(fields[0]) then PushRequests(t, ColorRequests(fields))
    else if fields[0] == [56] then SetHyperlink(t, if |fields| < 3 then [] else fields[2])
    else PushRequests(t, [OtherOsc(fields[0], fields[1..])])
  }

  // ---- whole feeds ----------------------------------------------------

  function Apply(t: Term, a: Action): (r: Term)
    requires WF(t)
    ensures Kept(t, r) && Answered(t, r)
    ensures HistoryKept(t, r) || r.scrollback == []
    ensures Plain(t) && !Splits(a) ==> Plain(r)
  {
    match a
    case Print(ch, width) => PrintChar(t, ch, width)
    case Execute(byte) => HandleExecute(t, byte)
    case Esc(intermediates, ignored, final) =>
      if ignored || intermediates != [] then t else HandleEsc(t, final)
    case Csi(params, intermediates, ignored, action) =>
      if ignored then t else HandleCsi(t, params, intermediates, action)
    case Osc(fields) => HandleOsc(t, fields)
  }

  function ApplyAll(t: Term, actions: seq<Action>): (r: Term)
    requires WF(t)
    ensures Kept(t, r)
    ensures Plain(t) && (forall i :: 0 <= i < |actions| ==> !Splits(actions[i])) ==> Plain(r)
    decreases |actions|
  {
    if actions == [] then t else ApplyAll(Apply(t, actions[0]), actions[1..])
  }

  /** The cheap part of the visible state a feed compares before and after. */
  datatype Scalars = Scalars(
    rows: nat,
    cols: nat,
    onAlternate: bool,
    cursor: Position,
    wrapPending: bool,
    pen: Style,
    modes: Modes)

  function VisibleScalars(t: Term): Scalars {
    Scalars(t.rows, t.cols, t.onAlternate, t.cursor, t.wrapPending, t.pen, t.modes)
  }

  function MarkScreenUpdated(t: Term): Term {
    t.(events := t.events.(screenUpdated := true))
  }

  function TakeDirty(t: Term): Term {
    t.(primary := t.primary.(dirty := false))
  }

  /** Raises an update if a cell was written or a compared value differs, and clears the mark. */
  function Report(t: Term, before: Scalars): (r: Term)
    requires WF(t)
    ensures WF(r)
  {
    if t.primary.dirty || VisibleScalars(t) != before then MarkScreenUpdated(TakeDirty(t)) else TakeDirty(t)
  }

  /**
   * If the primary screen is shown before and after and no update is raised,
   * everything a caller can see is as it was.
   */
  function Feed(t: Term, actions: seq<Action>): (r: Term)
    requires WF(t)
    ensures WF(r) && !r.primary.dirty
    ensures t.events.screenUpdated ==> r.events.screenUpdated
    ensures !r.events.screenUpdated && !t.onAlternate ==>
      r.primary.grid == t.primary.grid && VisibleScalars(r) == VisibleScalars(t)
    ensures Plain(t) && (forall i :: 0 <= i < |actions| ==> !Splits(actions[i])) ==> Plain(r)
  {
    Report(ApplyAll(t, actions), VisibleScalars(t))
  }

  function FeedEach(t: Term, actions: seq<Action>): (r: Term)
    requires WF(t)
    ensures WF(r)
    ensures t.events.screenUpdated ==> r.events.screenUpdated
    decreases |actions|
  {
    if actions == [] then t else FeedEach(Feed(t, [actions[0]]), actions[1..])
  }

  // ---- resize and trim ------------------------------------------------

  /** How far the rows of a screen move up when its height changes. */
  function ShiftOf(s: S.ScreenV, oldCols: nat, rows: nat, cols: nat): nat {
    |S.ResizeDropped(s, oldCols, rows, cols)|
  }

  /** The size, region and cursor after rows moved up by `shift`; the screens are not yet laid out. */
  function Geometry(t: Term, rows: NonZeroU16, cols: NonZeroU16, shift: nat): Term {
    t.(rows := rows,
       cols := cols,
       top := 0,
       bottom := rows - 1,
       cursor := Position(Min(SatSub(t.cursor.row, shift), rows - 1), Min(t.cursor.col, cols - 1)),
       wrapPending := false)
  }

  /** Both screens at a new size, the cursor moved with the active one. */
  function LaidOut(t: Term, rows: NonZeroU16, cols: NonZeroU16): (r: Term)
    requires WF(t)
    ensures WF(r) && r.scrollback == t.scrollback && r.events == t.events && (Plain(t) ==> Plain(r))
  {
    Geometry(t, rows, cols, ShiftOf(Active(t), t.cols, rows, cols)).(
      primary := S.Resize(t.primary, t.cols, rows, cols),
      alternate := S.Resize(t.alternate, t.cols, rows, cols))
  }

  function Resize(t: Term, rows: NonZeroU16, cols: NonZeroU16): (r: Term)
    requires WF(t)
    ensures WF(r) && r.rows == rows && r.cols == cols
    ensures HistoryKept(t, r) && (Plain(t) ==> Plain(r))
  {
    if rows == t.rows && cols == t.cols then t
    else
      var u := LaidOut(t, rows, cols);
      var v := if t.onAlternate then u else PushDisplaced(u, S.ResizeDropped(t.primary, t.cols, rows, cols));
      MarkScreenUpdated(TakeDirty(RepairCursorCell(v)))
  }

  function TrimScrollback(t: Term, maxLines: nat, maxCells: nat): (r: Term)
    requires WF(t)
    ensures WF(r)
  {
    var lines := Trimmed(t.scrollback, maxLines, maxCells);
    t.(scrollback := lines, scrollbackCells := CellCount(lines))
  }

  /** Everything a caller can do to a terminal. */
  datatype Call =
    | CallFeed(actions: seq<Action>)
    | CallResize(rows: NonZeroU16, cols: NonZeroU16)
    | CallTrim(maxLines: nat, maxCells: nat)

  function Step(t: Term, c: Call): (r: Term)
    requires WF(t)
    ensures WF(r)
  {
    match c
    case CallFeed(actions) => Feed(t, actions)
    case CallResize(rows, cols) => Resize(t, rows, cols)
    case CallTrim(maxLines, maxCells) => TrimScrollback(t, maxLines, maxCells)
  }

  function Run(t: Term, calls: seq<Call>): (r: Term)
    requires WF(t)
    ensures WF(r)
    decreases |calls|
  {
    if calls == [] then t else Run(Step(t, calls[0]), calls[1..])
  }
}
