/** What the mode, region, pen and query sequences do, by the numbers a program sends. */
module ModeLaws {
  import opened TerminalTypes
  import opened Grid
  import opened TermSpec
  import opened MotionLaws
  import AlternateLaws
  import Digits
  import Sgr
  import TermLaws

  // ---- parameters -----------------------------------------------------

  /** Sub-parameters count like parameters, and an empty group as one zero. */
  lemma GroupCounts(group: seq<u16>)
    ensures FlattenParams([group]) == if group == [] then [0] else group
  {
    assert [group][1..] == [];
    assert group + [] == group;
  }

  lemma {:induction false} GroupsInOrder(p: seq<seq<u16>>, q: seq<seq<u16>>)
    ensures FlattenParams(p + q) == FlattenParams(p) + FlattenParams(q)
  {
    if p == [] {
      assert p + q == q;
    } else {
      GroupsInOrder(p[1..], q);
      assert (p + q)[1..] == p[1..] + q;
      Associate(if p[0] == [] then [0] else p[0], FlattenParams(p[1..]), FlattenParams(q));
    }
  }

  // ---- setting and resetting modes ------------------------------------

  /** `CSI ? ... h` or `l` when private, `CSI ... h` or `l` when not. */
  function ModeAction(params: seq<seq<u16>>, private: bool, on: bool): Action {
    Csi(params, if private then [63] else [], false, if on then 'h' else 'l')
  }

  lemma {:induction false} ModesInOrder(t: Term, p: seq<u16>, q: seq<u16>, private: bool, on: bool)
    requires WF(t)
    ensures SetModes(t, p + q, private, on) == SetModes(SetModes(t, p, private, on), q, private, on)
    decreases |p|
  {
    hide SetMode;
    if p == [] {
      assert p + q == q;
    } else {
      assert (p + q)[1..] == p[1..] + q;
      ModesInOrder(SetMode(t, p[0], private, on), p[1..], q, private, on);
    }
  }

  lemma ModeActionSets(t: Term, params: seq<seq<u16>>, private: bool, on: bool)
    requires WF(t)
    ensures Apply(t, ModeAction(params, private, on)) == SetModes(t, FlattenParams(params), private, on)
  {
    hide Apply, SetModes;
    TermLaws.ModeApplied(t, params, if private then [63] else [], if on then 'h' else 'l');
  }

  /** Of the markers only a leading `?` makes a mode private. */
  lemma OnlyQuestionMarkIsPrivate(t: Term, params: seq<seq<u16>>, intermediates: seq<u8>, on: bool)
    requires WF(t)
    ensures Apply(t, Csi(params, intermediates, false, if on then 'h' else 'l'))
      == Apply(t, ModeAction(params, intermediates != [] && intermediates[0] == 63, on))
  {
    hide Apply, SetModes;
    var private := intermediates != [] && intermediates[0] == 63;
    TermLaws.ModeApplied(t, params, intermediates, if on then 'h' else 'l');
    TermLaws.ModeApplied(t, params, if private then [63] else [], if on then 'h' else 'l');
  }

  /** One sequence of several modes does what one sequence for each does, in order. */
  lemma ModeListsSplit(t: Term, p: seq<seq<u16>>, q: seq<seq<u16>>, private: bool, on: bool)
    requires WF(t)
    ensures Apply(t, ModeAction(p + q, private, on))
      == Apply(Apply(t, ModeAction(p, private, on)), ModeAction(q, private, on))
  {
    hide Apply, SetModes;
    ModeActionSets(t, p + q, private, on);
    ModeActionSets(t, p, private, on);
    ModeActionSets(Apply(t, ModeAction(p, private, on)), q, private, on);
    GroupsInOrder(p, q);
    ModesInOrder(t, FlattenParams(p), FlattenParams(q), private, on);
  }

  lemma OneMode(t: Term, mode: u16, private: bool, on: bool)
    requires WF(t)
    ensures Apply(t, ModeAction([[mode]], private, on)) == SetMode(t, mode, private, on)
  {
    hide Apply, SetMode;
    var modes: seq<u16> := [mode];
    ModeActionSets(t, [modes], private, on);
    GroupCounts(modes);
    assert modes[1..] == [];
    assert SetModes(t, modes, private, on) == SetModes(SetMode(t, mode, private, on), [], private, on);
  }

  /** The terminal after one private mode is set or reset. */
  function Set(t: Term, mode: u16, on: bool): Term
    requires WF(t)
  {
    Apply(t, ModeAction([[mode]], true, on))
  }

  lemma OneFlag(t: Term, mode: u16, on: bool)
    requires WF(t) && mode !in {6, 47, 1047, 1049}
    ensures Set(t, mode, on) == t.(modes := FlagMode(t.modes, mode, on))
  {
    hide Apply, FlagMode;
    OneMode(t, mode, true, on);
  }

  lemma InsertFlag(t: Term, on: bool)
    requires WF(t)
    ensures SetMode(t, 4, false, on) == t.(modes := t.modes.(insert := on))
  {
  }

  /** The modes that are one flag each. */
  lemma FlagsExactly(t: Term, on: bool)
    requires WF(t)
    ensures Set(t, 1, on) == t.(modes := t.modes.(applicationCursor := on))
    ensures Set(t, 7, on) == t.(modes := t.modes.(autowrap := on))
    ensures Set(t, 25, on) == t.(modes := t.modes.(cursorVisible := on))
    ensures Set(t, 66, on) == t.(modes := t.modes.(applicationKeypad := on))
    ensures Set(t, 1006, on) == t.(modes := t.modes.(mouseSgr := on))
    ensures Set(t, 2004, on) == t.(modes := t.modes.(bracketedPaste := on))
    ensures Apply(t, ModeAction([[4]], false, on)) == t.(modes := t.modes.(insert := on))
  {
    hide Apply, Set, SetMode;
    OneFlag(t, 1, on);
    OneFlag(t, 7, on);
    OneFlag(t, 25, on);
    OneFlag(t, 66, on);
    OneFlag(t, 1006, on);
    OneFlag(t, 2004, on);
    InsertFlag(t, on);
    OneMode(t, 4, false, on);
  }

  /** Mouse modes replace one another, and resetting any of them turns reporting off. */
  lemma MouseExactly(t: Term)
    requires WF(t)
    ensures Set(t, 9, true) == t.(modes := t.modes.(mouse := X10))
    ensures Set(t, 1000, true) == t.(modes := t.modes.(mouse := Normal))
    ensures Set(t, 1002, true) == t.(modes := t.modes.(mouse := ButtonEvent))
    ensures Set(t, 1003, true) == t.(modes := t.modes.(mouse := AnyEvent))
    ensures Set(t, 9, false) == Set(t, 1000, false) == Set(t, 1002, false) == Set(t, 1003, false)
      == t.(modes := t.modes.(mouse := MouseOff))
  {
    hide Apply, Set;
    forall on: bool
      ensures Set(t, 9, on) == t.(modes := FlagMode(t.modes, 9, on))
      ensures Set(t, 1000, on) == t.(modes := FlagMode(t.modes, 1000, on))
      ensures Set(t, 1002, on) == t.(modes := FlagMode(t.modes, 1002, on))
      ensures Set(t, 1003, on) == t.(modes := FlagMode(t.modes, 1003, on))
    {
      OneFlag(t, 9, on);
      OneFlag(t, 1000, on);
      OneFlag(t, 1002, on);
      OneFlag(t, 1003, on);
    }
  }

  /** Origin mode takes the cursor home: to the region's first row when set, to the screen's when reset. */
  lemma OriginExactly(t: Term, on: bool)
    requires WF(t)
    ensures Set(t, 6, on) == At(t.(modes := t.modes.(origin := on)), if on then t.top else 0, 0)
  {
    hide Apply, RowTarget;
    OneMode(t, 6, true, on);
    TermLaws.RowReachedIsTarget(t.(modes := t.modes.(origin := on)), 1);
  }

  /** The private modes that are known. */
  const KNOWN: set<u16> := {1, 6, 7, 9, 25, 47, 66, 1000, 1002, 1003, 1006, 1047, 1049, 2004}

  /** No other mode does anything. */
  lemma OthersDoNothing(t: Term, mode: u16, on: bool)
    requires WF(t)
    ensures mode !in KNOWN ==> Set(t, mode, on) == t
    ensures mode != 4 ==> Apply(t, ModeAction([[mode]], false, on)) == t
  {
    hide Apply;
    OneMode(t, mode, true, on);
    OneMode(t, mode, false, on);
  }

  // ---- the alternate screen -------------------------------------------

  /**
   * Entering the alternate screen saves the cursor, unless it is already shown;
   * 1049 also empties it and resets the cursor, the pending wrap and the region.
   */
  lemma EntersExactly(t: Term, mode: u16)
    requires WF(t) && AlternateLaws.Switches(mode)
    ensures var u := if t.onAlternate then t
        else t.(onAlternate := true, saved := SavedCursor(t.cursor, t.pen, t.wrapPending, t.modes.origin));
      var r := Set(t, mode, true);
      if mode != 1049 then r == u
      else
        && r == At(u.(alternate := r.alternate, top := 0, bottom := t.rows - 1), 0, 0)
        && Rect(r.alternate.grid, t.rows, t.cols)
        && forall i, c :: 0 <= i < t.rows && 0 <= c < t.cols ==> r.alternate.grid[i][c] == EMPTY
  {
    hide Apply;
    OneMode(t, mode, true, true);
  }

  /** Leaving it restores the cursor, unless the primary screen is shown. */
  lemma LeavesExactly(t: Term, mode: u16)
    requires WF(t) && AlternateLaws.Switches(mode)
    ensures var u := t.(onAlternate := false);
      Set(t, mode, false) == if !t.onAlternate then t else Apply(u, Esc([], false, 56))
  {
    hide Apply, RestoreCursor;
    OneMode(t, mode, true, false);
    if t.onAlternate {
      RestoreApplied(t.(onAlternate := false), []);
    }
  }

  // ---- the scroll region ----------------------------------------------

  /** The last line asked for: the screen's when none or zero is given. */
  function LastLine(t: Term, params: seq<seq<u16>>): u16 {
    if Asked(params, 1) == 0 then t.rows else Asked(params, 1)
  }

  /**
   * DECSTBM takes a region of two lines or more that lies on the screen, resets
   * it to the whole screen when nothing is asked for, and keeps it otherwise; the
   * cursor goes home in every case. A private one does nothing.
   */
  lemma RegionExactly(t: Term, params: seq<seq<u16>>, intermediates: seq<u8>)
    requires WF(t)
    ensures var first, last := Count(params, 0), LastLine(t, params);
      var proper := first < last <= t.rows;
      var top := if proper then first - 1 else if params == [] then 0 else t.top;
      var bottom := if proper then last - 1 else if params == [] then t.rows - 1 else t.bottom;
      Apply(t, Csi(params, intermediates, false, 'r'))
        == if intermediates != [] && intermediates[0] == 63 then t
           else At(t.(top := top, bottom := bottom), if t.modes.origin then top else 0, 0)
  {
    hide Apply;
    TermLaws.ModeApplied(t, params, intermediates, 'r');
  }

  // ---- the pen --------------------------------------------------------

  /** SGR changes the pen alone, to what its codes make of it; a private one does nothing. */
  lemma PenExactly(t: Term, params: seq<seq<u16>>, intermediates: seq<u8>)
    requires WF(t)
    ensures Apply(t, Csi(params, intermediates, false, 'm'))
      == if intermediates != [] && intermediates[0] == 63 then t
         else t.(pen := Sgr.Render(t.pen, FlattenParams(params)))
  {
    hide Apply, Sgr.Render, FlattenParams;
    TermLaws.ModeApplied(t, params, intermediates, 'm');
  }

  // ---- queries --------------------------------------------------------

  /** DSR 5 is answered with `ESC [ 0 n`, 6 with `ESC [ row ; col R`, and nothing else is; DA1 with `ESC [ ? 6 c`. */
  lemma RepliesExactly(t: Term, params: seq<seq<u16>>, intermediates: seq<u8>)
    requires WF(t)
    ensures var private := intermediates != [] && intermediates[0] == 63;
      var row, col := Digits.Decimal(t.cursor.row + 1), Digits.Decimal(t.cursor.col + 1);
      Apply(t, Csi(params, intermediates, false, 'n')) == t.(replies := t.replies +
        if private then []
        else if Asked(params, 0) == 5 then [0x1b, 0x5b, 0x30, 0x6e]
        else if Asked(params, 0) == 6 then [0x1b, 0x5b] + row + [0x3b] + col + [0x52]
        else [])
    ensures Apply(t, Csi(params, intermediates, false, 'c'))
      == t.(replies := t.replies + if intermediates == [] then [0x1b, 0x5b, 0x3f, 0x36, 0x63] else [])
  {
    hide Apply;
    assert t.replies + [] == t.replies;
    TermLaws.ModeApplied(t, params, intermediates, 'n');
    TermLaws.ModeApplied(t, params, intermediates, 'c');
  }

  // ---- what does nothing ----------------------------------------------

  /** The final bytes that mean something after `CSI`. */
  const CSI_FINALS: set<char> := {'@', 'A', 'B', 'C', 'D', 'E', 'F', 'G', 'H', 'J', 'K', 'L', 'M', 'P', 'S', 'T',
    'X', '`', 'c', 'd', 'f', 'h', 'l', 'm', 'n', 'r', 's', 'u'}

  /** Every other sequence, a malformed one, and private forms of saving and restoring change nothing at all. */
  lemma UnknownDoesNothing(t: Term, params: seq<seq<u16>>, intermediates: seq<u8>, action: char, final: u8, byte: u8)
    requires WF(t)
    ensures Apply(t, Csi(params, intermediates, true, action)) == t
    ensures action !in CSI_FINALS ==> Apply(t, Csi(params, intermediates, false, action)) == t
    ensures intermediates != [] && intermediates[0] == 63 ==>
      Apply(t, Csi(params, intermediates, false, 's')) == t == Apply(t, Csi(params, intermediates, false, 'u'))
    ensures Apply(t, Esc(intermediates, true, final)) == t
    ensures intermediates != [] ==> Apply(t, Esc(intermediates, false, final)) == t
    ensures final !in {55, 56, 68, 69, 77, 99} ==> Apply(t, Esc([], false, final)) == t
    ensures !(0x07 <= byte <= 0x0d) ==> Apply(t, Execute(byte)) == t
  {
    hide CsiMove, CsiEdit, SaveCursor, RestoreCursor, LineFeed, ResetChildState;
  }

  // ---- a new terminal, and a reset ------------------------------------

  /** A new terminal is empty, shows the primary screen and the cursor, wraps lines, and has nothing pending. */
  lemma NewExactly(rows: NonZeroU16, cols: NonZeroU16)
    ensures var t := New(rows, cols);
      && t.rows == rows && t.cols == cols && !t.onAlternate && t.cursor == Position(0, 0) && !t.wrapPending
      && t.saved == SavedCursor(Position(0, 0), t.pen, false, false)
      && t.pen == Style(None, None, false, false, false, false, None)
      && t.modes == Modes(true, false, false, false, false, false, true, MouseOff, false)
      && t.top == 0 && t.bottom == rows - 1 && t.title == [] && t.scrollback == [] && t.replies == []
      && t.nextLink == 1 && t.events == Events(false, false, false, false, [])
      && (forall i, c :: 0 <= i < rows && 0 <= c < cols ==>
            t.primary.grid[i][c] == t.alternate.grid[i][c] == Cell(' ', 1, t.pen))
  {
  }

  /** RIS gives a new terminal, except that what the caller has still to send and to learn is kept. */
  lemma ResetsExactly(t: Term)
    requires WF(t)
    ensures Apply(t, Esc([], false, 99)) == New(t.rows, t.cols).(
      primary := New(t.rows, t.cols).primary.(dirty := true), replies := t.replies, nextLink := t.nextLink,
      events := t.events.(payload := [], terminalReset := true))
  {
    hide ResetChildState;
  }
}
