/** The alternate screen: what is done on it leaves the primary screen and its history alone. */
module AlternateLaws {
  import opened TerminalTypes
  import opened TermSpec
  import S = ScreenSpec
  import ChunkLaws
  import TermLaws

  /** Still on the alternate screen, and everything the primary side holds is as it was. */
  ghost predicate Beside(t: Term, r: Term) {
    && WF(r) && r.onAlternate && r.rows == t.rows && r.cols == t.cols
    && r.primary == t.primary && r.scrollback == t.scrollback && r.saved == t.saved
  }

  /** The private modes that switch screens. */
  predicate Switches(param: u16) {
    param == 47 || param == 1047 || param == 1049
  }

  /** Neither leaves the alternate screen, nor saves the cursor, nor erases history. */
  predicate Stays(a: Action) {
    match a
    case Esc(_, _, final) => final != 55 && final != 99
    case Csi(params, intermediates, _, action) =>
      var private := |intermediates| > 0 && intermediates[0] == 63;
      && action != 's'
      && (action == 'J' ==> ParamOr(params, 0, 0) != 3)
      && (action == 'l' && private ==> forall p :: p in FlattenParams(params) ==> !Switches(p))
    case _ => true
  }

  lemma BesideErase(t: Term, mode: u16)
    requires WF(t) && t.onAlternate && mode != 3
    ensures Beside(t, EraseDisplay(t, mode))
  {
  }

  lemma BesideEdit(t: Term, action: char, n: u16, mode: u16)
    requires WF(t) && t.onAlternate && (action == 'J' ==> mode != 3)
    ensures Beside(t, CsiEdit(t, action, n, mode))
  {
    hide S.EraseCells, S.EraseRows, S.InsertLines, S.DeleteLines, S.InsertColumns, S.DeleteColumns, S.ScrollUp,
      S.ScrollDown, PushDisplaced;
    if action == 'J' {
      BesideErase(t, mode);
    }
  }

  lemma BesideLineFeed(t: Term)
    requires WF(t) && t.onAlternate
    ensures Beside(t, LineFeed(t))
  {
  }

  lemma BesideNextLine(t: Term)
    requires WF(t) && t.onAlternate
    ensures Beside(t, LineFeed(CarriageReturn(t)))
  {
    BesideLineFeed(CarriageReturn(t));
  }

  lemma BesideWrap(t: Term)
    requires WF(t) && t.onAlternate
    ensures Beside(t, WrapPending(t))
  {
    if t.wrapPending {
      BesideNextLine(t.(wrapPending := false));
    }
  }

  lemma BesideRoom(t: Term, w: nat)
    requires WF(t) && t.onAlternate
    ensures Beside(t, MakeRoom(t, w))
  {
    BesideNextLine(t);
  }

  lemma BesidePut(t: Term, ch: char, w: nat)
    requires WF(t) && t.onAlternate && 1 <= w <= 2
    ensures Beside(t, PutIfRoom(t, ch, w))
  {
  }

  lemma BesidePrint(t: Term, ch: char, width: Option<nat>)
    requires WF(t) && t.onAlternate
    ensures Beside(t, PrintChar(t, ch, width))
  {
    var w := DisplayWidth(width);
    if w != 0 {
      var u := WrapPending(t);
      BesideWrap(t);
      BesideRoom(u, w);
      BesidePut(MakeRoom(u, w), ch, w);
    }
  }

  lemma BesideExecute(t: Term, byte: u8)
    requires WF(t) && t.onAlternate
    ensures Beside(t, HandleExecute(t, byte))
  {
    BesideLineFeed(t);
  }

  lemma BesideEsc(t: Term, final: u8)
    requires WF(t) && t.onAlternate && final != 55 && final != 99
    ensures Beside(t, HandleEsc(t, final))
  {
    BesideLineFeed(t);
    BesideNextLine(t);
  }

  lemma BesideMode(t: Term, param: u16, private: bool, enable: bool)
    requires WF(t) && t.onAlternate && (private && !enable ==> !Switches(param))
    ensures Beside(t, SetMode(t, param, private, enable))
  {
  }

  lemma {:induction false} BesideModes(t: Term, params: seq<u16>, private: bool, enable: bool)
    requires WF(t) && t.onAlternate
    requires private && !enable ==> forall p :: p in params ==> !Switches(p)
    ensures Beside(t, SetModes(t, params, private, enable))
    decreases |params|
  {
    if params != [] {
      BesideMode(t, params[0], private, enable);
      BesideModes(SetMode(t, params[0], private, enable), params[1..], private, enable);
    }
  }

  lemma BesideCsiMode(t: Term, params: seq<seq<u16>>, private: bool, plain: bool, action: char)
    requires WF(t) && t.onAlternate && action != 's'
    requires action == 'l' && private ==> forall p :: p in FlattenParams(params) ==> !Switches(p)
    ensures Beside(t, CsiMode(t, params, private, plain, action))
  {
    if action == 'h' || action == 'l' {
      BesideModes(t, FlattenParams(params), private, action == 'h');
    }
  }

  lemma BesideMove(t: Term, action: char, n: u16, m: u16)
    requires WF(t) && t.onAlternate
    ensures Beside(t, CsiMove(t, action, n, m))
  {
  }

  lemma BesideCsi(t: Term, params: seq<seq<u16>>, intermediates: seq<u8>, action: char)
    requires WF(t) && t.onAlternate && Stays(Csi(params, intermediates, false, action))
    ensures Beside(t, HandleCsi(t, params, intermediates, action))
  {
    if MovesCursor(action) {
      BesideMove(t, action, ParamOr(params, 0, 1), ParamOr(params, 1, 1));
    } else if EditsScreen(action) {
      BesideEdit(t, action, ParamOr(params, 0, 1), ParamOr(params, 0, 0));
    } else {
      BesideCsiMode(t, params, |intermediates| > 0 && intermediates[0] == 63, intermediates == [], action);
    }
  }

  lemma BesideOsc(t: Term, fields: seq<seq<u8>>)
    requires WF(t) && t.onAlternate
    ensures Beside(t, HandleOsc(t, fields))
  {
  }

  lemma BesideApply(t: Term, a: Action)
    requires WF(t) && t.onAlternate && Stays(a)
    ensures Beside(t, Apply(t, a))
  {
    match a
    case Print(ch, width) => BesidePrint(t, ch, width);
    case Execute(byte) => BesideExecute(t, byte);
    case Esc(_, _, final) => BesideEsc(t, final);
    case Csi(params, intermediates, ignored, action) =>
      if !ignored {
        BesideCsi(t, params, intermediates, action);
      }
    case Osc(fields) => BesideOsc(t, fields);
  }

  lemma {:induction false} BesideAll(t: Term, actions: seq<Action>)
    requires WF(t) && t.onAlternate && forall i :: 0 <= i < |actions| ==> Stays(actions[i])
    ensures Beside(t, ApplyAll(t, actions))
    decreases |actions|
  {
    if actions != [] {
      BesideApply(t, actions[0]);
      BesideAll(Apply(t, actions[0]), actions[1..]);
    }
  }

  /** `ESC [ ? param h` and `ESC [ ? param l`. */
  function Switch(param: u16, enter: bool): Action {
    Csi([[param]], [63], false, if enter then 'h' else 'l')
  }

  lemma FlattenOne(param: u16)
    ensures FlattenParams([[param]]) == [param]
  {
    var values: seq<u16> := [param];
    assert [values][1..] == [] && values + [] == values;
    assert FlattenParams([values]) == values + FlattenParams([]);
  }

  lemma OneMode(t: Term, param: u16, enter: bool)
    requires WF(t) && Switches(param)
    ensures SetModes(t, [param], true, enter) == SetAlternate(t, enter, param == 1049)
  {
    assert [param][1..] == [];
    assert SetModes(SetMode(t, param, true, enter), [], true, enter) == SetMode(t, param, true, enter);
  }

  lemma SwitchSets(t: Term, param: u16, enter: bool)
    requires WF(t) && Switches(param)
    ensures Apply(t, Switch(param, enter)) == SetAlternate(t, enter, param == 1049)
  {
    hide Apply;
    TermLaws.ModeApplied(t, [[param]], [63], if enter then 'h' else 'l');
    FlattenOne(param);
    OneMode(t, param, enter);
  }

  /** What entering the alternate screen keeps, and what it saves. */
  lemma Entered(t: Term, param: u16)
    requires WF(t) && !t.onAlternate && Switches(param)
    ensures var r := Apply(t, Switch(param, true));
      && Beside(t.(saved := SavedCursor(t.cursor, t.pen, t.wrapPending, t.modes.origin)), r)
  {
    SwitchSets(t, param, true);
  }

  lemma Left(t: Term, param: u16)
    requires WF(t) && t.onAlternate && Switches(param)
    ensures Apply(t, Switch(param, false)) == RestoreCursor(t.(onAlternate := false))
  {
    SwitchSets(t, param, false);
  }

  /** Entering, what is done there, and leaving, one after the other. */
  lemma VisitIs(t: Term, enter: Action, actions: seq<Action>, leave: Action)
    requires WF(t)
    ensures ApplyAll(t, [enter] + actions + [leave]) == Apply(ApplyAll(Apply(t, enter), actions), leave)
  {
    ChunkLaws.ApplyAllAppend(t, [enter] + actions, [leave]);
    ChunkLaws.ApplyAllAppend(t, [enter], actions);
    TermLaws.ApplyOne(t, enter);
    TermLaws.ApplyOne(ApplyAll(Apply(t, enter), actions), leave);
  }

  /**
   * Where the saved cursor comes to rest: in origin mode within the region there
   * is then, and never on the trailing half of a wide glyph.
   */
  function RestingPlace(t: Term, top: u16, bottom: u16): (c: Position)
    requires WF(t) && top <= bottom < t.rows
    ensures c.row < t.rows && c.col < t.cols
  {
    var row := if t.modes.origin then Clamp(t.cursor.row, top, bottom) else t.cursor.row;
    RepairCursorCell(t.(cursor := Position(row, t.cursor.col))).cursor
  }

  /** Leaving restores what entering saved, and the primary side is as it was. */
  lemma Restored(t: Term, v: Term)
    requires WF(t) && !t.onAlternate && v.onAlternate
    requires Beside(t.(saved := SavedCursor(t.cursor, t.pen, t.wrapPending, t.modes.origin)), v)
    ensures var r := RestoreCursor(v.(onAlternate := false));
      && !r.onAlternate && r.primary == t.primary && r.scrollback == t.scrollback
      && r.pen == t.pen && r.wrapPending == t.wrapPending && r.modes.origin == t.modes.origin
      && r.cursor == RestingPlace(t, v.top, v.bottom)
  {
  }

  /**
   * A full-screen program that enters the alternate screen, does anything but
   * leave it, save the cursor, reset or erase the history, and then leaves it
   * gives the primary screen, its history, the pen, the pending wrap and origin
   * mode back as they were, and the cursor too, except that it never rests on
   * the trailing half of a wide glyph, nor in origin mode outside the region the
   * program leaves, which is not given back.
   */
  lemma VisitKeepsThePrimary(t: Term, enter: u16, actions: seq<Action>, leave: u16)
    requires WF(t) && !t.onAlternate && Switches(enter) && Switches(leave)
    requires forall i :: 0 <= i < |actions| ==> Stays(actions[i])
    ensures var v := ApplyAll(Apply(t, Switch(enter, true)), actions);
      var r := ApplyAll(t, [Switch(enter, true)] + actions + [Switch(leave, false)]);
      && WF(v) && v.rows == t.rows
      && !r.onAlternate && r.primary == t.primary && r.scrollback == t.scrollback
      && r.pen == t.pen && r.wrapPending == t.wrapPending && r.modes.origin == t.modes.origin
      && r.cursor == RestingPlace(t, v.top, v.bottom)
  {
    hide Apply, ApplyAll;
    var u := Apply(t, Switch(enter, true));
    Entered(t, enter);
    BesideAll(u, actions);
    Left(ApplyAll(u, actions), leave);
    Restored(t, ApplyAll(u, actions));
    VisitIs(t, Switch(enter, true), actions, Switch(leave, false));
  }

  /**
   * Entering with 1049 resets the scroll region and leaving does not restore it:
   * a visit in which nothing is done keeps the region if and only if it was
   * entered another way or the region was the whole screen.
   */
  lemma VisitKeepsRegionExactly(t: Term, enter: u16, leave: u16)
    requires WF(t) && !t.onAlternate && Switches(enter) && Switches(leave)
    ensures var r := ApplyAll(t, [Switch(enter, true)] + [] + [Switch(leave, false)]);
      (r.top == t.top && r.bottom == t.bottom) <==> (enter != 1049 || (t.top == 0 && t.bottom == t.rows - 1))
  {
    var u := Apply(t, Switch(enter, true));
    SwitchSets(t, enter, true);
    Entered(t, enter);
    Left(u, leave);
    VisitIs(t, Switch(enter, true), [], Switch(leave, false));
  }
}
