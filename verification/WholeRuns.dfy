/** Wide glyphs over whole runs, ICH, DCH and insert mode included. */
module WholeRuns {
  import opened TerminalTypes
  import opened Grid
  import opened TermSpec
  import opened GridLaws
  import opened PairLaws
  import S = ScreenSpec
  import TermLaws

  /** Wide glyphs are whole on both screens. */
  ghost predicate Whole(t: Term) {
    AllPaired(t.primary.grid) && AllPaired(t.alternate.grid)
  }

  function Hidden(t: Term): S.ScreenV {
    if t.onAlternate then t.primary else t.alternate
  }

  /** The same screen is shown, and the other is as it was. */
  predicate SameHidden(t: Term, r: Term) {
    r.onAlternate == t.onAlternate && Hidden(r) == Hidden(t)
  }

  /** What can be checked before an action that could halve a glyph. */
  predicate Careful(t: Term, a: Action)
    requires WF(t)
  {
    match a
    case Print(_, width) =>
      var w := DisplayWidth(width);
      !(t.modes.insert && 0 < w && !BreaksLine(t, w) && t.cursor.col + w <= t.cols
        && TrailAt(CursorRow(t), t.cursor.col))
    case Csi(params, _, ignored, action) =>
      || ignored
      || (&& (action == '@' ==> !TrailAt(CursorRow(t), t.cursor.col))
          && (action == 'P' ==>
                var end := t.cursor.col + Min(ParamOr(params, 0, 1), t.cols - t.cursor.col);
                TrailAt(CursorRow(t), t.cursor.col) <==> TrailAt(CursorRow(t), end)))
    case _ => true
  }

  // ---- printing -------------------------------------------------------

  lemma WholeLineFeed(t: Term)
    requires WF(t) && Whole(t)
    ensures Whole(LineFeed(t)) && SameHidden(t, LineFeed(t))
  {
  }

  lemma WholeNextLine(t: Term)
    requires WF(t) && Whole(t)
    ensures Whole(LineFeed(CarriageReturn(t))) && SameHidden(t, LineFeed(CarriageReturn(t)))
  {
    WholeLineFeed(CarriageReturn(t));
  }

  lemma WholeLanding(t: Term, w: nat)
    requires WF(t) && Whole(t)
    ensures Whole(Landing(t, w)) && SameHidden(t, Landing(t, w))
  {
    if t.wrapPending {
      WholeNextLine(t.(wrapPending := false));
    }
    WholeNextLine(WrapPending(t));
  }

  lemma PutHidesNothing(t: Term, ch: char, w: nat)
    requires WF(t) && 1 <= w <= 2
    ensures SameHidden(t, PutIfRoom(t, ch, w)) && (!t.modes.insert && Whole(t) ==> Whole(PutIfRoom(t, ch, w)))
  {
  }

  lemma PrintWholeExactly(t: Term, ch: char, width: Option<nat>)
    requires WF(t) && Whole(t)
    ensures Whole(PrintChar(t, ch, width)) <==> Careful(t, Print(ch, width))
  {
    var w := DisplayWidth(width);
    if w > 0 {
      WholeLanding(t, w);
      LandsPaired(t, w);
      PutHidesNothing(Landing(t, w), ch, w);
      if t.modes.insert {
        InsertModeSplitsExactly(t, ch, width);
      }
    }
  }

  // ---- control sequences ----------------------------------------------

  lemma WholeMove(t: Term, action: char, n: u16, m: u16)
    requires WF(t) && Whole(t)
    ensures Whole(CsiMove(t, action, n, m))
  {
  }

  lemma WholeErase(t: Term, mode: u16)
    requires WF(t) && Whole(t)
    ensures Whole(EraseDisplay(t, mode))
  {
  }

  lemma WholeSpans(t: Term, mode: u16, to: nat)
    requires WF(t) && Whole(t)
    ensures Whole(EraseLine(t, mode)) && Whole(EraseCells(t, t.cursor.row, t.cursor.col, to))
  {
  }

  lemma WholeLines(t: Term, n: nat)
    requires WF(t) && Whole(t)
    ensures Whole(InsertLines(t, n)) && Whole(DeleteLines(t, n)) && Whole(ScrollDown(t, n))
  {
  }

  lemma WholeScroll(t: Term, n: nat)
    requires WF(t) && Whole(t)
    ensures Whole(ScrollUpScreen(t, n))
  {
  }

  lemma WholeEdit(t: Term, action: char, n: u16, mode: u16)
    requires WF(t) && Whole(t) && action != '@' && action != 'P'
    ensures Whole(CsiEdit(t, action, n, mode))
  {
    hide EraseDisplay, EraseLine, EraseCells, InsertLines, DeleteLines, ScrollDown, ScrollUpScreen, Whole;
    WholeErase(t, mode);
    WholeSpans(t, mode, SatAdd16(t.cursor.col, n));
    WholeLines(t, n);
    WholeScroll(t, n);
  }

  lemma ShiftHidesNothing(t: Term, n: nat)
    requires WF(t)
    ensures SameHidden(t, InsertColumns(t, n)) && SameHidden(t, DeleteColumns(t, n))
  {
  }

  lemma WholeRestore(t: Term)
    requires WF(t) && Whole(t)
    ensures Whole(RestoreCursor(t))
  {
  }

  lemma WholeMode(t: Term, param: u16, private: bool, enable: bool)
    requires WF(t) && Whole(t)
    ensures Whole(SetMode(t, param, private, enable))
  {
  }

  lemma {:induction false} WholeModes(t: Term, params: seq<u16>, private: bool, enable: bool)
    requires WF(t) && Whole(t)
    ensures Whole(SetModes(t, params, private, enable))
    decreases |params|
  {
    if params != [] {
      WholeMode(t, params[0], private, enable);
      WholeModes(SetMode(t, params[0], private, enable), params[1..], private, enable);
    }
  }

  lemma WholeCsiMode(t: Term, params: seq<seq<u16>>, private: bool, plain: bool, action: char)
    requires WF(t) && Whole(t)
    ensures Whole(CsiMode(t, params, private, plain, action))
  {
    hide RestoreCursor;
    WholeRestore(t);
    if action == 'h' || action == 'l' {
      WholeModes(t, FlattenParams(params), private, action == 'h');
    }
  }

  lemma CsiWholeExactly(t: Term, params: seq<seq<u16>>, intermediates: seq<u8>, action: char)
    requires WF(t) && Whole(t)
    ensures var a := Csi(params, intermediates, false, action);
      Whole(Apply(t, a)) <==> Careful(t, a)
  {
    hide Apply, CsiMove, CsiEdit, CsiMode, InsertColumns, DeleteColumns;
    if MovesCursor(action) {
      TermLaws.MoveApplied(t, params, intermediates, action);
      WholeMove(t, action, ParamOr(params, 0, 1), ParamOr(params, 1, 1));
    } else if action == '@' || action == 'P' {
      CsiShifts(t, params, intermediates);
      ShiftHidesNothing(t, ParamOr(params, 0, 1));
      InsertSplitsExactly(t, params, intermediates);
      DeleteSplitsExactly(t, params, intermediates);
    } else if EditsScreen(action) {
      TermLaws.EditApplied(t, params, intermediates, action);
      WholeEdit(t, action, ParamOr(params, 0, 1), ParamOr(params, 0, 0));
    } else {
      TermLaws.ModeApplied(t, params, intermediates, action);
      WholeCsiMode(t, params, |intermediates| > 0 && intermediates[0] == 63, intermediates == [], action);
    }
  }

  // ---- actions and runs -----------------------------------------------

  lemma WholeExecute(t: Term, byte: u8)
    requires WF(t) && Whole(t)
    ensures Whole(HandleExecute(t, byte))
  {
    WholeLineFeed(t);
  }

  lemma WholeEsc(t: Term, final: u8)
    requires WF(t) && Whole(t)
    ensures Whole(HandleEsc(t, final))
  {
    hide LineFeed, RestoreCursor;
    WholeLineFeed(t);
    WholeNextLine(t);
    WholeRestore(t);
  }

  lemma WholeOsc(t: Term, fields: seq<seq<u8>>)
    requires WF(t) && Whole(t)
    ensures Whole(HandleOsc(t, fields))
  {
  }

  /** An action leaves every glyph whole exactly if it is careful. */
  lemma ActionWholeExactly(t: Term, a: Action)
    requires WF(t) && Whole(t)
    ensures Whole(Apply(t, a)) <==> Careful(t, a)
  {
    match a
    case Print(ch, width) => PrintWholeExactly(t, ch, width);
    case Execute(byte) => WholeExecute(t, byte);
    case Esc(_, _, final) => WholeEsc(t, final);
    case Csi(params, intermediates, ignored, action) =>
      if !ignored {
        CsiWholeExactly(t, params, intermediates, action);
      }
    case Osc(fields) => WholeOsc(t, fields);
  }

  predicate AllCareful(t: Term, actions: seq<Action>)
    requires WF(t)
    decreases |actions|
  {
    actions == [] || (Careful(t, actions[0]) && AllCareful(Apply(t, actions[0]), actions[1..]))
  }

  /** Glyphs are whole after every one of the actions. */
  ghost predicate StaysWhole(t: Term, actions: seq<Action>)
    requires WF(t)
    decreases |actions|
  {
    Whole(t) && (actions == [] || StaysWhole(Apply(t, actions[0]), actions[1..]))
  }

  lemma {:induction false} ActionsWholeExactly(t: Term, actions: seq<Action>)
    requires WF(t) && Whole(t)
    ensures StaysWhole(t, actions) <==> AllCareful(t, actions)
    ensures StaysWhole(t, actions) ==> Whole(ApplyAll(t, actions))
    decreases |actions|
  {
    if actions != [] {
      ActionWholeExactly(t, actions[0]);
      if Careful(t, actions[0]) {
        ActionsWholeExactly(Apply(t, actions[0]), actions[1..]);
      }
    }
  }

  /** Every action of every feed is careful when it comes. */
  predicate CarefulRun(t: Term, calls: seq<Call>)
    requires WF(t)
    decreases |calls|
  {
    calls == []
    || ((calls[0].CallFeed? ==> AllCareful(t, calls[0].actions)) && CarefulRun(Step(t, calls[0]), calls[1..]))
  }

  /** Glyphs are whole after every call, and within every feed after every action. */
  ghost predicate WholeRun(t: Term, calls: seq<Call>)
    requires WF(t)
    decreases |calls|
  {
    && Whole(t)
    && (calls == []
        || ((calls[0].CallFeed? ==> StaysWhole(t, calls[0].actions)) && WholeRun(Step(t, calls[0]), calls[1..])))
  }

  lemma WholeFeed(t: Term, actions: seq<Action>)
    requires WF(t) && Whole(ApplyAll(t, actions))
    ensures Whole(Feed(t, actions))
  {
  }

  lemma WholeResize(t: Term, rows: NonZeroU16, cols: NonZeroU16)
    requires WF(t) && Whole(t)
    ensures Whole(Resize(t, rows, cols))
  {
  }

  lemma StepWhole(t: Term, c: Call)
    requires WF(t) && Whole(t) && (c.CallFeed? ==> StaysWhole(t, c.actions))
    ensures Whole(Step(t, c))
  {
    match c
    case CallFeed(actions) =>
      ActionsWholeExactly(t, actions);
      WholeFeed(t, actions);
    case CallResize(rows, cols) => WholeResize(t, rows, cols);
    case CallTrim(_, _) =>
  }

  /** From a whole terminal no glyph is halved in a run exactly if every action of it is careful. */
  lemma {:induction false} RunWholeExactly(t: Term, calls: seq<Call>)
    requires WF(t) && Whole(t)
    ensures WholeRun(t, calls) <==> CarefulRun(t, calls)
    decreases |calls|
  {
    if calls != [] {
      if calls[0].CallFeed? {
        ActionsWholeExactly(t, calls[0].actions);
      }
      if calls[0].CallFeed? ==> StaysWhole(t, calls[0].actions) {
        StepWhole(t, calls[0]);
        RunWholeExactly(Step(t, calls[0]), calls[1..]);
      }
    }
  }
}
