/** Exactly when the controls that shift cells within a row leave half a wide glyph behind. */
module PairLaws {
  import opened TerminalTypes
  import opened Grid
  import opened TermSpec
  import opened GridLaws
  import AlternateLaws
  import ChunkLaws
  import TermLaws

  /** The active screen's row the cursor is on. */
  function CursorRow(t: Term): Row
    requires WF(t)
  {
    Active(t).grid[t.cursor.row]
  }

  lemma OneRow(g: Rows, i: nat, row: Row)
    requires i < |g| && AllPaired(g)
    ensures AllPaired(g[i := row]) <==> Paired(row)
  {
    assert g[i := row][i] == row;
  }

  lemma ParamPositive(params: seq<seq<u16>>)
    ensures ParamOr(params, 0, 1) >= 1
  {
  }

  // ---- ICH and DCH ----------------------------------------------------

  lemma ShiftedRow(t: Term, n: u16)
    requires WF(t) && n > 0
    ensures var count := Min(n, t.cols - t.cursor.col);
      && Active(InsertColumns(t, n)).grid
        == Active(t).grid[t.cursor.row := InsertCells(CursorRow(t), t.cursor.col, count, t.pen)]
      && Active(DeleteColumns(t, n)).grid
        == Active(t).grid[t.cursor.row := DeleteCells(CursorRow(t), t.cursor.col, count, t.pen)]
  {
  }

  lemma CsiShifts(t: Term, params: seq<seq<u16>>, intermediates: seq<u8>)
    requires WF(t)
    ensures Apply(t, Csi(params, intermediates, false, '@')) == InsertColumns(t, ParamOr(params, 0, 1))
    ensures Apply(t, Csi(params, intermediates, false, 'P')) == DeleteColumns(t, ParamOr(params, 0, 1))
  {
    hide Apply;
    TermLaws.EditApplied(t, params, intermediates, '@');
    TermLaws.EditApplied(t, params, intermediates, 'P');
  }

  /** ICH keeps wide glyphs whole exactly when the cursor is not on a trailing half. */
  lemma InsertSplitsExactly(t: Term, params: seq<seq<u16>>, intermediates: seq<u8>)
    requires WF(t) && AllPaired(Active(t).grid)
    ensures AllPaired(Active(Apply(t, Csi(params, intermediates, false, '@'))).grid)
      <==> !TrailAt(CursorRow(t), t.cursor.col)
  {
    hide Apply, InsertColumns;
    var n := ParamOr(params, 0, 1);
    var count := Min(n, t.cols - t.cursor.col);
    ParamPositive(params);
    CsiShifts(t, params, intermediates);
    ShiftedRow(t, n);
    InsertKeepsPairs(CursorRow(t), t.cursor.col, count, t.pen);
    OneRow(Active(t).grid, t.cursor.row, InsertCells(CursorRow(t), t.cursor.col, count, t.pen));
  }

  /** DCH does exactly when the cells it removes start and end alike with respect to trailing halves. */
  lemma DeleteSplitsExactly(t: Term, params: seq<seq<u16>>, intermediates: seq<u8>)
    requires WF(t) && AllPaired(Active(t).grid)
    ensures var end := t.cursor.col + Min(ParamOr(params, 0, 1), t.cols - t.cursor.col);
      AllPaired(Active(Apply(t, Csi(params, intermediates, false, 'P'))).grid)
      <==> (TrailAt(CursorRow(t), t.cursor.col) <==> TrailAt(CursorRow(t), end))
  {
    hide Apply, DeleteColumns;
    var n := ParamOr(params, 0, 1);
    var count := Min(n, t.cols - t.cursor.col);
    ParamPositive(params);
    CsiShifts(t, params, intermediates);
    ShiftedRow(t, n);
    DeleteKeepsPairs(CursorRow(t), t.cursor.col, count, t.pen);
    OneRow(Active(t).grid, t.cursor.row, DeleteCells(CursorRow(t), t.cursor.col, count, t.pen));
  }

  // ---- printing in insert mode ----------------------------------------

  /** A glyph put over single cells is there, and nothing before it changes. */
  lemma PutOverBlanks(row: Row, col: nat, ch: char, w: u8, style: Style)
    requires 1 <= w <= 2 && col + w <= |row| && row[col].width == 1 && row[col + w - 1].width == 1
    ensures var r := PutAt(row, col, ch, w, style);
      r[col].width == w && forall k :: 0 <= k < col ==> r[k] == row[k]
  {
  }

  /** A glyph put into the cells inserted for it is whole; what it was inserted into may not be. */
  lemma PutKeepsPairs(row: Row, col: nat, ch: char, w: u8, style: Style)
    requires Paired(row) && 1 <= w <= 2 && col + w <= |row|
    ensures Paired(PutAt(InsertCells(row, col, w, style), col, ch, w, style)) <==> !TrailAt(row, col)
  {
    var shifted := InsertCells(row, col, w, style);
    InsertKeepsPairs(row, col, w, style);
    if row[col].width == 0 {
      InsertedAt(row, col, w, style);
      PutOverBlanks(shifted, col, ch, w, style);
      assert PutAt(shifted, col, ch, w, style)[col - 1].width == 2;
    }
  }

  /** Where the glyph of a print lands, if it lands at all. */
  function Landing(t: Term, w: nat): Term
    requires WF(t)
  {
    MakeRoom(WrapPending(t), w)
  }

  /** A print that moves to another line starts at its first column. */
  predicate BreaksLine(t: Term, w: nat) {
    t.modes.autowrap && (t.wrapPending || t.cursor.col + w > t.cols)
  }

  lemma BrokenLine(t: Term)
    requires WF(t) && AllPaired(Active(t).grid)
    ensures var u := LineFeed(CarriageReturn(t));
      u.cursor.col == 0 && u.modes == t.modes && AllPaired(Active(u).grid)
  {
  }

  lemma LandsPaired(t: Term, w: nat)
    requires WF(t) && AllPaired(Active(t).grid) && 1 <= w <= 2
    ensures var u := Landing(t, w);
      && AllPaired(Active(u).grid) && u.modes == t.modes
      && (if BreaksLine(t, w) then u.cursor.col == 0
          else if t.cursor.col + w <= t.cols then u.cursor == t.cursor && Active(u).grid == Active(t).grid
          else u.cursor.col + w > u.cols)
  {
    if t.wrapPending {
      BrokenLine(t.(wrapPending := false));
    }
    BrokenLine(WrapPending(t));
  }

  lemma PlacedGlyph(t: Term, ch: char, w: nat)
    requires WF(t) && 1 <= w <= 2 && t.cursor.col + w <= t.cols
    ensures Active(Advance(PutGlyph(t, ch, w), w)).grid
      == Active(t).grid[t.cursor.row := PutAt(CursorRow(t), t.cursor.col, ch, w, t.pen)]
  {
  }

  lemma InsertedGlyph(t: Term, ch: char, w: nat)
    requires WF(t) && t.modes.insert && 1 <= w <= 2 && t.cursor.col + w <= t.cols
    ensures Active(PutChar(t, ch, w)).grid == Active(t).grid[t.cursor.row :=
      PutAt(InsertCells(CursorRow(t), t.cursor.col, w, t.pen), t.cursor.col, ch, w, t.pen)]
  {
    ShiftedRow(t, w);
    PlacedGlyph(InsertColumns(t, w), ch, w);
  }

  lemma LandedSplitsExactly(t: Term, ch: char, w: nat)
    requires WF(t) && t.modes.insert && AllPaired(Active(t).grid) && 1 <= w <= 2
    ensures AllPaired(Active(PutIfRoom(t, ch, w)).grid)
      <==> !(t.cursor.col + w <= t.cols && TrailAt(CursorRow(t), t.cursor.col))
  {
    if t.cursor.col + w <= t.cols {
      InsertedGlyph(t, ch, w);
      PutKeepsPairs(CursorRow(t), t.cursor.col, ch, w, t.pen);
      OneRow(Active(t).grid, t.cursor.row,
        PutAt(InsertCells(CursorRow(t), t.cursor.col, w, t.pen), t.cursor.col, ch, w, t.pen));
    }
  }

  lemma NoTrailFirst(t: Term)
    requires WF(t) && AllPaired(Active(t).grid) && t.cursor.col == 0
    ensures !TrailAt(CursorRow(t), 0)
  {
    assert Paired(CursorRow(t));
  }

  /**
   * Printing in insert mode keeps wide glyphs whole exactly unless the glyph goes
   * where the cursor is and that is a trailing half.
   */
  lemma InsertModeSplitsExactly(t: Term, ch: char, width: Option<nat>)
    requires WF(t) && t.modes.insert && AllPaired(Active(t).grid)
    ensures var w := DisplayWidth(width);
      AllPaired(Active(PrintChar(t, ch, width)).grid)
      <==> !(0 < w && !BreaksLine(t, w) && t.cursor.col + w <= t.cols && TrailAt(CursorRow(t), t.cursor.col))
  {
    var w := DisplayWidth(width);
    if 0 < w {
      LandsPaired(t, w);
      LandedSplitsExactly(Landing(t, w), ch, w);
      if BreaksLine(t, w) {
        NoTrailFirst(Landing(t, w));
      }
    }
  }

  // ---- a program that does it -----------------------------------------

  /** A wide glyph, and the cursor back on its trailing half. */
  function OntoTrail(ch: char): seq<Action> {
    [Print(ch, Some(2)), Csi([[1]], [], false, 'D')]
  }

  lemma WideGlyph(rows: NonZeroU16, cols: NonZeroU16, ch: char)
    requires cols >= 3
    ensures var t := Apply(New(rows, cols), Print(ch, Some(2)));
      && t.cursor == Position(0, 2) && !t.wrapPending && !t.onAlternate && t.modes == DEFAULT_MODES
      && t.primary.grid[0][1].width == 0 && AllPaired(t.primary.grid)
  {
    hide HandleCsi, HandleOsc, HandleEsc, HandleExecute;
    var t := New(rows, cols);
    assert Apply(t, Print(ch, Some(2))) == Advance(PutGlyph(t, ch, 2), 2);
    PlacedGlyph(t, ch, 2);
  }

  lemma StepBack(t: Term)
    requires WF(t) && t.cursor.col > 0
    ensures Apply(t, Csi([[1]], [], false, 'D'))
      == t.(wrapPending := false, cursor := Position(t.cursor.row, t.cursor.col - 1))
  {
    hide Apply;
    TermLaws.MoveApplied(t, [[1]], [], 'D');
  }

  lemma OntoTrailReached(rows: NonZeroU16, cols: NonZeroU16, ch: char)
    requires cols >= 3
    ensures var t := ApplyAll(New(rows, cols), OntoTrail(ch));
      && AllPaired(Active(t).grid) && t.modes == DEFAULT_MODES && !t.wrapPending && !t.onAlternate
      && t.cursor == Position(0, 1) && TrailAt(CursorRow(t), 1) && !TrailAt(CursorRow(t), 2)
  {
    var u := Apply(New(rows, cols), Print(ch, Some(2)));
    WideGlyph(rows, cols, ch);
    StepBack(u);
    assert OntoTrail(ch)[1..] == [Csi([[1]], [], false, 'D')];
    TermLaws.ApplyOne(u, Csi([[1]], [], false, 'D'));
    assert Paired(CursorRow(u));
  }

  /** What a feed shows is what its last action leaves. */
  lemma FeedShows(t: Term, actions: seq<Action>, last: Action)
    requires WF(t)
    ensures Active(Run(t, [CallFeed(actions + [last])])).grid == Active(Apply(ApplyAll(t, actions), last)).grid
  {
    hide Apply;
    ChunkLaws.ApplyAllAppend(t, actions, [last]);
    TermLaws.ApplyOne(ApplyAll(t, actions), last);
    assert [CallFeed(actions + [last])][1..] == [];
    assert Run(Step(t, CallFeed(actions + [last])), []) == Feed(t, actions + [last]);
  }

  /** `ESC [ 4 h`. */
  const INSERT_ON: Action := Csi([[4]], [], false, 'h')

  lemma InsertTurnsOn(t: Term)
    requires WF(t)
    ensures Apply(t, INSERT_ON) == t.(modes := t.modes.(insert := true))
  {
    hide Apply;
    assert FlattenParams([[4]]) == [4] by { AlternateLaws.FlattenOne(4); }
    assert SetModes(t, [4], false, true) == SetMode(t, 4, false, true) by {
      var values: seq<u16> := [4];
      assert values[1..] == [];
      assert SetModes(SetMode(t, 4, false, true), [], false, true) == SetMode(t, 4, false, true);
    }
    TermLaws.ModeApplied(t, [[4]], [], 'h');
  }

  /** On any new screen of three columns or more, ICH, DCH and insert mode can each halve a glyph within one feed. */
  lemma HalvedFromNew(rows: NonZeroU16, cols: NonZeroU16, ch: char)
    requires cols >= 3
    ensures var t := New(rows, cols);
      && !AllPaired(Active(Run(t, [CallFeed(OntoTrail(ch) + [Csi([], [], false, '@')])])).grid)
      && !AllPaired(Active(Run(t, [CallFeed(OntoTrail(ch) + [Csi([], [], false, 'P')])])).grid)
      && !AllPaired(Active(Run(t, [CallFeed(OntoTrail(ch) + [INSERT_ON] + [Print(ch, Some(1))])])).grid)
  {
    hide HandleCsi, HandleOsc, HandleEsc, HandleExecute;
    var t, u := New(rows, cols), ApplyAll(New(rows, cols), OntoTrail(ch));
    OntoTrailReached(rows, cols, ch);
    FeedShows(t, OntoTrail(ch), Csi([], [], false, '@'));
    FeedShows(t, OntoTrail(ch), Csi([], [], false, 'P'));
    FeedShows(t, OntoTrail(ch) + [INSERT_ON], Print(ch, Some(1)));
    InsertSplitsExactly(u, [], []);
    DeleteSplitsExactly(u, [], []);
    ChunkLaws.ApplyAllAppend(t, OntoTrail(ch), [INSERT_ON]);
    TermLaws.ApplyOne(u, INSERT_ON);
    InsertTurnsOn(u);
    InsertModeSplitsExactly(u.(modes := u.modes.(insert := true)), ch, Some(1));
  }
}
