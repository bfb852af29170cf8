/** For which budgets an exhausted pump leaves another needed when the emulator is the terminal. */
module TerminalExhaustion {
  import opened TerminalTypes
  import opened TermSpec
  import opened SessionTerminal
  import Digits
  import SessionSpec
  import SessionLaws
  import SessionRuns
  import SessionCosts
  import SessionStaging
  import SessionExhaustion
  import TermLaws

  // ---- a terminal for every reply -------------------------------------

  /** `ESC [ 5 n`, `ESC [ c` or `ESC [ 6 n`. */
  function Query(length: nat): Action {
    if length == 4 then Csi([[5]], [], false, 'n')
    else if length == 5 then Csi([], [], false, 'c')
    else Csi([[6]], [], false, 'n')
  }

  /** The least coordinate whose one-based number has so many digits. */
  function Coordinate(digits: nat): (x: u16)
    ensures x < 0xFFFF
  {
    if digits <= 1 then 0 else if digits == 2 then 9 else if digits == 3 then 99 else if digits == 4 then 999 else 9999
  }

  /** Where a report has that length. */
  function CursorFor(length: nat): Position {
    var rowDigits := if length <= 10 then 1 else length - 9;
    Position(Coordinate(rowDigits), Coordinate(SatSub(length, 4 + rowDigits)))
  }

  /** The largest terminal, asked once, at the byte `at`. */
  function Asked(at: nat, length: nat): Script {
    Script(
      New(0xFFFF, 0xFFFF).(cursor := CursorFor(length)),
      _ => [],
      n => if n == at && length > 0 then [Query(length)] else [])
  }

  lemma CoordinateDigits(digits: nat)
    requires 1 <= digits <= 5
    ensures |Digits.Decimal(Coordinate(digits) + 1)| == digits
  {
    assert |Digits.Decimal(1)| == 1;
    assert |Digits.Decimal(10)| == 2;
    assert |Digits.Decimal(100)| == 3;
    assert |Digits.Decimal(1000)| == 4;
  }

  lemma ReportHasLength(length: nat)
    requires 6 <= length <= 14
    ensures var c := CursorFor(length); |CursorReport(c.row, c.col)| == length
  {
    var rowDigits := if length <= 10 then 1 else length - 9;
    CoordinateDigits(rowDigits);
    CoordinateDigits(length - 4 - rowDigits);
  }

  lemma QueryApplied(t: Term, length: nat)
    requires WF(t)
    ensures Apply(t, Query(length)).replies == t.replies +
      (if length == 4 then StatusReply(5, t.cursor) else if length == 5 then PRIMARY_DA else StatusReply(6, t.cursor))
  {
    hide Apply, StatusReply;
    TermLaws.ModeApplied(t, Query(length).params, [], Query(length).action);
  }

  lemma QueryAnswered(t: Term, length: nat)
    requires WF(t) && SHORTEST_REPLY <= length <= REPLY_LIMIT && t.cursor == CursorFor(length) && t.replies == []
    ensures |Feed(t, [Query(length)]).replies| == length
  {
    hide Apply, ApplyAll, CursorReport;
    QueryApplied(t, length);
    TermLaws.ApplyOne(t, Query(length));
    if length >= 6 {
      ReportHasLength(length);
    }
  }

  lemma SilentFeed(t: Term)
    requires WF(t)
    ensures Feed(t, []).replies == t.replies && Feed(t, []).cursor == t.cursor
  {
  }

  /** Until it is asked nothing happens to it. */
  lemma {:induction false} NotYet(at: nat, length: nat, n: nat)
    requires n <= at
    ensures WF(Asked(at, length).start) && Before(Asked(at, length), n).cursor == CursorFor(length)
  {
    hide Feed, Apply, ApplyAll;
    var s := Asked(at, length);
    AskedIsLegal(at, length);
    if n > 0 {
      NotYet(at, length, n - 1);
      SilentFeed(Before(s, n - 1));
    }
  }

  lemma AskedIsLegal(at: nat, length: nat)
    ensures Legal(Asked(at, length))
  {
  }

  /** It replies with that many bytes to that byte, and to no other. */
  lemma AskedReplies(at: nat, length: nat, n: nat)
    requires SessionCosts.Fair(length, SHORTEST_REPLY, REPLY_LIMIT)
    ensures Legal(Asked(at, length)) && |Fed(Asked(at, length), n).replies| == if n == at then length else 0
  {
    var s := Asked(at, length);
    AskedIsLegal(at, length);
    if n == at && length > 0 {
      NotYet(at, length, n);
      QueryAnswered(Before(s, n), length);
    } else {
      SilentFeed(Before(s, n));
    }
  }

  // ---- exactly when ---------------------------------------------------

  /** The emulator is some terminal, fed one byte at a time. */
  ghost predicate IsTerminal(w: SessionSpec.World) {
    exists s: Script :: Legal(s) && forall n: nat :: w.emulator(n) == Fed(s, n).replies
  }

  /** Whatever the terminal and the kernel, a pump that uses its budget up leaves another needed. */
  ghost predicate NeedsAnother(a: SessionSpec.State, b: SessionSpec.Budget) {
    forall w: SessionSpec.World :: IsTerminal(w) ==> SessionExhaustion.NeededAfter(w, a, b)
  }

  lemma TerminalsAreLimited(w: SessionSpec.World)
    requires IsTerminal(w)
    ensures SessionCosts.Limited(w, SHORTEST_REPLY, REPLY_LIMIT)
  {
    hide Fed;
    var s: Script :| Legal(s) && forall n: nat :: w.emulator(n) == Fed(s, n).replies;
    forall n: nat ensures SessionCosts.Fair(|w.emulator(n)|, SHORTEST_REPLY, REPLY_LIMIT) {
      RepliesAreShort(s, n);
    }
  }

  /** Any script of counts with such a reply can be played with a terminal. */
  lemma PlayedByTerminal(g: SessionStaging.Staging) returns (w: SessionSpec.World)
    requires SessionCosts.Fair(g.reply, SHORTEST_REPLY, REPLY_LIMIT)
    ensures IsTerminal(w) && SessionStaging.Plays(w, g)
  {
    hide Fed;
    var s := Asked(g.at, g.reply);
    AskedIsLegal(g.at, g.reply);
    w := SessionSpec.World((n: nat) => SessionStaging.Answer(g, n), (n: nat) => Fed(s, n).replies);
    forall n: nat ensures |w.emulator(n)| == if n == g.at then g.reply else 0 {
      AskedReplies(g.at, g.reply, n);
    }
  }

  lemma NeedsAnotherExactly(a: SessionSpec.State, b: SessionSpec.Budget)
    requires SessionLaws.PhaseOk(a) && SessionLaws.Pausing(a) && !SessionSpec.Over(a) && !SessionSpec.Exhausted(b)
    ensures NeedsAnother(a, b) <==> !SessionExhaustion.MayStop(a, b, SHORTEST_REPLY, REPLY_LIMIT)
  {
    hide IsTerminal, SessionExhaustion.MayStop, SessionExhaustion.NeededAfter;
    if SessionExhaustion.MayStop(a, b, SHORTEST_REPLY, REPLY_LIMIT) {
      var g := SessionExhaustion.Stopping(a, b, SHORTEST_REPLY, REPLY_LIMIT);
      var w := PlayedByTerminal(g);
      assert !SessionExhaustion.NeededAfter(w, a, b);
    } else {
      forall w: SessionSpec.World | IsTerminal(w) ensures SessionExhaustion.NeededAfter(w, a, b) {
        TerminalsAreLimited(w);
        SessionExhaustion.NeverOtherwise(w, a, b, SHORTEST_REPLY, REPLY_LIMIT);
      }
    }
  }

  /**
   * In every reachable state the documented promise holds, for all kernels and
   * terminals, on exactly the budgets that the condition for its kind does not name.
   */
  lemma PromiseHoldsExactly(w: SessionSpec.World, ops: seq<SessionSpec.Op>, b: SessionSpec.Budget)
    requires !SessionSpec.Exhausted(b) && !SessionSpec.Over(SessionSpec.Run(w, SessionSpec.START, ops))
    ensures var a := SessionSpec.Run(w, SessionSpec.START, ops);
      NeedsAnother(a, b) <==> !SessionExhaustion.MayStop(a, b, SHORTEST_REPLY, REPLY_LIMIT)
  {
    hide NeedsAnother, SessionExhaustion.MayStop;
    SessionRuns.StartHolds(w);
    SessionRuns.RunKeeps(w, SessionSpec.START, ops);
    NeedsAnotherExactly(SessionSpec.Run(w, SessionSpec.START, ops), b);
  }

  /** With nothing queued the default budget keeps the promise only with a read buffer all but full. */
  lemma DefaultKeepsPromiseExactly(a: SessionSpec.State)
    requires SessionLaws.PhaseOk(a) && SessionLaws.Pausing(a) && a.phase == SessionSpec.Live && a.queue == []
    ensures NeedsAnother(a, SessionExhaustion.DEFAULT_BUDGET) <==> |a.inbox| >= 65423
  {
    hide NeedsAnother, SessionExhaustion.MayStop, SessionExhaustion.CertainlyNeeded;
    var b := SessionExhaustion.DEFAULT_BUDGET;
    NeedsAnotherExactly(a, b);
    SessionExhaustion.CertainExactly(a, b, SHORTEST_REPLY, REPLY_LIMIT);
    SessionExhaustion.LiveEmptyExactly(a, b, SHORTEST_REPLY, REPLY_LIMIT);
  }
}
