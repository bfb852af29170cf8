/** For exactly which states and budgets a pump that used its budget up leaves another one needed. */
module SessionExhaustion {
  import opened TerminalTypes
  import opened SessionSpec
  import opened SessionLaws
  import opened SessionRuns
  import opened SessionPhases
  import opened SessionSketch
  import opened SessionCosts
  import opened SessionEndings
  import opened SessionStaging
  import opened SessionWitness

  // ---- a script for every condition -----------------------------------

  ghost predicate Refutable(g: Staging, s: Sketch, b: Budget, d: Direction, lo: nat, hi: nat) {
    Fair(g.reply, lo, hi) && Refutes(g, s, b, d)
  }

  lemma LiveEmptyWitness(s: Sketch, b: Budget, lo: nat, hi: nat) returns (g: Staging)
    requires Fresh(s, Reading) && s.phase == Live && s.queue == 0 && !Exhausted(b) && 1 <= lo <= hi
    requires LiveEmptyIdle(s, b, hi)
    ensures Refutable(g, s, b, Reading, lo, hi)
  {
    hide Refutes;
    if b.bytes >= s.inbox + 2 * b.syscalls - 1 {
      g := ReadsRunDry(s, b);
    } else if s.inbox > 0 && b.syscalls <= hi && b.syscalls < b.bytes {
      g := FirstReplyCutShort(s, b, hi);
    } else {
      g := LaterReplyCutShort(s, b, hi, Max(1, b.syscalls - hi) - 1);
    }
  }

  lemma LiveReadingWitness(s: Sketch, b: Budget, lo: nat, hi: nat) returns (g: Staging)
    requires Fresh(s, Reading) && s.phase == Live && s.queue > 0 && !Exhausted(b) && 1 <= lo <= hi
    requires LiveReadingIdle(s, b, hi)
    ensures Refutable(g, s, b, Reading, lo, hi)
  {
    hide Refutes;
    var n, i, q := b.syscalls, s.inbox, s.queue;
    if i > 0 && n <= q + hi && n < b.bytes {
      g := FirstReplyCutShort(s, b, hi);
    } else if n > 1 && b.bytes >= i + n + Max(1, n - q - hi) {
      g := LaterReplyCutShort(s, b, hi, Max(1, n - q - hi) - 1);
    } else if n > 1 && b.bytes >= i + n + Max(1, n - q) - 2 {
      g := ReadsThenWritesBlock(s, b, Max(1, n - q) - 1);
    } else if n == 1 {
      g := EndsAtOnce(s, b);
    } else {
      g := ReadsThenWritesOut(s, b, (b.bytes - q - i) / 2);
    }
  }

  lemma LiveWritingWitness(s: Sketch, b: Budget, lo: nat, hi: nat) returns (g: Staging)
    requires Fresh(s, Writing) && s.phase == Live && s.replyEnd == 0 && !Exhausted(b) && 1 <= lo <= hi
    requires LiveWritingIdle(s, b)
    ensures Refutable(g, s, b, Writing, lo, hi)
  {
    hide Refutes;
    var n, i := b.syscalls, s.inbox;
    if n == 1 {
      g := HangsUpLast(s, b);
    } else if b.bytes <= i {
      g := BlocksThenReplies(s, b, 0, hi);
    } else if b.bytes >= i + 2 * n - 3 {
      g := BlocksThenReadsDry(s, b, 0, 0);
    } else if b.bytes == i + 1 {
      g := BlocksThenReplies(s, b, 1, hi);
    } else {
      g := BlocksThenReadsToReply(s, b, 0, hi);
    }
  }

  /** The reply is written, the queue is not. */
  lemma PausedBlocksWitness(s: Sketch, b: Budget, lo: nat, hi: nat) returns (g: Staging)
    requires Fresh(s, Writing) && s.phase == Live && 1 <= lo <= hi
    requires var n, i, q, p := b.syscalls, s.inbox, s.queue, s.replyEnd;
      && 0 < p && n > 2 && p < q && p < b.bytes
      && (n <= p + 2 || !(b.bytes == p + 1 + i && (q == p + 1 || i == 0)))
    ensures Refutable(g, s, b, Writing, lo, hi)
  {
    hide Refutes;
    var n, i, p := b.syscalls, s.inbox, s.replyEnd;
    if b.bytes <= p + i {
      g := BlocksThenReplies(s, b, p, hi);
    } else if b.bytes >= p + i + 2 * (n - 2) - 1 {
      g := BlocksThenReadsDry(s, b, p, 1);
    } else if b.bytes > p + i + 1 {
      g := BlocksThenReadsToReply(s, b, p, hi);
    } else if n <= p + 2 {
      g := BlocksThenReadsDry(s, b, p, n - 2);
    } else {
      g := BlocksThenReplies(s, b, p + 1, hi);
    }
  }

  lemma LivePausedWitness(s: Sketch, b: Budget, lo: nat, hi: nat) returns (g: Staging)
    requires Fresh(s, Writing) && s.phase == Live && s.replyEnd > 0 && !Exhausted(b) && 1 <= lo <= hi
    requires LivePausedIdle(s, b)
    ensures Refutable(g, s, b, Writing, lo, hi)
  {
    hide Refutes;
    var n, i, q, p := b.syscalls, s.inbox, s.queue, s.replyEnd;
    if n <= p && n <= b.bytes {
      g := QueueCutShort(s, b);
    } else if n <= q && n <= b.bytes && (s.reaped || i == 0) {
      g := HangsUpLast(s, b);
    } else if i > 0 && n > 1 && (if s.reaped then b.bytes <= i else b.bytes == i) {
      g := HangsUpThenDecodes(s, b, 0);
    } else if i > 0 && n > 2 && (s.reaped || i < b.bytes) && b.bytes < i + q {
      g := HangsUpThenDecodes(s, b, b.bytes - i);
    } else if n > 1 && b.bytes >= q + i + 2 * Max(1, n - q) - 1 {
      g := WritesOutThenReadsDry(s, b);
    } else {
      g := PausedBlocksWitness(s, b, lo, hi);
    }
  }

  lemma EofReadingWitness(s: Sketch, b: Budget, lo: nat, hi: nat) returns (g: Staging)
    requires Fresh(s, Reading) && s.phase == Eof && !Exhausted(b) && 1 <= lo <= hi
    requires EofReadingIdle(s, b, lo, hi)
    ensures Refutable(g, s, b, Reading, lo, hi)
  {
    hide Refutes;
    if b.syscalls <= s.queue + hi && b.syscalls < b.bytes {
      g := FirstReplyCutShort(s, b, hi);
    } else {
      g := EndsWithReply(s, b, b.bytes - s.queue - s.inbox);
    }
  }

  lemma EofWritingWitness(s: Sketch, b: Budget, lo: nat, hi: nat) returns (g: Staging)
    requires Fresh(s, Writing) && s.phase == Eof && !Exhausted(b) && 1 <= lo <= hi
    requires MayEndIdle(s, b, Writing, lo, hi)
    ensures Refutable(g, s, b, Writing, lo, hi)
  {
    hide Refutes;
    var n, i, q, p := b.syscalls, s.inbox, s.queue, s.replyEnd;
    if b.bytes == q + i && (i == 0 || n > 1) {
      g := WritesAndDecodesOut(s, b);
    } else if n <= b.bytes && n <= q && (i == 0 || n <= p) {
      g := QueueCutShort(s, b);
    } else if b.bytes == i {
      g := HangsUpThenDecodes(s, b, 0);
    } else if p == 0 && b.bytes < i {
      g := BlocksThenReplies(s, b, 0, hi);
    } else if i < b.bytes < q + i {
      g := HangsUpThenDecodes(s, b, b.bytes - i);
    } else {
      g := BlocksThenReplies(s, b, p, hi);
    }
  }

  lemma Witness(s: Sketch, b: Budget, d: Direction, lo: nat, hi: nat) returns (g: Staging)
    requires Fresh(s, d) && !Exhausted(b) && 1 <= lo <= hi && MayEndIdle(s, b, d, lo, hi)
    ensures Refutable(g, s, b, d, lo, hi)
  {
    hide Refutable;
    if s.phase == Live && d == Reading && s.queue == 0 {
      g := LiveEmptyWitness(s, b, lo, hi);
    } else if s.phase == Live && d == Reading {
      g := LiveReadingWitness(s, b, lo, hi);
    } else if s.phase == Live && s.replyEnd == 0 {
      g := LiveWritingWitness(s, b, lo, hi);
    } else if s.phase == Live {
      g := LivePausedWitness(s, b, lo, hi);
    } else if d == Reading {
      g := EofReadingWitness(s, b, lo, hi);
    } else {
      g := EofWritingWitness(s, b, lo, hi);
    }
  }

  // ---- exactly when ---------------------------------------------------

  /** A pump that ends without an error and without budget leaves another needed. */
  ghost predicate NeededAfter(w: World, a: State, b: Budget) {
    var r := Pump(w, a, b);
    r.error.None? && Exhausted(r.left) ==> NeedsPump(r.state)
  }

  /** It does, whatever the kernel answers and whatever replies of `lo` to `hi` bytes the emulator makes. */
  ghost predicate CertainlyNeeded(a: State, b: Budget, lo: nat, hi: nat) {
    forall w: World :: Limited(w, lo, hi) ==> NeededAfter(w, a, b)
  }

  /** The budgets that can be used up for nothing more to do; a session without work uses none up. */
  predicate MayStop(a: State, b: Budget, lo: nat, hi: nat) {
    HasWork(a, First(a)) && MayEndIdle(Draw(a), b, First(a), lo, hi)
  }

  lemma DrawsFresh(a: State)
    requires PhaseOk(a) && Pausing(a) && !Over(a)
    ensures Marked(a) && (HasWork(a, First(a)) ==> Fresh(Draw(BeginPump(a)), First(a)))
  {
    EndCounts(a.queue);
  }

  lemma PumpStops(w: World, a: State, b: Budget)
    requires PhaseOk(a) && Pausing(a) && !Over(a) && !Exhausted(b)
    ensures !NeededAfter(w, a, b)
      <==> HasWork(a, First(a)) && EndsIdle(BothPhases(w, Draw(BeginPump(a)), b, First(a)))
  {
    hide BothPhases, Turns;
    DrawsFresh(a);
    if HasWork(a, First(a)) {
      PumpDraws(w, a, b);
    } else {
      NoWorkNoCost(w, a, b);
    }
  }

  lemma NoWorkNoCost(w: World, a: State, b: Budget)
    requires !Over(a) && !Exhausted(b) && !HasWork(a, First(a))
    ensures Pump(w, a, b).left == b
  {
    var c := BeginPump(a);
    assert !HasWork(c, Reading) && !HasWork(c, Writing);
  }

  /** One script that whoever plays it stops on the budget. */
  lemma Stopping(a: State, b: Budget, lo: nat, hi: nat) returns (g: Staging)
    requires PhaseOk(a) && Pausing(a) && !Over(a) && !Exhausted(b) && 1 <= lo <= hi && MayStop(a, b, lo, hi)
    ensures Fair(g.reply, lo, hi) && forall w: World :: Plays(w, g) ==> !NeededAfter(w, a, b)
  {
    hide BothPhases, NeededAfter, EndsIdle;
    DrawsFresh(a);
    g := Witness(Draw(BeginPump(a)), b, First(a), lo, hi);
    forall w | Plays(w, g) ensures !NeededAfter(w, a, b) {
      PumpStops(w, a, b);
    }
  }

  lemma NeverOtherwise(w: World, a: State, b: Budget, lo: nat, hi: nat)
    requires PhaseOk(a) && Pausing(a) && !Over(a) && !Exhausted(b) && 1 <= lo <= hi && Limited(w, lo, hi)
    requires !MayStop(a, b, lo, hi)
    ensures NeededAfter(w, a, b)
  {
    hide BothPhases, NeededAfter, EndsIdle;
    DrawsFresh(a);
    PumpStops(w, a, b);
    if !NeededAfter(w, a, b) {
      OnlyThen(w, Draw(BeginPump(a)), b, First(a), lo, hi);
    }
  }

  function Staged(g: Staging): World {
    World((n: nat) => Answer(g, n), (k: nat) => if k == g.at then seq<u8>(g.reply, _ => 0) else [])
  }

  /** The condition, for any state of a session that is not over. */
  lemma CertainExactly(a: State, b: Budget, lo: nat, hi: nat)
    requires PhaseOk(a) && Pausing(a) && !Over(a) && !Exhausted(b) && 1 <= lo <= hi
    ensures CertainlyNeeded(a, b, lo, hi) <==> !MayStop(a, b, lo, hi)
  {
    hide NeededAfter, MayStop;
    if MayStop(a, b, lo, hi) {
      var g := Stopping(a, b, lo, hi);
      assert Plays(Staged(g), g) && Limited(Staged(g), lo, hi);
    } else {
      forall w: World | Limited(w, lo, hi) ensures NeededAfter(w, a, b) {
        NeverOtherwise(w, a, b, lo, hi);
      }
    }
  }

  /**
   * An exhausted pump leaves another needed, as is documented, in every reachable
   * state on exactly the budgets that the condition for its kind does not name.
   */
  lemma ExhaustedNeedsPumpExactly(w: World, ops: seq<Op>, b: Budget, lo: nat, hi: nat)
    requires !Exhausted(b) && 1 <= lo <= hi && !Over(Run(w, START, ops))
    ensures var a := Run(w, START, ops);
      CertainlyNeeded(a, b, lo, hi) <==> !MayStop(a, b, lo, hi)
  {
    hide CertainlyNeeded, MayStop;
    StartHolds(w);
    RunKeeps(w, START, ops);
    CertainExactly(Run(w, START, ops), b, lo, hi);
  }

  // ---- the conditions, kind by kind -----------------------------------

  /**
   * Live with nothing queued, a new session for one: few enough bytes for the
   * calls, and unless something is left to decode a second call.
   */
  lemma LiveEmptyExactly(a: State, b: Budget, lo: nat, hi: nat)
    requires PhaseOk(a) && Pausing(a) && a.phase == Live && a.queue == [] && !Exhausted(b) && 1 <= lo <= hi
    ensures var n, i := b.syscalls, |a.inbox|;
      CertainlyNeeded(a, b, lo, hi)
      <==> if i == 0 then 1 < n && b.bytes <= Max(n, 2 * n - hi - 1)
           else b.bytes <= if n <= hi then n else i + 2 * n - hi - 1
  {
    CertainExactly(a, b, lo, hi);
    EndCounts(a.queue);
  }

  /** Live with input queued and no reply, writing first: hardly ever. */
  lemma LiveWritingExactly(a: State, b: Budget, lo: nat, hi: nat)
    requires PhaseOk(a) && Pausing(a) && a.phase == Live && a.queue != [] && Replies(a.queue) == 0
    requires First(a) == Writing && !Exhausted(b) && 1 <= lo <= hi
    ensures var n, i := b.syscalls, |a.inbox|;
      CertainlyNeeded(a, b, lo, hi)
      <==> || (n == 1 && i > 0 && a.exitStatus.None?)
           || (n >= 3 && i == 0 && b.bytes == 1)
           || (n >= 3 && |a.queue| == 1 && b.bytes == 1 + i)
  {
    CertainExactly(a, b, lo, hi);
    EndCounts(a.queue);
  }

  /** After EOF, decoding first: the budget neither covers all there is nor cuts a write short. */
  lemma EofReadingExactly(a: State, b: Budget, lo: nat, hi: nat)
    requires PhaseOk(a) && Pausing(a) && a.phase == Eof && a.inbox != [] && !a.paused && First(a) == Reading
    requires !Exhausted(b) && 1 <= lo <= hi
    ensures var n, all := b.syscalls, |a.queue| + |a.inbox|;
      CertainlyNeeded(a, b, lo, hi)
      <==> (|a.queue| + hi < n || b.bytes <= n) && b.bytes != all && !(all + lo <= b.bytes <= all + hi)
  {
    CertainExactly(a, b, lo, hi);
  }

  /** After EOF with nothing to decode: the budget does not end with the queue, and has calls to spare. */
  lemma EofWritingExactly(a: State, b: Budget, lo: nat, hi: nat)
    requires PhaseOk(a) && Pausing(a) && a.phase == Eof && a.inbox == [] && a.queue != []
    requires !Exhausted(b) && 1 <= lo <= hi
    ensures CertainlyNeeded(a, b, lo, hi)
      <==> b.bytes != |a.queue| && Min(b.bytes, |a.queue|) < b.syscalls
  {
    CertainExactly(a, b, lo, hi);
  }

  // ---- inputs ---------------------------------------------------------

  /** Reads bring one byte, but the second blocks; no byte draws a reply. */
  const ONE_READ := Staging(2, 1, 2, WRITE_BLOCKED, 1, READ_BLOCKED, 0, 0)

  /** Reads of one byte without a reply, the last of which blocks. */
  lemma QuietReadsStop(a: State, b: Budget, g: Staging)
    requires PhaseOk(a) && Pausing(a) && a.phase == Live && a.queue == [] && a.inbox == []
    requires 0 < b.syscalls && b.bytes >= 2 * b.syscalls - 1
    requires var end := NextSyscall(a) + b.syscalls;
      g == Staging(end, 1, end, WRITE_BLOCKED, end - 1, READ_BLOCKED, 0, 0)
    ensures var r := Pump(Staged(g), a, b); r.error.None? && Exhausted(r.left) && !NeedsPump(r.state)
  {
    hide BothPhases, Pump;
    var h := ReadsRunDry(Draw(BeginPump(a)), b);
    assert h == g && Plays(Staged(g), g);
    PumpStops(Staged(g), a, b);
  }

  lemma StartIsEmpty(w: World)
    ensures PhaseOk(START) && Pausing(START) && START.phase == Live && START.queue == [] && START.inbox == []
    ensures NextSyscall(START) == 0 && ONE_READ == Staging(2, 1, 2, WRITE_BLOCKED, 1, READ_BLOCKED, 0, 0)
  {
    StartHolds(w);
  }

  /** A new session is a counterexample: three bytes and two calls are used up by one byte read. */
  lemma NewSessionMayBeIdle()
    ensures var r := Pump(Staged(ONE_READ), START, Budget(3, 2));
      r.error.None? && Exhausted(r.left) && !NeedsPump(r.state)
  {
    hide *;
    StartIsEmpty(Staged(ONE_READ));
    QuietReadsStop(START, Budget(3, 2), ONE_READ);
  }

  /** `PumpBudget::default()`. */
  const DEFAULT_BUDGET := Budget(65536, 64)

  /** The default budget gives no certainty either, unless the read buffer is all but full. */
  lemma DefaultMayBeIdle(a: State, lo: nat, hi: nat)
    requires PhaseOk(a) && Pausing(a) && a.phase == Live && Replies(a.queue) == 0 && 1 <= lo <= hi
    requires |a.inbox| < 65409
    ensures !CertainlyNeeded(a, DEFAULT_BUDGET, lo, hi)
  {
    CertainExactly(a, DEFAULT_BUDGET, lo, hi);
    EndCounts(a.queue);
  }
}
