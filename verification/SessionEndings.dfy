/** Which budgets a pump can use up so that the session then asks for no pump, and no others. */
module SessionEndings {
  import opened TerminalTypes
  import opened SessionSpec
  import opened SessionSketch
  import opened SessionCosts

  // ---- the conditions -------------------------------------------------

  /**
   * Live, nothing queued: a blocked or ended read after reads without a reply, or
   * a reply, to a byte left over or to one just read, whose write is cut short.
   */
  predicate LiveEmptyIdle(s: Sketch, b: Budget, hi: nat) {
    var n, i := b.syscalls, s.inbox;
    || b.bytes >= i + 2 * n - 1
    || (i > 0 && n <= hi && n < b.bytes)
    || (n > 1 && b.bytes >= i + n + Max(1, n - hi))
  }

  /** Live, reading before writing. */
  predicate LiveReadingIdle(s: Sketch, b: Budget, hi: nat) {
    var n, i, q := b.syscalls, s.inbox, s.queue;
    || (i > 0 && n <= q + hi && n < b.bytes)
    || (n > 1 && b.bytes >= i + n + Min(Max(1, n - q - hi), Max(1, n - q) - 2))
    || (n > 1 && b.bytes == q + i)
    || (n > 2 && b.bytes >= q + i && (b.bytes - q - i) % 2 == 0)
    || (n == 1 && i == 0 && s.reaped)
  }

  /** Live, writing before reading, no reply waiting: all but these. */
  predicate LiveWritingIdle(s: Sketch, b: Budget) {
    var n, i, q := b.syscalls, s.inbox, s.queue;
    && !(n == 1 && i > 0 && !s.reaped)
    && !(n > 2 && i == 0 && b.bytes == 1)
    && !(n > 2 && q == 1 && b.bytes == 1 + i)
  }

  /** Live, paused by a reply: the reply is cut short, the queue is, or it goes out and reading ends dry. */
  predicate LivePausedIdle(s: Sketch, b: Budget) {
    var n, i, q, p := b.syscalls, s.inbox, s.queue, s.replyEnd;
    || (n <= p && n <= b.bytes)
    || (n <= q && n <= b.bytes && (s.reaped || i == 0))
    || (i > 0 && !s.reaped && ((n > 1 && b.bytes == i) || (n > 2 && i < b.bytes < i + q)))
    || (i > 0 && s.reaped && ((n > 1 && b.bytes <= i) || (n > 2 && b.bytes < i + q)))
    || (n > 2 && p < q && p < b.bytes
        && (n <= p + 2 || !(b.bytes == p + 1 + i && (q == p + 1 || i == 0))))
    || (n > 1 && b.bytes >= q + i + 2 * Max(1, n - q) - 1)
  }

  /** After EOF, decoding first: the write is cut short, or the budget ends with all there is. */
  predicate EofReadingIdle(s: Sketch, b: Budget, lo: nat, hi: nat) {
    var n, i, q := b.syscalls, s.inbox, s.queue;
    || (n <= q + hi && n < b.bytes)
    || b.bytes == q + i
    || q + i + lo <= b.bytes <= q + i + hi
  }

  /** After EOF, nothing to decode: the write is cut short, or the budget ends with the queue. */
  predicate EofEmptyIdle(s: Sketch, b: Budget) {
    b.bytes == s.queue || (b.syscalls <= b.bytes && b.syscalls <= s.queue)
  }

  /** After EOF, writing first, no reply waiting. */
  predicate EofWritingIdle(s: Sketch, b: Budget) {
    var n, i, q := b.syscalls, s.inbox, s.queue;
    || (n > 1 && (b.bytes <= i || b.bytes == q + i))
    || (n > 2 && b.bytes <= q + i)
  }

  /** After EOF, paused by a reply. */
  predicate EofPausedIdle(s: Sketch, b: Budget) {
    var n, i, q, p := b.syscalls, s.inbox, s.queue, s.replyEnd;
    || (n <= p && n <= b.bytes)
    || (n > 1 && (b.bytes == i || b.bytes == q + i))
    || (n > 2 && i <= b.bytes <= q + i)
    || (n > 2 && p < q && p < b.bytes <= q + i)
  }

  /** The condition for any session with work in the direction a pump starts with. */
  predicate MayEndIdle(s: Sketch, b: Budget, d: Direction, lo: nat, hi: nat) {
    if s.phase == Live then
      if d == Reading then (if s.queue == 0 then LiveEmptyIdle(s, b, hi) else LiveReadingIdle(s, b, hi))
      else if s.replyEnd == 0 then LiveWritingIdle(s, b)
      else LivePausedIdle(s, b)
    else
      if d == Reading then EofReadingIdle(s, b, lo, hi)
      else if s.inbox == 0 then EofEmptyIdle(s, b)
      else if s.replyEnd == 0 then EofWritingIdle(s, b)
      else EofPausedIdle(s, b)
  }

  // ---- no other budget ------------------------------------------------

  /** A pump begins on it in a direction with work. */
  predicate Fresh(s: Sketch, d: Direction) {
    && (s.phase == Live || (s.phase == Eof && !s.reaped))
    && !s.readBlocked && !s.writeBlocked && s.replyEnd <= s.queue && Work(s, d)
  }

  predicate EndsIdle(o: Reached) {
    !o.failed && Exhausted(o.left) && !Wanting(o.s)
  }

  lemma LiveEmptyBound(w: World, s: Sketch, b: Budget, lo: nat, hi: nat)
    requires Limited(w, lo, hi) && 1 <= lo <= hi && !Exhausted(b)
    requires Fresh(s, Reading) && s.phase == Live && s.queue == 0 && EndsIdle(BothPhases(w, s, b, Reading))
    ensures LiveEmptyIdle(s, b, hi)
  {
    hide ReadAll, WriteAll;
    ReadCosts(w, s, b, lo, hi);
    var o := ReadAll(w, s, b);
    if !o.failed && !Exhausted(o.left) && o.s.queue > 0 {
      WriteCosts(w, o.s, o.left);
    }
  }

  lemma LiveReadingBound(w: World, s: Sketch, b: Budget, lo: nat, hi: nat)
    requires Limited(w, lo, hi) && 1 <= lo <= hi && !Exhausted(b)
    requires Fresh(s, Reading) && s.phase == Live && s.queue > 0 && EndsIdle(BothPhases(w, s, b, Reading))
    ensures LiveReadingIdle(s, b, hi)
  {
    hide ReadAll, WriteAll;
    ReadCosts(w, s, b, lo, hi);
    var o := ReadAll(w, s, b);
    if o.s.phase == Spent {
      NoMoreWrites(w, o.s, o.left);
    } else if !o.failed && !Exhausted(o.left) {
      WriteCosts(w, o.s, o.left);
    }
  }

  lemma LiveWritingBound(w: World, s: Sketch, b: Budget, lo: nat, hi: nat)
    requires Limited(w, lo, hi) && 1 <= lo <= hi && !Exhausted(b)
    requires Fresh(s, Writing) && s.phase == Live && s.replyEnd == 0 && EndsIdle(BothPhases(w, s, b, Writing))
    ensures LiveWritingIdle(s, b)
  {
    hide ReadAll, WriteAll;
    WriteCosts(w, s, b);
    var o := WriteAll(w, s, b);
    if !o.failed && !Exhausted(o.left) && Work(o.s, Reading) {
      if o.s.phase == Live {
        ReadCosts(w, o.s, o.left, lo, hi);
      } else {
        DecodeOnlyCosts(w, o.s, o.left, lo, hi);
      }
    }
  }

  lemma LivePausedBound(w: World, s: Sketch, b: Budget, lo: nat, hi: nat)
    requires Limited(w, lo, hi) && 1 <= lo <= hi && !Exhausted(b)
    requires Fresh(s, Writing) && s.phase == Live && s.replyEnd > 0 && EndsIdle(BothPhases(w, s, b, Writing))
    ensures LivePausedIdle(s, b)
  {
    hide ReadAll, WriteAll;
    WriteCosts(w, s, b);
    var o := WriteAll(w, s, b);
    if !o.failed && !Exhausted(o.left) && Work(o.s, Reading) {
      if o.s.phase == Live {
        ReadCosts(w, o.s, o.left, lo, hi);
      } else {
        DecodeOnlyCosts(w, o.s, o.left, lo, hi);
      }
    }
  }

  lemma EofReadingBound(w: World, s: Sketch, b: Budget, lo: nat, hi: nat)
    requires Limited(w, lo, hi) && 1 <= lo <= hi && !Exhausted(b)
    requires Fresh(s, Reading) && s.phase == Eof && EndsIdle(BothPhases(w, s, b, Reading))
    ensures EofReadingIdle(s, b, lo, hi)
  {
    hide ReadAll, WriteAll;
    DecodeOnlyCosts(w, s, b, lo, hi);
    var o := ReadAll(w, s, b);
    if !Exhausted(o.left) && o.s.queue > 0 {
      WriteCosts(w, o.s, o.left);
    }
  }

  lemma EofWritingBound(w: World, s: Sketch, b: Budget, lo: nat, hi: nat)
    requires Limited(w, lo, hi) && 1 <= lo <= hi && !Exhausted(b)
    requires Fresh(s, Writing) && s.phase == Eof && EndsIdle(BothPhases(w, s, b, Writing))
    ensures MayEndIdle(s, b, Writing, lo, hi)
  {
    hide ReadAll, WriteAll;
    WriteCosts(w, s, b);
    var o := WriteAll(w, s, b);
    if !o.failed && !Exhausted(o.left) && Work(o.s, Reading) {
      DecodeOnlyCosts(w, o.s, o.left, lo, hi);
    }
  }

  /** A pump that ends idle had a budget of the kind its state names. */
  lemma OnlyThen(w: World, s: Sketch, b: Budget, d: Direction, lo: nat, hi: nat)
    requires Limited(w, lo, hi) && 1 <= lo <= hi && !Exhausted(b)
    requires Fresh(s, d) && EndsIdle(BothPhases(w, s, b, d))
    ensures MayEndIdle(s, b, d, lo, hi)
  {
    hide BothPhases;
    if s.phase == Live && d == Reading {
      if s.queue == 0 {
        LiveEmptyBound(w, s, b, lo, hi);
      } else {
        LiveReadingBound(w, s, b, lo, hi);
      }
    } else if s.phase == Live && s.replyEnd == 0 {
      LiveWritingBound(w, s, b, lo, hi);
    } else if s.phase == Live {
      LivePausedBound(w, s, b, lo, hi);
    } else if d == Reading {
      EofReadingBound(w, s, b, lo, hi);
    } else {
      EofWritingBound(w, s, b, lo, hi);
    }
  }
}
