/** A script for every budget the conditions name: it is used up, and the session asks for no pump. */
module SessionWitness {
  import opened TerminalTypes
  import opened SessionSpec
  import opened SessionSketch
  import opened SessionEndings
  import opened SessionStaging

  /** Whoever plays the script, the pump ends idle. */
  ghost predicate Refutes(g: Staging, s: Sketch, b: Budget, d: Direction) {
    forall w: World :: Plays(w, g) ==> EndsIdle(BothPhases(w, s, b, d))
  }

  /** A script in which nothing special happens within the budget. */
  function Plain(s: Sketch, b: Budget): Staging {
    var never := s.next + b.syscalls;
    Staging(never, 1, never, WRITE_BLOCKED, never, READ_BLOCKED, 0, 0)
  }

  // ---- reading first --------------------------------------------------

  /** Reads without a reply, the last of which blocks. */
  lemma ReadsRunDry(s: Sketch, b: Budget) returns (g: Staging)
    requires Fresh(s, Reading) && s.phase == Live && s.queue == 0 && b.syscalls > 0
    requires b.bytes >= s.inbox + 2 * b.syscalls - 1
    ensures g == Plain(s, b).(last := s.next + b.syscalls - 1) && Refutes(g, s, b, Reading)
  {
    hide WriteAll, DecodeAll, ReadMore, Plays;
    g := Plain(s, b).(last := s.next + b.syscalls - 1);
    forall w | Plays(w, g) ensures EndsIdle(BothPhases(w, s, b, Reading)) {
      DecodesOut(w, g, s, b, s.inbox);
      ReadsDry(w, g, Quieted(s, s.inbox), Budget(b.bytes - s.inbox, b.syscalls), b.syscalls - 1);
    }
  }

  /** The first byte left over draws a reply that is not finished. */
  lemma FirstReplyCutShort(s: Sketch, b: Budget, hi: nat) returns (g: Staging)
    requires Fresh(s, Reading) && s.inbox > 0 && hi > 0
    requires 0 < b.syscalls <= s.queue + hi && b.syscalls < b.bytes
    ensures g.reply == hi && Refutes(g, s, b, Reading)
  {
    g := Plain(s, b).(stop := s.next + b.syscalls - 1, large := s.next, at := s.processed, reply := hi);
    forall w | Plays(w, g) ensures EndsIdle(BothPhases(w, s, b, Reading)) {
      DecodesToReply(w, g, s, b, 1);
      var t, b1 := Answered(Quieted(s, 1), hi), Budget(b.bytes - 1, b.syscalls);
      assert ReadAll(w, s, b) == Reached(t, b1, false);
      WritesThenStops(w, g, t, b1, b.syscalls - 1, b.syscalls - 1);
    }
  }

  /** A byte that is read draws one, after `k` that did not. */
  lemma LaterReplyCutShort(s: Sketch, b: Budget, hi: nat, k: nat) returns (g: Staging)
    requires Fresh(s, Reading) && s.phase == Live && hi > 0
    requires k + 2 <= b.syscalls <= k + 1 + s.queue + hi && b.bytes > s.inbox + k + b.syscalls
    ensures g.reply == hi && Refutes(g, s, b, Reading)
  {
    hide WriteAll, DecodeAll, ReadMore, Plays;
    var calls := s.next + k + 1;
    g := Plain(s, b).(stop := s.next + b.syscalls - 1, large := calls, at := s.processed + s.inbox + k, reply := hi);
    forall w | Plays(w, g) ensures EndsIdle(BothPhases(w, s, b, Reading)) {
      DecodesOut(w, g, s, b, s.inbox);
      ReadsToReply(w, g, Quieted(s, s.inbox), Budget(b.bytes - s.inbox, b.syscalls), k, 1);
      var o := ReadAll(w, s, b);
      WritesThenStops(w, g, o.s, o.left, b.syscalls - k - 2, b.syscalls - k - 2);
    }
  }

  /** A read blocks after `k` that did not, and so does a write. */
  lemma ReadsThenWritesBlock(s: Sketch, b: Budget, k: nat) returns (g: Staging)
    requires Fresh(s, Reading) && s.phase == Live
    requires k + 2 <= b.syscalls <= k + 1 + s.queue && b.bytes >= s.inbox + k + b.syscalls - 1
    ensures g.reply == 0 && Refutes(g, s, b, Reading)
  {
    hide WriteAll, DecodeAll, ReadMore, Plays;
    g := Plain(s, b).(last := s.next + k, stop := s.next + b.syscalls - 1, large := s.next + k + 1);
    forall w | Plays(w, g) ensures EndsIdle(BothPhases(w, s, b, Reading)) {
      DecodesOut(w, g, s, b, s.inbox);
      ReadsDry(w, g, Quieted(s, s.inbox), Budget(b.bytes - s.inbox, b.syscalls), k);
      var o := ReadAll(w, s, b);
      WritesThenStops(w, g, o.s, o.left, b.syscalls - k - 2, b.syscalls - k - 2);
    }
  }

  /** A read blocks after `k` that did not, and the queue takes the rest of the budget. */
  lemma ReadsThenWritesOut(s: Sketch, b: Budget, k: nat) returns (g: Staging)
    requires Fresh(s, Reading) && s.phase == Live && s.queue > 0
    requires k + 2 <= b.syscalls && b.bytes == s.queue + s.inbox + 2 * k
    ensures g.reply == 0 && Refutes(g, s, b, Reading)
  {
    hide WriteAll, DecodeAll, ReadMore, Plays;
    g := Plain(s, b).(last := s.next + k, large := s.next + k + 1, size := s.queue);
    forall w | Plays(w, g) ensures EndsIdle(BothPhases(w, s, b, Reading)) {
      DecodesOut(w, g, s, b, s.inbox);
      ReadsDry(w, g, Quieted(s, s.inbox), Budget(b.bytes - s.inbox, b.syscalls), k);
      var o := ReadAll(w, s, b);
      WritesOut(w, g, o.s, o.left, 1);
    }
  }

  /** The one read of a session whose child was reaped ends the stream, and the session. */
  lemma EndsAtOnce(s: Sketch, b: Budget) returns (g: Staging)
    requires Fresh(s, Reading) && s.phase == Live && s.reaped && s.inbox == 0 && b.syscalls == 1 && b.bytes > 0
    ensures g.reply == 0 && Refutes(g, s, b, Reading)
  {
    g := Plain(s, b).(last := s.next, end := STREAM_ENDS);
    forall w | Plays(w, g) ensures EndsIdle(BothPhases(w, s, b, Reading)) {
      DecodesOut(w, g, s, b, 0);
      ReadsDry(w, g, s, b, 0);
    }
  }

  /** What is left to decode and to write, with one reply or none, takes the budget to its last byte. */
  lemma EndsWithReply(s: Sketch, b: Budget, reply: nat) returns (g: Staging)
    requires Fresh(s, Reading) && s.phase == Eof && b.syscalls > 0
    requires b.bytes == s.queue + s.inbox + reply
    ensures g.reply == reply && Refutes(g, s, b, Reading)
  {
    g := Plain(s, b).(large := s.next, size := s.queue + reply, at := s.processed + s.inbox - 1, reply := reply);
    forall w | Plays(w, g) ensures EndsIdle(BothPhases(w, s, b, Reading)) {
      if reply == 0 {
        DecodesOut(w, g, s, b, s.inbox);
      } else {
        DecodesToReply(w, g, s, b, s.inbox);
      }
      var o := ReadAll(w, s, b);
      assert o.s.queue == s.queue + reply && !o.failed && o.left == Budget(s.queue + reply, b.syscalls);
      if s.queue + reply > 0 {
        WritesOut(w, g, o.s, o.left, 1);
      }
    }
  }

  // ---- writing first --------------------------------------------------

  /** The last call blocks a write, with a reply or nothing left to decode. */
  lemma QueueCutShort(s: Sketch, b: Budget) returns (g: Staging)
    requires Fresh(s, Writing) && 0 < b.syscalls <= s.queue && b.syscalls <= b.bytes
    requires b.syscalls <= s.replyEnd || (s.phase == Eof && s.inbox == 0)
    ensures g.reply == 0 && Refutes(g, s, b, Writing)
  {
    g := Plain(s, b).(stop := s.next + b.syscalls - 1, large := s.next);
    forall w | Plays(w, g) ensures EndsIdle(BothPhases(w, s, b, Writing)) {
      WritesThenStops(w, g, s, b, b.syscalls - 1, b.syscalls - 1);
    }
  }

  /** The last call finds the other end gone. */
  lemma HangsUpLast(s: Sketch, b: Budget) returns (g: Staging)
    requires Fresh(s, Writing) && 0 < b.syscalls <= s.queue && b.syscalls <= b.bytes && (s.reaped || s.inbox == 0)
    ensures g.reply == 0 && Refutes(g, s, b, Writing)
  {
    g := Plain(s, b).(stop := s.next + b.syscalls - 1, large := s.next, how := HANGUP);
    forall w | Plays(w, g) ensures EndsIdle(BothPhases(w, s, b, Writing)) {
      WritesThenStops(w, g, s, b, b.syscalls - 1, b.syscalls - 1);
    }
  }

  /** The other end is found gone, and the budget ends with the decoding. */
  lemma HangsUpThenDecodes(s: Sketch, b: Budget, u: nat) returns (g: Staging)
    requires Fresh(s, Writing) && u < s.queue && 1 < b.syscalls && (u > 0 ==> 2 < b.syscalls)
    requires u < b.bytes <= u + s.inbox && (s.reaped || b.bytes == u + s.inbox)
    ensures g.reply == 0 && Refutes(g, s, b, Writing)
  {
    var c := if u == 0 then 0 else 1;
    g := Plain(s, b).(large := s.next, size := u, stop := s.next + c, how := HANGUP);
    forall w | Plays(w, g) ensures EndsIdle(BothPhases(w, s, b, Writing)) {
      WritesThenStops(w, g, s, b, u, c);
      var o := WriteAll(w, s, b);
      DecodesOut(w, g, o.s, o.left, b.bytes - u);
    }
  }

  /** A write blocks, and the budget ends with a byte that draws a reply. */
  lemma BlocksThenReplies(s: Sketch, b: Budget, u: nat, hi: nat) returns (g: Staging)
    requires Fresh(s, Writing) && s.replyEnd <= u < s.queue && 1 < b.syscalls && (u > 0 ==> 2 < b.syscalls)
    requires u < b.bytes <= u + s.inbox && hi > 0
    ensures g.reply == hi && Refutes(g, s, b, Writing)
  {
    var c := if u == 0 then 0 else 1;
    g := Plain(s, b).(large := s.next, size := u, stop := s.next + c, at := s.processed + b.bytes - u - 1, reply := hi);
    forall w | Plays(w, g) ensures EndsIdle(BothPhases(w, s, b, Writing)) {
      WritesThenStops(w, g, s, b, u, c);
      var o := WriteAll(w, s, b);
      DecodesToReply(w, g, o.s, o.left, b.bytes - u);
    }
  }

  /** Both directions block, the reading one with the last call. */
  lemma BlocksThenReadsDry(s: Sketch, b: Budget, u: nat, c: nat) returns (g: Staging)
    requires Fresh(s, Writing) && s.phase == Live && s.replyEnd <= u < s.queue
    requires c <= u && (c == 0 ==> u == 0) && c + 2 <= b.syscalls
    requires b.bytes >= u + s.inbox + 2 * (b.syscalls - c - 1) - 1
    ensures g.reply == 0 && Refutes(g, s, b, Writing)
  {
    hide WriteAll, DecodeAll, ReadMore, Plays;
    g := Plain(s, b).(large := s.next, size := u - c + 1, stop := s.next + c, last := s.next + b.syscalls - 1);
    forall w | Plays(w, g) ensures EndsIdle(BothPhases(w, s, b, Writing)) {
      WritesThenStops(w, g, s, b, u, c);
      var o := WriteAll(w, s, b);
      DecodesOut(w, g, o.s, o.left, s.inbox);
      ReadsDry(w, g, Quieted(o.s, s.inbox), Budget(o.left.bytes - s.inbox, o.left.syscalls), b.syscalls - c - 2);
    }
  }

  /** A write blocks, and the budget ends with a reply to the first byte of the last read. */
  lemma BlocksThenReadsToReply(s: Sketch, b: Budget, u: nat, hi: nat) returns (g: Staging)
    requires Fresh(s, Writing) && s.phase == Live && s.replyEnd <= u < s.queue && hi > 0
    requires var left := b.bytes - u - s.inbox; 2 <= left && left / 2 + (if u == 0 then 1 else 2) <= b.syscalls
    ensures g.reply == hi && Refutes(g, s, b, Writing)
  {
    hide WriteAll, DecodeAll, ReadMore, Plays;
    var c, left := if u == 0 then 0 else 1, b.bytes - u - s.inbox;
    var k, z := left / 2 - 1, 1 + left % 2;
    g := Plain(s, b).(large := s.next, size := u, stop := s.next + c,
      last := if z == 2 then s.next + c + 1 + k else s.next + b.syscalls, end := TWO_BYTES,
      at := s.processed + s.inbox + k, reply := hi);
    forall w | Plays(w, g) ensures EndsIdle(BothPhases(w, s, b, Writing)) {
      WritesThenStops(w, g, s, b, u, c);
      var o := WriteAll(w, s, b);
      DecodesOut(w, g, o.s, o.left, s.inbox);
      ReadsToReply(w, g, Quieted(o.s, s.inbox), Budget(left, o.left.syscalls), k, z);
    }
  }

  /** Everything is written and everything decoded, to the last byte of the budget. */
  lemma WritesAndDecodesOut(s: Sketch, b: Budget) returns (g: Staging)
    requires Fresh(s, Writing) && s.phase == Eof && b.bytes == s.queue + s.inbox
    requires 0 < b.syscalls && (s.inbox > 0 ==> 1 < b.syscalls)
    ensures g.reply == 0 && Refutes(g, s, b, Writing)
  {
    g := Plain(s, b).(large := s.next, size := s.queue);
    forall w | Plays(w, g) ensures EndsIdle(BothPhases(w, s, b, Writing)) {
      WritesOut(w, g, s, b, 1);
      var o := WriteAll(w, s, b);
      DecodesOut(w, g, o.s, o.left, s.inbox);
    }
  }

  /** Everything is written, and reading blocks with the last call. */
  lemma WritesOutThenReadsDry(s: Sketch, b: Budget) returns (g: Staging)
    requires Fresh(s, Writing) && s.phase == Live && 1 < b.syscalls
    requires b.bytes >= s.queue + s.inbox + 2 * Max(1, b.syscalls - s.queue) - 1
    ensures g.reply == 0 && Refutes(g, s, b, Writing)
  {
    hide WriteAll, DecodeAll, ReadMore, Plays;
    var c := Min(b.syscalls - 1, s.queue);
    g := Plain(s, b).(large := s.next, size := s.queue - c + 1, last := s.next + b.syscalls - 1);
    forall w | Plays(w, g) ensures EndsIdle(BothPhases(w, s, b, Writing)) {
      WritesOut(w, g, s, b, c);
      var o := WriteAll(w, s, b);
      DecodesOut(w, g, o.s, o.left, s.inbox);
      ReadsDry(w, g, Quieted(o.s, s.inbox), Budget(o.left.bytes - s.inbox, o.left.syscalls), b.syscalls - c - 1);
    }
  }
}
