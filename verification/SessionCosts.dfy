/** What each phase of a pump costs, in counts, whatever the kernel answers. */
module SessionCosts {
  import opened TerminalTypes
  import opened SessionSpec
  import opened SessionSketch

  /** A reply is empty or between two lengths. */
  predicate Fair(n: nat, lo: nat, hi: nat) {
    n == 0 || lo <= n <= hi
  }

  ghost predicate Limited(w: World, lo: nat, hi: nat) {
    forall k: nat :: Fair(|w.emulator(k)|, lo, hi)
  }

  function Used(b: Budget, left: Budget): int {
    b.bytes - left.bytes
  }

  function Calls(b: Budget, left: Budget): int {
    b.syscalls - left.syscalls
  }

  // ---- decoding -------------------------------------------------------

  /** A reply has joined the queue and pauses decoding. */
  predicate Replied(s: Sketch, r: Sketch, lo: nat, hi: nat) {
    r.replyEnd == r.queue && 0 < r.replyEnd && lo <= r.queue - s.queue <= hi
  }

  /** A byte of budget a byte, until a reply, the end of the inbox or of the budget. */
  predicate Decodes(s: Sketch, b: Budget, r: Sketch, left: Budget, lo: nat, hi: nat) {
    && left.syscalls == b.syscalls && 0 <= Used(b, left) && r.inbox + Used(b, left) == s.inbox
    && r.phase == s.phase && r.reaped == s.reaped
    && r.readBlocked == s.readBlocked && r.writeBlocked == s.writeBlocked
    && (if r.replyEnd > 0 then Replied(s, r, lo, hi) && Used(b, left) > 0
        else r.queue == s.queue && (left.bytes == 0 || r.inbox == 0))
  }

  lemma {:induction false} DecodeCosts(w: World, s: Sketch, b: Budget, lo: nat, hi: nat)
    requires Limited(w, lo, hi) && s.replyEnd == 0
    ensures var r := DecodeAll(w, s, b); Decodes(s, b, r.0, r.1, lo, hi)
    decreases b.bytes
  {
    if b.bytes > 0 && s.inbox > 0 {
      assert Fair(|w.emulator(s.processed)|, lo, hi);
      var s1, b1 := Fed(w, s), Budget(b.bytes - 1, b.syscalls);
      if s1.replyEnd == 0 {
        DecodeCosts(w, s1, b1, lo, hi);
      } else {
        assert DecodeAll(w, s1, b1) == (s1, b1);
      }
    }
  }

  // ---- reading --------------------------------------------------------

  /** The last call brought nothing: everything read before it is decoded, at two bytes of budget a byte. */
  predicate Drained(s: Sketch, b: Budget, r: Sketch, left: Budget) {
    var u, c := Used(b, left), Calls(b, left);
    && r.inbox == 0 && 0 < c && u >= s.inbox + 2 * (c - 1)
    && (u - s.inbox) % 2 == 0 && (c == 1 ==> u == s.inbox)
  }

  /** A reply came while the inbox was being decoded, or after some reads at two bytes of budget or more each. */
  predicate RepliedAt(s: Sketch, b: Budget, r: Sketch, left: Budget) {
    var u, c := Used(b, left), Calls(b, left);
    (c == 0 && 0 < u && u + r.inbox == s.inbox) || (c > 0 && u >= s.inbox + 2 * c)
  }

  /** How the reads of a live session end. */
  predicate Reads(s: Sketch, b: Budget, r: Sketch, left: Budget, lo: nat, hi: nat) {
    && 0 <= Used(b, left) && 0 <= Calls(b, left)
    && r.writeBlocked == s.writeBlocked && r.reaped == s.reaped
    && (if r.replyEnd > 0 then
          && r.phase == Live && !r.readBlocked && Replied(s, r, lo, hi) && RepliedAt(s, b, r, left)
        else
          && r.queue == s.queue && (r.phase == Live || (r.phase == Ended(s).phase && !r.readBlocked))
          && (r.phase != Live || r.readBlocked ==> left.bytes > 0)
          && (left.bytes > 0 && (left.syscalls > 0 || r.phase != Live || r.readBlocked) ==> Drained(s, b, r, left)))
  }

  /** A read that brings bytes, and their decoding. */
  predicate Brings(s: Sketch, b: Budget, r: Sketch, left: Budget, lo: nat, hi: nat) {
    && left.syscalls == b.syscalls - 1 && Used(b, left) > 0
    && r.phase == Live && !r.readBlocked && r.writeBlocked == s.writeBlocked && r.reaped == s.reaped
    && (if r.replyEnd > 0 then Replied(s, r, lo, hi) && Used(b, left) >= 2
        else r.queue == s.queue && (left.bytes > 0 ==> r.inbox == 0 && Used(b, left) >= 2 && Used(b, left) % 2 == 0))
  }

  lemma BringCosts(w: World, s: Sketch, b: Budget, lo: nat, hi: nat)
    requires Limited(w, lo, hi) && MayRead(s, b) && s.inbox == 0 && !s.readBlocked && ReadCall(w, s, b).1
    ensures var r := ReadCall(w, s, b).0; !r.failed && Brings(s, b, r.s, r.left, lo, hi)
  {
    hide DecodeAll;
    var n := Min(|w.kernel(s.next).read.bytes|, Min(b.bytes, READ_BUFFER_LIMIT));
    DecodeCosts(w, Called(s).(inbox := n), Budget(b.bytes - n, b.syscalls - 1), lo, hi);
  }

  lemma LastReadCosts(w: World, s: Sketch, b: Budget, lo: nat, hi: nat)
    requires MayRead(s, b) && s.inbox == 0 && !s.readBlocked && !ReadCall(w, s, b).1
    ensures var r := ReadCall(w, s, b).0; Reads(s, b, r.s, r.left, lo, hi)
  {
  }

  lemma {:induction false} ReadMoreCosts(w: World, s: Sketch, b: Budget, lo: nat, hi: nat)
    requires Limited(w, lo, hi) && s.phase == Live && s.replyEnd == 0 && !s.readBlocked
    requires b.bytes > 0 ==> s.inbox == 0
    ensures var o := ReadMore(w, s, b); Reads(s, b, o.s, o.left, lo, hi)
    ensures !Exhausted(b) ==> Calls(b, ReadMore(w, s, b).left) > 0
    decreases b.syscalls
  {
    if MayRead(s, b) {
      hide ReadCall;
      var r := ReadCall(w, s, b);
      if r.1 {
        BringCosts(w, s, b, lo, hi);
        if r.0.s.replyEnd == 0 {
          ReadMoreCosts(w, r.0.s, r.0.left, lo, hi);
        }
      } else {
        LastReadCosts(w, s, b, lo, hi);
      }
    }
  }

  lemma ReadCosts(w: World, s: Sketch, b: Budget, lo: nat, hi: nat)
    requires Limited(w, lo, hi) && s.phase == Live && s.replyEnd == 0 && !s.readBlocked
    ensures var o := ReadAll(w, s, b); Reads(s, b, o.s, o.left, lo, hi)
  {
    DecodeCosts(w, s, b, lo, hi);
    var d := DecodeAll(w, s, b);
    if d.0.replyEnd == 0 {
      ReadMoreCosts(w, d.0, d.1, lo, hi);
    }
  }

  lemma DecodeOnlyCosts(w: World, s: Sketch, b: Budget, lo: nat, hi: nat)
    requires Limited(w, lo, hi) && s.phase != Live && s.replyEnd == 0
    ensures var o := ReadAll(w, s, b); !o.failed && Decodes(s, b, o.s, o.left, lo, hi)
  {
    DecodeCosts(w, s, b, lo, hi);
  }

  // ---- writing --------------------------------------------------------

  /** Bytes left the front of the queue; only a call that blocks moves none. */
  predicate Writes(s: Sketch, b: Budget, r: Sketch, left: Budget) {
    var u, c := Used(b, left), Calls(b, left);
    && 0 <= u <= s.queue && 0 <= c <= u + 1
    && r.inbox == s.inbox && r.readBlocked == s.readBlocked && r.reaped == s.reaped && r.phase == s.phase
    && r.queue == s.queue - u && r.replyEnd == SatSub(s.replyEnd, u)
    && (r.queue == 0 ==> c <= u && !r.writeBlocked)
    && (r.writeBlocked ==> left.bytes > 0 && 0 < c && (0 < u ==> 1 < c))
  }

  /** The last call found the other end gone. */
  predicate HangsUp(s: Sketch, b: Budget, r: Sketch, left: Budget) {
    var u, c := Used(b, left), Calls(b, left);
    && 0 <= u < s.queue && 0 < c <= u + 1 && left.bytes > 0 && (0 < u ==> 1 < c)
    && r.inbox == s.inbox && r.readBlocked == s.readBlocked && r.reaped == s.reaped
    && r.phase == Ended(s).phase && r.queue == 0 && r.replyEnd == 0 && !r.writeBlocked
  }

  lemma NoMoreWrites(w: World, s: Sketch, b: Budget)
    requires !MayWrite(s, b)
    ensures WriteAll(w, s, b) == Reached(s, b, false)
  {
  }

  lemma WriteCallCosts(w: World, s: Sketch, b: Budget)
    requires MayWrite(s, b) && !s.writeBlocked
    ensures var r := WriteCall(w, s, b);
      && (r.1 ==>
            && !r.0.failed && Writes(s, b, r.0.s, r.0.left) && !r.0.s.writeBlocked
            && Used(b, r.0.left) > 0 && Calls(b, r.0.left) == 1)
      && (!r.1 ==> Writes(s, b, r.0.s, r.0.left) || HangsUp(s, b, r.0.s, r.0.left))
  {
  }

  lemma {:induction false} WriteCosts(w: World, s: Sketch, b: Budget)
    requires !s.writeBlocked && (s.phase == Live || s.phase == Eof) && s.queue > 0
    ensures var o := WriteAll(w, s, b); Writes(s, b, o.s, o.left) || HangsUp(s, b, o.s, o.left)
    ensures !Exhausted(b) ==> Calls(b, WriteAll(w, s, b).left) > 0
    decreases b.syscalls
  {
    if MayWrite(s, b) {
      hide WriteCall;
      WriteCallCosts(w, s, b);
      var r := WriteCall(w, s, b);
      if r.1 && r.0.s.queue > 0 {
        WriteCosts(w, r.0.s, r.0.left);
      }
    }
  }
}
