/** Kernels and emulators that follow a script of counts, and what each phase does under one. */
module SessionStaging {
  import opened Lifecycle
  import opened SessionSpec
  import opened SessionSketch

  /**
   * Every call moves one byte but these: the write `large` takes `size` bytes, the
   * write `stop` and the read `last` answer `how` and `end`. Only the byte `at`
   * draws a reply.
   */
  datatype Staging = Staging(
    large: nat,
    size: nat,
    stop: nat,
    how: WriteReply,
    last: nat,
    end: ReadReply,
    at: nat,
    reply: nat)

  const ONE_BYTE: ReadReply := Data([0])
  const TWO_BYTES: ReadReply := Data([0, 0])
  const READ_BLOCKED: ReadReply := ReadFailed(WouldBlock)
  const STREAM_ENDS: ReadReply := Data([])
  const WRITE_BLOCKED: WriteReply := WriteFailed(WouldBlock)
  const HANGUP: WriteReply := WriteFailed(Eio)

  function Answer(g: Staging, n: nat): KernelReply {
    KernelReply(
      if n == g.last then g.end else ONE_BYTE,
      if n == g.stop then g.how else if n == g.large then Wrote(g.size) else Wrote(1))
  }

  ghost predicate Plays(w: World, g: Staging) {
    && (forall n: nat :: w.kernel(n) == Answer(g, n))
    && (forall k: nat :: |w.emulator(k)| == if k == g.at then g.reply else 0)
  }

  /** An index outside `[from, from + count)`. */
  predicate Outside(x: nat, from: nat, count: nat) {
    x < from || from + count <= x
  }

  // ---- writing --------------------------------------------------------

  /** `u` bytes written in `c` calls. */
  function Gone(s: Sketch, u: nat, c: nat): Sketch
    requires u <= s.queue
  {
    Shortened(s, u).(next := s.next + c)
  }

  predicate Open(s: Sketch) {
    s.phase == Live || s.phase == Eof
  }

  lemma GoneOn(s: Sketch, u: nat, c: nat, v: nat, d: nat)
    requires u + v <= s.queue
    ensures Gone(Gone(s, u, c), v, d) == Gone(s, u + v, c + d)
  {
  }

  lemma WritesOne(w: World, g: Staging, s: Sketch, b: Budget, n: nat)
    requires Plays(w, g) && Open(s) && 0 < n <= s.queue && n <= b.bytes && 0 < b.syscalls
    requires s.next != g.stop && n == if s.next == g.large then g.size else 1
    ensures WriteAll(w, s, b) == WriteAll(w, Gone(s, n, 1), Budget(b.bytes - n, b.syscalls - 1))
  {
    assert w.kernel(s.next) == Answer(g, s.next);
    assert WriteCall(w, s, b) == (Reached(Gone(s, n, 1), Budget(b.bytes - n, b.syscalls - 1), false), true);
  }

  lemma {:induction false} Drips(w: World, g: Staging, s: Sketch, b: Budget, k: nat)
    requires Plays(w, g) && Open(s) && k <= s.queue && k <= b.bytes && k <= b.syscalls
    requires Outside(g.large, s.next, k) && Outside(g.stop, s.next, k)
    ensures WriteAll(w, s, b) == WriteAll(w, Gone(s, k, k), Budget(b.bytes - k, b.syscalls - k))
    decreases k
  {
    hide WriteAll, Plays;
    if k == 0 {
      assert Gone(s, 0, 0) == s;
    } else {
      WritesOne(w, g, s, b, 1);
      Drips(w, g, Gone(s, 1, 1), Budget(b.bytes - 1, b.syscalls - 1), k - 1);
      GoneOn(s, 1, 1, k - 1, k - 1);
    }
  }

  /** All but the first of the calls move one byte. */
  predicate Batched(g: Staging, s: Sketch, u: nat, c: nat) {
    c <= u && (c == 0 ==> u == 0) && (c > 0 ==> g.large == s.next && g.size == u - c + 1)
  }

  lemma WritesSome(w: World, g: Staging, s: Sketch, b: Budget, u: nat, c: nat)
    requires Plays(w, g) && Open(s) && u <= s.queue && u <= b.bytes && c <= b.syscalls
    requires Batched(g, s, u, c) && Outside(g.stop, s.next, c)
    ensures WriteAll(w, s, b) == WriteAll(w, Gone(s, u, c), Budget(b.bytes - u, b.syscalls - c))
  {
    hide WriteAll, Plays;
    if c == 0 {
      assert Gone(s, 0, 0) == s;
    } else {
      WritesOne(w, g, s, b, g.size);
      Drips(w, g, Gone(s, g.size, 1), Budget(b.bytes - g.size, b.syscalls - 1), c - 1);
      GoneOn(s, g.size, 1, c - 1, c - 1);
    }
  }

  /** The queue after a call that blocked or found the other end gone. */
  function Stopped(s: Sketch, how: WriteReply): Sketch {
    if how == HANGUP then HungUp(s) else s.(writeBlocked := true)
  }

  lemma WritesThenStops(w: World, g: Staging, s: Sketch, b: Budget, u: nat, c: nat)
    requires Plays(w, g) && Open(s) && u < s.queue && u < b.bytes && c < b.syscalls
    requires Batched(g, s, u, c) && g.stop == s.next + c && (g.how == WRITE_BLOCKED || g.how == HANGUP)
    ensures WriteAll(w, s, b)
      == Reached(Stopped(Gone(s, u, c + 1), g.how), Budget(b.bytes - u, b.syscalls - c - 1), false)
  {
    WritesSome(w, g, s, b, u, c);
    assert w.kernel(g.stop) == Answer(g, g.stop);
  }

  lemma WritesOut(w: World, g: Staging, s: Sketch, b: Budget, c: nat)
    requires Plays(w, g) && Open(s) && s.queue <= b.bytes && c <= b.syscalls
    requires Batched(g, s, s.queue, c) && Outside(g.stop, s.next, c)
    ensures WriteAll(w, s, b) == Reached(Gone(s, s.queue, c), Budget(b.bytes - s.queue, b.syscalls - c), false)
  {
    WritesSome(w, g, s, b, s.queue, c);
  }

  // ---- decoding -------------------------------------------------------

  /** `k` bytes decoded without a reply. */
  function Quieted(s: Sketch, k: nat): Sketch
    requires k <= s.inbox
  {
    s.(inbox := s.inbox - k, processed := s.processed + k)
  }

  predicate Silent(g: Staging, s: Sketch, k: nat) {
    g.reply == 0 || Outside(g.at, s.processed, k)
  }

  lemma FedQuietly(w: World, g: Staging, s: Sketch)
    requires Plays(w, g) && s.inbox > 0 && Silent(g, s, 1)
    ensures Fed(w, s) == Quieted(s, 1)
  {
    assert |w.emulator(s.processed)| == 0;
  }

  lemma {:induction false} DecodesSome(w: World, g: Staging, s: Sketch, b: Budget, k: nat)
    requires Plays(w, g) && s.replyEnd == 0 && k <= s.inbox && k <= b.bytes && Silent(g, s, k)
    ensures DecodeAll(w, s, b) == DecodeAll(w, Quieted(s, k), Budget(b.bytes - k, b.syscalls))
    decreases k
  {
    hide Plays;
    if k > 0 {
      FedQuietly(w, g, s);
      DecodesSome(w, g, Quieted(s, 1), Budget(b.bytes - 1, b.syscalls), k - 1);
    }
  }

  lemma DecodesOut(w: World, g: Staging, s: Sketch, b: Budget, k: nat)
    requires Plays(w, g) && s.replyEnd == 0 && k <= s.inbox && k <= b.bytes && Silent(g, s, k)
    requires k == s.inbox || k == b.bytes
    ensures DecodeAll(w, s, b) == (Quieted(s, k), Budget(b.bytes - k, b.syscalls))
  {
    DecodesSome(w, g, s, b, k);
  }

  /** The reply the last decoded byte drew is at the queue's end. */
  function Answered(s: Sketch, reply: nat): Sketch {
    s.(queue := s.queue + reply, replyEnd := s.queue + reply)
  }

  lemma DecodesToReply(w: World, g: Staging, s: Sketch, b: Budget, k: nat)
    requires Plays(w, g) && s.replyEnd == 0 && 0 < k <= s.inbox && k <= b.bytes
    requires g.at == s.processed + k - 1 && g.reply > 0
    ensures DecodeAll(w, s, b) == (Answered(Quieted(s, k), g.reply), Budget(b.bytes - k, b.syscalls))
  {
    DecodesSome(w, g, s, b, k - 1);
    assert |w.emulator(g.at)| == g.reply;
    assert Fed(w, Quieted(s, k - 1)) == Answered(Quieted(s, k), g.reply);
  }

  // ---- reading --------------------------------------------------------

  /** `k` bytes read one by one and decoded without a reply. */
  function Passed(s: Sketch, k: nat): Sketch {
    s.(next := s.next + k, processed := s.processed + k)
  }

  lemma ReadsOne(w: World, g: Staging, s: Sketch, b: Budget)
    requires Plays(w, g) && MayRead(s, b) && s.inbox == 0 && 2 <= b.bytes && s.next != g.last && Silent(g, s, 1)
    ensures ReadCall(w, s, b) == (Reached(Passed(s, 1), Budget(b.bytes - 2, b.syscalls - 1), false), true)
  {
    assert w.kernel(s.next) == Answer(g, s.next);
    DecodesOut(w, g, Called(s).(inbox := 1), Budget(b.bytes - 1, b.syscalls - 1), 1);
  }

  lemma {:induction false} ReadsSome(w: World, g: Staging, s: Sketch, b: Budget, k: nat)
    requires Plays(w, g) && s.phase == Live && s.replyEnd == 0 && s.inbox == 0
    requires 2 * k <= b.bytes && k <= b.syscalls && Outside(g.last, s.next, k) && Silent(g, s, k)
    ensures ReadMore(w, s, b) == ReadMore(w, Passed(s, k), Budget(b.bytes - 2 * k, b.syscalls - k))
    decreases k
  {
    hide ReadCall, Plays;
    if k > 0 {
      ReadsOne(w, g, s, b);
      ReadsSome(w, g, Passed(s, 1), Budget(b.bytes - 2, b.syscalls - 1), k - 1);
    }
  }

  /** The last read blocks or ends the stream. */
  lemma ReadsDry(w: World, g: Staging, s: Sketch, b: Budget, k: nat)
    requires Plays(w, g) && s.phase == Live && s.replyEnd == 0 && s.inbox == 0
    requires 2 * k < b.bytes && k < b.syscalls && g.last == s.next + k && Silent(g, s, k)
    requires g.end == READ_BLOCKED || g.end == STREAM_ENDS
    ensures var r := Called(Passed(s, k));
      ReadMore(w, s, b) == Reached(
        if g.end == READ_BLOCKED then r.(readBlocked := true) else Ended(r),
        Budget(b.bytes - 2 * k, b.syscalls - k - 1), false)
  {
    ReadsSome(w, g, s, b, k);
    assert w.kernel(g.last) == Answer(g, g.last);
  }

  /** A read brings a byte that draws a reply, and perhaps one more. */
  lemma ReadReplied(w: World, g: Staging, s: Sketch, b: Budget, z: nat)
    requires Plays(w, g) && MayRead(s, b) && s.inbox == 0 && 1 <= z <= 2 && z < b.bytes
    requires if z == 2 then s.next == g.last && g.end == TWO_BYTES else s.next != g.last
    requires g.at == s.processed && g.reply > 0
    ensures ReadCall(w, s, b) == (Reached(
      Answered(Passed(s, 1), g.reply).(inbox := z - 1), Budget(b.bytes - z - 1, b.syscalls - 1), false), true)
  {
    assert w.kernel(s.next) == Answer(g, s.next);
    DecodesToReply(w, g, Called(s).(inbox := z), Budget(b.bytes - z, b.syscalls - 1), 1);
  }

  /** The last read does, after `k` that bring a byte without a reply. */
  lemma ReadsToReply(w: World, g: Staging, s: Sketch, b: Budget, k: nat, z: nat)
    requires Plays(w, g) && s.phase == Live && s.replyEnd == 0 && s.inbox == 0
    requires 1 <= z <= 2 && 2 * k + z < b.bytes && k < b.syscalls && Outside(g.last, s.next, k)
    requires if z == 2 then g.last == s.next + k && g.end == TWO_BYTES else g.last != s.next + k
    requires g.at == s.processed + k && g.reply > 0
    ensures ReadMore(w, s, b) == Reached(
      Answered(Passed(s, k + 1), g.reply).(inbox := z - 1), Budget(b.bytes - 2 * k - z - 1, b.syscalls - k - 1), false)
  {
    hide ReadCall, Plays;
    ReadsSome(w, g, s, b, k);
    ReadReplied(w, g, Passed(s, k), Budget(b.bytes - 2 * k, b.syscalls - k), z);
  }
}
