/** What a session takes in and hands on, told from the calls made on it and the kernel's answers alone. */
module SessionTraffic {
  import opened TerminalTypes
  import opened Lifecycle
  import opened SessionSpec
  import opened SessionLaws
  import opened SessionRuns
  import opened SessionStatus
  import opened Streams

  // ---- input and replies ----------------------------------------------

  /** The reply bytes of a stream, or its input bytes. */
  function Part(q: seq<Tagged>, reply: bool): seq<u8> {
    if q == [] then []
    else Part(q[..|q| - 1], reply) + (if q[|q| - 1].reply == reply then [q[|q| - 1].byte] else [])
  }

  lemma {:induction false} PartAppend(p: seq<Tagged>, q: seq<Tagged>, reply: bool)
    ensures Part(p + q, reply) == Part(p, reply) + Part(q, reply)
  {
    if q == [] {
      assert p + q == p;
    } else {
      PartAppend(p, q[..|q| - 1], reply);
      assert (p + q)[..|p + q| - 1] == p + q[..|q| - 1];
    }
  }

  lemma {:induction false} PartOfTag(bytes: seq<u8>, tagged: bool, reply: bool)
    ensures Part(Tag(bytes, tagged), reply) == if tagged == reply then bytes else []
  {
    if bytes != [] {
      PartOfTag(bytes[..|bytes| - 1], tagged, reply);
      assert Tag(bytes, tagged)[..|bytes| - 1] == Tag(bytes[..|bytes| - 1], tagged);
      assert bytes == bytes[..|bytes| - 1] + [bytes[|bytes| - 1]];
    }
  }

  lemma PartJoins(q: seq<Tagged>, bytes: seq<u8>, tagged: bool)
    ensures Part(q + Tag(bytes, tagged), tagged) == Part(q, tagged) + bytes
    ensures Part(q + Tag(bytes, tagged), !tagged) == Part(q, !tagged)
  {
    PartAppend(q, Tag(bytes, tagged), tagged);
    PartAppend(q, Tag(bytes, tagged), !tagged);
    PartOfTag(bytes, tagged, tagged);
    PartOfTag(bytes, tagged, !tagged);
  }

  predicate TakesInput(a: State) {
    a.phase == Live || a.phase == Eof
  }

  /** The bytes of every enqueue that came while the session took input, in order. */
  function Offered(w: World, a: State, ops: seq<Op>): seq<u8>
    decreases |ops|
  {
    if ops == [] then []
    else (if ops[0].OpEnqueue? && TakesInput(a) then ops[0].bytes else []) + Offered(w, Step(w, a, ops[0]), ops[1..])
  }

  /** The emulator's replies to the first `n` bytes, in order. */
  function Answers(w: World, n: nat): seq<u8> {
    if n == 0 then [] else Answers(w, n - 1) + w.emulator(n - 1)
  }

  /** The input accepted is `input`, and the replies are those to the bytes decoded. */
  ghost predicate Heard(w: World, input: seq<u8>, a: State) {
    Part(a.past.accepted, false) == input && Part(a.past.accepted, true) == Answers(w, a.counters.processed)
  }

  lemma ReplyIsHeard(w: World, input: seq<u8>, a: State)
    requires Heard(w, input, a) && a.inbox != []
    ensures Heard(w, input, DecodeByte(w, a))
  {
    hide Part;
    PartJoins(a.past.accepted, w.emulator(a.counters.processed), true);
  }

  lemma HeardIsClosed(w: World, input: seq<u8>)
    ensures StepClosed(w, s => Heard(w, input, s))
  {
    hide Part;
    forall s | Heard(w, input, s) && s.inbox != [] ensures Heard(w, input, DecodeByte(w, s)) {
      ReplyIsHeard(w, input, s);
    }
  }

  lemma StepHears(w: World, input: seq<u8>, a: State, op: Op)
    requires Heard(w, input, a)
    ensures Heard(w, input + (if op.OpEnqueue? && TakesInput(a) then op.bytes else []), Step(w, a, op))
  {
    hide Part, Pump, WaitSession, TryWaitSession, Answers;
    assert input + [] == input;
    match op
    case OpEnqueue(bytes) => PartJoins(a.past.accepted, bytes, false);
    case OpPump(budget) =>
      HeardIsClosed(w, input);
      PumpSteps(w, s => Heard(w, input, s), a, budget);
    case OpTryWait(os) => CallsTouchOnlyTheChild(a, os);
    case OpWait(os) => CallsTouchOnlyTheChild(a, os);
    case _ =>
  }

  lemma {:induction false} RunHears(w: World, input: seq<u8>, a: State, ops: seq<Op>)
    requires Heard(w, input, a)
    ensures Heard(w, input + Offered(w, a, ops), Run(w, a, ops))
    decreases |ops|
  {
    hide Heard;
    if ops == [] {
      assert input + [] == input;
    } else {
      var more := if ops[0].OpEnqueue? && TakesInput(a) then ops[0].bytes else [];
      StepHears(w, input, a, ops[0]);
      RunHears(w, input + more, Step(w, a, ops[0]), ops[1..]);
      Associate(input, more, Offered(w, Step(w, a, ops[0]), ops[1..]));
    }
  }

  /**
   * Every byte offered while the session took input is accepted, in order and
   * whole, and so is every reply to a decoded byte; while nothing is dropped, all
   * of it is on the wire or waits.
   */
  lemma InputIsAccepted(w: World, ops: seq<Op>)
    ensures var a := Run(w, START, ops);
      && Part(a.past.accepted, false) == Offered(w, START, ops)
      && Part(a.past.accepted, true) == Answers(w, a.counters.processed)
      && (a.past.dropped == [] ==>
            && Part(a.past.wire, false) + Part(a.queue, false) == Offered(w, START, ops)
            && Part(a.past.wire, true) + Part(a.queue, true) == Answers(w, a.counters.processed))
  {
    hide Run, Merges;
    RunHears(w, [], START, ops);
    assert [] + Offered(w, START, ops) == Offered(w, START, ops);
    BytesLeaveInOrder(w, ops);
    var a := Run(w, START, ops);
    PartAppend(a.past.wire, a.queue, false);
    PartAppend(a.past.wire, a.queue, true);
  }

  /** Input is refused exactly once the session is over; accepted bytes make another pump needed. */
  lemma EnqueueAnswered(a: State, bytes: seq<u8>)
    ensures var r := Enqueue(a, bytes);
      && (r.1 == Ok(()) <==> TakesInput(a))
      && (!TakesInput(a) ==> r == (a, Err(BrokenPipe)))
      && (TakesInput(a) && bytes != [] ==> NeedsPump(r.0) && PollInterests(r.0).writable)
  {
  }

  /** A close drops exactly what waits to be written, keeps the account and the status, and nothing moves after it. */
  lemma ClosingDropsWhatWaits(w: World, a: State, b: Budget, bytes: seq<u8>)
    requires TakesInput(a)
    ensures var r := Close(a);
      && r.past.dropped == a.past.dropped + a.queue && r.past.wire == a.past.wire && r.counters == a.counters
      && r.exitStatus == a.exitStatus && r.phase == Closing && r.queue == [] && r.inbox == []
      && Close(r) == r && Pump(w, r, b) == Pumped(r, b, None) && Enqueue(r, bytes) == (r, Err(BrokenPipe))
      && !NeedsPump(r) && PollInterests(r) == Interests(false, false)
  {
  }

  // ---- the calls and what they brought --------------------------------

  /** The data the kernel answered to a read, as far as it was asked for. */
  function DataOf(w: World, c: Asked): seq<u8> {
    match w.kernel(c.call).read
    case Data(bytes) => bytes[..Min(|bytes|, c.cap)]
    case ReadFailed(_) => []
  }

  function Brought(w: World, calls: seq<Asked>): seq<u8> {
    if calls == [] then [] else Brought(w, calls[..|calls| - 1]) + DataOf(w, calls[|calls| - 1])
  }

  /** How many bytes the kernel took of a write, never more than it was offered. */
  function TakenBy(w: World, c: Asked): nat {
    match w.kernel(c.call).write
    case Wrote(n) => Min(n, c.cap)
    case WriteFailed(_) => 0
  }

  function Taken(w: World, calls: seq<Asked>): nat {
    if calls == [] then 0 else Taken(w, calls[..|calls| - 1]) + TakenBy(w, calls[|calls| - 1])
  }

  /** How many of the reads, or of the writes, were answered with would-block. */
  function BlockedReads(w: World, calls: seq<Asked>): nat {
    if calls == [] then 0
    else
      var blocked := w.kernel(calls[|calls| - 1].call).read == ReadFailed(WouldBlock);
      BlockedReads(w, calls[..|calls| - 1]) + if blocked then 1 else 0
  }

  function BlockedWrites(w: World, calls: seq<Asked>): nat {
    if calls == [] then 0
    else
      var blocked := w.kernel(calls[|calls| - 1].call).write == WriteFailed(WouldBlock);
      BlockedWrites(w, calls[..|calls| - 1]) + if blocked then 1 else 0
  }

  lemma OneMoreRead(w: World, calls: seq<Asked>, c: Asked)
    ensures Brought(w, calls + [c]) == Brought(w, calls) + DataOf(w, c)
    ensures BlockedReads(w, calls + [c])
      == BlockedReads(w, calls) + if w.kernel(c.call).read == ReadFailed(WouldBlock) then 1 else 0
  {
    assert (calls + [c])[..|calls|] == calls;
  }

  lemma OneMoreWrite(w: World, calls: seq<Asked>, c: Asked)
    ensures Taken(w, calls + [c]) == Taken(w, calls) + TakenBy(w, c)
    ensures BlockedWrites(w, calls + [c])
      == BlockedWrites(w, calls) + if w.kernel(c.call).write == WriteFailed(WouldBlock) then 1 else 0
  {
    assert (calls + [c])[..|calls|] == calls;
  }

  function UpTo(n: nat): (s: seq<nat>)
    ensures |s| == n
  {
    seq(n, i => i)
  }

  function Numbers(calls: seq<Asked>): (s: seq<nat>)
    ensures |s| == |calls|
  {
    seq(|calls|, i requires 0 <= i < |calls| => calls[i].call)
  }

  /** The reads and the writes are all the calls there were, each numbered once and in order. */
  ghost predicate Numbered(a: State) {
    Merges(UpTo(NextSyscall(a)), Numbers(a.past.readCalls), Numbers(a.past.writeCalls))
  }

  lemma NumberRead(a: State, cap: nat)
    requires Numbered(a)
    ensures Numbered(CountRead(a, cap))
  {
    var n := NextSyscall(a);
    KeepMore(UpTo(n), Numbers(a.past.readCalls), Numbers(a.past.writeCalls), [n]);
    assert UpTo(n) + [n] == UpTo(n + 1);
    assert Numbers(a.past.readCalls) + [n] == Numbers(a.past.readCalls + [Asked(n, cap)]);
  }

  lemma NumberWrite(a: State, cap: nat)
    requires Numbered(a)
    ensures Numbered(CountWrite(a, cap))
  {
    var n := NextSyscall(a);
    DropMore(UpTo(n), Numbers(a.past.readCalls), Numbers(a.past.writeCalls), [n]);
    assert UpTo(n) + [n] == UpTo(n + 1);
    assert Numbers(a.past.writeCalls) + [n] == Numbers(a.past.writeCalls + [Asked(n, cap)]);
  }

  /** What was received, sent and counted is what the kernel's answers to the calls make it. */
  ghost predicate Booked(w: World, a: State) {
    var p, c := a.past, a.counters;
    && Numbered(a) && |p.readCalls| == c.readSyscalls && |p.writeCalls| == c.writeSyscalls
    && p.received == Brought(w, p.readCalls) && |p.wire| == Taken(w, p.writeCalls)
    && c.readBlocked == BlockedReads(w, p.readCalls) && c.writeBlocked == BlockedWrites(w, p.writeCalls)
  }

  /** Nothing that is booked has changed. */
  predicate SameBooks(a: State, r: State) {
    var p, q, c, d := a.past, r.past, a.counters, r.counters;
    && q.readCalls == p.readCalls && q.writeCalls == p.writeCalls && q.received == p.received && q.wire == p.wire
    && d.readSyscalls == c.readSyscalls && d.writeSyscalls == c.writeSyscalls
    && d.readBlocked == c.readBlocked && d.writeBlocked == c.writeBlocked
  }

  predicate SamePumps(a: State, r: State) {
    r.counters.pumpCalls == a.counters.pumpCalls && r.counters.exhaustions == a.counters.exhaustions
  }

  lemma SameIsBooked(w: World, a: State, r: State)
    requires Booked(w, a) && SameBooks(a, r)
    ensures Booked(w, r)
  {
  }

  lemma {:induction false} DecodeBooksNothing(w: World, a: State, b: Budget)
    ensures SameBooks(a, Decode(w, a, b).0) && SamePumps(a, Decode(w, a, b).0)
    decreases b.bytes
  {
    if CanDecode(a, b) {
      DecodeBooksNothing(w, DecodeByte(w, a), Consume(b, 1, 0));
    }
  }

  /** A write, once what its answer says has been done. */
  lemma WriteCallIsBooked(w: World, a: State, cap: nat)
    requires Booked(w, a) && cap <= |a.queue|
    ensures var a1, c := CountWrite(a, cap), Asked(NextSyscall(a), cap);
      if TakenBy(w, c) > 0 then TakenBy(w, c) <= |a1.queue| && Booked(w, Send(a1, TakenBy(w, c)))
      else if w.kernel(NextSyscall(a)).write == WriteFailed(WouldBlock) then Booked(w, BlockWrite(a1))
      else Booked(w, a1)
  {
    hide Merges, Replies;
    NumberWrite(a, cap);
    OneMoreWrite(w, a.past.writeCalls, Asked(NextSyscall(a), cap));
  }

  lemma WriteIsBooked(w: World, a: State, b: Budget)
    requires Booked(w, a) && CanWrite(a, b)
    ensures Booked(w, WriteOnce(w, a, b).state) && SamePumps(a, WriteOnce(w, a, b).state)
  {
    hide Booked, Replies;
    var cap := Min(b.bytes, |a.queue|);
    var a1 := CountWrite(a, cap);
    WriteCallIsBooked(w, a, cap);
    if w.kernel(NextSyscall(a)).write == WriteFailed(Eio) {
      SameIsBooked(w, a1, NoteEof(Discard(a1)));
    }
  }

  lemma {:induction false} WritesAreBooked(w: World, a: State, b: Budget, moved: bool)
    requires Booked(w, a)
    ensures Booked(w, WriteLoop(w, a, b, moved).state) && SamePumps(a, WriteLoop(w, a, b, moved).state)
    decreases b.syscalls
  {
    hide Booked;
    if CanWrite(a, b) {
      WriteIsBooked(w, a, b);
      var o := WriteOnce(w, a, b);
      if o.again {
        WritesAreBooked(w, o.state, o.budget, true);
      }
    }
  }

  lemma DataIsBooked(w: World, a: State, cap: nat, b: Budget)
    requires Booked(w, a) && w.kernel(NextSyscall(a)).read.Data?
    ensures var d := Decode(w, Receive(CountRead(a, cap), Got(w.kernel(NextSyscall(a)).read, cap)), b);
      Booked(w, d.0) && SamePumps(a, d.0)
  {
    hide Merges;
    var r := Receive(CountRead(a, cap), Got(w.kernel(NextSyscall(a)).read, cap));
    NumberRead(a, cap);
    OneMoreRead(w, a.past.readCalls, Asked(NextSyscall(a), cap));
    assert Booked(w, r);
    DecodeBooksNothing(w, r, b);
    SameIsBooked(w, r, Decode(w, r, b).0);
  }

  lemma NothingReadIsBooked(w: World, a: State, cap: nat)
    requires Booked(w, a) && DataOf(w, Asked(NextSyscall(a), cap)) == []
    requires w.kernel(NextSyscall(a)).read != ReadFailed(WouldBlock)
    ensures Booked(w, CountRead(a, cap))
  {
    hide Merges;
    NumberRead(a, cap);
    OneMoreRead(w, a.past.readCalls, Asked(NextSyscall(a), cap));
  }

  lemma BlockedReadIsBooked(w: World, a: State, cap: nat)
    requires Booked(w, a) && w.kernel(NextSyscall(a)).read == ReadFailed(WouldBlock)
    ensures Booked(w, BlockRead(CountRead(a, cap)))
  {
    hide Merges;
    NumberRead(a, cap);
    OneMoreRead(w, a.past.readCalls, Asked(NextSyscall(a), cap));
  }

  lemma ReadIsBooked(w: World, a: State, b: Budget)
    requires Booked(w, a) && CanRead(a, b)
    ensures Booked(w, ReadOnce(w, a, b).state) && SamePumps(a, ReadOnce(w, a, b).state)
  {
    hide Booked, Decode;
    var cap := Min(b.bytes, READ_BUFFER_LIMIT - |a.inbox|);
    var a1 := CountRead(a, cap);
    match w.kernel(NextSyscall(a)).read
    case Data(_) =>
      var bytes := Got(w.kernel(NextSyscall(a)).read, cap);
      if bytes == [] {
        NothingReadIsBooked(w, a, cap);
        SameIsBooked(w, a1, NoteReadEof(a1));
      } else {
        DataIsBooked(w, a, cap, Consume(Consume(b, 0, 1), |bytes|, 0));
      }
    case ReadFailed(error) =>
      if error == WouldBlock {
        BlockedReadIsBooked(w, a, cap);
      } else {
        NothingReadIsBooked(w, a, cap);
        SameIsBooked(w, a1, NoteReadEof(a1));
      }
  }

  lemma {:induction false} ReadsAreBooked(w: World, a: State, b: Budget, moved: bool)
    requires Booked(w, a)
    ensures Booked(w, ReadLoop(w, a, b, moved).state) && SamePumps(a, ReadLoop(w, a, b, moved).state)
    decreases b.syscalls
  {
    hide Booked;
    if CanRead(a, b) {
      ReadIsBooked(w, a, b);
      var o := ReadOnce(w, a, b);
      if o.again {
        ReadsAreBooked(w, o.state, o.budget, true);
      }
    }
  }

  lemma PhaseIsBooked(w: World, a: State, b: Budget, d: Direction)
    requires Booked(w, a)
    ensures Booked(w, RunPhase(w, a, b, d).state) && SamePumps(a, RunPhase(w, a, b, d).state)
  {
    hide Booked, WriteLoop, ReadLoop, Decode;
    if d == Writing {
      WritesAreBooked(w, a, b, false);
      var p := WriteLoop(w, a, b, false);
      SameIsBooked(w, p.state, Settle(p.state));
    } else {
      DecodeBooksNothing(w, a, b);
      var r := Decode(w, a, b);
      SameIsBooked(w, a, r.0);
      ReadsAreBooked(w, r.0, r.1, r.0.counters.processed > a.counters.processed);
    }
  }

  lemma {:induction false} TurnsAreBooked(w: World, a: State, b: Budget, d: Direction, turns: nat)
    requires Booked(w, a)
    ensures Booked(w, Turns(w, a, b, d, turns).state) && SamePumps(a, Turns(w, a, b, d, turns).state)
    decreases turns
  {
    hide Booked, RunPhase;
    if turns > 0 && !Exhausted(b) {
      PhaseIsBooked(w, a, b, if HasWork(a, d) then d else Opposite(d));
      var t := TurnOnce(w, a, b, d);
      if t.again {
        TurnsAreBooked(w, t.state, t.budget, t.next, turns - 1);
      }
    }
  }

  /** Whether a pump of a session that is not over used its budget up without an error. */
  predicate UsesUp(w: World, a: State, b: Budget) {
    TakesInput(a) && Pump(w, a, b).error.None? && (Pump(w, a, b).left.bytes == 0 || Pump(w, a, b).left.syscalls == 0)
  }

  lemma PumpIsBooked(w: World, a: State, b: Budget)
    requires Booked(w, a)
    ensures var r := Pump(w, a, b).state;
      && Booked(w, r)
      && r.counters.pumpCalls == a.counters.pumpCalls + (if TakesInput(a) then 1 else 0)
      && r.counters.exhaustions == a.counters.exhaustions + (if UsesUp(w, a, b) then 1 else 0)
  {
    hide Booked, Turns;
    if TakesInput(a) {
      SameIsBooked(w, a, BeginPump(a));
      TurnsAreBooked(w, BeginPump(a), b, a.direction, 2);
      var t := Turns(w, BeginPump(a), b, a.direction, 2);
      SameIsBooked(w, t.state, EndPump(t.state, t.budget, t.next));
    }
  }

  /** How many pumps of a run found the session not over, and how many of them used their budget up. */
  function Pumps(w: World, a: State, ops: seq<Op>): nat
    decreases |ops|
  {
    if ops == [] then 0
    else (if ops[0].OpPump? && TakesInput(a) then 1 else 0) + Pumps(w, Step(w, a, ops[0]), ops[1..])
  }

  function Exhaustions(w: World, a: State, ops: seq<Op>): nat
    decreases |ops|
  {
    if ops == [] then 0
    else
      var usedUp := ops[0].OpPump? && UsesUp(w, a, ops[0].budget);
      (if usedUp then 1 else 0) + Exhaustions(w, Step(w, a, ops[0]), ops[1..])
  }

  lemma WaitsBookNothing(a: State, os: Os)
    ensures SameBooks(a, WaitSession(a, os).0) && SamePumps(a, WaitSession(a, os).0)
    ensures SameBooks(a, TryWaitSession(a, os).0) && SamePumps(a, TryWaitSession(a, os).0)
  {
    hide WaitSession, TryWaitSession, Signal;
    CallsTouchOnlyTheChild(a, os);
  }

  lemma StepIsBooked(w: World, a: State, op: Op)
    requires Booked(w, a)
    ensures var r := Step(w, a, op);
      && Booked(w, r)
      && r.counters.pumpCalls == a.counters.pumpCalls + (if op.OpPump? && TakesInput(a) then 1 else 0)
      && r.counters.exhaustions
        == a.counters.exhaustions + (if op.OpPump? && UsesUp(w, a, op.budget) then 1 else 0)
  {
    hide Booked, Pump, WaitSession, TryWaitSession, UsesUp;
    if SameBooks(a, Step(w, a, op)) {
      SameIsBooked(w, a, Step(w, a, op));
    }
    match op
    case OpPump(budget) => PumpIsBooked(w, a, budget);
    case OpTryWait(os) => WaitsBookNothing(a, os);
    case OpWait(os) => WaitsBookNothing(a, os);
    case _ =>
  }

  lemma {:induction false} RunIsBooked(w: World, a: State, ops: seq<Op>)
    requires Booked(w, a)
    ensures var r := Run(w, a, ops);
      && Booked(w, r)
      && r.counters.pumpCalls == a.counters.pumpCalls + Pumps(w, a, ops)
      && r.counters.exhaustions == a.counters.exhaustions + Exhaustions(w, a, ops)
    decreases |ops|
  {
    hide Booked, Step, UsesUp;
    if ops != [] {
      StepIsBooked(w, a, ops[0]);
      RunIsBooked(w, Step(w, a, ops[0]), ops[1..]);
    }
  }

  /** A read asks for no more than the budget and 65536 bytes, a write for what is queued as far as the budget goes. */
  lemma AsksForWhatFits(w: World, a: State, b: Budget)
    ensures CanRead(a, b) && a.inbox == [] ==>
      ReadOnce(w, a, b).state.past.readCalls == a.past.readCalls + [Asked(NextSyscall(a), Min(b.bytes, 0x1_0000))]
    ensures CanWrite(a, b) ==>
      WriteOnce(w, a, b).state.past.writeCalls == a.past.writeCalls + [Asked(NextSyscall(a), Min(b.bytes, |a.queue|))]
  {
    hide Decode, Replies;
    if CanRead(a, b) && w.kernel(NextSyscall(a)).read.Data? {
      var cap := Min(b.bytes, READ_BUFFER_LIMIT - |a.inbox|);
      var bytes := Got(w.kernel(NextSyscall(a)).read, cap);
      DecodeBooksNothing(w, Receive(CountRead(a, cap), bytes), Consume(Consume(b, 0, 1), |bytes|, 0));
    }
  }

  lemma StartIsBooked(w: World)
    ensures Booked(w, START)
  {
    var p := START.past;
    assert p.readCalls == [] && p.writeCalls == [] && p.received == [] && p.wire == [];
    assert UpTo(0) == [] && Numbers([]) == [];
  }

  /**
   * What was received is the data the kernel answered to the reads, in the order
   * they were issued, and as many bytes went out as it took of the writes; the
   * reads and writes together are all the calls counted.
   */
  lemma TrafficIsWhatTheKernelMoved(w: World, ops: seq<Op>)
    ensures var a := Run(w, START, ops);
      var p, c := a.past, a.counters;
      && Merges(UpTo(NextSyscall(a)), Numbers(p.readCalls), Numbers(p.writeCalls))
      && |p.readCalls| == c.readSyscalls && |p.writeCalls| == c.writeSyscalls
      && p.received == Brought(w, p.readCalls) && |p.wire| == Taken(w, p.writeCalls)
      && c.readBlocked == BlockedReads(w, p.readCalls) && c.writeBlocked == BlockedWrites(w, p.writeCalls)
  {
    hide Run, NextSyscall;
    StartIsBooked(w);
    RunIsBooked(w, START, ops);
  }

  /** Pumps and exhausted budgets are counted once each. */
  lemma PumpsAreCounted(w: World, ops: seq<Op>)
    ensures var c := Run(w, START, ops).counters;
      c.pumpCalls == Pumps(w, START, ops) && c.exhaustions == Exhaustions(w, START, ops)
  {
    hide Run, Booked, Pumps, Exhaustions;
    StartIsBooked(w);
    RunIsBooked(w, START, ops);
  }
}
