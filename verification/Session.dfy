/** One session, its buffers and offsets updated in place, proved to be the abstract machine. */
module SessionPump {
  import opened TerminalTypes
  import opened Lifecycle
  import opened SessionSpec
  import opened Pty
  import L = SessionLaws

  /** Where the unsent reply lies in the write buffer. */
  datatype Span = Span(start: nat, end: nat)

  /** The bytes of `out` from `offset` on, those inside `reply` tagged as a reply. */
  function Marked(out: seq<u8>, offset: nat, reply: Option<Span>): (q: seq<Tagged>)
    requires offset <= |out|
    ensures |q| == |out| - offset
  {
    seq(|out| - offset, i requires 0 <= i < |out| - offset =>
      Tagged(out[offset + i], reply.Some? && reply.value.start <= offset + i < reply.value.end))
  }

  /** How much of the unsent bytes belongs to a reply. */
  function PendingReplyUnsentLen(offset: nat, reply: Option<Span>): nat {
    match reply
    case Some(range) => SatSub(range.end, Max(offset, range.start))
    case None => 0
  }

  predicate Inside(out: seq<u8>, reply: Option<Span>) {
    reply.Some? ==> reply.value.start < reply.value.end <= |out|
  }

  /** The range arithmetic counts exactly the tagged reply bytes. */
  lemma {:induction false} PendingReplyCounts(out: seq<u8>, offset: nat, reply: Option<Span>)
    requires offset <= |out| && Inside(out, reply)
    ensures Replies(Marked(out, offset, reply)) == PendingReplyUnsentLen(offset, reply)
    decreases |out| - offset
  {
    if offset < |out| {
      PendingReplyCounts(out, offset + 1, reply);
      assert Marked(out, offset, reply)[1..] == Marked(out, offset + 1, reply);
    }
  }

  /** Reply bytes among the next `n`, as the difference of two pending lengths. */
  lemma ReplyWritten(out: seq<u8>, offset: nat, n: nat, reply: Option<Span>)
    requires offset + n <= |out| && Inside(out, reply)
    ensures var q := Marked(out, offset, reply);
      && q[n..] == Marked(out, offset + n, reply)
      && Replies(q[..n]) == SatSub(PendingReplyUnsentLen(offset, reply), PendingReplyUnsentLen(offset + n, reply))
  {
    var q := Marked(out, offset, reply);
    assert q[n..] == Marked(out, offset + n, reply);
    L.RepliesSplit(q, n);
    PendingReplyCounts(out, offset, reply);
    PendingReplyCounts(out, offset + n, reply);
  }

  /** An open PTY, or what is left of it. */
  datatype Handle = Open(live: PtyProcess) | Shut(closing: ClosingPtyProcess)

  class Session {
    const world: World
    var pty: Handle
    var phase: Phase
    var exitStatus: Option<ExitStatus>
    var readBuffer: seq<u8>
    var readOffset: nat
    var outbound: seq<u8>
    var writeOffset: nat
    var pendingReply: Option<Span>
    var direction: Direction
    var readWouldBlock: bool
    var writeWouldBlock: bool
    var counters: Counters
    ghost var past: History

    function PtyObject(): object
      reads this
    {
      match pty
      case Open(live) => live
      case Shut(closing) => closing
    }

    ghost predicate Valid()
      reads this, PtyObject()
    {
      && writeOffset <= |outbound| && readOffset <= |readBuffer| <= READ_BUFFER_LIMIT
      && Inside(outbound, pendingReply)
      && (pty.Shut? ==> pty.closing.Valid())
    }

    ghost function Child(): Child
      reads this, PtyObject()
    {
      match pty
      case Open(live) => live.View()
      case Shut(closing) => closing.View()
    }

    ghost function Calls(): seq<OsCall>
      reads this, PtyObject()
    {
      match pty
      case Open(live) => live.calls
      case Shut(closing) => closing.calls
    }

    ghost function Queue(): seq<Tagged>
      reads this
      requires writeOffset <= |outbound|
    {
      Marked(outbound, writeOffset, pendingReply)
    }

    /** The abstract session. */
    ghost function View(): State
      reads this, PtyObject()
      requires Valid()
    {
      State(phase, Child(), exitStatus, Queue(), writeOffset, pendingReply.Some?, readBuffer[readOffset..],
        direction, readWouldBlock, writeWouldBlock, counters, past.(calls := Calls()))
    }

    constructor (world: World)
      ensures Valid() && View() == START && this.world == world
    {
      var child := new PtyProcess();
      this.world := world;
      pty := Open(child);
      phase, exitStatus := Live, None;
      readBuffer, readOffset, outbound, writeOffset, pendingReply := [], 0, [], 0, None;
      direction, readWouldBlock, writeWouldBlock := Writing, false, false;
      counters, past := NO_COUNTS, NO_HISTORY;
    }

    // ---- accessors ------------------------------------------------------

    predicate ReadPaused()
      reads this
    {
      pendingReply.Some?
    }

    predicate OutboundEmpty()
      reads this
    {
      |outbound| == writeOffset
    }

    function Unsent(): int
      reads this
    {
      |outbound| - writeOffset
    }

    function BufferedReadLen(): int
      reads this
    {
      |readBuffer| - readOffset
    }

    method HasDirectionWork(d: Direction) returns (r: bool)
      requires Valid()
      ensures r == HasWork(View(), d)
    {
      match d
      case Writing => r := !OutboundEmpty();
      case Reading =>
        r := (BufferedReadLen() > 0 && !ReadPaused()) || (phase == Live && !ReadPaused() && pty.Open?);
    }

    method CurrentInterests() returns (r: Interests)
      requires Valid()
      ensures r == PollInterests(View())
    {
      if phase == Closing || phase == Spent {
        return Interests(false, false);
      }
      r := Interests(false, false);
      if phase != Eof && !ReadPaused() && pty.Open? {
        r := r.(readable := true);
      }
      if !OutboundEmpty() {
        r := r.(writable := true);
      }
    }

    method NeedsPump() returns (r: bool)
      requires Valid()
      ensures r == SessionSpec.NeedsPump(View())
    {
      if phase == Closing || phase == Spent {
        return false;
      }
      if !OutboundEmpty() && !writeWouldBlock {
        return true;
      }
      if phase == Live && !ReadPaused() && !readWouldBlock {
        return true;
      }
      r := BufferedReadLen() > 0 && !ReadPaused();
    }

    // ---- single steps ---------------------------------------------------

    method NoteExit(status: ExitStatus)
      requires Valid()
      modifies this
      ensures Valid() && pty == old(pty) && View() == SessionSpec.NoteExit(old(View()), status)
    {
      exitStatus := Some(status);
      if phase == Eof {
        phase := Spent;
      }
    }

    method NoteEof()
      requires Valid()
      modifies this
      ensures Valid() && pty == old(pty) && View() == SessionSpec.NoteEof(old(View()))
    {
      phase := Eof;
      if exitStatus.Some? {
        phase := Spent;
      }
      past := past.(sawEof := true);
    }

    /** EOF as a read reports it. */
    method NoteReadEof()
      requires Valid()
      modifies this
      ensures Valid() && pty == old(pty) && View() == SessionSpec.NoteReadEof(old(View()))
    {
      NoteEof();
      past := past.(readEof := true);
    }

    /** Drops the written prefix once it is large, moving the reply's range along. */
    method CompactOutbound()
      requires Valid()
      modifies this
      ensures Valid() && pty == old(pty) && View() == Compact(old(View()))
    {
      hide Replies;
      PendingReplyCounts(outbound, writeOffset, pendingReply);
      if writeOffset == 0 {
        return;
      }
      if writeOffset < OUTBOUND_COMPACT_THRESHOLD && !OutboundEmpty() {
        return;
      }
      if pendingReply.Some? && writeOffset >= pendingReply.value.end {
        pendingReply := None;
      }
      var drained := writeOffset;
      outbound := outbound[drained..];
      if pendingReply.Some? {
        var range := pendingReply.value;
        pendingReply := Some(Span(SatSub(range.start, drained), range.end - drained));
      }
      writeOffset := 0;
      assert Queue() == old(Queue());
    }

    /** Drops the decoded prefix once it is large; what waits to be decoded stays. */
    method CompactReadBuffer()
      requires Valid()
      modifies this
      ensures Valid() && pty == old(pty) && View() == old(View())
      ensures BufferedReadLen() == 0 ==> readBuffer == []
    {
      if readOffset == 0 {
        return;
      }
      if readOffset < READ_COMPACT_THRESHOLD && BufferedReadLen() > 0 {
        return;
      }
      readBuffer := readBuffer[readOffset..];
      readOffset := 0;
    }

    /** Accounts for `n` written bytes, split by the reply's range. */
    method AdvanceWrite(n: nat)
      requires Valid() && n <= |Queue()|
      modifies this
      ensures Valid() && pty == old(pty) && View() == Advance(old(View()), n)
    {
      hide Marked;
      ghost var q := Queue();
      ReplyWritten(outbound, writeOffset, n, pendingReply);
      var replyWritten := SatSub(
        PendingReplyUnsentLen(writeOffset, pendingReply), PendingReplyUnsentLen(writeOffset + n, pendingReply));
      assert replyWritten == Replies(q[..n]);
      writeOffset := writeOffset + n;
      assert Queue() == q[n..];
      counters := counters.(
        replyWritten := counters.replyWritten + replyWritten,
        inputWritten := counters.inputWritten + (n - replyWritten));
      past := past.(wire := past.wire + q[..n]);
    }

    // ---- phases ---------------------------------------------------------

    /** A finished reply stops pausing the session. */
    method SettleReply()
      requires Valid()
      modifies this
      ensures Valid() && pty == old(pty) && View() == Settle(old(View()))
    {
      PendingReplyCounts(outbound, writeOffset, pendingReply);
      if pendingReply.Some? && writeOffset >= pendingReply.value.end {
        pendingReply := None;
        assert Queue() == old(Queue());
      }
    }

    method DiscardQueue()
      requires Valid()
      modifies this
      ensures Valid() && pty == old(pty) && View() == Discard(old(View()))
    {
      past := past.(dropped := past.dropped + Queue(), settled := |past.accepted|, sentBefore := |past.wire|);
      outbound, writeOffset, pendingReply := [], 0, None;
      assert Queue() == [];
    }

    /** Issues one write of at most `cap` bytes of what is queued. */
    method WriteSyscall(cap: nat) returns (result: WriteReply)
      requires Valid()
      modifies this
      ensures Valid() && pty == old(pty)
      ensures View() == CountWrite(old(View()), cap) && result == world.kernel(NextSyscall(old(View()))).write
    {
      ghost var call := NextSyscall(View());
      result := world.kernel(counters.readSyscalls + counters.writeSyscalls).write;
      past := past.(writeCalls := past.writeCalls + [Asked(call, cap)], lastWrite := Some(call), enqueuedSince := 0);
      counters := counters.(writeSyscalls := counters.writeSyscalls + 1);
    }

    method NoteWriteBlocked()
      requires Valid()
      modifies this
      ensures Valid() && pty == old(pty) && View() == BlockWrite(old(View()))
    {
      counters := counters.(writeBlocked := counters.writeBlocked + 1);
      writeWouldBlock := true;
    }

    method NoteReadBlocked()
      requires Valid()
      modifies this
      ensures Valid() && pty == old(pty) && View() == BlockRead(old(View()))
    {
      counters := counters.(readBlocked := counters.readBlocked + 1);
      readWouldBlock := true;
    }

    /** One write and what its answer does; `again` when bytes went out. */
    method WriteOnce(budget: Budget) returns (left: Budget, again: bool, error: Option<ErrorKind>)
      requires Valid() && CanWrite(View(), budget)
      modifies this
      ensures Valid() && pty == old(pty)
      ensures Attempt(View(), left, again, error) == SessionSpec.WriteOnce(world, old(View()), budget)
    {
      again, error := false, None;
      var cap := Min(budget.bytes, Unsent());
      var result := WriteSyscall(cap);
      left := Consume(budget, 0, 1);
      match result
      case Wrote(k) =>
        var n := Min(k, cap);
        if n > 0 {
          left := Consume(left, n, 0);
          AdvanceWrite(n);
          CompactOutbound();
          again := true;
        }
      case WriteFailed(kind) =>
        if kind == WouldBlock {
          NoteWriteBlocked();
        } else if kind == Eio {
          DiscardQueue();
          NoteEof();
        } else if kind != Interrupted {
          error := Some(kind);
        }
    }

    /** Writes queued bytes until the queue, the budget or the kernel's patience ends. */
    method WritePhase(budget: Budget) returns (left: Budget, progressed: bool, error: Option<ErrorKind>)
      requires Valid()
      modifies this
      ensures Valid() && pty == old(pty)
      ensures Progress(View(), left, progressed, error) == SessionSpec.WritePhase(world, old(View()), budget)
    {
      left, progressed, error := budget, false, None;
      var again := true;
      while again && !Exhausted(left) && phase != Closing && phase != Spent && !OutboundEmpty() && pty.Open?
        invariant Valid() && pty == old(pty)
        invariant WriteLoop(world, old(View()), budget, false) ==
          if again then WriteLoop(world, View(), left, progressed) else Progress(View(), left, progressed, error)
        invariant again ==> error.None?
        decreases left.syscalls
      {
        left, again, error := WriteOnce(left);
        progressed := progressed || again;
      }
      if error.None? {
        SettleReply();
      }
    }

    /** A reply goes behind everything accepted so far and pauses decoding. */
    method QueueReply(reply: seq<u8>)
      requires Valid() && pendingReply.None? && reply != []
      modifies this
      ensures Valid() && pty == old(pty)
      ensures View() == Accept(old(View()), reply, true).(
        paused := true,
        counters := old(counters).(replyGenerated := old(counters).replyGenerated + |reply|))
    {
      ghost var q := Queue();
      var start := |outbound|;
      outbound := outbound + reply;
      counters := counters.(replyGenerated := counters.replyGenerated + |reply|);
      pendingReply := Some(Span(start, start + |reply|));
      past := past.(accepted := past.accepted + Tag(reply, true));
      assert Queue() == q + Tag(reply, true);
    }

    /** Takes the next byte out of the read buffer. */
    method TakeByte()
      requires Valid() && BufferedReadLen() > 0
      modifies this
      ensures Valid() && pty == old(pty) && pendingReply == old(pendingReply)
      ensures View() == Feed(old(View()))
    {
      past := past.(fed := past.fed + [readBuffer[readOffset]]);
      readOffset := readOffset + 1;
      counters := counters.(processed := counters.processed + 1);
    }

    /** Feeds one byte to the emulator. */
    method DecodeByte()
      requires Valid() && BufferedReadLen() > 0 && pendingReply.None?
      modifies this
      ensures Valid() && pty == old(pty) && View() == SessionSpec.DecodeByte(world, old(View()))
    {
      var reply := world.emulator(counters.processed);
      TakeByte();
      if reply != [] {
        QueueReply(reply);
      }
    }

    /** Decodes what is buffered, one byte at a time, until paused, empty or out of budget. */
    method DecodeBuffered(budget: Budget) returns (left: Budget, decoded: nat)
      requires Valid()
      modifies this
      ensures Valid() && pty == old(pty)
      ensures (View(), left) == Decode(world, old(View()), budget) && !CanDecode(View(), left)
      ensures decoded == View().counters.processed - old(View()).counters.processed
    {
      left, decoded := budget, 0;
      while left.bytes > 0 && !ReadPaused() && BufferedReadLen() > 0
        invariant Valid() && pty == old(pty)
        invariant Decode(world, View(), left) == Decode(world, old(View()), budget)
        invariant decoded == View().counters.processed - old(View()).counters.processed
        decreases left.bytes
      {
        left := Consume(left, 1, 0);
        DecodeByte();
        decoded := decoded + 1;
      }
      CompactReadBuffer();
    }

    /** Puts what was read behind what is buffered. */
    method ReadBytes(bytes: seq<u8>)
      requires Valid() && |readBuffer| + |bytes| <= READ_BUFFER_LIMIT
      modifies this
      ensures Valid() && pty == old(pty) && View() == Receive(old(View()), bytes)
    {
      ghost var inbox := readBuffer[readOffset..];
      readBuffer := readBuffer + bytes;
      counters := counters.(bytesRead := counters.bytesRead + |bytes|);
      past := past.(received := past.received + bytes);
      assert readBuffer[readOffset..] == inbox + bytes;
    }

    /** A read is counted and remembered, and so is what waits to be decoded when it is issued. */
    method CountReadSyscall(ghost cap: nat)
      requires Valid()
      modifies `counters, `past
      ensures Valid() && View() == CountRead(old(View()), cap)
    {
      hide Marked;
      ghost var call := NextSyscall(View());
      assert |View().inbox| == BufferedReadLen();
      counters := counters.(readSyscalls := counters.readSyscalls + 1);
      past := past.(
        undecodedAtRead := past.undecodedAtRead + BufferedReadLen(),
        readCalls := past.readCalls + [Asked(call, cap)],
        lastRead := Some(call));
    }

    /** Issues one read of at most `cap` bytes into a buffer that has been decoded to the end. */
    method ReadSyscall(cap: nat) returns (result: ReadReply)
      requires Valid() && BufferedReadLen() == 0
      modifies this
      ensures Valid() && pty == old(pty) && readBuffer == []
      ensures View() == CountRead(old(View()), cap) && result == world.kernel(NextSyscall(old(View()))).read
    {
      hide Marked, CountRead, Inside;
      result := world.kernel(counters.readSyscalls + counters.writeSyscalls).read;
      CompactReadBuffer();
      CountReadSyscall(cap);
    }

    /** One read, and the decoding of what it brought. */
    method ReadOnce(budget: Budget) returns (left: Budget, again: bool, error: Option<ErrorKind>)
      requires Valid() && CanRead(View(), budget) && BufferedReadLen() == 0
      modifies this
      ensures Valid() && pty == old(pty)
      ensures Attempt(View(), left, again, error) == SessionSpec.ReadOnce(world, old(View()), budget)
      ensures again ==> !CanDecode(View(), left)
    {
      hide Marked, Inside, SessionSpec.Decode;
      again, error := false, None;
      var cap := Min(budget.bytes, READ_BUFFER_LIMIT - BufferedReadLen());
      var result := ReadSyscall(cap);
      left := Consume(budget, 0, 1);
      match result
      case Data(_) =>
        var bytes := Got(result, cap);
        if bytes == [] {
          NoteReadEof();
        } else {
          again := true;
          ReadBytes(bytes);
          var decoded;
          left, decoded := DecodeBuffered(Consume(left, |bytes|, 0));
        }
      case ReadFailed(kind) =>
        if kind == WouldBlock {
          NoteReadBlocked();
        } else if kind == Eio {
          NoteReadEof();
        } else if kind != Interrupted {
          error := Some(kind);
        }
    }

    /** Decodes what is left over, then reads and decodes until something stops it. */
    method ReadPhase(budget: Budget) returns (left: Budget, progressed: bool, error: Option<ErrorKind>)
      requires Valid()
      modifies this
      ensures Valid() && pty == old(pty)
      ensures Progress(View(), left, progressed, error) == SessionSpec.ReadPhase(world, old(View()), budget)
    {
      hide Marked;
      error := None;
      var decoded;
      left, decoded := DecodeBuffered(budget);
      progressed := decoded > 0;
      var again := true;
      while again && !Exhausted(left) && !ReadPaused() && phase == Live
        && READ_BUFFER_LIMIT - BufferedReadLen() > 0 && pty.Open?
        invariant Valid() && pty == old(pty)
        invariant SessionSpec.ReadPhase(world, old(View()), budget) ==
          if again then ReadLoop(world, View(), left, progressed) else Progress(View(), left, progressed, error)
        invariant again ==> error.None? && !CanDecode(View(), left)
        decreases left.syscalls
      {
        left, again, error := ReadOnce(left);
        progressed := progressed || again;
      }
    }

    // ---- one pump -------------------------------------------------------

    /** One turn: a phase in a direction that has work, and where to go on. */
    method RunTurn(d0: Direction, budget: Budget)
      returns (left: Budget, next: Direction, again: bool, error: Option<ErrorKind>)
      requires Valid()
      modifies this
      ensures Valid() && pty == old(pty)
      ensures Turn(View(), left, next, again, error) == TurnOnce(world, old(View()), budget, d0)
    {
      hide Marked, SessionSpec.WritePhase, SessionSpec.ReadPhase;
      left, next, again, error := budget, d0, false, None;
      var work := HasDirectionWork(next);
      if !work {
        next := Opposite(next);
        work := HasDirectionWork(next);
        if !work {
          return;
        }
      }
      var progressed;
      match next {
        case Writing => left, progressed, error := WritePhase(left);
        case Reading => left, progressed, error := ReadPhase(left);
      }
      if error.Some? {
        return;
      }
      again := HasDirectionWork(Opposite(next));
      if progressed || again {
        next := Opposite(next);
      }
    }

    /** Two turns at most. */
    method RunTurns(budget: Budget)
      returns (left: Budget, next: Direction, error: Option<ErrorKind>)
      requires Valid()
      modifies this
      ensures Valid() && pty == old(pty)
      ensures Turn(View(), left, next, false, error) == Turns(world, old(View()), budget, old(direction), 2)
    {
      left, next, error := budget, direction, None;
      var again, turns := true, 2;
      while again && turns > 0 && !Exhausted(left)
        invariant Valid() && pty == old(pty)
        invariant 0 <= turns && (again ==> error.None?)
        invariant Turns(world, old(View()), budget, old(direction), 2) ==
          if again then Turns(world, View(), left, next, turns) else Turn(View(), left, next, false, error)
      {
        left, next, again, error := RunTurn(next, left);
        turns := turns - 1;
      }
    }

    /** Neither direction is known to be blocked, and nothing has been tried. */
    method LowerFlags()
      requires Valid()
      modifies `readWouldBlock, `writeWouldBlock, `past
      ensures Valid()
      ensures View() == old(View()).(
        readBlocked := false,
        writeBlocked := false,
        past := old(View()).past.(lastRead := None, lastWrite := None))
    {
      hide Marked;
      readWouldBlock, writeWouldBlock := false, false;
      past := past.(lastRead := None, lastWrite := None);
    }

    method StartPump()
      requires Valid()
      modifies this
      ensures Valid() && pty == old(pty) && View() == BeginPump(old(View()))
    {
      hide Marked;
      counters := counters.(pumpCalls := counters.pumpCalls + 1);
      LowerFlags();
    }

    method FinishPump(left: Budget, next: Direction)
      requires Valid()
      modifies this
      ensures Valid() && pty == old(pty) && View() == EndPump(old(View()), left, next)
    {
      direction := next;
      if Exhausted(left) {
        counters := counters.(exhaustions := counters.exhaustions + 1);
      }
    }

    /** Writes, reads and decodes within the budget; an error ends the pump at once. */
    method PumpIo(budget: Budget) returns (ghost left: Budget, error: Option<ErrorKind>)
      requires Valid()
      modifies this
      ensures Valid() && pty == old(pty)
      ensures Pumped(View(), left, error) == Pump(world, old(View()), budget)
    {
      left, error := budget, None;
      if phase == Closing || phase == Spent {
        return;
      }
      StartPump();
      var rest, next;
      rest, next, error := RunTurns(budget);
      left := rest;
      if error.None? {
        FinishPump(rest, next);
      }
    }

    // ---- the other operations -------------------------------------------

    /** Input goes behind everything accepted so far. */
    method AppendInput(bytes: seq<u8>)
      requires Valid()
      modifies this
      ensures Valid() && pty == old(pty) && View() == Accept(old(View()), bytes, false)
    {
      ghost var q := Queue();
      outbound := outbound + bytes;
      past := past.(accepted := past.accepted + Tag(bytes, false));
      assert Queue() == q + Tag(bytes, false);
    }

    /** New input makes another write worth trying. */
    method CountInput(n: nat)
      requires Valid()
      modifies this
      ensures Valid() && pty == old(pty)
      ensures View() == old(View()).(
        writeBlocked := false,
        counters := old(counters).(inputEnqueued := old(counters).inputEnqueued + n),
        past := old(View()).past.(enqueuedSince := old(View()).past.enqueuedSince + 1))
    {
      counters := counters.(inputEnqueued := counters.inputEnqueued + n);
      writeWouldBlock := false;
      past := past.(enqueuedSince := past.enqueuedSince + 1);
    }

    method EnqueueInput(bytes: seq<u8>) returns (r: IoResult<()>)
      requires Valid()
      modifies this
      ensures Valid() && pty == old(pty)
      ensures (View(), r) == Enqueue(old(View()), bytes)
    {
      if phase != Live && phase != Eof {
        return Err(BrokenPipe);
      }
      AppendInput(bytes);
      CountInput(|bytes|);
      r := Ok(());
    }

    /** Throws both buffers away and closes the PTY. */
    method Close()
      requires Valid()
      modifies this
      ensures Valid() && View() == SessionSpec.Close(old(View()))
    {
      if phase == Spent || phase == Closing {
        return;
      }
      DiscardQueue();
      readBuffer, readOffset := [], 0;
      phase := Closing;
      match pty
      case Open(live) =>
        var closing := live.IntoClosing();
        pty := Shut(closing);
      case Shut(_) =>
    }

    method Terminate(os: Os) returns (r: IoResult<SignalOutcome>)
      requires Valid()
      modifies PtyObject()
      ensures Valid() && (View(), r) == Signal(old(View()), os)
    {
      match pty
      case Open(live) => r := live.SignalGroup(os);
      case Shut(closing) => r := closing.SignalGroup(os);
    }

    /** A status handed to the caller. */
    method ReturnStatus(status: ExitStatus)
      requires Valid()
      modifies this
      ensures Valid() && pty == old(pty) && View() == Return(old(View()), status)
    {
      past := past.(returned := past.returned + [status]);
    }

    /** A closed session's child has been reaped: the session is over. */
    method EndReaped(status: ExitStatus)
      requires Valid()
      modifies this
      ensures Valid() && pty == old(pty) && View() == FinishReap(old(View()), status)
    {
      exitStatus, phase := Some(status), Spent;
      ReturnStatus(status);
    }

    method TryWait(os: Os) returns (r: IoResult<Option<ExitStatus>>)
      requires Valid()
      modifies this, PtyObject()
      ensures Valid() && (View(), r) == TryWaitSession(old(View()), os)
    {
      if exitStatus.Some? {
        ReturnStatus(exitStatus.value);
        return Ok(exitStatus);
      }
      match pty
      case Open(live) =>
        r := live.TryWait(os);
        if r.Ok? && r.value.Some? {
          NoteExit(r.value.value);
          ReturnStatus(r.value.value);
        }
      case Shut(closing) =>
        r := TryWaitClosing(closing, os);
    }

    method TryWaitClosing(closing: ClosingPtyProcess, os: Os) returns (r: IoResult<Option<ExitStatus>>)
      requires Valid() && pty == Shut(closing) && exitStatus.None?
      modifies this, closing
      ensures Valid() && (View(), r) == TryWaitSession(old(View()), os)
    {
      var seen := closing.PollExit(os);
      match seen
      case Err(kind) => r := Err(kind);
      case Ok(None) => r := Ok(None);
      case Ok(Some(_)) =>
        var status := closing.WaitAndReap(os);
        match status
        case Err(kind) => r := Err(kind);
        case Ok(value) =>
          EndReaped(value);
          r := Ok(Some(value));
    }

    method Wait(os: Os) returns (r: IoResult<ExitStatus>)
      requires Valid()
      modifies this, PtyObject()
      ensures Valid() && (View(), r) == WaitSession(old(View()), os)
    {
      if exitStatus.Some? {
        ReturnStatus(exitStatus.value);
        return Ok(exitStatus.value);
      }
      match pty
      case Open(live) =>
        r := live.Wait(os);
        if r.Ok? {
          NoteExit(r.value);
          ReturnStatus(r.value);
        }
      case Shut(closing) =>
        r := closing.WaitAndReap(os);
        if r.Ok? {
          EndReaped(r.value);
        }
    }

    /** Kills and reaps the child, whatever state the session is in. */
    method Shutdown(os: Os) returns (ghost calls: seq<OsCall>, r: IoResult<ExitStatus>)
      requires Valid()
      modifies PtyObject()
      ensures (calls, r) == SessionSpec.Shutdown(old(View()), os)
    {
      calls := Calls();
      if exitStatus.Some? {
        return calls, Ok(exitStatus.value);
      }
      var closing;
      match pty {
        case Open(live) => closing := live.IntoClosing();
        case Shut(c) => closing := c;
      }
      var sent := closing.SignalGroup(os);
      r := closing.WaitAndReap(os);
      calls := closing.calls;
    }
  }

  /**
   * Spawns a child and makes its PTY non-blocking. If that fails the child is
   * killed and reaped before the error is reported, and there is no session.
   */
  method Start(world: World, spawned: IoResult<()>, nonblocking: IoResult<()>, os: Os)
      returns (r: IoResult<Session>, ghost calls: seq<OsCall>)
    ensures spawned.Err? ==> r == Err(spawned.error) && calls == []
    ensures spawned.Ok? && nonblocking.Err? ==>
      r == Err(nonblocking.error) && calls == [KillCall, WaitCall(os.wait.Ok?)]
    ensures spawned.Ok? && nonblocking.Ok? ==>
      r.Ok? && fresh(r.value) && r.value.Valid() && r.value.View() == START && r.value.world == world && calls == []
  {
    calls := [];
    if spawned.Err? {
      return Err(spawned.error), calls;
    }
    if nonblocking.Err? {
      var child := new PtyProcess();
      var closing := child.IntoClosing();
      var sent := closing.SignalGroup(os);
      var status := closing.WaitAndReap(os);
      return Err(nonblocking.error), closing.calls;
    }
    var session := new Session(world);
    r := Ok(session);
  }
}
