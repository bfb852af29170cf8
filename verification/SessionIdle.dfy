/** A session that asks to wait is waiting for the kernel: what its would-block flags stand for. */
module SessionIdle {
  import opened TerminalTypes
  import opened Lifecycle
  import opened SessionSpec
  import opened SessionRuns
  import opened SessionStatus

  /** The last read of the latest pump was answered with would-block. */
  ghost predicate ReadWouldBlock(w: World, a: State) {
    a.past.lastRead.Some? && w.kernel(a.past.lastRead.value).read == ReadFailed(WouldBlock)
  }

  /** So was its last write, and no input has been accepted since. */
  ghost predicate WriteWouldBlock(w: World, a: State) {
    && a.past.lastWrite.Some? && w.kernel(a.past.lastWrite.value).write == WriteFailed(WouldBlock)
    && a.past.enqueuedSince == 0
  }

  /** The flags say nothing the kernel did not. */
  ghost predicate FlagsTrue(w: World, a: State) {
    (a.readBlocked ==> ReadWouldBlock(w, a)) && (a.writeBlocked ==> WriteWouldBlock(w, a))
  }

  /** Nothing about reads, or about writes, is recorded between two states. */
  predicate SameReads(a: State, r: State) {
    r.readBlocked == a.readBlocked && r.past.lastRead == a.past.lastRead
  }

  predicate SameWrites(a: State, r: State) {
    && r.writeBlocked == a.writeBlocked && r.past.lastWrite == a.past.lastWrite
    && r.past.enqueuedSince == a.past.enqueuedSince
  }

  lemma {:induction false} DecodeRecordsNothing(w: World, a: State, b: Budget)
    ensures SameReads(a, Decode(w, a, b).0) && SameWrites(a, Decode(w, a, b).0)
    decreases b.bytes
  {
    if CanDecode(a, b) {
      DecodeRecordsNothing(w, DecodeByte(w, a), Consume(b, 1, 0));
    }
  }

  lemma WriteOnceRecords(w: World, a: State, b: Budget)
    requires CanWrite(a, b) && !a.writeBlocked
    ensures var o := WriteOnce(w, a, b);
      && SameReads(a, o.state)
      && (o.state.writeBlocked ==> WriteWouldBlock(w, o.state))
      && (o.again ==> !o.state.writeBlocked)
  {
  }

  lemma {:induction false} WritesRecord(w: World, a: State, b: Budget, moved: bool)
    requires !a.writeBlocked
    ensures var r := WriteLoop(w, a, b, moved).state;
      SameReads(a, r) && (r.writeBlocked ==> WriteWouldBlock(w, r))
    decreases b.syscalls
  {
    if CanWrite(a, b) {
      WriteOnceRecords(w, a, b);
      var o := WriteOnce(w, a, b);
      if o.again {
        WritesRecord(w, o.state, o.budget, true);
      }
    }
  }

  lemma ReadOnceRecords(w: World, a: State, b: Budget)
    requires CanRead(a, b) && !a.readBlocked
    ensures var o := ReadOnce(w, a, b);
      && SameWrites(a, o.state)
      && (o.state.readBlocked ==> ReadWouldBlock(w, o.state))
      && (o.again ==> !o.state.readBlocked)
  {
    match w.kernel(NextSyscall(a)).read
    case Data(_) =>
      var cap := Min(b.bytes, READ_BUFFER_LIMIT - |a.inbox|);
      var bytes := Got(w.kernel(NextSyscall(a)).read, cap);
      DecodeRecordsNothing(w, Receive(CountRead(a, cap), bytes), Consume(Consume(b, 0, 1), |bytes|, 0));
    case ReadFailed(_) =>
  }

  lemma {:induction false} ReadsRecord(w: World, a: State, b: Budget, moved: bool)
    requires !a.readBlocked
    ensures var r := ReadLoop(w, a, b, moved).state;
      SameWrites(a, r) && (r.readBlocked ==> ReadWouldBlock(w, r))
    decreases b.syscalls
  {
    if CanRead(a, b) {
      ReadOnceRecords(w, a, b);
      var o := ReadOnce(w, a, b);
      if o.again {
        ReadsRecord(w, o.state, o.budget, true);
      }
    }
  }

  /** The direction's flag is down. */
  predicate Unblocked(a: State, d: Direction) {
    if d == Writing then !a.writeBlocked else !a.readBlocked
  }

  lemma PhaseRecords(w: World, a: State, b: Budget, d: Direction)
    requires FlagsTrue(w, a) && Unblocked(a, d)
    ensures var r := RunPhase(w, a, b, d).state;
      FlagsTrue(w, r) && (Unblocked(a, Opposite(d)) ==> Unblocked(r, Opposite(d)))
  {
    if d == Writing {
      WritesRecord(w, a, b, false);
    } else {
      DecodeRecordsNothing(w, a, b);
      var r := Decode(w, a, b);
      ReadsRecord(w, r.0, r.1, r.0.counters.processed > a.counters.processed);
    }
  }

  lemma TurnRecords(w: World, a: State, b: Budget, d0: Direction)
    requires FlagsTrue(w, a) && !a.readBlocked && !a.writeBlocked
    ensures var t := TurnOnce(w, a, b, d0);
      FlagsTrue(w, t.state) && (t.again ==> HasWork(t.state, t.next) && Unblocked(t.state, t.next))
  {
    PhaseRecords(w, a, b, if HasWork(a, d0) then d0 else Opposite(d0));
  }

  /** Each direction gets one phase at most in a pump, so a flag always speaks of its last call. */
  lemma TurnsRecord(w: World, a: State, b: Budget, d0: Direction)
    requires FlagsTrue(w, a) && !a.readBlocked && !a.writeBlocked
    ensures FlagsTrue(w, Turns(w, a, b, d0, 2).state)
  {
    if !Exhausted(b) {
      TurnRecords(w, a, b, d0);
      var t := TurnOnce(w, a, b, d0);
      if t.again && !Exhausted(t.budget) {
        PhaseRecords(w, t.state, t.budget, t.next);
        var u := TurnOnce(w, t.state, t.budget, t.next);
        assert u.again ==> Turns(w, u.state, u.budget, u.next, 0).state == u.state;
      }
    }
  }

  lemma PumpRecords(w: World, a: State, b: Budget)
    requires FlagsTrue(w, a)
    ensures FlagsTrue(w, Pump(w, a, b).state)
  {
    if !Over(a) {
      TurnsRecord(w, BeginPump(a), b, a.direction);
    }
  }

  lemma StepRecords(w: World, a: State, op: Op)
    requires FlagsTrue(w, a)
    ensures FlagsTrue(w, Step(w, a, op))
  {
    hide Pump, WaitSession, TryWaitSession;
    match op
    case OpEnqueue(bytes) =>
    case OpPump(budget) => PumpRecords(w, a, budget);
    case OpTryWait(os) => CallsTouchOnlyTheChild(a, os);
    case OpWait(os) => CallsTouchOnlyTheChild(a, os);
    case _ =>
  }

  lemma {:induction false} RunRecords(w: World, a: State, ops: seq<Op>)
    requires FlagsTrue(w, a)
    ensures FlagsTrue(w, Run(w, a, ops))
    decreases |ops|
  {
    if ops != [] {
      StepRecords(w, a, ops[0]);
      RunRecords(w, Step(w, a, ops[0]), ops[1..]);
    }
  }

  /**
   * When no pump is needed, every direction the poll waits for was tried in the
   * latest pump and its last call was answered with would-block, with no input
   * accepted after a blocked write; and a session with work left waits for something.
   */
  lemma IdleIsBlocked(w: World, ops: seq<Op>)
    requires !NeedsPump(Run(w, START, ops)) && !Over(Run(w, START, ops))
    ensures var a := Run(w, START, ops);
      var i := PollInterests(a);
      && (i.writable ==> WriteWouldBlock(w, a))
      && (i.readable ==> ReadWouldBlock(w, a))
      && (a.phase == Live || a.queue != [] || a.inbox != [] ==> i.readable || i.writable)
  {
    StartHolds(w);
    RunKeeps(w, START, ops);
    RunRecords(w, START, ops);
  }
}
