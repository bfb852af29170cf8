/** What a poll loop is told to wait for, and that both directions get their turn. */
module SessionPolls {
  import opened TerminalTypes
  import opened Lifecycle
  import opened SessionSpec
  import opened SessionLaws
  import opened SessionRuns
  import opened SessionStatus
  import opened SessionTraffic
  import opened Streams

  // ---- what the interests stand for -----------------------------------

  lemma {:induction false} MergedLengths<T>(all: seq<T>, kept: seq<T>, gone: seq<T>)
    requires Merges(all, kept, gone)
    ensures |all| == |kept| + |gone|
    decreases |all|
  {
    if all != [] {
      var rest, last := all[..|all| - 1], all[|all| - 1];
      if kept != [] && kept[|kept| - 1] == last && Merges(rest, kept[..|kept| - 1], gone) {
        MergedLengths(rest, kept[..|kept| - 1], gone);
      } else {
        MergedLengths(rest, kept, gone[..|gone| - 1]);
      }
    }
  }

  /**
   * In every reachable session: one that takes input polls for writing exactly
   * while something accepted has been neither written nor dropped; a live one
   * polls for reading, whatever is queued, exactly unless decoding is paused;
   * no other polls for reading, and one that is over polls for nothing.
   */
  lemma InterestsExactly(w: World, ops: seq<Op>)
    ensures var a := Run(w, START, ops);
      var i := PollInterests(a);
      && (i.writable <==> TakesInput(a) && |a.past.wire| + |a.past.dropped| < |a.past.accepted|)
      && (i.readable <==> a.phase == Live && !a.paused)
      && (i.readable ==> Replies(a.queue) == 0)
  {
    hide Run, Merges;
    StartHolds(w);
    RunKeeps(w, START, ops);
    var a := Run(w, START, ops);
    EverythingMerges(a);
    MergedLengths(a.past.accepted, a.past.wire + a.queue, a.past.dropped);
  }

  // ---- when a reply stops pausing -------------------------------------

  /** Decoding is paused only while a reply waits. */
  predicate PausedForReply(a: State) {
    a.paused ==> Replies(a.queue) > 0
  }

  lemma {:induction false} DecodePauses(w: World, a: State, b: Budget)
    requires PausedForReply(a)
    ensures PausedForReply(Decode(w, a, b).0)
    decreases b.bytes
  {
    if CanDecode(a, b) {
      var reply := w.emulator(a.counters.processed);
      RepliesOfTag(reply, true);
      RepliesAppend(a.queue, Tag(reply, true));
      DecodePauses(w, DecodeByte(w, a), Consume(b, 1, 0));
    }
  }

  lemma ReadOncePauses(w: World, a: State, b: Budget)
    requires PausedForReply(a) && CanRead(a, b)
    ensures PausedForReply(ReadOnce(w, a, b).state)
  {
    hide Decode, Replies;
    if w.kernel(NextSyscall(a)).read.Data? {
      var cap := Min(b.bytes, READ_BUFFER_LIMIT - |a.inbox|);
      var bytes := Got(w.kernel(NextSyscall(a)).read, cap);
      DecodePauses(w, Receive(CountRead(a, cap), bytes), Consume(Consume(b, 0, 1), |bytes|, 0));
    }
  }

  lemma {:induction false} ReadsPause(w: World, a: State, b: Budget, moved: bool)
    requires PausedForReply(a)
    ensures PausedForReply(ReadLoop(w, a, b, moved).state)
    decreases b.syscalls
  {
    hide ReadOnce, PausedForReply;
    if CanRead(a, b) {
      ReadOncePauses(w, a, b);
      var o := ReadOnce(w, a, b);
      if o.again {
        ReadsPause(w, o.state, o.budget, true);
      }
    }
  }

  lemma PhasePauses(w: World, a: State, b: Budget, d: Direction)
    requires HasWork(a, d)
    ensures var p := RunPhase(w, a, b, d); p.error.None? ==> PausedForReply(p.state)
  {
    hide WriteLoop, ReadLoop, Decode;
    if d == Reading {
      DecodePauses(w, a, b);
      var r := Decode(w, a, b);
      ReadsPause(w, r.0, r.1, r.0.counters.processed > a.counters.processed);
    }
  }

  lemma {:induction false} TurnsPause(w: World, a: State, b: Budget, d: Direction, turns: nat)
    requires PausedForReply(a)
    ensures var t := Turns(w, a, b, d, turns); t.error.None? ==> PausedForReply(t.state)
    decreases turns
  {
    hide RunPhase, PausedForReply;
    if turns > 0 && !Exhausted(b) {
      var d1 := if HasWork(a, d) then d else Opposite(d);
      if HasWork(a, d1) {
        PhasePauses(w, a, b, d1);
        var t := TurnOnce(w, a, b, d);
        if t.again {
          TurnsPause(w, t.state, t.budget, t.next, turns - 1);
        }
      }
    }
  }

  lemma EndPauses(a: State, left: Budget, next: Direction)
    requires PausedForReply(a)
    ensures PausedForReply(EndPump(a, left, next))
  {
  }

  lemma PumpOverDoesNothing(w: World, a: State, b: Budget)
    ensures Over(a) ==> Pump(w, a, b) == Pumped(a, b, None)
  {
    hide Turns;
  }

  /** A pump that has a budget and reports no error leaves decoding paused only for a waiting reply. */
  lemma PumpSettles(w: World, a: State, b: Budget)
    requires Inv(w, a) && !Over(a) && (!Exhausted(b) || PausedForReply(a)) && Pump(w, a, b).error.None?
    ensures PausedForReply(Pump(w, a, b).state)
  {
    var c := BeginPump(a);
    assert PausedForReply(a) ==> PausedForReply(c);
    hide RunPhase, Turns, PausedForReply;
    if PausedForReply(a) {
      TurnsPause(w, c, b, a.direction, 2);
    } else {
      FirstTurnSettles(w, c, b, a.direction);
    }
    var t := Turns(w, c, b, a.direction, 2);
    EndPauses(t.state, t.budget, t.next);
  }

  /** Decoding that is paused without a reply has bytes to write, and the write phase settles it. */
  lemma FirstTurnSettles(w: World, a: State, b: Budget, d: Direction)
    requires a.paused && a.queue != [] && !Exhausted(b)
    ensures var t := Turns(w, a, b, d, 2); t.error.None? ==> PausedForReply(t.state)
  {
    hide RunPhase, PausedForReply;
    PhasePauses(w, a, b, Writing);
    var t := TurnOnce(w, a, b, d);
    if t.again {
      TurnsPause(w, t.state, t.budget, t.next, 1);
    }
  }

  /** No pump of a run reports an error. */
  predicate NoPumpFails(w: World, a: State, ops: seq<Op>)
    decreases |ops|
  {
    ops == []
    || ((ops[0].OpPump? ==> Pump(w, a, ops[0].budget).error.None?) && NoPumpFails(w, Step(w, a, ops[0]), ops[1..]))
  }

  lemma StepPauses(w: World, a: State, op: Op)
    requires Inv(w, a) && PausedForReply(a) && NoPumpFails(w, a, [op])
    ensures PausedForReply(Step(w, a, op))
  {
    hide Inv, Pump, WaitSession, TryWaitSession, Signal;
    match op
    case OpEnqueue(bytes) =>
      RepliesOfTag(bytes, false);
      RepliesAppend(a.queue, Tag(bytes, false));
    case OpPump(budget) =>
      if Over(a) {
        PumpOverDoesNothing(w, a, budget);
      } else {
        PumpSettles(w, a, budget);
      }
    case OpTryWait(os) => CallsTouchOnlyTheChild(a, os);
    case OpWait(os) => CallsTouchOnlyTheChild(a, os);
    case OpSignal(os) => CallsTouchOnlyTheChild(a, os);
    case OpClose =>
  }

  lemma {:induction false} RunPauses(w: World, a: State, ops: seq<Op>)
    requires Inv(w, a) && PausedForReply(a) && NoPumpFails(w, a, ops)
    ensures PausedForReply(Run(w, a, ops))
    decreases |ops|
  {
    hide Inv, PausedForReply, Step, Pump;
    if ops != [] {
      assert [ops[0]][1..] == [] && NoPumpFails(w, Step(w, a, ops[0]), []);
      StepKeeps(w, a, ops[0]);
      StepPauses(w, a, ops[0]);
      RunPauses(w, Step(w, a, ops[0]), ops[1..]);
    }
  }

  /** As long as no pump reports an error, a live session polls for reading exactly while no reply waits. */
  lemma ReadableUnlessAReplyWaits(w: World, ops: seq<Op>)
    requires NoPumpFails(w, START, ops) && Run(w, START, ops).phase == Live
    ensures var a := Run(w, START, ops); PollInterests(a).readable <==> Replies(a.queue) == 0
  {
    hide Run, NoPumpFails;
    StartHolds(w);
    RunKeeps(w, START, ops);
    RunPauses(w, START, ops);
    InterestsExactly(w, ops);
  }

  /** After an error it may poll for writing alone with no reply waiting, until a pump with a budget reports none. */
  lemma ReadableAgain(w: World, ops: seq<Op>, b: Budget)
    requires var a := Run(w, START, ops);
      !Exhausted(b) && Pump(w, a, b).error.None? && Pump(w, a, b).state.phase == Live
    ensures var r := Pump(w, Run(w, START, ops), b).state; PollInterests(r).readable <==> Replies(r.queue) == 0
  {
    hide Run, Pump;
    StartHolds(w);
    RunKeeps(w, START, ops);
    var a := Run(w, START, ops);
    PumpKeeps(w, a, b);
    PumpOverDoesNothing(w, a, b);
    PumpSettles(w, a, b);
  }

  /** The bytes written since the queue was last compacted. */
  function Uncompacted(a: State): seq<Tagged> {
    a.past.wire[SatSub(|a.past.wire|, a.sent)..]
  }

  /** While a reply that waited is going out: paused until the queue is compacted behind its last byte. */
  predicate PausedTillCompacted(a: State) {
    a.paused <==> Replies(Uncompacted(a) + a.queue) > 0
  }

  lemma AdvanceKeepsPause(a: State, n: nat)
    requires PausedTillCompacted(a) && n <= |a.queue|
    ensures PausedTillCompacted(Advance(a, n))
  {
    var r := Advance(a, n);
    assert Uncompacted(r) == Uncompacted(a) + a.queue[..n];
    Associate(Uncompacted(a), a.queue[..n], a.queue[n..]);
    assert a.queue == a.queue[..n] + a.queue[n..];
  }

  lemma CompactKeepsPause(a: State)
    requires PausedTillCompacted(a)
    ensures PausedTillCompacted(Compact(a))
  {
    RepliesAppend(Uncompacted(a), a.queue);
    assert a.past.wire[|a.past.wire|..] + a.queue == a.queue;
  }

  lemma WriteOnceKeepsPause(w: World, a: State, b: Budget)
    requires PausedTillCompacted(a) && CanWrite(a, b) && w.kernel(NextSyscall(a)).write != WriteFailed(Eio)
    ensures PausedTillCompacted(WriteOnce(w, a, b).state)
  {
    hide Replies, Compact, Advance;
    var cap := Min(b.bytes, |a.queue|);
    var a1 := CountWrite(a, cap);
    assert PausedTillCompacted(a1);
    match w.kernel(NextSyscall(a)).write
    case Wrote(k) =>
      AdvanceKeepsPause(a1, Min(k, cap));
      CompactKeepsPause(Advance(a1, Min(k, cap)));
    case WriteFailed(_) =>
  }

  lemma HangupReportsNothing(w: World, a: State, b: Budget)
    requires CanWrite(a, b) && w.kernel(NextSyscall(a)).write == WriteFailed(Eio)
    ensures var o := WriteOnce(w, a, b); !o.again && o.error.None? && !o.state.paused
  {
  }

  lemma {:induction false} WritesKeepPause(w: World, a: State, b: Budget, moved: bool)
    requires PausedTillCompacted(a)
    ensures var p := WriteLoop(w, a, b, moved); PausedTillCompacted(p.state) || (p.error.None? && !p.state.paused)
    decreases b.syscalls
  {
    hide PausedTillCompacted, WriteOnce;
    if CanWrite(a, b) {
      if w.kernel(NextSyscall(a)).write == WriteFailed(Eio) {
        HangupReportsNothing(w, a, b);
      } else {
        WriteOnceKeepsPause(w, a, b);
        var o := WriteOnce(w, a, b);
        if o.again {
          WritesKeepPause(w, o.state, o.budget, true);
        }
      }
    }
  }

  lemma {:induction false} WritesNeverPause(w: World, a: State, b: Budget, moved: bool)
    requires !a.paused
    ensures !WriteLoop(w, a, b, moved).state.paused
    decreases b.syscalls
  {
    if CanWrite(a, b) {
      var o := WriteOnce(w, a, b);
      if o.again {
        WritesNeverPause(w, o.state, o.budget, true);
      }
    }
  }

  /**
   * The pause outlives the reply exactly when a write phase that began with a
   * reply waiting ends in an error with the reply gone but not yet compacted away.
   */
  lemma PauseOutlivesReplyExactly(w: World, a: State, b: Budget)
    requires PausedForReply(a) && (Replies(a.queue) > 0 ==> a.paused)
    ensures var p := WritePhase(w, a, b);
      !PausedForReply(p.state) <==>
        && p.error.Some? && Replies(a.queue) > 0
        && Replies(p.state.queue) == 0 && Replies(Uncompacted(p.state)) > 0
  {
    hide WriteLoop;
    var p := WriteLoop(w, a, b, false);
    RepliesAppend(Uncompacted(a), a.queue);
    RepliesAppend(Uncompacted(p.state), p.state.queue);
    if a.paused {
      WritesKeepPause(w, a, b, false);
    } else {
      WritesNeverPause(w, a, b, false);
    }
  }

  // ---- a session that is left paused ----------------------------------

  const REPLY: seq<u8> := [27, 91, 48, 110]

  /** One byte is read and answered; a write takes the answer and the next one fails. */
  const FAILING: World := World(
    n => KernelReply(Data([0]), if n == 1 then Wrote(4) else WriteFailed(OtherError(0))),
    n => REPLY)

  const LEFT_PAUSED: seq<Op> := [OpPump(Budget(2, 1)), OpEnqueue([9]), OpPump(Budget(10, 2))]

  lemma OneByteAnswered(a: State)
    requires a == BeginPump(START)
    ensures var t := Turns(FAILING, a, Budget(2, 1), Writing, 2);
      && t.error.None? && t.budget == Budget(0, 0) && t.next == Writing
      && t.state.phase == Live && t.state.child == Running(None) && t.state.queue == Tag(REPLY, true)
      && t.state.sent == 0 && t.state.paused && NextSyscall(t.state) == 1
  {
    var a2 := Receive(CountRead(a, 2), [0]);
    assert Got(Data([0]), 2) == [0];
    assert Decode(FAILING, a, Budget(2, 1)) == (a, Budget(2, 1));
    var a3 := DecodeByte(FAILING, a2);
    assert a3.queue == Tag(REPLY, true);
    assert Decode(FAILING, a2, Budget(1, 0)) == Decode(FAILING, a3, Budget(0, 0)) == (a3, Budget(0, 0));
    assert ReadOnce(FAILING, a, Budget(2, 1)) == Attempt(a3, Budget(0, 0), true, None);
    assert ReadPhase(FAILING, a, Budget(2, 1)) == ReadLoop(FAILING, a3, Budget(0, 0), true);
    var t := TurnOnce(FAILING, a, Budget(2, 1), Writing);
    assert Turns(FAILING, t.state, t.budget, t.next, 1) == Turn(t.state, t.budget, t.next, false, None);
  }

  lemma ReplyGoesOut(a: State)
    requires a.phase == Live && a.child == Running(None) && a.queue == Tag(REPLY, true) + Tag([9], false)
    requires a.sent == 0 && a.paused && NextSyscall(a) == 1
    ensures var p := WritePhase(FAILING, a, Budget(10, 2));
      p.error.Some? && p.state.phase == Live && p.state.paused && p.state.queue == Tag([9], false)
  {
    var a1 := CountWrite(a, 5);
    var a2 := Send(a1, 4);
    assert a2.queue == Tag([9], false);
    assert WriteOnce(FAILING, a, Budget(10, 2)) == Attempt(a2, Budget(6, 1), true, None);
    var o := WriteOnce(FAILING, a2, Budget(6, 1));
    assert o.error.Some? && !o.again;
    assert WriteLoop(FAILING, a, Budget(10, 2), false) == WriteLoop(FAILING, a2, Budget(6, 1), true)
      == Progress(o.state, o.budget, true, o.error);
  }

  /** A live session can wait to write alone, with no reply waiting, once a pump has reported an error. */
  lemma LeftPaused()
    ensures var a := Run(FAILING, START, LEFT_PAUSED);
      a.phase == Live && !PollInterests(a).readable && Replies(a.queue) == 0
  {
    OneByteAnswered(BeginPump(START));
    var a1 := Pump(FAILING, START, Budget(2, 1)).state;
    var a2 := Enqueue(a1, [9]).0;
    var c := BeginPump(a2);
    ReplyGoesOut(c);
    RepliesOfTag([9], false);
    var a3 := Pump(FAILING, a2, Budget(10, 2)).state;
    assert a3 == WritePhase(FAILING, c, Budget(10, 2)).state;
    assert LEFT_PAUSED[1..] == [OpEnqueue([9]), OpPump(Budget(10, 2))] && LEFT_PAUSED[1..][1..][1..] == [];
    assert Run(FAILING, START, LEFT_PAUSED) == Run(FAILING, a1, LEFT_PAUSED[1..])
      == Run(FAILING, a2, LEFT_PAUSED[1..][1..]) == Run(FAILING, a3, []);
  }
}
