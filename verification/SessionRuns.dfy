/** Whole runs of a session: any calls in any order, any kernel, any emulator. */
module SessionRuns {
  import opened TerminalTypes
  import opened Lifecycle
  import opened SessionSpec
  import opened SessionLaws
  import opened Streams

  // ---- the other operations keep the invariant ------------------------

  lemma StartHolds(w: World)
    ensures Inv(w, START)
  {
  }

  lemma InputJoins(a: State, bytes: seq<u8>)
    requires Fifo(a)
    ensures Fifo(Accept(a, bytes, false))
    ensures Replies(a.queue + Tag(bytes, false)) == Replies(a.queue)
  {
    RepliesOfTag(bytes, false);
    RepliesAppend(a.queue, Tag(bytes, false));
    AcceptStreams(a, bytes, false);
  }

  lemma EnqueueKeeps(w: World, a: State, bytes: seq<u8>)
    requires Inv(w, a)
    ensures Inv(w, Enqueue(a, bytes).0)
  {
    InputJoins(a, bytes);
  }

  lemma CloseKeeps(w: World, a: State)
    requires Inv(w, a)
    ensures Inv(w, Close(a))
  {
    RepliesAppend(a.past.dropped, a.queue);
    DiscardStreams(a);
    assert a.past.dropped + a.queue == [] ==> a.past.dropped == [];
  }

  /** One system call at most, none on a reaped child, and a held status is never replaced. */
  predicate Lawful<T>(before: Child, o: Outcome<T>) {
    && |o.calls| <= 1
    && (HeldStatus(before).Some? ==> HeldStatus(o.child) == HeldStatus(before) && o.calls == [])
    && (HeldStatus(before).None? ==> (HeldStatus(o.child).Some? <==> o.calls == [WaitCall(true)]))
    && o.child.Running? == before.Running?
  }

  lemma CallsAreLawful(c: Child, os: Os)
    ensures Lawful(c, SignalGroup(c, os)) && SignalGroup(c, os).child == c
    ensures c.Running? ==> Lawful(c, TryWait(c, os)) && Lawful(c, Wait(c, os))
    ensures !c.Running? ==> Lawful(c, PollExit(c, os)) && Lawful(c, WaitAndReap(c, os))
  {
  }

  /** The child's part of the invariant while a call's result is being recorded. */
  ghost predicate CallsOk(calls: seq<OsCall>, c: Child) {
    SilentAfterReap(calls) && (HasReaped(calls) <==> HeldStatus(c).Some?)
  }

  lemma RecordCalls<T>(calls: seq<OsCall>, c: Child, o: Outcome<T>)
    requires CallsOk(calls, c) && Lawful(c, o)
    ensures CallsOk(calls + o.calls, o.child)
  {
    var all := calls + o.calls;
    if o.calls == [] {
      assert all == calls;
    } else {
      assert all[..|calls|] == calls && all[|calls|] == o.calls[0];
    }
  }

  lemma SignalKeeps(w: World, a: State, os: Os)
    requires Inv(w, a)
    ensures Inv(w, Signal(a, os).0)
  {
    CallsAreLawful(a.child, os);
    RecordCalls(a.past.calls, a.child, SignalGroup(a.child, os));
  }

  /** An answer from the cache. */
  lemma ReturnKeeps(w: World, a: State)
    requires Inv(w, a) && a.exitStatus.Some?
    ensures Inv(w, Return(a, a.exitStatus.value))
  {
  }

  /** A call that ends without a status leaves a running child unreaped. */
  lemma RecordKeeps<T>(w: World, a: State, o: Outcome<T>)
    requires Inv(w, a) && a.exitStatus.None? && Lawful(a.child, o)
    requires a.child.Running? ==> o.child == a.child
    ensures Inv(w, Record(a, o))
  {
    RecordCalls(a.past.calls, a.child, o);
  }

  lemma ReapLiveKeeps<T>(w: World, a: State, o: Outcome<T>, status: ExitStatus)
    requires Inv(w, a) && a.exitStatus.None? && Lawful(a.child, o)
    requires o.child == Running(Some(status))
    ensures Inv(w, Return(NoteExit(Record(a, o), status), status))
  {
    RecordCalls(a.past.calls, a.child, o);
  }

  lemma ReapClosingKeeps(w: World, a: State, status: ExitStatus)
    requires Inv(w, a) && a.exitStatus.None? && a.child == ChildReaped(status)
    ensures Inv(w, FinishReap(a, status))
  {
  }

  lemma WaitSessionKeeps(w: World, a: State, os: Os)
    requires Inv(w, a)
    ensures Inv(w, WaitSession(a, os).0)
  {
    CallsAreLawful(a.child, os);
    if a.exitStatus.Some? {
      ReturnKeeps(w, a);
    } else if a.child.Running? {
      var o := Wait(a.child, os);
      match o.result
      case Ok(status) => ReapLiveKeeps(w, a, o, status);
      case Err(_) => RecordKeeps(w, a, o);
    } else {
      var o := WaitAndReap(a.child, os);
      RecordKeeps(w, a, o);
      match o.result
      case Ok(status) => ReapClosingKeeps(w, Record(a, o), status);
      case Err(_) =>
    }
  }

  lemma TryWaitSessionKeeps(w: World, a: State, os: Os)
    requires Inv(w, a)
    ensures Inv(w, TryWaitSession(a, os).0)
  {
    hide Inv;
    CallsAreLawful(a.child, os);
    if a.exitStatus.Some? {
      ReturnKeeps(w, a);
    } else if a.child.Running? {
      var o := TryWait(a.child, os);
      match o.result
      case Ok(Some(status)) => ReapLiveKeeps(w, a, o, status);
      case _ => RecordKeeps(w, a, o);
    } else {
      var p := PollExit(a.child, os);
      RecordKeeps(w, a, p);
      if p.result.Ok? && p.result.value.Some? {
        CallsAreLawful(p.child, os);
        var o := WaitAndReap(p.child, os);
        var seen := Record(a, p);
        RecordKeeps(w, seen, o);
        match o.result
        case Ok(status) => ReapClosingKeeps(w, Record(seen, o), status);
        case Err(_) =>
      }
    }
  }

  // ---- every run ------------------------------------------------------

  lemma StepKeeps(w: World, a: State, op: Op)
    requires Inv(w, a)
    ensures Inv(w, Step(w, a, op))
  {
    match op
    case OpEnqueue(bytes) => EnqueueKeeps(w, a, bytes);
    case OpPump(budget) => PumpKeeps(w, a, budget);
    case OpTryWait(os) => TryWaitSessionKeeps(w, a, os);
    case OpWait(os) => WaitSessionKeeps(w, a, os);
    case OpSignal(os) => SignalKeeps(w, a, os);
    case OpClose => CloseKeeps(w, a);
  }

  lemma {:induction false} RunKeeps(w: World, a: State, ops: seq<Op>)
    requires Inv(w, a)
    ensures Inv(w, Run(w, a, ops))
    decreases |ops|
  {
    if ops != [] {
      StepKeeps(w, a, ops[0]);
      RunKeeps(w, Step(w, a, ops[0]), ops[1..]);
    }
  }

  /**
   * The wire followed by the queue is everything accepted, in order, less the
   * dropped bytes, also in order; since the last drop nothing is missing, and
   * without one the wire carries exactly what was accepted.
   */
  lemma BytesLeaveInOrder(w: World, ops: seq<Op>)
    ensures var a := Run(w, START, ops);
      var p := a.past;
      && Merges(p.accepted, p.wire + a.queue, p.dropped)
      && p.settled <= |p.accepted| && p.sentBefore <= |p.wire|
      && p.accepted[p.settled..] == p.wire[p.sentBefore..] + a.queue
      && (p.dropped == [] ==> p.wire + a.queue == p.accepted)
  {
    StartHolds(w);
    RunKeeps(w, START, ops);
    var a := Run(w, START, ops);
    EverythingMerges(a);
    if a.past.dropped == [] {
      AllKept(a.past.accepted, a.past.wire + a.queue);
    }
  }

  /** Nothing is lost or duplicated: accepted bytes are written, waiting, or were dropped. */
  lemma BytesAreConserved(w: World, ops: seq<Op>)
    ensures var a := Run(w, START, ops);
      var c := a.counters;
      && c.inputEnqueued == c.inputWritten + Inputs(a.queue) + Inputs(a.past.dropped)
      && c.replyGenerated == c.replyWritten + Replies(a.queue) + Replies(a.past.dropped)
      && c.inputWritten == Inputs(a.past.wire) && c.replyWritten == Replies(a.past.wire)
  {
    StartHolds(w);
    RunKeeps(w, START, ops);
  }

  /**
   * Bytes reach the emulator in the order they were read, and all of them once
   * EOF was read, whatever is dropped; only a hangup with bytes waiting ends the
   * stream otherwise.
   */
  lemma OutputReachesTheEmulator(w: World, ops: seq<Op>)
    ensures var a := Run(w, START, ops);
      && a.past.fed <= a.past.received
      && (a.child.Running? ==> a.past.received == a.past.fed + a.inbox)
      && (a.past.readEof ==> a.inbox == [] && a.past.fed == a.past.received)
      && (a.past.sawEof && a.past.dropped == [] ==> a.past.readEof)
      && a.past.undecodedAtRead == 0
      && |a.inbox| <= READ_BUFFER_LIMIT
  {
    StartHolds(w);
    RunKeeps(w, START, ops);
  }

  /** A poll loop always has something to wait for, and pausing never blocks without work to write. */
  lemma NeverDeadlocked(w: World, ops: seq<Op>)
    ensures var a := Run(w, START, ops);
      var i := PollInterests(a);
      && (a.phase == Live ==> i.readable || i.writable)
      && (a.paused ==> a.queue != [])
      && (!Over(a) && (a.queue != [] || a.inbox != []) ==> i.writable || NeedsPump(a))
  {
    StartHolds(w);
    RunKeeps(w, START, ops);
  }

  lemma {:induction false} LongestBounded(w: World, n: nat, limit: nat)
    requires forall k: nat :: |w.emulator(k)| <= limit
    ensures Longest(w, n) <= limit
  {
    if n > 0 {
      LongestBounded(w, n - 1, limit);
    }
  }

  /** At most one reply waits, so unsent reply bytes never exceed the longest single reply. */
  lemma OneReplyWaits(w: World, ops: seq<Op>, limit: nat)
    requires forall k: nat :: |w.emulator(k)| <= limit
    ensures Replies(Run(w, START, ops).queue) <= limit
  {
    StartHolds(w);
    RunKeeps(w, START, ops);
    LongestBounded(w, Run(w, START, ops).counters.processed, limit);
  }

  // ---- the child over a run -------------------------------------------

  /** No system call follows a reap, so no signal can reach a recycled pid; every status handed out is the same. */
  lemma ChildIsReapedOnce(w: World, ops: seq<Op>)
    ensures var a := Run(w, START, ops);
      && SilentAfterReap(a.past.calls)
      && (forall i, j :: 0 <= i < |a.past.returned| && 0 <= j < |a.past.returned| ==>
            a.past.returned[i] == a.past.returned[j])
      && (a.exitStatus.Some? ==> HasReaped(a.past.calls))
  {
    StartHolds(w);
    RunKeeps(w, START, ops);
    var a := Run(w, START, ops);
    forall i, j | 0 <= i < |a.past.returned| && 0 <= j < |a.past.returned|
      ensures a.past.returned[i] == a.past.returned[j]
    {
      assert Some(a.past.returned[i]) == a.exitStatus && Some(a.past.returned[j]) == a.exitStatus;
    }
  }

  /** A spent session has a status and ended by EOF or close; EOF with a status is always spent. */
  lemma PhasesAgree(w: World, ops: seq<Op>)
    ensures var a := Run(w, START, ops);
      && (a.phase == Spent ==> a.exitStatus.Some? && (a.past.sawEof || !a.child.Running?))
      && (a.phase == Eof ==> a.exitStatus.None?)
      && (a.phase == Live ==> !a.past.sawEof)
      && (a.phase == Closing ==> a.queue == [] && a.inbox == [])
  {
    StartHolds(w);
    RunKeeps(w, START, ops);
  }

  lemma SpentStep(w: World, a: State, op: Op)
    requires Inv(w, a) && a.phase == Spent
    ensures var r := Step(w, a, op);
      r.phase == Spent && r.exitStatus == a.exitStatus && r.past.wire == a.past.wire && r.past.fed == a.past.fed
  {
    match op
    case OpSignal(os) => CallsAreLawful(a.child, os);
    case _ =>
  }

  /** Nothing leaves a spent session or moves another byte of it. */
  lemma {:induction false} SpentIsFinal(w: World, a: State, ops: seq<Op>)
    requires Inv(w, a) && a.phase == Spent
    ensures var r := Run(w, a, ops);
      r.phase == Spent && r.exitStatus == a.exitStatus && r.past.wire == a.past.wire && r.past.fed == a.past.fed
    decreases |ops|
  {
    if ops != [] {
      SpentStep(w, a, ops[0]);
      StepKeeps(w, a, ops[0]);
      SpentIsFinal(w, Step(w, a, ops[0]), ops[1..]);
    }
  }

  /** A session closed after its child was reaped never becomes spent. */
  lemma {:induction false} ClosingAReapedSessionLasts(w: World, a: State, ops: seq<Op>)
    requires Inv(w, a) && a.exitStatus.Some? && a.phase == Closing
    ensures Run(w, a, ops).phase == Closing && Run(w, a, ops).exitStatus == a.exitStatus
    decreases |ops|
  {
    hide Inv;
    if ops != [] {
      StepKeeps(w, a, ops[0]);
      ClosingAReapedSessionLasts(w, Step(w, a, ops[0]), ops[1..]);
    }
  }

  /** An answer of the system that lets a wait succeed. */
  function Reaping(status: ExitStatus): Os {
    Os(Ok(Some(status)), Ok(status), Waitid(0, 0, 0), Ok(()))
  }

  lemma WaitAfterClose(w: World, a: State, status: ExitStatus)
    requires Inv(w, a) && !Over(a) && a.exitStatus.None?
    ensures Run(w, Close(a), [OpWait(Reaping(status))]).phase == Spent
  {
    hide Merges, Pump;
    var ops := [OpWait(Reaping(status))];
    assert ops[1..] == [];
    assert Close(a).child == Unreaped(None, None);
    assert Run(w, Step(w, Close(a), ops[0]), []) == Step(w, Close(a), ops[0]);
  }

  /**
   * A session that is closed can still become spent exactly when its child had
   * not been reaped before the close.
   */
  lemma ClosedCanBeSpentExactly(w: World, a: State)
    requires Inv(w, a) && !Over(a)
    ensures (exists ops :: Run(w, Close(a), ops).phase == Spent) <==> a.exitStatus.None?
  {
    if a.exitStatus.None? {
      WaitAfterClose(w, a, ExitStatus(Some(0), None, false));
    } else {
      CloseKeeps(w, a);
      forall ops ensures Run(w, Close(a), ops).phase != Spent {
        ClosingAReapedSessionLasts(w, Close(a), ops);
      }
    }
  }

  /** Shutting down never signals a reaped child, and reports success only after a reap. */
  lemma ShutdownIsSafe(w: World, ops: seq<Op>, os: Os)
    ensures var r := Shutdown(Run(w, START, ops), os);
      SilentAfterReap(r.0) && (r.1.Ok? ==> HasReaped(r.0))
  {
    hide Run, Merges;
    StartHolds(w);
    RunKeeps(w, START, ops);
    var a := Run(w, START, ops);
    if a.exitStatus.None? {
      var closing := if a.child.Running? then IntoClosing(a.child) else a.child;
      CallsAreLawful(closing, os);
      var kill := SignalGroup(closing, os);
      RecordCalls(a.past.calls, closing, kill);
      RecordCalls(a.past.calls + kill.calls, kill.child, WaitAndReap(kill.child, os));
    }
  }
}
