/** What holds after every run of a session, whatever the kernel and the emulator do. */
module SessionLaws {
  import opened TerminalTypes
  import opened Lifecycle
  import opened SessionSpec
  import opened Streams

  // ---- counting -------------------------------------------------------

  function Inputs(q: seq<Tagged>): nat {
    |q| - Replies(q)
  }

  lemma {:induction false} RepliesAppend(p: seq<Tagged>, q: seq<Tagged>)
    ensures Replies(p + q) == Replies(p) + Replies(q)
  {
    if p == [] {
      assert p + q == q;
    } else {
      RepliesAppend(p[1..], q);
      assert (p + q)[1..] == p[1..] + q;
    }
  }

  lemma {:induction false} RepliesOfTag(bytes: seq<u8>, reply: bool)
    ensures Replies(Tag(bytes, reply)) == if reply then |bytes| else 0
  {
    if bytes != [] {
      RepliesOfTag(bytes[1..], reply);
      assert Tag(bytes, reply)[1..] == Tag(bytes[1..], reply);
    }
  }

  lemma RepliesSplit(q: seq<Tagged>, n: nat)
    requires n <= |q|
    ensures Replies(q) == Replies(q[..n]) + Replies(q[n..])
  {
    RepliesAppend(q[..n], q[n..]);
    assert q == q[..n] + q[n..];
  }

  // ---- the byte streams -----------------------------------------------

  /**
   * Since the last drop, what went out followed by what waits is what was
   * accepted; before it, what was accepted is what went out and what was dropped.
   */
  ghost predicate InStep(accepted: seq<Tagged>, wire: seq<Tagged>, dropped: seq<Tagged>, settled: nat,
    sentBefore: nat, queue: seq<Tagged>)
  {
    && settled <= |accepted| && sentBefore <= |wire|
    && accepted[settled..] == wire[sentBefore..] + queue
    && Merges(accepted[..settled], wire[..sentBefore], dropped)
  }

  ghost predicate Fifo(a: State) {
    var p := a.past;
    InStep(p.accepted, p.wire, p.dropped, p.settled, p.sentBefore, a.queue)
  }

  /** Every counter is what it counts, and accepted bytes are sent, waiting or dropped. */
  ghost predicate Accounted(a: State) {
    var c, p := a.counters, a.past;
    && c.inputWritten == Inputs(p.wire) && c.replyWritten == Replies(p.wire)
    && c.inputEnqueued == Inputs(p.wire) + Inputs(a.queue) + Inputs(p.dropped)
    && c.replyGenerated == Replies(p.wire) + Replies(a.queue) + Replies(p.dropped)
    && c.processed == |p.fed| && c.bytesRead == |p.received|
  }

  /** While decoding is paused there is something to write; a waiting reply pauses it. */
  ghost predicate Pausing(a: State) {
    && (a.paused ==> a.queue != [])
    && (Replies(a.queue) > 0 ==> a.paused)
    && (a.queue == [] ==> a.sent == 0)
  }

  /** Bytes are decoded in the order they were read, and never read ahead of decoding. */
  ghost predicate InOrder(a: State) {
    && (a.child.Running? ==> a.past.fed + a.inbox == a.past.received)
    && a.past.fed <= a.past.received
    && |a.inbox| <= READ_BUFFER_LIMIT
    && a.past.undecodedAtRead == 0
  }

  /** Once EOF was read everything read has been decoded; an EOF that dropped no output was read. */
  ghost predicate Complete(a: State) {
    && (a.past.readEof ==> a.past.sawEof && a.inbox == [] && a.past.fed == a.past.received)
    && (a.past.sawEof && a.past.dropped == [] ==> a.past.readEof)
  }

  // ---- the child ------------------------------------------------------

  /** A reap, if there is one, is the last system call made on the child. */
  predicate SilentAfterReap(calls: seq<OsCall>) {
    forall i :: 0 <= i < |calls| - 1 ==> calls[i] != WaitCall(true)
  }

  predicate HasReaped(calls: seq<OsCall>) {
    exists i :: 0 <= i < |calls| && calls[i] == WaitCall(true)
  }

  /** The status the child itself holds. */
  function HeldStatus(c: Child): Option<ExitStatus> {
    match c
    case Running(reaped) => reaped
    case ChildReaped(status) => Some(status)
    case _ => None
  }

  ghost predicate ChildOk(a: State) {
    && SilentAfterReap(a.past.calls)
    && (HasReaped(a.past.calls) <==> HeldStatus(a.child).Some?)
    && (a.exitStatus.Some? ==> HeldStatus(a.child) == a.exitStatus)
    && (a.child.Running? ==> a.exitStatus == a.child.reaped)
    && (forall i :: 0 <= i < |a.past.returned| ==> Some(a.past.returned[i]) == a.exitStatus)
  }

  ghost predicate PhaseOk(a: State) {
    && (match a.phase
        case Live => a.child.Running? && !a.past.sawEof
        case Eof => a.child.Running? && a.past.sawEof && a.exitStatus.None?
        case Closing => !a.child.Running?
        case Spent => a.exitStatus.Some? && (a.past.sawEof || !a.child.Running?))
    && (!a.child.Running? ==> a.queue == [] && a.inbox == [] && !a.paused)
  }

  /** The longest reply to any of the first `n` bytes. */
  function Longest(w: World, n: nat): nat {
    if n == 0 then 0 else Max(Longest(w, n - 1), |w.emulator(n - 1)|)
  }

  /** At most one reply waits. */
  ghost predicate OneReply(w: World, a: State) {
    Replies(a.queue) <= Longest(w, a.counters.processed)
  }

  ghost predicate Inv(w: World, a: State) {
    Fifo(a) && Accounted(a) && Pausing(a) && InOrder(a) && Complete(a) && ChildOk(a) && PhaseOk(a) && OneReply(w, a)
  }

  // ---- each step keeps the invariant ----------------------------------

  lemma AdvanceStreams(a: State, n: nat)
    requires Fifo(a) && n <= |a.queue|
    ensures Fifo(Advance(a, n))
  {
    var p, out := a.past, a.queue[..n];
    assert a.queue == out + a.queue[n..];
    assert (p.wire + out)[..p.sentBefore] == p.wire[..p.sentBefore];
    assert (p.wire + out)[p.sentBefore..] == p.wire[p.sentBefore..] + out;
  }

  lemma AcceptStreams(a: State, bytes: seq<u8>, reply: bool)
    requires Fifo(a)
    ensures Fifo(Accept(a, bytes, reply))
  {
    var p, t := a.past, Tag(bytes, reply);
    assert (p.accepted + t)[..p.settled] == p.accepted[..p.settled];
    assert (p.accepted + t)[p.settled..] == p.accepted[p.settled..] + t;
    Associate(p.wire[p.sentBefore..], a.queue, t);
  }

  lemma DiscardStreams(a: State)
    requires Fifo(a)
    ensures Fifo(Discard(a))
  {
    EverythingMerges(a);
    var p := a.past;
    assert p.accepted[|p.accepted|..] == [] && p.wire[|p.wire|..] + [] == [];
    assert p.accepted[..|p.accepted|] == p.accepted && p.wire[..|p.wire|] == p.wire;
  }

  /** The wire is what was accepted less what was dropped and what waits, all in order. */
  lemma EverythingMerges(a: State)
    requires Fifo(a)
    ensures Merges(a.past.accepted, a.past.wire, a.past.dropped + a.queue)
    ensures Merges(a.past.accepted, a.past.wire + a.queue, a.past.dropped)
  {
    var p := a.past;
    MergesOn(p.accepted[..p.settled], p.wire[..p.sentBefore], p.dropped, p.wire[p.sentBefore..], a.queue);
    assert p.wire[..p.sentBefore] + p.wire[p.sentBefore..] == p.wire;
    assert p.accepted[..p.settled] + (p.wire[p.sentBefore..] + a.queue) == p.accepted;
  }

  lemma MergesOn<T>(all: seq<T>, kept: seq<T>, gone: seq<T>, sent: seq<T>, queue: seq<T>)
    requires Merges(all, kept, gone)
    ensures Merges(all + (sent + queue), kept + sent, gone + queue)
    ensures Merges(all + (sent + queue), kept + sent + queue, gone)
  {
    KeepMore(all, kept, gone, sent);
    DropMore(all + sent, kept + sent, gone, queue);
    KeepMore(all + sent, kept + sent, gone, queue);
    Associate(all, sent, queue);
  }

  lemma AdvanceAccounts(a: State, n: nat)
    requires Accounted(a) && n <= |a.queue|
    ensures Accounted(Advance(a, n))
  {
    var out, rest := a.queue[..n], a.queue[n..];
    RepliesSplit(a.queue, n);
    RepliesAppend(a.past.wire, out);
    assert Inputs(a.past.wire + out) == Inputs(a.past.wire) + Inputs(out);
    assert Inputs(a.queue) == Inputs(out) + Inputs(rest);
  }

  lemma CompactKeeps(a: State)
    requires Fifo(a) && Accounted(a)
    ensures Fifo(Compact(a)) && Accounted(Compact(a))
  {
  }

  lemma SendPauses(a: State, n: nat)
    requires Pausing(a) && n <= |a.queue|
    ensures Pausing(Send(a, n))
  {
    RepliesSplit(a.queue, n);
  }

  lemma SendKeeps(w: World, a: State, n: nat)
    requires Inv(w, a) && 0 < n <= |a.queue|
    ensures Inv(w, Send(a, n))
  {
    hide Fifo, Accounted, Merges;
    var r := Send(a, n);
    assert Fifo(r) && Accounted(r) by {
      AdvanceStreams(a, n);
      AdvanceAccounts(a, n);
      CompactKeeps(Advance(a, n));
    }
    SendPauses(a, n);
    assert OneReply(w, r) by { RepliesSplit(a.queue, n); }
  }

  lemma HangupKeeps(w: World, a: State)
    requires Inv(w, a) && !Over(a) && a.queue != []
    ensures Inv(w, NoteEof(Discard(a)))
  {
    RepliesAppend(a.past.dropped, a.queue);
    DiscardStreams(a);
  }

  lemma ReadEofKeeps(w: World, a: State)
    requires Inv(w, a) && !Over(a) && a.inbox == []
    ensures Inv(w, NoteReadEof(a))
  {
    assert a.past.fed + a.inbox == a.past.fed;
  }

  lemma FedKeeps(w: World, a: State)
    requires Inv(w, a) && a.inbox != []
    ensures Inv(w, Feed(a))
  {
    assert a.inbox == [a.inbox[0]] + a.inbox[1..];
    assert a.past.fed + [a.inbox[0]] + a.inbox[1..] == a.past.fed + a.inbox;
    assert Longest(w, a.counters.processed) <= Longest(w, a.counters.processed + 1);
  }

  /** A reply joins the queue behind everything accepted before it. */
  lemma ReplyKeeps(w: World, a: State, reply: seq<u8>)
    requires Inv(w, a) && !a.paused && a.child.Running?
    requires reply != [] && |reply| <= Longest(w, a.counters.processed)
    ensures Inv(w, Accept(a, reply, true).(
      paused := true,
      counters := a.counters.(replyGenerated := a.counters.replyGenerated + |reply|)))
  {
    RepliesOfTag(reply, true);
    RepliesAppend(a.queue, Tag(reply, true));
    AcceptStreams(a, reply, true);
  }

  lemma DecodeByteKeeps(w: World, a: State)
    requires Inv(w, a) && !a.paused && a.inbox != []
    ensures Inv(w, DecodeByte(w, a))
  {
    FedKeeps(w, a);
    var reply := w.emulator(a.counters.processed);
    if reply != [] {
      ReplyKeeps(w, Feed(a), reply);
    }
  }

  lemma ReceiveKeeps(w: World, a: State, bytes: seq<u8>)
    requires Inv(w, a) && a.phase == Live && a.inbox == [] && |bytes| <= READ_BUFFER_LIMIT
    ensures Inv(w, Receive(a, bytes))
  {
    assert a.past.fed + a.inbox == a.past.fed;
    assert [] + bytes == bytes;
  }

  lemma CountWriteKeeps(w: World, a: State, cap: nat)
    requires Inv(w, a)
    ensures Inv(w, CountWrite(a, cap)) && Inv(w, BlockWrite(a))
  {
  }

  lemma CountReadKeeps(w: World, a: State, cap: nat)
    requires Inv(w, a)
    ensures Inv(w, BlockRead(a))
    ensures a.inbox == [] ==> Inv(w, CountRead(a, cap))
  {
    hide Merges;
  }

  lemma SettleKeeps(w: World, a: State)
    requires Inv(w, a)
    ensures Inv(w, Settle(a))
  {
  }

  lemma BeginKeeps(w: World, a: State)
    requires Inv(w, a)
    ensures Inv(w, BeginPump(a))
  {
  }

  lemma EndKeeps(w: World, a: State, left: Budget, next: Direction)
    requires Inv(w, a)
    ensures Inv(w, EndPump(a, left, next))
  {
  }

  // ---- a pump is steps ------------------------------------------------

  ghost predicate CountClosed(p: State -> bool) {
    && (forall s, cap {:trigger CountWrite(s, cap)} :: p(s) ==> p(CountWrite(s, cap)))
    && (forall s {:trigger BlockWrite(s)} :: p(s) ==> p(BlockWrite(s)))
    && (forall s {:trigger BlockRead(s)} :: p(s) ==> p(BlockRead(s)))
    && (forall s, cap {:trigger CountRead(s, cap)} :: p(s) && s.inbox == [] ==> p(CountRead(s, cap)))
  }

  ghost predicate PumpClosed(p: State -> bool) {
    && (forall s {:trigger Settle(s)} :: p(s) ==> p(Settle(s)))
    && (forall s {:trigger BeginPump(s)} :: p(s) ==> p(BeginPump(s)))
    && (forall s, left, next {:trigger EndPump(s, left, next)} :: p(s) ==> p(EndPump(s, left, next)))
  }

  ghost predicate TransferClosed(w: World, p: State -> bool) {
    && (forall s, n {:trigger Send(s, n)} :: p(s) && 0 < n <= |s.queue| ==> p(Send(s, n)))
    && (forall s {:trigger DecodeByte(w, s)} :: p(s) && !s.paused && s.inbox != [] ==> p(DecodeByte(w, s)))
    && (forall s, bytes {:trigger Receive(s, bytes)} ::
          p(s) && s.phase == Live && s.inbox == [] && |bytes| <= READ_BUFFER_LIMIT ==> p(Receive(s, bytes)))
  }

  ghost predicate HangupClosed(p: State -> bool) {
    && (forall s {:trigger Discard(s)} :: p(s) && !Over(s) && s.queue != [] ==> p(NoteEof(Discard(s))))
    && (forall s {:trigger NoteReadEof(s)} :: p(s) && !Over(s) && s.inbox == [] ==> p(NoteReadEof(s)))
  }

  /** A property no single step of a pump destroys. */
  ghost predicate StepClosed(w: World, p: State -> bool) {
    CountClosed(p) && PumpClosed(p) && TransferClosed(w, p) && HangupClosed(p)
  }

  lemma {:induction false} DecodeSteps(w: World, p: State -> bool, a: State, b: Budget)
    requires StepClosed(w, p) && p(a)
    ensures p(Decode(w, a, b).0) && !CanDecode(Decode(w, a, b).0, Decode(w, a, b).1)
    decreases b.bytes
  {
    if CanDecode(a, b) {
      DecodeSteps(w, p, DecodeByte(w, a), Consume(b, 1, 0));
    }
  }

  lemma WriteStep(w: World, p: State -> bool, a: State, b: Budget)
    requires StepClosed(w, p) && p(a) && CanWrite(a, b)
    ensures p(WriteOnce(w, a, b).state)
  {
    var cap := Min(b.bytes, |a.queue|);
    var a1 := CountWrite(a, cap);
    match w.kernel(NextSyscall(a)).write
    case Wrote(k) =>
      var n := Min(k, cap);
      assert n > 0 ==> p(Send(a1, n));
    case WriteFailed(_) =>
  }

  lemma {:induction false} WriteSteps(w: World, p: State -> bool, a: State, b: Budget, moved: bool)
    requires StepClosed(w, p) && p(a)
    ensures p(WriteLoop(w, a, b, moved).state)
    decreases b.syscalls
  {
    if CanWrite(a, b) {
      WriteStep(w, p, a, b);
      var o := WriteOnce(w, a, b);
      if o.again {
        WriteSteps(w, p, o.state, o.budget, true);
      }
    }
  }

  /** Reading starts only once nothing is left to decode, and leaves nothing that could be decoded. */
  lemma ReadStep(w: World, p: State -> bool, a: State, b: Budget)
    requires StepClosed(w, p) && p(a) && CanRead(a, b) && a.inbox == []
    ensures var o := ReadOnce(w, a, b); p(o.state) && (o.again ==> !CanDecode(o.state, o.budget))
  {
    var cap := Min(b.bytes, READ_BUFFER_LIMIT - |a.inbox|);
    var a1, b1 := CountRead(a, cap), Consume(b, 0, 1);
    match w.kernel(NextSyscall(a)).read
    case Data(_) =>
      var bytes := Got(w.kernel(NextSyscall(a)).read, cap);
      if bytes != [] {
        assert p(Receive(a1, bytes));
        DecodeSteps(w, p, Receive(a1, bytes), Consume(b1, |bytes|, 0));
      }
    case ReadFailed(_) =>
  }

  lemma {:induction false} ReadSteps(w: World, p: State -> bool, a: State, b: Budget, moved: bool)
    requires StepClosed(w, p) && p(a) && !CanDecode(a, b)
    ensures p(ReadLoop(w, a, b, moved).state)
    decreases b.syscalls
  {
    if CanRead(a, b) {
      ReadStep(w, p, a, b);
      var o := ReadOnce(w, a, b);
      if o.again {
        ReadSteps(w, p, o.state, o.budget, true);
      }
    }
  }

  lemma PhaseSteps(w: World, p: State -> bool, a: State, b: Budget, d: Direction)
    requires StepClosed(w, p) && p(a)
    ensures p(RunPhase(w, a, b, d).state)
  {
    if d == Writing {
      WriteSteps(w, p, a, b, false);
    } else {
      DecodeSteps(w, p, a, b);
      var r := Decode(w, a, b);
      ReadSteps(w, p, r.0, r.1, r.0.counters.processed > a.counters.processed);
    }
  }

  lemma TurnStep(w: World, p: State -> bool, a: State, b: Budget, d0: Direction)
    requires StepClosed(w, p) && p(a)
    ensures p(TurnOnce(w, a, b, d0).state)
  {
    PhaseSteps(w, p, a, b, if HasWork(a, d0) then d0 else Opposite(d0));
  }

  lemma {:induction false} TurnSteps(w: World, p: State -> bool, a: State, b: Budget, d: Direction, turns: nat)
    requires StepClosed(w, p) && p(a)
    ensures p(Turns(w, a, b, d, turns).state)
    decreases turns
  {
    hide RunPhase;
    if turns > 0 && !Exhausted(b) {
      TurnStep(w, p, a, b, d);
      var t := TurnOnce(w, a, b, d);
      if t.again {
        TurnSteps(w, p, t.state, t.budget, t.next, turns - 1);
      }
    }
  }

  /** What every step keeps, every pump keeps, also one that reports an error. */
  lemma PumpSteps(w: World, p: State -> bool, a: State, b: Budget)
    requires StepClosed(w, p) && p(a)
    ensures p(Pump(w, a, b).state)
  {
    if !Over(a) {
      TurnSteps(w, p, BeginPump(a), b, a.direction, 2);
    }
  }

  lemma InvIsCountClosed(w: World)
    ensures CountClosed(s => Inv(w, s))
  {
    hide Inv;
    forall s | Inv(w, s) ensures Inv(w, BlockWrite(s)) && Inv(w, BlockRead(s)) {
      CountWriteKeeps(w, s, 0);
      CountReadKeeps(w, s, 0);
    }
    forall s, cap: nat | Inv(w, s) ensures Inv(w, CountWrite(s, cap)) {
      CountWriteKeeps(w, s, cap);
    }
    forall s, cap: nat | Inv(w, s) && s.inbox == [] ensures Inv(w, CountRead(s, cap)) {
      CountReadKeeps(w, s, cap);
    }
  }

  lemma InvIsPumpClosed(w: World)
    ensures PumpClosed(s => Inv(w, s))
  {
    forall s | Inv(w, s) ensures Inv(w, Settle(s)) && Inv(w, BeginPump(s)) {
      SettleKeeps(w, s);
      BeginKeeps(w, s);
    }
    forall s, left, next | Inv(w, s) ensures Inv(w, EndPump(s, left, next)) {
      EndKeeps(w, s, left, next);
    }
  }

  lemma InvIsTransferClosed(w: World)
    ensures TransferClosed(w, s => Inv(w, s))
  {
    forall s, n | Inv(w, s) && 0 < n <= |s.queue| ensures Inv(w, Send(s, n)) {
      SendKeeps(w, s, n);
    }
    forall s | Inv(w, s) && !s.paused && s.inbox != [] ensures Inv(w, DecodeByte(w, s)) {
      DecodeByteKeeps(w, s);
    }
    forall s, bytes | Inv(w, s) && s.phase == Live && s.inbox == [] && |bytes| <= READ_BUFFER_LIMIT
      ensures Inv(w, Receive(s, bytes))
    {
      ReceiveKeeps(w, s, bytes);
    }
  }

  lemma InvIsHangupClosed(w: World)
    ensures HangupClosed(s => Inv(w, s))
  {
    forall s | Inv(w, s) && !Over(s) && s.queue != [] ensures Inv(w, NoteEof(Discard(s))) {
      HangupKeeps(w, s);
    }
    forall s | Inv(w, s) && !Over(s) && s.inbox == [] ensures Inv(w, NoteReadEof(s)) {
      ReadEofKeeps(w, s);
    }
  }

  lemma PumpKeeps(w: World, a: State, b: Budget)
    requires Inv(w, a)
    ensures Inv(w, Pump(w, a, b).state)
  {
    InvIsCountClosed(w);
    InvIsPumpClosed(w);
    InvIsTransferClosed(w);
    InvIsHangupClosed(w);
    PumpSteps(w, s => Inv(w, s), a, b);
  }
}
