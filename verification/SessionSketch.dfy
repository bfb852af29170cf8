/** A pump drawn with counts instead of bytes, which goes through the same steps as the session. */
module SessionSketch {
  import opened TerminalTypes
  import opened Lifecycle
  import opened SessionSpec
  import opened SessionPhases
  import SessionLaws

  /**
   * `replyEnd` is how much of the queue goes out with the last byte of a waiting
   * reply, and decoding is paused while that is not nothing.
   */
  datatype Sketch = Sketch(
    phase: Phase,
    reaped: bool,
    queue: nat,
    replyEnd: nat,
    inbox: nat,
    readBlocked: bool,
    writeBlocked: bool,
    processed: nat,
    next: nat)

  function ReplyEnd(q: seq<Tagged>): (n: nat)
    ensures n <= |q|
  {
    if q == [] then 0 else if q[|q| - 1].reply then |q| else ReplyEnd(q[..|q| - 1])
  }

  function Draw(a: State): Sketch {
    Sketch(a.phase, a.exitStatus.Some?, |a.queue|, ReplyEnd(a.queue), |a.inbox|, a.readBlocked, a.writeBlocked,
      a.counters.processed, NextSyscall(a))
  }

  // ---- steps ----------------------------------------------------------

  function Called(s: Sketch): Sketch {
    s.(next := s.next + 1)
  }

  function Shortened(s: Sketch, n: nat): Sketch
    requires n <= s.queue
  {
    s.(queue := s.queue - n, replyEnd := SatSub(s.replyEnd, n))
  }

  function Ended(s: Sketch): Sketch {
    s.(phase := if s.reaped then Spent else Eof)
  }

  function HungUp(s: Sketch): Sketch {
    Ended(s.(queue := 0, replyEnd := 0))
  }

  function Fed(w: World, s: Sketch): Sketch
    requires s.inbox > 0
  {
    var reply := |w.emulator(s.processed)|;
    s.(inbox := s.inbox - 1,
       processed := s.processed + 1,
       queue := s.queue + reply,
       replyEnd := if reply == 0 then s.replyEnd else s.queue + reply)
  }

  // ---- phases ---------------------------------------------------------

  /** A sketch, the budget left, and whether an error is reported. */
  datatype Reached = Reached(s: Sketch, left: Budget, failed: bool)

  /** Whether another write may be made. */
  predicate MayWrite(s: Sketch, b: Budget) {
    !Exhausted(b) && s.phase != Closing && s.phase != Spent && s.queue > 0
  }

  /** One write, and whether it moved bytes. */
  function WriteCall(w: World, s: Sketch, b: Budget): (r: (Reached, bool))
    requires MayWrite(s, b)
    ensures r.0.left.syscalls == b.syscalls - 1
  {
    var b1 := Budget(b.bytes, b.syscalls - 1);
    match w.kernel(s.next).write
    case Wrote(k) =>
      var n := Min(k, Min(b.bytes, s.queue));
      if n == 0 then (Reached(Called(s), b1, false), false)
      else (Reached(Shortened(Called(s), n), Budget(b.bytes - n, b.syscalls - 1), false), true)
    case WriteFailed(error) =>
      (Reached(
        if error == WouldBlock then Called(s).(writeBlocked := true)
        else if error == Eio then HungUp(Called(s)) else Called(s),
        b1, Reported(error).Some?), false)
  }

  function WriteAll(w: World, s: Sketch, b: Budget): (o: Reached)
    decreases b.syscalls
  {
    if !MayWrite(s, b) then Reached(s, b, false)
    else
      var r := WriteCall(w, s, b);
      if r.1 then WriteAll(w, r.0.s, r.0.left) else r.0
  }

  function DecodeAll(w: World, s: Sketch, b: Budget): (r: (Sketch, Budget))
    ensures r.1.syscalls == b.syscalls
    decreases b.bytes
  {
    if b.bytes == 0 || s.replyEnd > 0 || s.inbox == 0 then (s, b)
    else DecodeAll(w, Fed(w, s), Budget(b.bytes - 1, b.syscalls))
  }

  predicate MayRead(s: Sketch, b: Budget) {
    !Exhausted(b) && s.replyEnd == 0 && s.phase == Live && s.inbox < READ_BUFFER_LIMIT
  }

  /** One read and the decoding of what it brings, and whether it brought any. */
  function ReadCall(w: World, s: Sketch, b: Budget): (r: (Reached, bool))
    requires MayRead(s, b)
    ensures r.0.left.syscalls == b.syscalls - 1
  {
    var b1 := Budget(b.bytes, b.syscalls - 1);
    match w.kernel(s.next).read
    case Data(bytes) =>
      var n := Min(|bytes|, Min(b.bytes, READ_BUFFER_LIMIT - s.inbox));
      if n == 0 then (Reached(Ended(Called(s)), b1, false), false)
      else
        var d := DecodeAll(w, Called(s).(inbox := s.inbox + n), Budget(b.bytes - n, b.syscalls - 1));
        (Reached(d.0, d.1, false), true)
    case ReadFailed(error) =>
      (Reached(
        if error == WouldBlock then Called(s).(readBlocked := true)
        else if error == Eio then Ended(Called(s)) else Called(s),
        b1, Reported(error).Some?), false)
  }

  function ReadMore(w: World, s: Sketch, b: Budget): (o: Reached)
    decreases b.syscalls
  {
    if !MayRead(s, b) then Reached(s, b, false)
    else
      var r := ReadCall(w, s, b);
      if r.1 then ReadMore(w, r.0.s, r.0.left) else r.0
  }

  function ReadAll(w: World, s: Sketch, b: Budget): (o: Reached) {
    var d := DecodeAll(w, s, b);
    ReadMore(w, d.0, d.1)
  }

  predicate Work(s: Sketch, d: Direction) {
    match d
    case Writing => s.queue > 0
    case Reading => s.replyEnd == 0 && (s.inbox > 0 || s.phase == Live)
  }

  function OnePhase(w: World, s: Sketch, b: Budget, d: Direction): (o: Reached) {
    if d == Writing then WriteAll(w, s, b) else ReadAll(w, s, b)
  }

  /** One phase, and another in the other direction if there is budget and work for it. */
  function BothPhases(w: World, s: Sketch, b: Budget, d: Direction): (o: Reached) {
    var o := OnePhase(w, s, b, d);
    if o.failed || Exhausted(o.left) || !Work(o.s, Opposite(d)) then o else OnePhase(w, o.s, o.left, Opposite(d))
  }

  /** Whether the session it draws needs a pump. */
  predicate Wanting(s: Sketch) {
    && s.phase != Closing && s.phase != Spent
    && ((s.queue > 0 && !s.writeBlocked)
        || (s.phase == Live && s.replyEnd == 0 && !s.readBlocked)
        || (s.inbox > 0 && s.replyEnd == 0))
  }

  // ---- the reply's end ------------------------------------------------

  lemma {:induction false} EndCounts(q: seq<Tagged>)
    ensures Replies(q) > 0 <==> ReplyEnd(q) > 0
    decreases |q|
  {
    if q != [] {
      var n := |q| - 1;
      EndCounts(q[..n]);
      SessionLaws.RepliesSplit(q, n);
      assert q[n..] == [q[n]];
    }
  }

  lemma {:induction false} EndAfter(q: seq<Tagged>, n: nat)
    requires n <= |q|
    ensures ReplyEnd(q[n..]) == SatSub(ReplyEnd(q), n)
    decreases |q|
  {
    if n < |q| && !q[|q| - 1].reply {
      EndAfter(q[..|q| - 1], n);
      assert q[n..][..|q| - n - 1] == q[..|q| - 1][n..];
    }
  }

  lemma EndAppended(q: seq<Tagged>, reply: seq<u8>)
    requires reply != []
    ensures ReplyEnd(q + Tag(reply, true)) == |q| + |reply|
  {
    assert (q + Tag(reply, true))[|q| + |reply| - 1].reply;
  }

  // ---- the same steps -------------------------------------------------

  /** A session whose pause, if it has none, has no reply waiting either. */
  ghost predicate Marked(a: State) {
    a.child.Running? && (ReplyEnd(a.queue) > 0 ==> a.paused)
  }

  /** One that is paused exactly while a reply waits. */
  ghost predicate Settled(a: State) {
    a.child.Running? && (ReplyEnd(a.queue) > 0 <==> a.paused)
  }

  lemma SendDraws(a: State, n: nat)
    requires Marked(a) && n <= |a.queue|
    ensures Marked(Send(a, n)) && Draw(Send(a, n)) == Shortened(Draw(a), n)
  {
    EndAfter(a.queue, n);
    EndCounts(a.queue[n..]);
  }

  /** What a call on a session and one on its drawing have in common. */
  ghost predicate SameCall(t: Attempt, r: (Reached, bool)) {
    && Draw(t.state) == r.0.s && t.budget == r.0.left && t.error.Some? == r.0.failed
    && t.again == r.1 && (t.again ==> t.error.None?)
  }

  lemma HangupDraws(a: State)
    requires Marked(a)
    ensures Marked(NoteEof(Discard(a))) && Draw(NoteEof(Discard(a))) == HungUp(Draw(a))
  {
  }

  lemma GoneWriteDraws(w: World, a: State, b: Budget)
    requires Marked(a) && CanWrite(a, b) && w.kernel(NextSyscall(a)).write == WriteFailed(Eio)
    ensures Marked(WriteOnce(w, a, b).state) && SameCall(WriteOnce(w, a, b), WriteCall(w, Draw(a), b))
  {
    hide NoteEof, Discard, HungUp;
    HangupDraws(CountWrite(a, Min(b.bytes, |a.queue|)));
  }

  lemma FailedWriteDraws(w: World, a: State, b: Budget)
    requires Marked(a) && CanWrite(a, b) && w.kernel(NextSyscall(a)).write.WriteFailed?
    requires w.kernel(NextSyscall(a)).write.error != Eio
    ensures Marked(WriteOnce(w, a, b).state) && SameCall(WriteOnce(w, a, b), WriteCall(w, Draw(a), b))
  {
    hide NoteEof, Discard, HungUp;
  }

  lemma MovedWriteDraws(w: World, a: State, b: Budget)
    requires Marked(a) && CanWrite(a, b) && w.kernel(NextSyscall(a)).write.Wrote?
    ensures Marked(WriteOnce(w, a, b).state) && SameCall(WriteOnce(w, a, b), WriteCall(w, Draw(a), b))
  {
    hide Send, Shortened;
    var cap := Min(b.bytes, |a.queue|);
    SendDraws(CountWrite(a, cap), Min(w.kernel(NextSyscall(a)).write.n, cap));
  }

  lemma WriteOnceDraws(w: World, a: State, b: Budget)
    requires Marked(a) && CanWrite(a, b)
    ensures Marked(WriteOnce(w, a, b).state) && SameCall(WriteOnce(w, a, b), WriteCall(w, Draw(a), b))
  {
    hide WriteOnce, WriteCall, SameCall;
    if w.kernel(NextSyscall(a)).write.Wrote? {
      MovedWriteDraws(w, a, b);
    } else if w.kernel(NextSyscall(a)).write.error == Eio {
      GoneWriteDraws(w, a, b);
    } else {
      FailedWriteDraws(w, a, b);
    }
  }

  lemma {:induction false} WriteDraws(w: World, a: State, b: Budget, moved: bool)
    requires Marked(a)
    ensures var p, o := WriteLoop(w, a, b, moved), WriteAll(w, Draw(a), b);
      && Marked(p.state) && Draw(p.state) == o.s && p.budget == o.left && p.error.Some? == o.failed
    decreases b.syscalls
  {
    hide WriteOnce, WriteCall;
    if CanWrite(a, b) {
      WriteOnceDraws(w, a, b);
      var t := WriteOnce(w, a, b);
      if t.again {
        WriteDraws(w, t.state, t.budget, true);
      }
    }
  }

  lemma WritePhaseDraws(w: World, a: State, b: Budget)
    requires Marked(a)
    ensures var p, o := WritePhase(w, a, b), WriteAll(w, Draw(a), b);
      && p.budget == o.left && p.error.Some? == o.failed
      && (p.error.None? ==> Settled(p.state) && Draw(p.state) == o.s)
  {
    WriteDraws(w, a, b, false);
    var p := WriteLoop(w, a, b, false);
    EndCounts(p.state.queue);
  }

  lemma FeedDraws(w: World, a: State)
    requires Settled(a) && !a.paused && a.inbox != []
    ensures Settled(DecodeByte(w, a)) && Draw(DecodeByte(w, a)) == Fed(w, Draw(a))
  {
    var reply := w.emulator(a.counters.processed);
    if reply != [] {
      EndAppended(a.queue, reply);
    }
  }

  lemma {:induction false} DecodeDraws(w: World, a: State, b: Budget)
    requires Settled(a)
    ensures var r, o := Decode(w, a, b), DecodeAll(w, Draw(a), b);
      Settled(r.0) && Draw(r.0) == o.0 && r.1 == o.1
    decreases b.bytes
  {
    if CanDecode(a, b) {
      FeedDraws(w, a);
      DecodeDraws(w, DecodeByte(w, a), Consume(b, 1, 0));
    }
  }

  lemma FailedReadDraws(w: World, a: State, b: Budget)
    requires Settled(a) && CanRead(a, b) && w.kernel(NextSyscall(a)).read.ReadFailed?
    ensures Settled(ReadOnce(w, a, b).state) && SameCall(ReadOnce(w, a, b), ReadCall(w, Draw(a), b))
  {
    hide Decode, DecodeAll, Replies, ReplyEnd;
  }

  lemma NothingReadDraws(w: World, a: State, b: Budget)
    requires Settled(a) && CanRead(a, b) && w.kernel(NextSyscall(a)).read.Data?
    requires Got(w.kernel(NextSyscall(a)).read, Min(b.bytes, READ_BUFFER_LIMIT - |a.inbox|)) == []
    ensures Settled(ReadOnce(w, a, b).state) && SameCall(ReadOnce(w, a, b), ReadCall(w, Draw(a), b))
  {
    hide Decode, DecodeAll;
  }

  lemma DataDraws(w: World, a: State, b: Budget)
    requires Settled(a) && CanRead(a, b) && w.kernel(NextSyscall(a)).read.Data?
    requires Got(w.kernel(NextSyscall(a)).read, Min(b.bytes, READ_BUFFER_LIMIT - |a.inbox|)) != []
    ensures Settled(ReadOnce(w, a, b).state) && SameCall(ReadOnce(w, a, b), ReadCall(w, Draw(a), b))
  {
    hide Decode, DecodeAll, NoteReadEof, Ended;
    var cap := Min(b.bytes, READ_BUFFER_LIMIT - |a.inbox|);
    var bytes := Got(w.kernel(NextSyscall(a)).read, cap);
    DecodeDraws(w, Receive(CountRead(a, cap), bytes), Consume(Consume(b, 0, 1), |bytes|, 0));
  }

  lemma ReadOnceDraws(w: World, a: State, b: Budget)
    requires Settled(a) && CanRead(a, b)
    ensures Settled(ReadOnce(w, a, b).state) && SameCall(ReadOnce(w, a, b), ReadCall(w, Draw(a), b))
  {
    hide ReadOnce, ReadCall, SameCall;
    var read := w.kernel(NextSyscall(a)).read;
    if read.Data? && Got(read, Min(b.bytes, READ_BUFFER_LIMIT - |a.inbox|)) == [] {
      NothingReadDraws(w, a, b);
    } else if read.Data? {
      DataDraws(w, a, b);
    } else {
      FailedReadDraws(w, a, b);
    }
  }

  lemma {:induction false} ReadDraws(w: World, a: State, b: Budget, moved: bool)
    requires Settled(a)
    ensures var p, o := ReadLoop(w, a, b, moved), ReadMore(w, Draw(a), b);
      && Settled(p.state) && Draw(p.state) == o.s && p.budget == o.left && p.error.Some? == o.failed
    decreases b.syscalls
  {
    hide ReadOnce, ReadCall;
    if CanRead(a, b) {
      ReadOnceDraws(w, a, b);
      var t := ReadOnce(w, a, b);
      if t.again {
        ReadDraws(w, t.state, t.budget, true);
      }
    }
  }

  lemma ReadPhaseDraws(w: World, a: State, b: Budget)
    requires Settled(a)
    ensures var p, o := ReadPhase(w, a, b), ReadAll(w, Draw(a), b);
      && Settled(p.state) && Draw(p.state) == o.s && p.budget == o.left && p.error.Some? == o.failed
  {
    DecodeDraws(w, a, b);
    var d := Decode(w, a, b);
    ReadDraws(w, d.0, d.1, d.0.counters.processed > a.counters.processed);
  }

  lemma OnePhaseDraws(w: World, a: State, b: Budget, d: Direction)
    requires Marked(a) && HasWork(a, d)
    ensures var p, o := RunPhase(w, a, b, d), OnePhase(w, Draw(a), b, d);
      && p.budget == o.left && p.error.Some? == o.failed
      && (p.error.None? ==> Settled(p.state) && Draw(p.state) == o.s)
  {
    if d == Writing {
      WritePhaseDraws(w, a, b);
    } else {
      ReadPhaseDraws(w, a, b);
    }
  }

  lemma PhasesDraw(w: World, a: State, b: Budget, d: Direction)
    requires Marked(a) && HasWork(a, d)
    ensures var p, o := Phases(w, a, b, d), BothPhases(w, Draw(a), b, d);
      && p.budget == o.left && p.error.Some? == o.failed
      && (p.error.None? ==> Settled(p.state) && Draw(p.state) == o.s)
  {
    hide RunPhase, OnePhase;
    OnePhaseDraws(w, a, b, d);
    var p := RunPhase(w, a, b, d);
    if p.error.None? && HasWork(p.state, Opposite(d)) {
      OnePhaseDraws(w, p.state, p.budget, Opposite(d));
    }
  }

  /** A pump with something to do ends as its drawing does. */
  lemma PumpDraws(w: World, a: State, b: Budget)
    requires Marked(a) && !Over(a) && !Exhausted(b) && HasWork(a, First(a))
    ensures var r, o := Pump(w, a, b), BothPhases(w, Draw(BeginPump(a)), b, First(a));
      && r.left == o.left && r.error.Some? == o.failed
      && (r.error.None? ==> (NeedsPump(r.state) <==> Wanting(o.s)))
  {
    hide BothPhases, Phases, Pump;
    PumpIsPhases(w, a, b);
    PhasesDraw(w, BeginPump(a), b, First(a));
  }
}
