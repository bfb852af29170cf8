/** Which errors of the kernel a pump reports. */
module SessionErrors {
  import opened TerminalTypes
  import opened Lifecycle
  import opened SessionSpec

  /** Would-block and an interruption are waited out, and EIO ends the stream. */
  predicate Expected(error: ErrorKind) {
    error == WouldBlock || error == Interrupted || error == Eio
  }

  /** What there is to report of a read or write: an error that is none of these. */
  function ReadError(w: World, call: Option<nat>): Option<ErrorKind> {
    match call
    case None => None
    case Some(n) =>
      match w.kernel(n).read
      case Data(_) => None
      case ReadFailed(error) => if Expected(error) then None else Some(error)
  }

  function WriteError(w: World, call: Option<nat>): Option<ErrorKind> {
    match call
    case None => None
    case Some(n) =>
      match w.kernel(n).write
      case Wrote(_) => None
      case WriteFailed(error) => if Expected(error) then None else Some(error)
  }

  lemma {:induction false} DecodeCallsNothing(w: World, a: State, b: Budget)
    ensures var r := Decode(w, a, b).0; r.past.lastRead == a.past.lastRead && r.past.lastWrite == a.past.lastWrite
    decreases b.bytes
  {
    if CanDecode(a, b) {
      DecodeCallsNothing(w, DecodeByte(w, a), Consume(b, 1, 0));
    }
  }

  lemma WriteOnceReports(w: World, a: State, b: Budget)
    requires CanWrite(a, b)
    ensures var o := WriteOnce(w, a, b);
      && o.error == WriteError(w, o.state.past.lastWrite) && (o.again ==> o.error.None?)
      && o.state.past.lastRead == a.past.lastRead
  {
    hide Replies;
  }

  lemma {:induction false} WritesReport(w: World, a: State, b: Budget, moved: bool)
    requires WriteError(w, a.past.lastWrite).None?
    ensures var p := WriteLoop(w, a, b, moved);
      p.error == WriteError(w, p.state.past.lastWrite) && p.state.past.lastRead == a.past.lastRead
    decreases b.syscalls
  {
    hide WriteOnce, WriteError;
    if CanWrite(a, b) {
      WriteOnceReports(w, a, b);
      var o := WriteOnce(w, a, b);
      if o.again {
        WritesReport(w, o.state, o.budget, true);
      }
    }
  }

  lemma ReadOnceReports(w: World, a: State, b: Budget)
    requires CanRead(a, b)
    ensures var o := ReadOnce(w, a, b);
      && o.error == ReadError(w, o.state.past.lastRead) && (o.again ==> o.error.None?)
      && o.state.past.lastWrite == a.past.lastWrite
  {
    hide Decode;
    if w.kernel(NextSyscall(a)).read.Data? {
      var cap := Min(b.bytes, READ_BUFFER_LIMIT - |a.inbox|);
      var bytes := Got(w.kernel(NextSyscall(a)).read, cap);
      DecodeCallsNothing(w, Receive(CountRead(a, cap), bytes), Consume(Consume(b, 0, 1), |bytes|, 0));
    }
  }

  lemma {:induction false} ReadsReport(w: World, a: State, b: Budget, moved: bool)
    requires ReadError(w, a.past.lastRead).None?
    ensures var p := ReadLoop(w, a, b, moved);
      p.error == ReadError(w, p.state.past.lastRead) && p.state.past.lastWrite == a.past.lastWrite
    decreases b.syscalls
  {
    hide ReadOnce, ReadError;
    if CanRead(a, b) {
      ReadOnceReports(w, a, b);
      var o := ReadOnce(w, a, b);
      if o.again {
        ReadsReport(w, o.state, o.budget, true);
      }
    }
  }

  /** The errors of the last read and the last write, of which at most one is there. */
  ghost predicate Reports(w: World, a: State, error: Option<ErrorKind>) {
    var read, write := ReadError(w, a.past.lastRead), WriteError(w, a.past.lastWrite);
    (read.None? || write.None?) && error == if read.Some? then read else write
  }

  lemma PhaseReports(w: World, a: State, b: Budget, d: Direction)
    requires Reports(w, a, None)
    ensures var p := RunPhase(w, a, b, d); Reports(w, p.state, p.error)
  {
    hide WriteLoop, ReadLoop, Decode;
    if d == Writing {
      WritesReport(w, a, b, false);
    } else {
      DecodeCallsNothing(w, a, b);
      var r := Decode(w, a, b);
      ReadsReport(w, r.0, r.1, r.0.counters.processed > a.counters.processed);
    }
  }

  lemma {:induction false} TurnsReport(w: World, a: State, b: Budget, d: Direction, turns: nat)
    requires Reports(w, a, None)
    ensures var t := Turns(w, a, b, d, turns); Reports(w, t.state, t.error)
    decreases turns
  {
    hide RunPhase, Reports;
    if turns > 0 && !Exhausted(b) {
      PhaseReports(w, a, b, if HasWork(a, d) then d else Opposite(d));
      var t := TurnOnce(w, a, b, d);
      if t.again {
        TurnsReport(w, t.state, t.budget, t.next, turns - 1);
      }
    }
  }

  /**
   * A pump reports an error exactly when its last read or its last write was
   * answered with one that is neither would-block nor an interruption nor EIO,
   * and then that error; never both were.
   */
  lemma PumpReportsExactly(w: World, a: State, b: Budget)
    requires a.phase == Live || a.phase == Eof
    ensures var r := Pump(w, a, b); Reports(w, r.state, r.error)
  {
    hide Turns;
    TurnsReport(w, BeginPump(a), b, a.direction, 2);
    var t := Turns(w, BeginPump(a), b, a.direction, 2);
  }
}
