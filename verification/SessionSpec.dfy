/** The session as an abstract machine, with one queue of tagged bytes, for any kernel and any emulator. */
module SessionSpec {
  import opened TerminalTypes
  import opened Lifecycle

  const READ_BUFFER_LIMIT: nat := 65536
  const OUTBOUND_COMPACT_THRESHOLD: nat := 4096
  const READ_COMPACT_THRESHOLD: nat := 4096

  // ---- the environment ------------------------------------------------

  datatype ReadReply = Data(bytes: seq<u8>) | ReadFailed(error: ErrorKind)
  datatype WriteReply = Wrote(n: nat) | WriteFailed(error: ErrorKind)
  datatype KernelReply = KernelReply(read: ReadReply, write: WriteReply)

  /**
   * What the kernel answers to the n-th read or write and what the emulator
   * replies to the n-th decoded byte. Nothing is assumed of either.
   */
  datatype World = World(kernel: nat -> KernelReply, emulator: nat -> seq<u8>)

  /** A transfer never exceeds what was asked for. */
  function Got(reply: ReadReply, cap: nat): (bytes: seq<u8>)
    requires reply.Data?
    ensures |bytes| <= cap
  {
    reply.bytes[..Min(|reply.bytes|, cap)]
  }

  // ---- state ----------------------------------------------------------

  datatype Phase = Live | Eof | Closing | Spent

  datatype Direction = Reading | Writing

  function Opposite(d: Direction): Direction {
    if d == Reading then Writing else Reading
  }

  /** The ceiling on one pump, or what is left of it. */
  datatype Budget = Budget(bytes: nat, syscalls: nat)

  function Consume(b: Budget, bytes: nat, syscalls: nat): Budget {
    Budget(SatSub(b.bytes, bytes), SatSub(b.syscalls, syscalls))
  }

  predicate Exhausted(b: Budget) {
    b.bytes == 0 || b.syscalls == 0
  }

  datatype Counters = Counters(
    pumpCalls: nat,
    exhaustions: nat,
    bytesRead: nat,
    processed: nat,
    replyGenerated: nat,
    inputEnqueued: nat,
    inputWritten: nat,
    replyWritten: nat,
    readSyscalls: nat,
    writeSyscalls: nat,
    readBlocked: nat,
    writeBlocked: nat)

  const NO_COUNTS := Counters(0, 0, 0, 0, 0, 0, 0, 0, 0, 0, 0, 0)

  /** A queued byte, and whether it belongs to a terminal reply. */
  datatype Tagged = Tagged(byte: u8, reply: bool)

  function Tag(bytes: seq<u8>, reply: bool): (t: seq<Tagged>)
    ensures |t| == |bytes|
  {
    seq(|bytes|, i requires 0 <= i < |bytes| => Tagged(bytes[i], reply))
  }

  function Replies(q: seq<Tagged>): (n: nat)
    ensures n <= |q|
  {
    if q == [] then 0 else (if q[0].reply then 1 else 0) + Replies(q[1..])
  }

  /** A read or write: its number, and the most it may transfer. */
  datatype Asked = Asked(call: nat, cap: nat)

  /**
   * What has happened so far; no operation reads it. `settled` and `sentBefore`
   * are how much had been accepted and written when the queue was last dropped;
   * `readCalls` and `writeCalls` are the calls issued, `lastRead` and `lastWrite` number the
   * latest pump's last read and write, and `enqueuedSince` counts the inputs
   * accepted after the last write.
   */
  datatype History = History(
    accepted: seq<Tagged>,
    wire: seq<Tagged>,
    dropped: seq<Tagged>,
    settled: nat,
    sentBefore: nat,
    received: seq<u8>,
    fed: seq<u8>,
    undecodedAtRead: nat,
    sawEof: bool,
    readEof: bool,
    readCalls: seq<Asked>,
    writeCalls: seq<Asked>,
    lastRead: Option<nat>,
    lastWrite: Option<nat>,
    enqueuedSince: nat,
    calls: seq<OsCall>,
    returned: seq<ExitStatus>)

  const NO_HISTORY := History([], [], [], 0, 0, [], [], 0, false, false, [], [], None, None, 0, [], [])

  /**
   * `sent` counts the bytes written since the queue was last compacted; only
   * when a finished reply stops pausing depends on it.
   */
  datatype State = State(
    phase: Phase,
    child: Child,
    exitStatus: Option<ExitStatus>,
    queue: seq<Tagged>,
    sent: nat,
    paused: bool,
    inbox: seq<u8>,
    direction: Direction,
    readBlocked: bool,
    writeBlocked: bool,
    counters: Counters,
    past: History)

  const START := State(Live, Running(None), None, [], 0, false, [], Writing, false, false, NO_COUNTS, NO_HISTORY)

  predicate Over(a: State) {
    a.phase == Closing || a.phase == Spent
  }

  /** Number of the next read or write. */
  function NextSyscall(a: State): nat {
    a.counters.readSyscalls + a.counters.writeSyscalls
  }

  // ---- single steps ---------------------------------------------------

  function NoteExit(a: State, status: ExitStatus): State {
    a.(exitStatus := Some(status), phase := if a.phase == Eof then Spent else a.phase)
  }

  function NoteEof(a: State): State {
    a.(phase := if a.exitStatus.Some? then Spent else Eof, past := a.past.(sawEof := true))
  }

  /** EOF as a read reports it. */
  function NoteReadEof(a: State): State {
    var eof := NoteEof(a);
    eof.(past := eof.past.(readEof := true))
  }

  /** Accepts bytes at the end of the queue. */
  function Accept(a: State, bytes: seq<u8>, reply: bool): State {
    a.(queue := a.queue + Tag(bytes, reply), past := a.past.(accepted := a.past.accepted + Tag(bytes, reply)))
  }

  /** Retires the whole queue unsent. */
  function Discard(a: State): State {
    a.(queue := [], sent := 0, paused := false,
       past := a.past.(
         dropped := a.past.dropped + a.queue, settled := |a.past.accepted|, sentBefore := |a.past.wire|))
  }

  /** `n` bytes went out. */
  function Advance(a: State, n: nat): State
    requires n <= |a.queue|
  {
    var out := a.queue[..n];
    a.(queue := a.queue[n..],
       sent := a.sent + n,
       counters := a.counters.(
         replyWritten := a.counters.replyWritten + Replies(out),
         inputWritten := a.counters.inputWritten + (n - Replies(out))),
       past := a.past.(wire := a.past.wire + out))
  }

  /** Forgets the written prefix once it is large or all there is, and with it a finished reply. */
  function Compact(a: State): State {
    if a.sent == 0 || (a.sent < OUTBOUND_COMPACT_THRESHOLD && a.queue != []) then a
    else a.(sent := 0, paused := a.paused && Replies(a.queue) > 0)
  }

  function Send(a: State, n: nat): State
    requires n <= |a.queue|
  {
    Compact(Advance(a, n))
  }

  /** A finished reply stops pausing the session. */
  function Settle(a: State): State {
    a.(paused := a.paused && Replies(a.queue) > 0)
  }

  /** Takes the next byte out of the inbox. */
  function Feed(a: State): State
    requires a.inbox != []
  {
    a.(inbox := a.inbox[1..],
       counters := a.counters.(processed := a.counters.processed + 1),
       past := a.past.(fed := a.past.fed + [a.inbox[0]]))
  }

  /** Feeds one byte; a reply joins the queue and pauses decoding. */
  function DecodeByte(w: World, a: State): State
    requires a.inbox != []
  {
    var fed := Feed(a);
    var reply := w.emulator(a.counters.processed);
    if reply == [] then fed
    else
      Accept(fed, reply, true).(
        paused := true,
        counters := fed.counters.(replyGenerated := fed.counters.replyGenerated + |reply|))
  }

  /** A write of at most `cap` bytes is issued. */
  function CountWrite(a: State, cap: nat): State {
    a.(counters := a.counters.(writeSyscalls := a.counters.writeSyscalls + 1),
       past := a.past.(
         writeCalls := a.past.writeCalls + [Asked(NextSyscall(a), cap)],
         lastWrite := Some(NextSyscall(a)),
         enqueuedSince := 0))
  }

  function CountRead(a: State, cap: nat): State {
    a.(counters := a.counters.(readSyscalls := a.counters.readSyscalls + 1),
       past := a.past.(
         undecodedAtRead := a.past.undecodedAtRead + |a.inbox|,
         readCalls := a.past.readCalls + [Asked(NextSyscall(a), cap)],
         lastRead := Some(NextSyscall(a))))
  }

  function BlockWrite(a: State): State {
    a.(writeBlocked := true, counters := a.counters.(writeBlocked := a.counters.writeBlocked + 1))
  }

  function BlockRead(a: State): State {
    a.(readBlocked := true, counters := a.counters.(readBlocked := a.counters.readBlocked + 1))
  }

  function Receive(a: State, bytes: seq<u8>): State {
    a.(inbox := a.inbox + bytes,
       counters := a.counters.(bytesRead := a.counters.bytesRead + |bytes|),
       past := a.past.(received := a.past.received + bytes))
  }

  // ---- phases ---------------------------------------------------------

  /** A phase's end: state, budget left, whether bytes moved, and an error to report. */
  datatype Progress = Progress(state: State, budget: Budget, moved: bool, error: Option<ErrorKind>)

  predicate CanWrite(a: State, b: Budget) {
    !Exhausted(b) && !Over(a) && a.queue != [] && a.child.Running?
  }

  /** One system call and what its answer does; `again` when bytes moved. */
  datatype Attempt = Attempt(state: State, budget: Budget, again: bool, error: Option<ErrorKind>)

  /** An error other than a blocked, interrupted or ended stream is reported. */
  function Reported(error: ErrorKind): Option<ErrorKind> {
    if error == WouldBlock || error == Interrupted || error == Eio then None else Some(error)
  }

  function WriteOnce(w: World, a: State, b: Budget): (o: Attempt)
    requires CanWrite(a, b)
    ensures o.budget.syscalls == b.syscalls - 1
  {
    var cap := Min(b.bytes, |a.queue|);
    var a1, b1 := CountWrite(a, cap), Consume(b, 0, 1);
    match w.kernel(NextSyscall(a)).write
    case Wrote(k) =>
      var n := Min(k, cap);
      if n == 0 then Attempt(a1, b1, false, None) else Attempt(Send(a1, n), Consume(b1, n, 0), true, None)
    case WriteFailed(error) =>
      Attempt(
        if error == WouldBlock then BlockWrite(a1) else if error == Eio then NoteEof(Discard(a1)) else a1,
        b1, false, Reported(error))
  }

  function WriteLoop(w: World, a: State, b: Budget, moved: bool): (p: Progress)
    decreases b.syscalls
  {
    if !CanWrite(a, b) then Progress(a, b, moved, None)
    else
      var o := WriteOnce(w, a, b);
      if o.again then WriteLoop(w, o.state, o.budget, true) else Progress(o.state, o.budget, moved, o.error)
  }

  /** An error leaves a finished reply's pause in place until the next pump. */
  function WritePhase(w: World, a: State, b: Budget): (p: Progress) {
    var p := WriteLoop(w, a, b, false);
    if p.error.Some? then p else p.(state := Settle(p.state))
  }

  predicate CanDecode(a: State, b: Budget) {
    b.bytes > 0 && !a.paused && a.inbox != []
  }

  function Decode(w: World, a: State, b: Budget): (r: (State, Budget))
    ensures r.1.syscalls == b.syscalls
    decreases b.bytes
  {
    if !CanDecode(a, b) then (a, b) else Decode(w, DecodeByte(w, a), Consume(b, 1, 0))
  }

  predicate CanRead(a: State, b: Budget) {
    !Exhausted(b) && !a.paused && a.phase == Live && |a.inbox| < READ_BUFFER_LIMIT && a.child.Running?
  }

  /** One read; what it brought is decoded at once, as far as the budget and replies allow. */
  function ReadOnce(w: World, a: State, b: Budget): (o: Attempt)
    requires CanRead(a, b)
    ensures o.budget.syscalls == b.syscalls - 1
  {
    var cap := Min(b.bytes, READ_BUFFER_LIMIT - |a.inbox|);
    var a1, b1 := CountRead(a, cap), Consume(b, 0, 1);
    match w.kernel(NextSyscall(a)).read
    case Data(_) =>
      var bytes := Got(w.kernel(NextSyscall(a)).read, cap);
      if bytes == [] then Attempt(NoteReadEof(a1), b1, false, None)
      else
        var d := Decode(w, Receive(a1, bytes), Consume(b1, |bytes|, 0));
        Attempt(d.0, d.1, true, None)
    case ReadFailed(error) =>
      Attempt(
        if error == WouldBlock then BlockRead(a1) else if error == Eio then NoteReadEof(a1) else a1,
        b1, false, Reported(error))
  }

  function ReadLoop(w: World, a: State, b: Budget, moved: bool): (p: Progress)
    decreases b.syscalls
  {
    if !CanRead(a, b) then Progress(a, b, moved, None)
    else
      var o := ReadOnce(w, a, b);
      if o.again then ReadLoop(w, o.state, o.budget, true) else Progress(o.state, o.budget, moved, o.error)
  }

  function ReadPhase(w: World, a: State, b: Budget): (p: Progress) {
    var d := Decode(w, a, b);
    ReadLoop(w, d.0, d.1, d.0.counters.processed > a.counters.processed)
  }

  // ---- one pump -------------------------------------------------------

  predicate HasWork(a: State, d: Direction) {
    match d
    case Writing => a.queue != []
    case Reading => !a.paused && (a.inbox != [] || (a.phase == Live && a.child.Running?))
  }

  function RunPhase(w: World, a: State, b: Budget, d: Direction): (p: Progress) {
    if d == Writing then WritePhase(w, a, b) else ReadPhase(w, a, b)
  }

  /** A turn's end; without an error, where the next turn or the next pump starts. */
  datatype Turn = Turn(state: State, budget: Budget, next: Direction, again: bool, error: Option<ErrorKind>)

  /** One phase, in the given direction if it has work and else in the other. */
  function TurnOnce(w: World, a: State, b: Budget, d0: Direction): Turn {
    var d := if HasWork(a, d0) then d0 else Opposite(d0);
    if !HasWork(a, d) then Turn(a, b, d, false, None)
    else
      var p := RunPhase(w, a, b, d);
      if p.error.Some? then Turn(p.state, p.budget, d, false, p.error)
      else
        var again := HasWork(p.state, Opposite(d));
        Turn(p.state, p.budget, if p.moved || again then Opposite(d) else d, again, None)
  }

  function Turns(w: World, a: State, b: Budget, d: Direction, turns: nat): (t: Turn)
    decreases turns
  {
    if turns == 0 || Exhausted(b) then Turn(a, b, d, false, None)
    else
      var t := TurnOnce(w, a, b, d);
      if t.again then Turns(w, t.state, t.budget, t.next, turns - 1) else t
  }

  datatype Pumped = Pumped(state: State, left: Budget, error: Option<ErrorKind>)

  function BeginPump(a: State): State {
    a.(readBlocked := false,
       writeBlocked := false,
       counters := a.counters.(pumpCalls := a.counters.pumpCalls + 1),
       past := a.past.(lastRead := None, lastWrite := None))
  }

  function EndPump(a: State, left: Budget, next: Direction): State {
    a.(direction := next,
       counters := if Exhausted(left) then a.counters.(exhaustions := a.counters.exhaustions + 1) else a.counters)
  }

  function Pump(w: World, a: State, b: Budget): (r: Pumped) {
    if Over(a) then Pumped(a, b, None)
    else
      var t := Turns(w, BeginPump(a), b, a.direction, 2);
      if t.error.Some? then Pumped(t.state, t.budget, t.error)
      else Pumped(EndPump(t.state, t.budget, t.next), t.budget, None)
  }

  // ---- the other operations -------------------------------------------

  function Enqueue(a: State, bytes: seq<u8>): (r: (State, IoResult<()>)) {
    if Over(a) then (a, Err(BrokenPipe))
    else
      var r := Accept(a, bytes, false);
      (r.(
        writeBlocked := false,
        counters := a.counters.(inputEnqueued := a.counters.inputEnqueued + |bytes|),
        past := r.past.(enqueuedSince := a.past.enqueuedSince + 1)), Ok(()))
  }

  function Close(a: State): (r: State) {
    if Over(a) then a
    else
      Discard(a).(inbox := [], phase := Closing, child := if a.child.Running? then IntoClosing(a.child) else a.child)
  }

  function Record<T>(a: State, o: Outcome<T>): State {
    a.(child := o.child, past := a.past.(calls := a.past.calls + o.calls))
  }

  function Return(a: State, status: ExitStatus): State {
    a.(past := a.past.(returned := a.past.returned + [status]))
  }

  function FinishReap(a: State, status: ExitStatus): State {
    Return(a.(exitStatus := Some(status), phase := Spent), status)
  }

  function TryWaitSession(a: State, os: Os): (r: (State, IoResult<Option<ExitStatus>>)) {
    if a.exitStatus.Some? then (Return(a, a.exitStatus.value), Ok(a.exitStatus))
    else if a.child.Running? then
      var o := TryWait(a.child, os);
      match o.result
      case Ok(Some(status)) => (Return(NoteExit(Record(a, o), status), status), o.result)
      case _ => (Record(a, o), o.result)
    else
      var p := PollExit(a.child, os);
      match p.result
      case Err(error) => (Record(a, p), Err(error))
      case Ok(None) => (Record(a, p), Ok(None))
      case Ok(Some(_)) =>
        var o := WaitAndReap(p.child, os);
        var u := Record(Record(a, p), o);
        match o.result
        case Ok(status) => (FinishReap(u, status), Ok(Some(status)))
        case Err(error) => (u, Err(error))
  }

  function WaitSession(a: State, os: Os): (r: (State, IoResult<ExitStatus>)) {
    if a.exitStatus.Some? then (Return(a, a.exitStatus.value), Ok(a.exitStatus.value))
    else if a.child.Running? then
      var o := Wait(a.child, os);
      match o.result
      case Ok(status) => (Return(NoteExit(Record(a, o), status), status), o.result)
      case Err(_) => (Record(a, o), o.result)
    else
      var o := WaitAndReap(a.child, os);
      match o.result
      case Ok(status) => (FinishReap(Record(a, o), status), o.result)
      case Err(_) => (Record(a, o), o.result)
  }

  function Signal(a: State, os: Os): (r: (State, IoResult<SignalOutcome>)) {
    var o := SignalGroup(a.child, os);
    (Record(a, o), o.result)
  }

  /** Kills and reaps what is left; the session is gone afterwards. */
  function Shutdown(a: State, os: Os): (r: (seq<OsCall>, IoResult<ExitStatus>)) {
    if a.exitStatus.Some? then (a.past.calls, Ok(a.exitStatus.value))
    else
      var closing := if a.child.Running? then IntoClosing(a.child) else a.child;
      var kill := SignalGroup(closing, os);
      var o := WaitAndReap(kill.child, os);
      (a.past.calls + kill.calls + o.calls, o.result)
  }

  // ---- what a poll loop asks ------------------------------------------

  datatype Interests = Interests(readable: bool, writable: bool)

  function PollInterests(a: State): Interests {
    if Over(a) then Interests(false, false)
    else Interests(a.phase != Eof && !a.paused && a.child.Running?, a.queue != [])
  }

  predicate NeedsPump(a: State) {
    && !Over(a)
    && ((a.queue != [] && !a.writeBlocked)
        || (a.phase == Live && !a.paused && !a.readBlocked)
        || (a.inbox != [] && !a.paused))
  }

  // ---- runs -----------------------------------------------------------

  datatype Op =
    | OpEnqueue(bytes: seq<u8>)
    | OpPump(budget: Budget)
    | OpTryWait(os: Os)
    | OpWait(os: Os)
    | OpSignal(os: Os)
    | OpClose

  function Step(w: World, a: State, op: Op): State {
    match op
    case OpEnqueue(bytes) => Enqueue(a, bytes).0
    case OpPump(budget) => Pump(w, a, budget).state
    case OpTryWait(os) => TryWaitSession(a, os).0
    case OpWait(os) => WaitSession(a, os).0
    case OpSignal(os) => Signal(a, os).0
    case OpClose => Close(a)
  }

  function Run(w: World, a: State, ops: seq<Op>): State
    decreases |ops|
  {
    if ops == [] then a else Run(w, Step(w, a, ops[0]), ops[1..])
  }
}
