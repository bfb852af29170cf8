/**
 * The child process: what each call does to it, given whatever the operating
 * system answers, and which system calls it makes.
 */
module Lifecycle {
  import opened TerminalTypes

  datatype ErrorKind =
    | WouldBlock
    | Interrupted
    | Eio
    | Echild
    | Esrch
    | InvalidData
    | BrokenPipe
    | OwnershipError
    | OtherError(code: int)

  datatype IoResult<+T> = Ok(value: T) | Err(error: ErrorKind)

  datatype ExitStatus = ExitStatus(code: Option<int>, signal: Option<int>, coreDumped: bool)

  datatype ObservedExit = Exited(code: int) | Signaled(signal: int, coreDumped: bool)

  datatype SignalOutcome = Sent | GroupMissing | AlreadyReaped | OwnershipLost

  /** An open PTY and its child, or a child that outlived the PTY. */
  datatype Child =
    | Running(reaped: Option<ExitStatus>)
    | Unreaped(observed: Option<ObservedExit>, failure: Option<ErrorKind>)
    | ChildReaped(status: ExitStatus)
    | Lost(error: ErrorKind)

  datatype WaitidReply = Waitid(pid: int, code: int, status: int) | WaitidFailed(error: ErrorKind)

  /** What the system would answer to each call an operation may make. */
  datatype Os = Os(
    tryWait: IoResult<Option<ExitStatus>>,
    wait: IoResult<ExitStatus>,
    waitid: WaitidReply,
    kill: IoResult<()>)

  /** A system call on the child, and whether it reaped it. */
  datatype OsCall = WaitCall(reaped: bool) | WaitidCall | KillCall

  const CLD_EXITED := 1
  const CLD_KILLED := 2
  const CLD_DUMPED := 3

  function FromExitStatus(status: ExitStatus): ObservedExit {
    match status.code
    case Some(code) => Exited(code)
    case None =>
      match status.signal
      case Some(signal) => Signaled(signal, status.coreDumped)
      case None => Exited(0)
  }

  /** A process id of zero means nothing has happened; unknown codes are malformed. */
  function Classify(pid: int, code: int, status: int): IoResult<Option<ObservedExit>> {
    if pid == 0 then Ok(None)
    else if code == CLD_EXITED then Ok(Some(Exited(status)))
    else if code == CLD_KILLED then Ok(Some(Signaled(status, false)))
    else if code == CLD_DUMPED then Ok(Some(Signaled(status, true)))
    else Err(InvalidData)
  }

  function PollWaitid(reply: WaitidReply): IoResult<Option<ObservedExit>> {
    match reply
    case Waitid(pid, code, status) => Classify(pid, code, status)
    case WaitidFailed(error) => Err(error)
  }

  /** The child afterwards, the calls made, and what is returned. */
  datatype Outcome<+T> = Outcome(child: Child, calls: seq<OsCall>, result: IoResult<T>)

  function TryWait(c: Child, os: Os): Outcome<Option<ExitStatus>>
    requires c.Running?
  {
    if c.reaped.Some? then Outcome(c, [], Ok(c.reaped))
    else match os.tryWait
      case Ok(Some(status)) => Outcome(Running(Some(status)), [WaitCall(true)], os.tryWait)
      case _ => Outcome(c, [WaitCall(false)], os.tryWait)
  }

  function Wait(c: Child, os: Os): Outcome<ExitStatus>
    requires c.Running?
  {
    if c.reaped.Some? then Outcome(c, [], Ok(c.reaped.value))
    else match os.wait
      case Ok(status) => Outcome(Running(Some(status)), [WaitCall(true)], os.wait)
      case Err(_) => Outcome(c, [WaitCall(false)], os.wait)
  }

  function KillResult(reply: IoResult<()>): IoResult<SignalOutcome> {
    match reply
    case Ok(_) => Ok(Sent)
    case Err(error) => if error == Esrch then Ok(GroupMissing) else Err(error)
  }

  /** A signal is attempted only while the child is owned and unreaped. */
  function SignalGroup(c: Child, os: Os): Outcome<SignalOutcome> {
    match c
    case Running(reaped) =>
      if reaped.Some? then Outcome(c, [], Ok(AlreadyReaped)) else Outcome(c, [KillCall], KillResult(os.kill))
    case ChildReaped(_) => Outcome(c, [], Ok(AlreadyReaped))
    case Lost(_) => Outcome(c, [], Ok(OwnershipLost))
    case Unreaped(_, _) => Outcome(c, [KillCall], KillResult(os.kill))
  }

  function IntoClosing(c: Child): Child
    requires c.Running?
  {
    match c.reaped
    case Some(status) => ChildReaped(status)
    case None => Unreaped(None, None)
  }

  /** Looks for an exit without reaping; a malformed answer and a lost child are remembered. */
  function PollExit(c: Child, os: Os): Outcome<Option<ObservedExit>>
    requires !c.Running?
  {
    match c
    case ChildReaped(status) => Outcome(c, [], Ok(Some(FromExitStatus(status))))
    case Lost(error) => Outcome(c, [], Err(error))
    case Unreaped(observed, failure) =>
      if failure.Some? then Outcome(c, [], Err(failure.value))
      else if observed.Some? then Outcome(c, [], Ok(observed))
      else match PollWaitid(os.waitid)
        case Ok(Some(exit)) => Outcome(Unreaped(Some(exit), failure), [WaitidCall], Ok(Some(exit)))
        case Ok(None) => Outcome(c, [WaitidCall], Ok(None))
        case Err(error) =>
          if error == Echild then Outcome(Lost(OwnershipError), [WaitidCall], Err(OwnershipError))
          else if error == InvalidData then Outcome(Unreaped(observed, Some(error)), [WaitidCall], Err(error))
          else Outcome(c, [WaitidCall], Err(error))
  }

  /** Reaps once; a status that contradicts the observed exit is still cached. */
  function WaitAndReap(c: Child, os: Os): Outcome<ExitStatus>
    requires !c.Running?
  {
    match c
    case ChildReaped(status) => Outcome(c, [], Ok(status))
    case Lost(error) => Outcome(c, [], Err(error))
    case Unreaped(observed, failure) =>
      if failure.Some? then Outcome(c, [], Err(failure.value))
      else match os.wait
        case Ok(status) =>
          Outcome(ChildReaped(status), [WaitCall(true)],
            if observed.Some? && observed.value != FromExitStatus(status) then Err(InvalidData) else Ok(status))
        case Err(error) =>
          if error == Echild then Outcome(Lost(OwnershipError), [WaitCall(false)], Err(OwnershipError))
          else Outcome(Unreaped(observed, None), [WaitCall(false)], Err(error))
  }
}
