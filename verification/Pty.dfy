/** The child process and its state, updated in place. */
module Pty {
  import opened TerminalTypes
  import opened Lifecycle

  /** A child with its PTY open; `calls` records the system calls made on it. */
  class PtyProcess {
    var reapedStatus: Option<ExitStatus>
    ghost var calls: seq<OsCall>

    ghost function View(): Child
      reads this
    {
      Running(reapedStatus)
    }

    constructor ()
      ensures View() == Running(None) && calls == []
    {
      reapedStatus, calls := None, [];
    }

    method TryWait(os: Os) returns (r: IoResult<Option<ExitStatus>>)
      modifies this
      ensures var o := Lifecycle.TryWait(old(View()), os);
        View() == o.child && calls == old(calls) + o.calls && r == o.result
    {
      if reapedStatus.Some? {
        return Ok(reapedStatus);
      }
      r := os.tryWait;
      calls := calls + [WaitCall(r.Ok? && r.value.Some?)];
      if r.Ok? && r.value.Some? {
        reapedStatus := r.value;
      }
    }

    method Wait(os: Os) returns (r: IoResult<ExitStatus>)
      modifies this
      ensures var o := Lifecycle.Wait(old(View()), os);
        View() == o.child && calls == old(calls) + o.calls && r == o.result
    {
      if reapedStatus.Some? {
        return Ok(reapedStatus.value);
      }
      r := os.wait;
      calls := calls + [WaitCall(r.Ok?)];
      if r.Ok? {
        reapedStatus := Some(r.value);
      }
    }

    method SignalGroup(os: Os) returns (r: IoResult<SignalOutcome>)
      modifies `calls
      ensures var o := Lifecycle.SignalGroup(old(View()), os);
        View() == o.child && calls == old(calls) + o.calls && r == o.result
    {
      if reapedStatus.Some? {
        return Ok(AlreadyReaped);
      }
      calls := calls + [KillCall];
      r := KillResult(os.kill);
    }

    /** Closes the master and hands the child over. */
    method IntoClosing() returns (c: ClosingPtyProcess)
      ensures fresh(c) && c.View() == Lifecycle.IntoClosing(View()) && c.calls == calls
    {
      c := new ClosingPtyProcess(Lifecycle.IntoClosing(Running(reapedStatus)), calls);
    }
  }

  class ClosingPtyProcess {
    var state: Child
    ghost var calls: seq<OsCall>

    ghost predicate Valid()
      reads this
    {
      !state.Running?
    }

    ghost function View(): Child
      reads this
    {
      state
    }

    constructor (state: Child, ghost calls: seq<OsCall>)
      requires !state.Running?
      ensures Valid() && View() == state && this.calls == calls
    {
      this.state, this.calls := state, calls;
    }

    method PollExit(os: Os) returns (r: IoResult<Option<ObservedExit>>)
      requires Valid()
      modifies this
      ensures Valid()
      ensures var o := Lifecycle.PollExit(old(View()), os);
        View() == o.child && calls == old(calls) + o.calls && r == o.result
    {
      match state
      case ChildReaped(status) => return Ok(Some(FromExitStatus(status)));
      case Lost(error) => return Err(error);
      case Unreaped(observed, failure) =>
        if failure.Some? {
          return Err(failure.value);
        }
        if observed.Some? {
          return Ok(observed);
        }
        calls := calls + [WaitidCall];
        r := PollWaitid(os.waitid);
        match r
        case Ok(Some(exit)) => state := Unreaped(Some(exit), failure);
        case Ok(None) =>
        case Err(error) =>
          if error == Echild {
            state := Lost(OwnershipError);
            r := Err(OwnershipError);
          } else if error == InvalidData {
            state := Unreaped(observed, Some(error));
          }
    }

    method WaitAndReap(os: Os) returns (r: IoResult<ExitStatus>)
      requires Valid()
      modifies this
      ensures Valid()
      ensures var o := Lifecycle.WaitAndReap(old(View()), os);
        View() == o.child && calls == old(calls) + o.calls && r == o.result
    {
      match state
      case ChildReaped(status) => return Ok(status);
      case Lost(error) => return Err(error);
      case Unreaped(observed, failure) =>
        if failure.Some? {
          return Err(failure.value);
        }
        r := os.wait;
        calls := calls + [WaitCall(r.Ok?)];
        match r
        case Ok(status) =>
          state := ChildReaped(status);
          if observed.Some? && observed.value != FromExitStatus(status) {
            r := Err(InvalidData);
          }
        case Err(error) =>
          if error == Echild {
            state := Lost(OwnershipError);
            r := Err(OwnershipError);
          } else {
            state := Unreaped(observed, None);
          }
    }

    method SignalGroup(os: Os) returns (r: IoResult<SignalOutcome>)
      requires Valid()
      modifies `calls
      ensures Valid()
      ensures var o := Lifecycle.SignalGroup(old(View()), os);
        View() == o.child && calls == old(calls) + o.calls && r == o.result
    {
      match state
      case ChildReaped(_) => r := Ok(AlreadyReaped);
      case Lost(_) => r := Ok(OwnershipLost);
      case Unreaped(_, _) =>
        calls := calls + [KillCall];
        r := KillResult(os.kill);
    }
  }
}
