/** What the calls on the child mean: exits read back, remembered answers, and signals. */
module LifecycleLaws {
  import opened TerminalTypes
  import opened Lifecycle

  // ---- exits ----------------------------------------------------------

  /** How waitid reports the exit a wait would report: its code and its detail. */
  function ExitCode(status: ExitStatus): int {
    if status.code.Some? || status.signal.None? then 1 else if status.coreDumped then 3 else 2
  }

  function ExitDetail(status: ExitStatus): int {
    if status.code.Some? then status.code.value else if status.signal.Some? then status.signal.value else 0
  }

  /** Two reports of an exit, by waitid and by wait, are taken for the same exactly when they are of the same exit. */
  lemma ReportsAgreeExactly(pid: int, code: int, detail: int, status: ExitStatus)
    requires pid != 0
    ensures Classify(pid, code, detail) == Ok(Some(FromExitStatus(status)))
      <==> code == ExitCode(status) && detail == ExitDetail(status)
  {
  }

  /** Only a process id of zero means that nothing has happened, and only an unknown code is malformed. */
  lemma ClassifyExactly(pid: int, code: int, detail: int)
    ensures Classify(pid, code, detail) == Ok(None) <==> pid == 0
    ensures forall e :: Classify(pid, code, detail) == Err(e) <==> pid != 0 && !(1 <= code <= 3) && e == InvalidData
  {
  }

  /** While the PTY is open a wait answers what the system answers, once, and the status it was given from then on. */
  lemma LiveWaitsExactly(c: Child, os: Os, later: Os)
    requires c.Running?
    ensures var o, p := TryWait(c, os), Wait(c, os);
      if c.reaped.Some? then o == Outcome(c, [], Ok(c.reaped)) && p == Outcome(c, [], Ok(c.reaped.value))
      else
        && o.result == os.tryWait && p.result == os.wait
        && (os.tryWait.Ok? && os.tryWait.value.Some? ==> TryWait(o.child, later) == Outcome(o.child, [], os.tryWait))
        && (os.wait.Ok? ==> Wait(p.child, later) == Outcome(p.child, [], os.wait))
  {
  }

  // ---- what is remembered ---------------------------------------------

  /** A child nobody can wait for any more, or whose exit waitid reported in a form that makes no sense. */
  predicate Broken(c: Child) {
    c.Lost? || (c.Unreaped? && c.failure.Some?)
  }

  function Breakage(c: Child): ErrorKind
    requires Broken(c)
  {
    if c.Lost? then c.error else c.failure.value
  }

  /** From then on every call but a signal answers with that error and asks the system nothing. */
  lemma BrokenForGood(c: Child, os: Os)
    requires Broken(c)
    ensures PollExit(c, os) == Outcome(c, [], Err(Breakage(c)))
    ensures WaitAndReap(c, os) == Outcome(c, [], Err(Breakage(c)))
  {
  }

  /**
   * An exit that was seen is seen again without asking, and only an exit, a lost
   * child and a malformed answer are remembered.
   */
  lemma PollRemembers(c: Child, os: Os, later: Os)
    requires !c.Running?
    ensures var o := PollExit(c, os);
      && (o.result.Ok? && o.result.value.Some? ==> PollExit(o.child, later) == Outcome(o.child, [], o.result))
      && (o.result == Ok(None) ==> o.child == c && os.waitid.Waitid? && os.waitid.pid == 0)
      && (o.result.Err? ==>
            o.child == if Broken(c) then c
                       else if o.result == Err(OwnershipError) && os.waitid == WaitidFailed(Echild) then
                         Lost(OwnershipError)
                       else if o.result == Err(InvalidData) then Unreaped(None, Some(InvalidData))
                       else c)
  {
  }

  /** A reaped status is kept and handed out from then on, even one reported as contradicting what was seen. */
  lemma ReapRemembers(c: Child, os: Os, later: Os)
    requires c.Unreaped? && c.failure.None?
    ensures var o := WaitAndReap(c, os);
      && o.calls == [WaitCall(os.wait.Ok?)]
      && (os.wait.Ok? ==> o.child == ChildReaped(os.wait.value))
      && (os.wait.Ok? ==> WaitAndReap(o.child, later) == Outcome(o.child, [], os.wait))
      && (os.wait == Err(Echild) ==> o.child == Lost(OwnershipError) && o.result == Err(OwnershipError))
      && (os.wait.Err? && os.wait != Err(Echild) ==> o.child == c && o.result == os.wait)
  {
  }

  // ---- signals and handing the child over -----------------------------

  /** A child that can still be signalled: it is ours and has not been reaped. */
  predicate Signalable(c: Child) {
    match c
    case Running(reaped) => reaped.None?
    case Unreaped(_, _) => true
    case _ => false
  }

  /** One kill, whose answer is passed on, but a missing process group is no error; or none, with the reason. */
  lemma SignalsExactly(c: Child, os: Os)
    ensures var o := SignalGroup(c, os);
      && o.child == c && o.calls == (if Signalable(c) then [KillCall] else [])
      && (o.result == Ok(Sent) <==> Signalable(c) && os.kill.Ok?)
      && (o.result == Ok(GroupMissing) <==> Signalable(c) && os.kill == Err(Esrch))
      && (o.result == Ok(AlreadyReaped) <==> !Signalable(c) && !c.Lost?)
      && (o.result == Ok(OwnershipLost) <==> c.Lost?)
      && (forall e :: o.result == Err(e) <==> Signalable(c) && os.kill == Err(e) && e != Esrch)
  {
  }

  /** Closing hands over a reaped child as reaped and any other with nothing yet seen of it. */
  lemma HandsOver(c: Child, os: Os)
    requires c.Running?
    ensures IntoClosing(c) == match c.reaped case Some(status) => ChildReaped(status) case None => Unreaped(None, None)
    ensures SignalGroup(IntoClosing(c), os).result == SignalGroup(c, os).result
    ensures c.reaped.Some? ==> WaitAndReap(IntoClosing(c), os).result == Wait(c, os).result == Ok(c.reaped.value)
  {
  }
}
