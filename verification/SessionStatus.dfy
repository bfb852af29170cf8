/** What waits, signals and the shutdown of a session answer, and what they leave alone. */
module SessionStatus {
  import opened TerminalTypes
  import opened Lifecycle
  import opened LifecycleLaws
  import opened SessionSpec
  import opened SessionLaws
  import opened SessionRuns

  // ---- what a call on the child leaves alone --------------------------

  /** Only the child's side differs: its state, the status, the phase, and what was called and returned. */
  ghost predicate OnlyChild(a: State, r: State) {
    r == a.(
      child := r.child, exitStatus := r.exitStatus, phase := r.phase,
      past := a.past.(calls := r.past.calls, returned := r.past.returned))
  }

  lemma OnlyChildTwice(a: State, u: State, r: State)
    requires OnlyChild(a, u) && OnlyChild(u, r)
    ensures OnlyChild(a, r)
  {
  }

  lemma EachIsOnlyChild<T>(a: State, o: Outcome<T>, status: ExitStatus)
    ensures OnlyChild(a, a) && OnlyChild(a, Record(a, o)) && OnlyChild(a, Return(a, status))
    ensures OnlyChild(a, NoteExit(a, status)) && OnlyChild(a, FinishReap(a, status))
  {
  }

  lemma ReapIsOnlyChild<T>(a: State, o: Outcome<T>, status: ExitStatus)
    ensures OnlyChild(a, Return(NoteExit(Record(a, o), status), status))
    ensures OnlyChild(a, FinishReap(Record(a, o), status))
  {
    hide *;
    EachIsOnlyChild(a, o, status);
    EachIsOnlyChild(Record(a, o), o, status);
    EachIsOnlyChild(NoteExit(Record(a, o), status), o, status);
    OnlyChildTwice(a, Record(a, o), NoteExit(Record(a, o), status));
    OnlyChildTwice(a, NoteExit(Record(a, o), status), Return(NoteExit(Record(a, o), status), status));
    OnlyChildTwice(a, Record(a, o), FinishReap(Record(a, o), status));
  }

  lemma WaitTouchesOnlyTheChild(a: State, os: Os)
    ensures OnlyChild(a, WaitSession(a, os).0)
  {
    hide OnlyChild, Record, Return, NoteExit, FinishReap, Wait, WaitAndReap;
    var none := ExitStatus(None, None, false);
    if a.exitStatus.Some? {
      EachIsOnlyChild(a, Outcome(a.child, [], Ok(none)), a.exitStatus.value);
    } else {
      var o := if a.child.Running? then Wait(a.child, os) else WaitAndReap(a.child, os);
      EachIsOnlyChild(a, o, none);
      ReapIsOnlyChild(a, o, if o.result.Ok? then o.result.value else none);
    }
  }

  lemma LiveTryWaitTouchesOnlyTheChild(a: State, os: Os)
    requires a.exitStatus.Some? || a.child.Running?
    ensures OnlyChild(a, TryWaitSession(a, os).0)
  {
    hide OnlyChild, Record, Return, NoteExit, FinishReap, TryWait, PollExit, WaitAndReap;
    var none := ExitStatus(None, None, false);
    if a.exitStatus.Some? {
      EachIsOnlyChild(a, Outcome(a.child, [], Ok(none)), a.exitStatus.value);
    } else {
      var o := TryWait(a.child, os);
      EachIsOnlyChild(a, o, none);
      ReapIsOnlyChild(a, o, if o.result.Ok? && o.result.value.Some? then o.result.value.value else none);
    }
  }

  lemma ClosingTryWaitTouchesOnlyTheChild(a: State, os: Os)
    requires a.exitStatus.None? && !a.child.Running?
    ensures OnlyChild(a, TryWaitSession(a, os).0)
  {
    hide OnlyChild, Record, Return, NoteExit, FinishReap, TryWait, PollExit, WaitAndReap;
    var none := ExitStatus(None, None, false);
    CallsAreLawful(a.child, os);
    var p := PollExit(a.child, os);
    EachIsOnlyChild(a, p, none);
    if p.result.Ok? && p.result.value.Some? {
      var o := WaitAndReap(p.child, os);
      var u := Record(a, p);
      var status := if o.result.Ok? then o.result.value else none;
      EachIsOnlyChild(u, o, none);
      ReapIsOnlyChild(u, o, status);
      OnlyChildTwice(a, u, Record(u, o));
      OnlyChildTwice(a, u, FinishReap(Record(u, o), status));
    }
  }

  /** Waiting and signalling touch no byte, flag or counter of the session. */
  lemma CallsTouchOnlyTheChild(a: State, os: Os)
    ensures OnlyChild(a, WaitSession(a, os).0) && OnlyChild(a, TryWaitSession(a, os).0)
    ensures OnlyChild(a, Signal(a, os).0)
  {
    hide WaitSession, TryWaitSession;
    WaitTouchesOnlyTheChild(a, os);
    if a.exitStatus.Some? || a.child.Running? {
      LiveTryWaitTouchesOnlyTheChild(a, os);
    } else {
      ClosingTryWaitTouchesOnlyTheChild(a, os);
    }
  }

  // ---- what a wait answers --------------------------------------------

  /** The statuses a wait hands out: one or none. */
  function Given(answer: IoResult<Option<ExitStatus>>): seq<ExitStatus> {
    match answer
    case Ok(Some(status)) => [status]
    case _ => []
  }

  /** A blocking wait answers with the status or an error, never with nothing. */
  function Optional(answer: IoResult<ExitStatus>): IoResult<Option<ExitStatus>> {
    match answer
    case Ok(status) => Ok(Some(status))
    case Err(error) => Err(error)
  }

  /**
   * A wait that reports no error answers with the status the child holds
   * afterwards, or with none if it holds none, and the session holds the same.
   */
  ghost predicate Truthful(a: State, r: State, answer: IoResult<Option<ExitStatus>>) {
    && (forall s :: answer == Ok(Some(s)) <==> answer.Ok? && HeldStatus(r.child) == Some(s))
    && (answer.Ok? ==> r.exitStatus == HeldStatus(r.child))
    && (answer.Err? ==> r.exitStatus.None?)
    && r.past.returned == a.past.returned + Given(answer)
  }

  lemma ChildAnswers(c: Child, os: Os)
    ensures c.Running? ==>
      var o, p := TryWait(c, os), Wait(c, os);
      && (o.result.Ok? ==> HeldStatus(o.child) == o.result.value)
      && (p.result.Ok? ==> HeldStatus(p.child) == Some(p.result.value))
    ensures !c.Running? ==>
      var o, p := PollExit(c, os), WaitAndReap(c, os);
      && (o.result == Ok(None) ==> HeldStatus(o.child).None?)
      && (p.result.Ok? ==> HeldStatus(p.child) == Some(p.result.value))
  {
  }

  lemma FromTheCache(a: State)
    requires a.exitStatus.Some? && HeldStatus(a.child) == a.exitStatus
    ensures Truthful(a, Return(a, a.exitStatus.value), Ok(a.exitStatus))
  {
  }

  lemma NothingGiven<T>(a: State, u: State, o: Outcome<T>, answer: IoResult<Option<ExitStatus>>)
    requires a.exitStatus.None? && u.exitStatus.None? && u.past.returned == a.past.returned
    requires Given(answer) == [] && (answer.Ok? ==> HeldStatus(o.child).None?)
    ensures Truthful(a, Record(u, o), answer)
  {
    assert a.past.returned + [] == a.past.returned;
  }

  lemma StatusGiven<T>(a: State, u: State, o: Outcome<T>, status: ExitStatus)
    requires u.past.returned == a.past.returned && HeldStatus(o.child) == Some(status)
    ensures Truthful(a, Return(NoteExit(Record(u, o), status), status), Ok(Some(status)))
    ensures Truthful(a, FinishReap(Record(u, o), status), Ok(Some(status)))
  {
  }

  lemma LiveTryWaitAnswers(a: State, os: Os)
    requires a.exitStatus.None? && a.child.Running?
    ensures Truthful(a, TryWaitSession(a, os).0, TryWaitSession(a, os).1)
  {
    hide Truthful, TryWait, Record, Return, NoteExit;
    ChildAnswers(a.child, os);
    var o := TryWait(a.child, os);
    match o.result
    case Ok(Some(status)) => StatusGiven(a, a, o, status);
    case _ => NothingGiven(a, a, o, o.result);
  }

  lemma ClosingTryWaitAnswers(a: State, os: Os)
    requires a.exitStatus.None? && !a.child.Running?
    ensures Truthful(a, TryWaitSession(a, os).0, TryWaitSession(a, os).1)
  {
    hide Truthful, PollExit, WaitAndReap, Return, FinishReap;
    ChildAnswers(a.child, os);
    CallsAreLawful(a.child, os);
    var p := PollExit(a.child, os);
    match p.result
    case Err(error) => NothingGiven(a, a, p, Err(error));
    case Ok(None) => NothingGiven(a, a, p, Ok(None));
    case Ok(Some(_)) =>
      ChildAnswers(p.child, os);
      var o, u := WaitAndReap(p.child, os), Record(a, p);
      match o.result
      case Ok(status) => StatusGiven(a, u, o, status);
      case Err(error) => NothingGiven(a, u, o, Err(error));
  }

  lemma TryWaitAnswers(w: World, a: State, os: Os)
    requires Inv(w, a)
    ensures Truthful(a, TryWaitSession(a, os).0, TryWaitSession(a, os).1)
  {
    hide Truthful;
    assert ChildOk(a);
    if a.exitStatus.Some? {
      FromTheCache(a);
    } else if a.child.Running? {
      LiveTryWaitAnswers(a, os);
    } else {
      ClosingTryWaitAnswers(a, os);
    }
  }

  lemma WaitAnswers(w: World, a: State, os: Os)
    requires Inv(w, a)
    ensures Truthful(a, WaitSession(a, os).0, Optional(WaitSession(a, os).1))
  {
    hide Truthful, Wait, WaitAndReap, Return, NoteExit, FinishReap;
    assert ChildOk(a);
    if a.exitStatus.Some? {
      FromTheCache(a);
    } else {
      ChildAnswers(a.child, os);
      var o := if a.child.Running? then Wait(a.child, os) else WaitAndReap(a.child, os);
      match o.result
      case Ok(status) => StatusGiven(a, a, o, status);
      case Err(error) => NothingGiven(a, a, o, Err(error));
    }
  }

  // ---- answers over runs ----------------------------------------------

  /** The statuses one call hands out. */
  function HandedBy(a: State, op: Op): seq<ExitStatus> {
    match op
    case OpTryWait(os) => Given(TryWaitSession(a, os).1)
    case OpWait(os) => Given(Optional(WaitSession(a, os).1))
    case _ => []
  }

  function Handed(w: World, a: State, ops: seq<Op>): seq<ExitStatus>
    decreases |ops|
  {
    if ops == [] then [] else HandedBy(a, ops[0]) + Handed(w, Step(w, a, ops[0]), ops[1..])
  }

  /** The status and what was returned, which only waits change. */
  ghost predicate Holds(s: State, status: Option<ExitStatus>, returned: seq<ExitStatus>) {
    s.exitStatus == status && s.past.returned == returned
  }

  lemma HoldsIsTransferClosed(w: World, status: Option<ExitStatus>, returned: seq<ExitStatus>)
    ensures TransferClosed(w, s => Holds(s, status, returned))
  {
    hide Replies;
  }

  lemma HoldsIsClosed(w: World, status: Option<ExitStatus>, returned: seq<ExitStatus>)
    ensures StepClosed(w, s => Holds(s, status, returned))
  {
    hide TransferClosed;
    var p: State -> bool := s => Holds(s, status, returned);
    assert CountClosed(p);
    assert PumpClosed(p);
    assert HangupClosed(p);
    HoldsIsTransferClosed(w, status, returned);
  }

  lemma PumpHandsNothing(w: World, a: State, b: Budget)
    ensures Holds(Pump(w, a, b).state, a.exitStatus, a.past.returned)
  {
    var status, returned := a.exitStatus, a.past.returned;
    HoldsIsClosed(w, status, returned);
    PumpSteps(w, s => Holds(s, status, returned), a, b);
  }

  lemma WaitsHand(w: World, a: State, os: Os)
    requires Inv(w, a)
    ensures var r := TryWaitSession(a, os);
      && r.0.past.returned == a.past.returned + Given(r.1)
      && (a.exitStatus.Some? ==> r.0.exitStatus == a.exitStatus)
    ensures var r := WaitSession(a, os);
      && r.0.past.returned == a.past.returned + Given(Optional(r.1))
      && (a.exitStatus.Some? ==> r.0.exitStatus == a.exitStatus)
  {
    hide Inv, WaitSession, TryWaitSession;
    TryWaitAnswers(w, a, os);
    WaitAnswers(w, a, os);
    if a.exitStatus.Some? {
      HeldIsAnswered(w, a, os);
    }
  }

  lemma StepHands(w: World, a: State, op: Op)
    requires Inv(w, a)
    ensures var r := Step(w, a, op);
      r.past.returned == a.past.returned + HandedBy(a, op) && (a.exitStatus.Some? ==> r.exitStatus == a.exitStatus)
  {
    hide Inv, Pump, WaitSession, TryWaitSession;
    assert a.past.returned + [] == a.past.returned;
    match op
    case OpPump(budget) => PumpHandsNothing(w, a, budget);
    case OpTryWait(os) => WaitsHand(w, a, os);
    case OpWait(os) => WaitsHand(w, a, os);
    case _ =>
  }

  /** Every status a run hands out is on record, in order, and nothing else is. */
  lemma {:induction false} RunHands(w: World, a: State, ops: seq<Op>)
    requires Inv(w, a)
    ensures Run(w, a, ops).past.returned == a.past.returned + Handed(w, a, ops)
    ensures a.exitStatus.Some? ==> Run(w, a, ops).exitStatus == a.exitStatus
    decreases |ops|
  {
    hide Inv, Step;
    if ops == [] {
      assert a.past.returned + [] == a.past.returned;
    } else {
      StepKeeps(w, a, ops[0]);
      StepHands(w, a, ops[0]);
      RunHands(w, Step(w, a, ops[0]), ops[1..]);
      Associate(a.past.returned, HandedBy(a, ops[0]), Handed(w, Step(w, a, ops[0]), ops[1..]));
    }
  }

  /** A held status is what every call on the child answers with, and none of them asks the system. */
  lemma HeldIsAnswered(w: World, a: State, os: Os)
    requires Inv(w, a) && a.exitStatus.Some?
    ensures TryWaitSession(a, os).1 == Ok(a.exitStatus) && WaitSession(a, os).1 == Ok(a.exitStatus.value)
    ensures TryWaitSession(a, os).0.exitStatus == WaitSession(a, os).0.exitStatus == a.exitStatus
    ensures Signal(a, os).1 == Ok(AlreadyReaped) && Shutdown(a, os) == (a.past.calls, Ok(a.exitStatus.value))
    ensures TryWaitSession(a, os).0.past.calls == WaitSession(a, os).0.past.calls == a.past.calls
    ensures Signal(a, os).0.past.calls == a.past.calls
  {
    assert ChildOk(a);
    assert a.past.calls + [] == a.past.calls;
  }

  /**
   * Once a wait has answered with a status, every later wait of any run answers
   * with that status, a signal finds the child reaped, and shutting down asks
   * the system nothing.
   */
  lemma StatusIsAnsweredForGood(w: World, ops: seq<Op>, first: Os, later: seq<Op>, os: Os, status: ExitStatus)
    requires var a := Run(w, START, ops);
      TryWaitSession(a, first).1 == Ok(Some(status)) || WaitSession(a, first).1 == Ok(status)
    ensures var a := Run(w, START, ops);
      && (TryWaitSession(a, first).1 == Ok(Some(status)) ==>
            AnswersWith(Run(w, TryWaitSession(a, first).0, later), os, status))
      && (WaitSession(a, first).1 == Ok(status) ==>
            AnswersWith(Run(w, WaitSession(a, first).0, later), os, status))
  {
    hide Run, Inv, TryWaitSession, WaitSession, Shutdown, Signal;
    StartHolds(w);
    RunKeeps(w, START, ops);
    var a := Run(w, START, ops);
    TryWaitAnswers(w, a, first);
    WaitAnswers(w, a, first);
    TryWaitSessionKeeps(w, a, first);
    WaitSessionKeeps(w, a, first);
    forall b | (b == TryWaitSession(a, first).0 || b == WaitSession(a, first).0) && b.exitStatus == Some(status)
      ensures AnswersWith(Run(w, b, later), os, status)
    {
      RunHands(w, b, later);
      RunKeeps(w, b, later);
      HeldIsAnswered(w, Run(w, b, later), os);
    }
  }

  predicate AnswersWith(a: State, os: Os, status: ExitStatus) {
    && TryWaitSession(a, os).1 == Ok(Some(status)) && WaitSession(a, os).1 == Ok(status)
    && Signal(a, os).1 == Ok(AlreadyReaped) && Shutdown(a, os) == (a.past.calls, Ok(status))
  }

  /** What the waits of a run hand out is what its history says was returned. */
  lemma ReturnedIsHanded(w: World, ops: seq<Op>)
    ensures Run(w, START, ops).past.returned == Handed(w, START, ops)
  {
    hide Run, Handed;
    StartHolds(w);
    RunHands(w, START, ops);
    assert [] + Handed(w, START, ops) == Handed(w, START, ops);
  }

  // ---- the system's answers -------------------------------------------

  /** While the PTY is open and the child not reaped, a wait answers what the system answers. */
  lemma LiveAnswersAreTheSystems(a: State, os: Os)
    requires a.exitStatus.None? && a.child == Running(None)
    ensures var r, s := TryWaitSession(a, os), WaitSession(a, os);
      && r.1 == os.tryWait && r.0.past.calls == a.past.calls + [WaitCall(Given(os.tryWait) != [])]
      && s.1 == os.wait && s.0.past.calls == a.past.calls + [WaitCall(os.wait.Ok?)]
  {
  }

  /** What the first poll of a closed session makes of waitid's report and, if that is an exit, of the reap. */
  function Verdict(os: Os): IoResult<Option<ExitStatus>> {
    match os.waitid
    case WaitidFailed(error) => Err(if error == Echild then OwnershipError else error)
    case Waitid(pid, code, detail) =>
      if pid == 0 then Ok(None)
      else if !(1 <= code <= 3) then Err(InvalidData)
      else match os.wait
        case Err(error) => Err(if error == Echild then OwnershipError else error)
        case Ok(status) =>
          if code == ExitCode(status) && detail == ExitDetail(status) then Ok(Some(status)) else Err(InvalidData)
  }

  lemma ClosedAnswersAreTheSystems(a: State, os: Os)
    requires a.exitStatus.None? && a.child == Unreaped(None, None)
    ensures TryWaitSession(a, os).1 == Verdict(os)
    ensures WaitSession(a, os).1 == if os.wait == Err(Echild) then Err(OwnershipError) else os.wait
  {
    if os.waitid.Waitid? && os.waitid.pid != 0 && os.wait.Ok? {
      ReportsAgreeExactly(os.waitid.pid, os.waitid.code, os.waitid.status, os.wait.value);
    }
  }

  lemma ContradictionReaps(a: State, os: Os)
    requires a.exitStatus.None? && a.child == Unreaped(None, None)
    requires os.wait.Ok? && os.waitid.Waitid? && os.waitid.pid != 0 && 1 <= os.waitid.code <= 3
    requires Verdict(os) == Err(InvalidData)
    ensures var r := TryWaitSession(a, os).0; r.exitStatus.None? && r.child == ChildReaped(os.wait.value)
  {
    ReportsAgreeExactly(os.waitid.pid, os.waitid.code, os.waitid.status, os.wait.value);
  }

  lemma ReapedAnswers(a: State, os: Os, status: ExitStatus)
    requires a.exitStatus.None? && a.child == ChildReaped(status)
    ensures TryWaitSession(a, os).1 == Ok(Some(status)) && WaitSession(a, os).1 == Ok(status)
    ensures TryWaitSession(a, os).0.past.calls == a.past.calls
  {
    assert a.past.calls + [] == a.past.calls;
  }

  /** A status reported as contradicting the exit that was seen is not lost: the next wait hands it out. */
  lemma ContradictionIsReportedOnce(a: State, os: Os, later: Os)
    requires a.exitStatus.None? && a.child == Unreaped(None, None)
    requires os.wait.Ok? && os.waitid.Waitid? && os.waitid.pid != 0 && 1 <= os.waitid.code <= 3
    requires Verdict(os) == Err(InvalidData)
    ensures var r := TryWaitSession(a, os).0;
      && TryWaitSession(r, later).1 == Ok(Some(os.wait.value)) && WaitSession(r, later).1 == os.wait
      && TryWaitSession(r, later).0.past.calls == r.past.calls
  {
    hide TryWaitSession, WaitSession, Verdict;
    ContradictionReaps(a, os);
    ReapedAnswers(TryWaitSession(a, os).0, later, os.wait.value);
  }

  /** A signal is one kill, and its answer is the system's, while the child is ours and unreaped. */
  lemma SignalAnswers(a: State, os: Os)
    ensures var r := Signal(a, os);
      && r.0 == a.(past := a.past.(calls := a.past.calls + if Signalable(a.child) then [KillCall] else []))
      && (r.1 == Ok(Sent) <==> Signalable(a.child) && os.kill.Ok?)
      && (r.1 == Ok(GroupMissing) <==> Signalable(a.child) && os.kill == Err(Esrch))
      && (forall e :: r.1 == Err(e) <==> Signalable(a.child) && os.kill == Err(e) && e != Esrch)
  {
    hide SignalGroup;
    SignalsExactly(a.child, os);
  }

  /** A session with an unreaped child is shut down with one kill and one wait, which decides the answer. */
  lemma ShutdownKillsAndReaps(a: State, os: Os)
    requires a.exitStatus.None? && (a.child == Running(None) || a.child == Unreaped(None, None))
    ensures var r := Shutdown(a, os);
      && r.0 == a.past.calls + [KillCall] + [WaitCall(os.wait.Ok?)]
      && r.1 == if os.wait == Err(Echild) then Err(OwnershipError) else os.wait
  {
  }
}
