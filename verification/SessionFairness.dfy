/** Both directions of a session get their turn: none with work is passed over for two pumps. */
module SessionFairness {
  import opened TerminalTypes
  import opened SessionSpec
  import opened SessionLaws
  import opened SessionRuns
  import opened SessionBudget

  /** What has been done in a direction: calls made, and bytes decoded, which count as reading. */
  function Effort(a: State, d: Direction): nat {
    match d
    case Writing => a.counters.writeSyscalls
    case Reading => a.counters.readSyscalls + a.counters.processed
  }

  ghost predicate AtLeast(s: State, d: Direction, n: nat) {
    Effort(s, d) >= n
  }

  lemma EffortIsTransferClosed(w: World, d: Direction, n: nat)
    ensures TransferClosed(w, s => AtLeast(s, d, n))
  {
    hide Replies;
  }

  lemma EffortIsClosed(w: World, d: Direction, n: nat)
    ensures StepClosed(w, s => AtLeast(s, d, n))
  {
    hide TransferClosed;
    var p: State -> bool := s => AtLeast(s, d, n);
    assert CountClosed(p);
    assert PumpClosed(p);
    assert HangupClosed(p);
    EffortIsTransferClosed(w, d, n);
  }

  lemma PhaseOnlyAdds(w: World, a: State, b: Budget, d: Direction, of: Direction)
    ensures Effort(RunPhase(w, a, b, d).state, of) >= Effort(a, of)
  {
    hide RunPhase;
    var n := Effort(a, of);
    EffortIsClosed(w, of, n);
    PhaseSteps(w, s => AtLeast(s, of, n), a, b, d);
  }

  lemma TurnsOnlyAdd(w: World, a: State, b: Budget, d: Direction, turns: nat, of: Direction)
    ensures Effort(Turns(w, a, b, d, turns).state, of) >= Effort(a, of)
  {
    hide Turns;
    var n := Effort(a, of);
    EffortIsClosed(w, of, n);
    TurnSteps(w, s => AtLeast(s, of, n), a, b, d, turns);
  }

  // ---- a phase with work does some ------------------------------------

  lemma WritesServe(w: World, a: State, b: Budget, moved: bool)
    requires CanWrite(a, b)
    ensures Effort(WriteLoop(w, a, b, moved).state, Writing) > Effort(a, Writing)
  {
    var o, n := WriteOnce(w, a, b), Effort(a, Writing) + 1;
    assert Effort(o.state, Writing) == n;
    EffortIsClosed(w, Writing, n);
    if o.again {
      WriteSteps(w, s => AtLeast(s, Writing, n), o.state, o.budget, true);
    }
  }

  lemma DecodeServes(w: World, a: State, b: Budget)
    requires CanDecode(a, b)
    ensures Effort(ReadPhase(w, a, b).state, Reading) > Effort(a, Reading)
  {
    hide ReadLoop;
    var n := Effort(a, Reading) + 1;
    var p: State -> bool := s => AtLeast(s, Reading, n);
    EffortIsClosed(w, Reading, n);
    DecodeSteps(w, p, DecodeByte(w, a), Consume(b, 1, 0));
    var r := Decode(w, DecodeByte(w, a), Consume(b, 1, 0));
    assert Decode(w, a, b) == r;
    ReadSteps(w, p, r.0, r.1, r.0.counters.processed > a.counters.processed);
  }

  lemma ReadsServe(w: World, a: State, b: Budget)
    requires CanRead(a, b) && a.inbox == []
    ensures Effort(ReadPhase(w, a, b).state, Reading) > Effort(a, Reading)
  {
    assert Decode(w, a, b) == (a, b);
    hide Decode;
    var n := Effort(a, Reading) + 1;
    var p: State -> bool := s => AtLeast(s, Reading, n);
    EffortIsClosed(w, Reading, n);
    OneReadServes(w, a, b);
    var o := ReadOnce(w, a, b);
    if o.again {
      ReadStepLeavesNothing(w, a, b);
      ReadSteps(w, p, o.state, o.budget, true);
    }
  }

  lemma OneReadServes(w: World, a: State, b: Budget)
    requires CanRead(a, b)
    ensures Effort(ReadOnce(w, a, b).state, Reading) > Effort(a, Reading)
  {
    hide Decode;
    var n := Effort(a, Reading) + 1;
    var cap := Min(b.bytes, READ_BUFFER_LIMIT - |a.inbox|);
    if w.kernel(NextSyscall(a)).read.Data? {
      var bytes := Got(w.kernel(NextSyscall(a)).read, cap);
      EffortIsClosed(w, Reading, n);
      DecodeSteps(w, s => AtLeast(s, Reading, n), Receive(CountRead(a, cap), bytes),
        Consume(Consume(b, 0, 1), |bytes|, 0));
    }
  }

  lemma ReadStepLeavesNothing(w: World, a: State, b: Budget)
    requires CanRead(a, b) && a.inbox == []
    ensures var o := ReadOnce(w, a, b); o.again ==> !CanDecode(o.state, o.budget)
  {
    var p: State -> bool := s => AtLeast(s, Reading, 0);
    EffortIsClosed(w, Reading, 0);
    ReadStep(w, p, a, b);
  }

  lemma PhaseServes(w: World, a: State, b: Budget, d: Direction)
    requires Inv(w, a) && !Over(a) && HasWork(a, d) && !Exhausted(b)
    ensures Effort(RunPhase(w, a, b, d).state, d) > Effort(a, d)
  {
    hide WriteLoop, ReadPhase, Fifo, Accounted;
    assert PhaseOk(a);
    if d == Writing {
      WritesServe(w, a, b, false);
    } else if CanDecode(a, b) {
      DecodeServes(w, a, b);
    } else {
      ReadsServe(w, a, b);
    }
  }

  // ---- one pump and the next ------------------------------------------

  /** A pump that begins with a direction that has work serves it. */
  lemma FirstIsServed(w: World, a: State, b: Budget)
    requires Inv(w, a) && !Over(a) && HasWork(a, a.direction) && !Exhausted(b)
    ensures Effort(Pump(w, a, b).state, a.direction) > Effort(a, a.direction)
  {
    hide RunPhase, Inv;
    var c := BeginPump(a);
    BeginKeeps(w, a);
    assert HasWork(c, a.direction);
    PhaseServes(w, c, b, a.direction);
    var t := TurnOnce(w, c, b, a.direction);
    if t.again {
      TurnsOnlyAdd(w, t.state, t.budget, t.next, 1, a.direction);
    }
  }

  /** A new session that has been given input writes before it reads. */
  lemma NewSessionWritesFirst(w: World, bytes: seq<u8>, n: nat)
    requires bytes != [] && n > 0
    ensures var r := Pump(w, Enqueue(START, bytes).0, Budget(n, 1)).state;
      r.counters.writeSyscalls == 1 && r.counters.readSyscalls == 0
  {
    hide Pump, Inv;
    var a := Enqueue(START, bytes).0;
    StartHolds(w);
    EnqueueKeeps(w, START, bytes);
    FirstIsServed(w, a, Budget(n, 1));
    PumpSpendsWhatItMoves(w, a, Budget(n, 1));
  }

  /** A pump without an error serves a direction that has work, or leaves it no work, or begins the next with it. */
  lemma SecondIsNext(w: World, a: State, b: Budget, d: Direction)
    requires Inv(w, a) && !Over(a) && HasWork(a, d) && !Exhausted(b) && Pump(w, a, b).error.None?
    ensures var r := Pump(w, a, b).state;
      Effort(r, d) > Effort(a, d) || !HasWork(r, d) || Over(r) || r.direction == d
  {
    hide RunPhase, Inv;
    if HasWork(a, a.direction) && a.direction == d {
      FirstIsServed(w, a, b);
    } else {
      var c, d1 := BeginPump(a), if HasWork(a, a.direction) then a.direction else Opposite(a.direction);
      BeginKeeps(w, a);
      assert HasWork(c, d1) && HasWork(c, a.direction) == HasWork(a, a.direction);
      var t := TurnOnce(w, c, b, a.direction);
      PhaseOnlyAdds(w, c, b, d1, d);
      if d1 == d {
        PhaseServes(w, c, b, d);
        TurnsOnlyAdd(w, t.state, t.budget, t.next, 1, d);
      } else if t.again && !Exhausted(t.budget) {
        TurnKeeps(w, c, b, a.direction);
        SecondTurnServes(w, t.state, t.budget, d);
      } else {
        assert t.again ==> Turns(w, t.state, t.budget, t.next, 1) == Turn(t.state, t.budget, d, false, None);
      }
    }
  }

  lemma TurnKeeps(w: World, a: State, b: Budget, d: Direction)
    requires Inv(w, a)
    ensures Inv(w, TurnOnce(w, a, b, d).state)
  {
    hide Inv, TurnOnce;
    InvIsCountClosed(w);
    InvIsPumpClosed(w);
    InvIsTransferClosed(w);
    InvIsHangupClosed(w);
    TurnStep(w, s => Inv(w, s), a, b, d);
  }

  lemma OverIsClosed(w: World)
    ensures StepClosed(w, s => Over(s))
  {
    hide Replies;
    var p: State -> bool := s => Over(s);
    assert CountClosed(p);
    assert PumpClosed(p);
    assert TransferClosed(w, p);
    assert HangupClosed(p);
  }

  lemma SecondTurnServes(w: World, a: State, b: Budget, d: Direction)
    requires Inv(w, a) && HasWork(a, d) && !Exhausted(b)
    ensures var t := Turns(w, a, b, d, 1); Over(t.state) || Effort(t.state, d) > Effort(a, d)
  {
    hide RunPhase, Inv;
    if Over(a) {
      OverIsClosed(w);
      TurnSteps(w, s => Over(s), a, b, d, 1);
    } else {
      PhaseServes(w, a, b, d);
      var t := TurnOnce(w, a, b, d);
      TurnsOnlyAdd(w, t.state, t.budget, t.next, 0, d);
    }
  }

  /**
   * Of two pumps with budgets, the first without an error, one serves a direction
   * that has work at the start, unless the first leaves it none or ends the session.
   */
  lemma NobodyStarves(w: World, ops: seq<Op>, b1: Budget, b2: Budget, d: Direction)
    requires !Over(Run(w, START, ops)) && HasWork(Run(w, START, ops), d)
    requires !Exhausted(b1) && !Exhausted(b2) && Pump(w, Run(w, START, ops), b1).error.None?
    ensures var a := Run(w, START, ops);
      var r := Pump(w, a, b1).state;
      || Effort(r, d) > Effort(a, d) || !HasWork(r, d) || Over(r)
      || Effort(Pump(w, r, b2).state, d) > Effort(r, d)
  {
    hide Run, Pump, Inv, HasWork;
    StartHolds(w);
    RunKeeps(w, START, ops);
    var a := Run(w, START, ops);
    SecondIsNext(w, a, b1, d);
    PumpKeeps(w, a, b1);
    var r := Pump(w, a, b1).state;
    if !Over(r) && HasWork(r, d) && r.direction == d {
      FirstIsServed(w, r, b2);
    }
  }

  // ---- where the next pump begins -------------------------------------

  /** Bytes written, or bytes read or decoded. */
  function Traffic(a: State, d: Direction): nat {
    match d
    case Writing => |a.past.wire|
    case Reading => |a.past.received| + a.counters.processed
  }

  /** A phase is recorded in its own direction alone. */
  predicate InLane(a: State, r: State, d: Direction) {
    && Effort(r, Opposite(d)) == Effort(a, Opposite(d)) && Traffic(r, Opposite(d)) == Traffic(a, Opposite(d))
    && Effort(r, d) >= Effort(a, d) && Traffic(r, d) >= Traffic(a, d)
  }

  lemma SendMoves(a: State, n: nat)
    requires n <= |a.queue|
    ensures InLane(a, Send(a, n), Writing) && Traffic(Send(a, n), Writing) == Traffic(a, Writing) + n
  {
    hide Replies;
  }

  lemma WriteOnceMoves(w: World, a: State, b: Budget)
    requires CanWrite(a, b)
    ensures var o := WriteOnce(w, a, b);
      InLane(a, o.state, Writing) && (o.again <==> Traffic(o.state, Writing) > Traffic(a, Writing))
  {
    hide Send;
    if w.kernel(NextSyscall(a)).write.Wrote? {
      var cap := Min(b.bytes, |a.queue|);
      SendMoves(CountWrite(a, cap), Min(w.kernel(NextSyscall(a)).write.n, cap));
    }
  }

  lemma {:induction false} WritesMove(w: World, a: State, b: Budget, moved: bool)
    ensures var p := WriteLoop(w, a, b, moved);
      && InLane(a, p.state, Writing)
      && (p.moved <==> moved || Traffic(p.state, Writing) > Traffic(a, Writing))
    decreases b.syscalls
  {
    hide WriteOnce;
    if CanWrite(a, b) {
      WriteOnceMoves(w, a, b);
      var o := WriteOnce(w, a, b);
      if o.again {
        WritesMove(w, o.state, o.budget, true);
      }
    }
  }

  lemma {:induction false} DecodeMoves(w: World, a: State, b: Budget)
    ensures var r := Decode(w, a, b).0;
      InLane(a, r, Reading) && r.past.received == a.past.received && r.counters.processed >= a.counters.processed
    decreases b.bytes
  {
    if CanDecode(a, b) {
      DecodeMoves(w, DecodeByte(w, a), Consume(b, 1, 0));
    }
  }

  lemma ReadOnceMoves(w: World, a: State, b: Budget)
    requires CanRead(a, b)
    ensures var o := ReadOnce(w, a, b);
      InLane(a, o.state, Reading) && (o.again <==> Traffic(o.state, Reading) > Traffic(a, Reading))
  {
    hide Decode;
    if w.kernel(NextSyscall(a)).read.Data? {
      var cap := Min(b.bytes, READ_BUFFER_LIMIT - |a.inbox|);
      var bytes := Got(w.kernel(NextSyscall(a)).read, cap);
      DecodeMoves(w, Receive(CountRead(a, cap), bytes), Consume(Consume(b, 0, 1), |bytes|, 0));
    }
  }

  lemma {:induction false} ReadsMove(w: World, a: State, b: Budget, moved: bool)
    ensures var p := ReadLoop(w, a, b, moved);
      && InLane(a, p.state, Reading)
      && (p.moved <==> moved || Traffic(p.state, Reading) > Traffic(a, Reading))
    decreases b.syscalls
  {
    hide ReadOnce;
    if CanRead(a, b) {
      ReadOnceMoves(w, a, b);
      var o := ReadOnce(w, a, b);
      if o.again {
        ReadsMove(w, o.state, o.budget, true);
      }
    }
  }

  lemma PhaseMoves(w: World, a: State, b: Budget, d: Direction)
    ensures var p := RunPhase(w, a, b, d);
      InLane(a, p.state, d) && (p.moved <==> Traffic(p.state, d) > Traffic(a, d))
  {
    hide WriteLoop, ReadLoop, Decode;
    if d == Writing {
      WritesMove(w, a, b, false);
    } else {
      DecodeMoves(w, a, b);
      var r := Decode(w, a, b);
      ReadsMove(w, r.0, r.1, r.0.counters.processed > a.counters.processed);
    }
  }

  /** The direction a pump serves last. */
  function Last(a: State, r: State): Direction {
    var first := if HasWork(a, a.direction) then a.direction else Opposite(a.direction);
    if Effort(r, Opposite(first)) > Effort(a, Opposite(first)) then Opposite(first) else first
  }

  /** Where the next pump begins, after one that served `last` last. */
  predicate GoesOn(a: State, r: State, last: Direction) {
    r.direction
      == if Traffic(r, last) > Traffic(a, last) || HasWork(r, Opposite(last)) then Opposite(last) else last
  }

  /**
   * The next pump begins with the direction not served last if bytes moved in
   * the one served last or the other has work, and else with the same again.
   */
  lemma NextBegins(w: World, ops: seq<Op>, b: Budget)
    requires var a := Run(w, START, ops);
      !Exhausted(b) && !Over(a) && (HasWork(a, Reading) || HasWork(a, Writing))
    requires var r := Pump(w, Run(w, START, ops), b); r.error.None? && !Over(r.state)
    ensures var a := Run(w, START, ops);
      var r := Pump(w, a, b).state;
      GoesOn(a, r, Last(a, r))
  {
    hide Run, RunPhase, Inv, Traffic, Effort;
    StartHolds(w);
    RunKeeps(w, START, ops);
    var a := Run(w, START, ops);
    var c := BeginPump(a);
    var d := if HasWork(a, a.direction) then a.direction else Opposite(a.direction);
    BeginKeeps(w, a);
    assert HasWork(c, d) && HasWork(c, a.direction) == HasWork(a, a.direction);
    PhaseMoves(w, c, b, d);
    BeginMovesNothing(a);
    var t := TurnOnce(w, c, b, a.direction);
    if t.again && !Exhausted(t.budget) {
      SecondPhaseGoesOn(w, a, b, d, t);
    } else {
      assert t.again ==> Turns(w, t.state, t.budget, t.next, 1) == Turn(t.state, t.budget, t.next, false, None);
      EndMovesNothing(t.state, t.budget, t.next);
    }
  }

  lemma BeginMovesNothing(a: State)
    ensures forall d :: Effort(BeginPump(a), d) == Effort(a, d) && Traffic(BeginPump(a), d) == Traffic(a, d)
  {
  }

  lemma EndMovesNothing(a: State, left: Budget, next: Direction)
    ensures forall d ::
      Effort(EndPump(a, left, next), d) == Effort(a, d) && Traffic(EndPump(a, left, next), d) == Traffic(a, d)
  {
  }

  lemma SecondPhaseGoesOn(w: World, a: State, b: Budget, d: Direction, t: Turn)
    requires Inv(w, BeginPump(a)) && !Over(a) && !Exhausted(b)
    requires d == if HasWork(a, a.direction) then a.direction else Opposite(a.direction)
    requires t == TurnOnce(w, BeginPump(a), b, a.direction) && t.next == Opposite(d)
    requires t.again && !Exhausted(t.budget) && HasWork(t.state, t.next) && InLane(a, t.state, d)
    requires Pump(w, a, b).error.None? && !Over(Pump(w, a, b).state)
    ensures var r := Pump(w, a, b).state; GoesOn(a, r, Last(a, r))
  {
    hide RunPhase, Inv, Traffic, Effort;
    var u := TurnOnce(w, t.state, t.budget, t.next);
    TurnKeeps(w, BeginPump(a), b, a.direction);
    PhaseMoves(w, t.state, t.budget, t.next);
    assert u.again ==> Turns(w, u.state, u.budget, u.next, 0) == Turn(u.state, u.budget, u.next, false, None);
    EndMovesNothing(u.state, u.budget, u.next);
    if Over(t.state) {
      OverIsClosed(w);
      TurnStep(w, s => Over(s), t.state, t.budget, t.next);
      assert false;
    }
    PhaseServes(w, t.state, t.budget, t.next);
  }
}
