/** What one pump spends and what it gets done. */
module SessionBudget {
  import opened TerminalTypes
  import opened SessionSpec
  import opened SessionLaws
  import opened SessionRuns

  /** Bytes moved so far: read, decoded and written. */
  function Moved(a: State): nat {
    a.counters.bytesRead + a.counters.processed + a.counters.inputWritten + a.counters.replyWritten
  }

  /** What the budget lost, the counters gained. */
  predicate Paid(a: State, b: Budget, r: State, left: Budget) {
    && Moved(r) + left.bytes == Moved(a) + b.bytes
    && NextSyscall(r) + left.syscalls == NextSyscall(a) + b.syscalls
    && left.bytes <= b.bytes && left.syscalls <= b.syscalls
  }

  lemma {:induction false} DecodePays(w: World, a: State, b: Budget)
    ensures Paid(a, b, Decode(w, a, b).0, Decode(w, a, b).1)
    decreases b.bytes
  {
    if CanDecode(a, b) {
      DecodePays(w, DecodeByte(w, a), Consume(b, 1, 0));
    }
  }

  lemma SendPays(a: State, b: Budget, n: nat)
    requires n <= |a.queue| && n <= b.bytes
    ensures Paid(a, b, Send(a, n), Consume(b, n, 0))
  {
  }

  lemma WriteOncePays(w: World, a: State, b: Budget)
    requires CanWrite(a, b)
    ensures var o := WriteOnce(w, a, b); Paid(a, b, o.state, o.budget)
  {
    var cap := Min(b.bytes, |a.queue|);
    var a1, b1 := CountWrite(a, cap), Consume(b, 0, 1);
    match w.kernel(NextSyscall(a)).write
    case Wrote(k) => SendPays(a1, b1, Min(k, cap));
    case WriteFailed(_) =>
  }

  lemma {:induction false} WritePays(w: World, a: State, b: Budget, moved: bool)
    ensures var p := WriteLoop(w, a, b, moved);
      Paid(a, b, p.state, p.budget) && (CanWrite(a, b) ==> p.budget.syscalls < b.syscalls)
    decreases b.syscalls
  {
    if CanWrite(a, b) {
      WriteOncePays(w, a, b);
      var o := WriteOnce(w, a, b);
      if o.again {
        WritePays(w, o.state, o.budget, true);
      }
    }
  }

  lemma DataPays(w: World, a: State, b: Budget, cap: nat, bytes: seq<u8>)
    requires |bytes| <= b.bytes && b.syscalls > 0
    ensures var d := Decode(w, Receive(CountRead(a, cap), bytes), Consume(Consume(b, 0, 1), |bytes|, 0));
      Paid(a, b, d.0, d.1)
  {
    var a2, b2 := Receive(CountRead(a, cap), bytes), Consume(Consume(b, 0, 1), |bytes|, 0);
    assert Paid(a, b, a2, b2);
    DecodePays(w, a2, b2);
  }

  lemma ReadOncePays(w: World, a: State, b: Budget)
    requires CanRead(a, b)
    ensures var o := ReadOnce(w, a, b); Paid(a, b, o.state, o.budget)
  {
    match w.kernel(NextSyscall(a)).read
    case Data(_) =>
      var cap := Min(b.bytes, READ_BUFFER_LIMIT - |a.inbox|);
      DataPays(w, a, b, cap, Got(w.kernel(NextSyscall(a)).read, cap));
    case ReadFailed(_) =>
  }

  lemma {:induction false} ReadPays(w: World, a: State, b: Budget, moved: bool)
    ensures var p := ReadLoop(w, a, b, moved);
      Paid(a, b, p.state, p.budget) && (CanRead(a, b) ==> p.budget.syscalls < b.syscalls)
    decreases b.syscalls
  {
    if CanRead(a, b) {
      ReadOncePays(w, a, b);
      var o := ReadOnce(w, a, b);
      if o.again {
        ReadPays(w, o.state, o.budget, true);
      }
    }
  }

  lemma PhasePays(w: World, a: State, b: Budget, d: Direction)
    ensures var p := RunPhase(w, a, b, d); Paid(a, b, p.state, p.budget)
  {
    if d == Writing {
      WritePays(w, a, b, false);
    } else {
      DecodePays(w, a, b);
      var r := Decode(w, a, b);
      ReadPays(w, r.0, r.1, r.0.counters.processed > a.counters.processed);
    }
  }

  lemma TurnPays(w: World, a: State, b: Budget, d0: Direction)
    ensures var t := TurnOnce(w, a, b, d0); Paid(a, b, t.state, t.budget)
  {
    PhasePays(w, a, b, if HasWork(a, d0) then d0 else Opposite(d0));
  }

  lemma {:induction false} TurnsPay(w: World, a: State, b: Budget, d: Direction, turns: nat)
    ensures var t := Turns(w, a, b, d, turns); Paid(a, b, t.state, t.budget)
    decreases turns
  {
    hide RunPhase;
    if turns > 0 && !Exhausted(b) {
      TurnPays(w, a, b, d);
      var t := TurnOnce(w, a, b, d);
      if t.again {
        TurnsPay(w, t.state, t.budget, t.next, turns - 1);
      }
    }
  }

  /** A pump charges every byte it moves and every system call it makes, once each. */
  lemma PumpSpendsWhatItMoves(w: World, a: State, b: Budget)
    ensures var r := Pump(w, a, b); Paid(a, b, r.state, r.left)
  {
    if !Over(a) {
      TurnsPay(w, BeginPump(a), b, a.direction, 2);
    }
  }

  // ---- progress -------------------------------------------------------

  lemma PhaseActs(w: World, a: State, b: Budget, d: Direction)
    requires Inv(w, a) && !Over(a) && HasWork(a, d) && !Exhausted(b)
    ensures RunPhase(w, a, b, d).budget != b
  {
    if d == Writing {
      WritePays(w, a, b, false);
    } else if CanDecode(a, b) {
      DecodePays(w, DecodeByte(w, a), Consume(b, 1, 0));
      var r := Decode(w, a, b);
      ReadPays(w, r.0, r.1, r.0.counters.processed > a.counters.processed);
    } else {
      ReadPays(w, a, b, false);
    }
  }

  /** A pump that is needed and has a budget does something: a system call or a decoded byte. */
  lemma NeededPumpActs(w: World, ops: seq<Op>, b: Budget)
    requires NeedsPump(Run(w, START, ops)) && !Exhausted(b)
    ensures var a := Run(w, START, ops);
      var r := Pump(w, a, b).state;
      Moved(r) + NextSyscall(r) > Moved(a) + NextSyscall(a)
  {
    hide Run, RunPhase;
    StartHolds(w);
    RunKeeps(w, START, ops);
    var a := Run(w, START, ops);
    var c := BeginPump(a);
    BeginKeeps(w, a);
    var d := if HasWork(c, a.direction) then a.direction else Opposite(a.direction);
    PhaseActs(w, c, b, d);
    PhasePays(w, c, b, d);
    var t := TurnOnce(w, c, b, a.direction);
    TurnsPay(w, t.state, t.budget, t.next, 1);
    PumpSpendsWhatItMoves(w, a, b);
  }

  /** A pump without a budget only counts itself; another is needed exactly when work is left. */
  lemma ZeroBudgetOnlyCounts(w: World, ops: seq<Op>, b: Budget)
    requires Exhausted(b) && !Over(Run(w, START, ops))
    ensures var a := Run(w, START, ops);
      var r := Pump(w, a, b);
      && r.error.None? && r.left == b
      && r.state == a.(
           readBlocked := false,
           writeBlocked := false,
           counters := a.counters.(
             pumpCalls := a.counters.pumpCalls + 1,
             exhaustions := a.counters.exhaustions + 1),
           past := a.past.(lastRead := None, lastWrite := None))
      && (NeedsPump(r.state) <==> a.phase == Live || a.queue != [] || a.inbox != [])
  {
    StartHolds(w);
    RunKeeps(w, START, ops);
  }
}
