/** The turns of a pump as one phase or two, and what a single call decides. */
module SessionPhases {
  import opened TerminalTypes
  import opened Lifecycle
  import opened SessionSpec

  // ---- a pump is at most two phases -----------------------------------

  /** One phase, and another in the other direction if there is budget and work for it. */
  function Phases(w: World, a: State, b: Budget, d: Direction): Progress {
    var p := RunPhase(w, a, b, d);
    if p.error.Some? || Exhausted(p.budget) || !HasWork(p.state, Opposite(d)) then p
    else RunPhase(w, p.state, p.budget, Opposite(d))
  }

  /** The direction a pump starts with. */
  function First(a: State): Direction {
    if HasWork(a, a.direction) then a.direction else Opposite(a.direction)
  }

  lemma PumpIsPhases(w: World, a: State, b: Budget)
    requires !Over(a) && !Exhausted(b) && HasWork(BeginPump(a), First(a))
    ensures var r, e := Pump(w, a, b), Phases(w, BeginPump(a), b, First(a));
      r.error == e.error && r.left == e.budget && NeedsPump(r.state) == NeedsPump(e.state)
  {
    assert HasWork(BeginPump(a), a.direction) == HasWork(a, a.direction);
    TurnsArePhases(w, BeginPump(a), b, a.direction);
  }

  lemma TurnsArePhases(w: World, a: State, b: Budget, d0: Direction)
    requires !Exhausted(b)
    requires HasWork(a, if HasWork(a, d0) then d0 else Opposite(d0))
    ensures var t := Turns(w, a, b, d0, 2);
      var e := Phases(w, a, b, if HasWork(a, d0) then d0 else Opposite(d0));
      t.state == e.state && t.budget == e.budget && t.error == e.error
  {
    var t := TurnOnce(w, a, b, d0);
    if t.again && !Exhausted(t.budget) {
      var u := TurnOnce(w, t.state, t.budget, t.next);
      assert u.again ==> Turns(w, u.state, u.budget, u.next, 0) == Turn(u.state, u.budget, u.next, false, None);
    }
  }

  // ---- one call on a quiet session ------------------------------------

  lemma {:induction false} DecodeLeavesWork(w: World, a: State, b: Budget)
    requires a.phase == Live && !a.readBlocked && !a.writeBlocked && (a.paused ==> a.queue != [])
    ensures NeedsPump(Decode(w, a, b).0)
    decreases b.bytes
  {
    if CanDecode(a, b) {
      DecodeLeavesWork(w, DecodeByte(w, a), Consume(b, 1, 0));
    }
  }

  /** Whether the kernel's answer to a read ends the stream. */
  predicate EndsStream(reply: ReadReply) {
    match reply
    case Data(bytes) => bytes == []
    case ReadFailed(error) => error == Eio
  }

  /** A live session with nothing queued, nothing to decode and no blocked direction. */
  predicate Quiet(a: State) {
    && a.phase == Live && a.child.Running?
    && a.queue == [] && a.inbox == [] && !a.paused
    && !a.readBlocked && !a.writeBlocked
  }

  lemma LastRead(w: World, a: State, b: Budget)
    requires Quiet(a) && b.syscalls == 1 && b.bytes > 0
    ensures var p := ReadPhase(w, a, b);
      var reply := w.kernel(NextSyscall(a)).read;
      && p.budget.syscalls == 0
      && (NeedsPump(p.state) <==> !EndsStream(reply) && reply != ReadFailed(WouldBlock))
  {
    assert Decode(w, a, b) == (a, b);
    var reply := w.kernel(NextSyscall(a)).read;
    if reply.Data? {
      var bytes := Got(reply, Min(b.bytes, READ_BUFFER_LIMIT));
      var a1, b1 := CountRead(a, Min(b.bytes, READ_BUFFER_LIMIT)), Consume(b, 0, 1);
      assert b1.syscalls == 0;
      if bytes != [] {
        var d := Decode(w, Receive(a1, bytes), Consume(b1, |bytes|, 0));
        assert !CanRead(d.0, d.1);
        assert ReadLoop(w, d.0, d.1, true) == Progress(d.0, d.1, true, None);
        DecodeLeavesWork(w, Receive(a1, bytes), Consume(b1, |bytes|, 0));
      }
    }
  }

  /**
   * On a session with nothing queued a budget of one call is always used up, and
   * the kernel's one answer decides: another pump is needed unless the read
   * blocked or ended the stream.
   */
  lemma OneCallDecides(w: World, a: State, b: Budget)
    requires Quiet(BeginPump(a)) && b.syscalls == 1 && b.bytes > 0
    ensures var r := Pump(w, a, b);
      var reply := w.kernel(NextSyscall(a)).read;
      && Exhausted(r.left)
      && (NeedsPump(r.state) <==> !EndsStream(reply) && reply != ReadFailed(WouldBlock))
  {
    var c := BeginPump(a);
    LastRead(w, c, b);
    PumpIsPhases(w, a, b);
  }
}
