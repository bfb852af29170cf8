/** A session whose emulator is the terminal: its replies, and so what waits unsent, are bounded. */
module SessionTerminal {
  import opened TermSpec
  import SessionSpec
  import SessionRuns

  /**
   * A terminal fed one byte at a time: what each byte completes, and the
   * resizes and trims between bytes.
   */
  datatype Script = Script(start: Term, between: nat -> seq<Call>, tokens: nat -> seq<Action>)

  /** A final byte completes at most one control sequence. */
  predicate OneSequence(actions: seq<Action>) {
    forall i, j :: 0 <= i < j < |actions| ==> !(actions[i].Csi? && actions[j].Csi?)
  }

  predicate NoFeed(calls: seq<Call>) {
    forall i :: 0 <= i < |calls| ==> !calls[i].CallFeed?
  }

  ghost predicate Legal(s: Script) {
    && WF(s.start) && s.start.replies == []
    && (forall n :: OneSequence(s.tokens(n)))
    && (forall n :: NoFeed(s.between(n)))
  }

  /** The terminal once the n-th byte has been fed, its reply not yet taken. */
  function Fed(s: Script, n: nat): (t: Term)
    requires WF(s.start)
    ensures WF(t)
    decreases n, 1
  {
    Feed(Run(Before(s, n), s.between(n)), s.tokens(n))
  }

  /** The terminal before the n-th byte; every earlier reply has been taken. */
  function Before(s: Script, n: nat): (t: Term)
    requires WF(s.start)
    ensures WF(t)
    ensures s.start.replies == [] ==> t.replies == []
    decreases n, 0
  {
    if n == 0 then s.start else Fed(s, n - 1).(replies := [])
  }

  lemma {:induction false} ResizesAreSilent(t: Term, calls: seq<Call>)
    requires WF(t) && NoFeed(calls)
    ensures Run(t, calls).replies == t.replies
    decreases |calls|
  {
    if calls != [] {
      ResizesAreSilent(Step(t, calls[0]), calls[1..]);
    }
  }

  lemma {:induction false} SilentTokens(t: Term, actions: seq<Action>)
    requires WF(t) && forall i :: 0 <= i < |actions| ==> !actions[i].Csi?
    ensures ApplyAll(t, actions).replies == t.replies
    decreases |actions|
  {
    if actions != [] {
      SilentTokens(Apply(t, actions[0]), actions[1..]);
    }
  }

  /** One byte's tokens queue at most one reply, of four to fourteen bytes. */
  lemma {:induction false} OneReplyPerByte(t: Term, actions: seq<Action>)
    requires WF(t) && OneSequence(actions)
    ensures Answered(t, ApplyAll(t, actions))
    decreases |actions|
  {
    if actions != [] {
      var u := Apply(t, actions[0]);
      if actions[0].Csi? {
        SilentTokens(u, actions[1..]);
      } else {
        OneReplyPerByte(u, actions[1..]);
      }
    }
  }

  lemma RepliesAreShort(s: Script, n: nat)
    requires Legal(s)
    ensures Fed(s, n).replies == [] || SHORTEST_REPLY <= |Fed(s, n).replies| <= REPLY_LIMIT
  {
    ResizesAreSilent(Before(s, n), s.between(n));
    OneReplyPerByte(Run(Before(s, n), s.between(n)), s.tokens(n));
  }

  /**
   * Whatever the child prints and the kernel does, at most fourteen reply bytes
   * ever wait in the write queue of a session.
   */
  lemma UnsentRepliesAreBounded(s: Script, w: SessionSpec.World, ops: seq<SessionSpec.Op>)
    requires Legal(s) && forall n: nat :: w.emulator(n) == Fed(s, n).replies
    ensures SessionSpec.Replies(SessionSpec.Run(w, SessionSpec.START, ops).queue) <= REPLY_LIMIT
  {
    hide Apply;
    forall n: nat ensures |w.emulator(n)| <= REPLY_LIMIT {
      RepliesAreShort(s, n);
    }
    SessionRuns.OneReplyWaits(w, ops, REPLY_LIMIT);
  }
}
