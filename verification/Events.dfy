/** The event channel and the reply buffer the caller drains. */
module EventChannel {
  import opened TerminalTypes
  import opened TermSpec

  /** The next event and what is left: reset, merged updates, then payloads. */
  function Next(e: Events): (r: (Option<Event>, Events)) {
    if e.terminalReset then (Some(TerminalReset), e.(terminalReset := false))
    else if e.screenUpdated then (Some(ScreenUpdated), e.(screenUpdated := false))
    else if e.scrollbackLineAdded then (Some(ScrollbackLineAppended), e.(scrollbackLineAdded := false))
    else if e.titleUpdated then (Some(TitleUpdated), e.(titleUpdated := false))
    else if e.payload == [] then (None, e)
    else (Some(e.payload[0]), e.(payload := e.payload[1..]))
  }

  function Flag(on: bool, event: Event): seq<Event> {
    if on then [event] else []
  }

  /** How many events are pending. */
  function Pending(e: Events): nat {
    |Flag(e.terminalReset, TerminalReset)| + |Flag(e.screenUpdated, ScreenUpdated)|
    + |Flag(e.scrollbackLineAdded, ScrollbackLineAppended)| + |Flag(e.titleUpdated, TitleUpdated)| + |e.payload|
  }

  /** Everything a caller sees that drains until nothing is left. */
  function Drain(e: Events): seq<Event>
    decreases Pending(e)
  {
    match Next(e).0
    case None => []
    case Some(event) => [event] + Drain(Next(e).1)
  }

  lemma {:induction false} DrainPayload(e: Events)
    requires !e.terminalReset && !e.screenUpdated && !e.scrollbackLineAdded && !e.titleUpdated
    ensures Drain(e) == e.payload
    decreases |e.payload|
  {
    if e.payload != [] {
      DrainPayload(e.(payload := e.payload[1..]));
    }
  }

  /** The flag that comes first is yielded first, and draining goes on without it. */
  lemma DrainFlag(e: Events, rest: Events, on: bool, event: Event)
    requires if on then Next(e) == (Some(event), rest) else e == rest
    ensures Drain(e) == Flag(on, event) + Drain(rest)
  {
    assert [] + Drain(rest) == Drain(rest);
  }

  /** Each pending flag is reported once, in a fixed order, and every payload in its own. */
  lemma DrainOrder(e: Events)
    ensures Drain(e) ==
      Flag(e.terminalReset, TerminalReset) + (Flag(e.screenUpdated, ScreenUpdated)
      + (Flag(e.scrollbackLineAdded, ScrollbackLineAppended) + (Flag(e.titleUpdated, TitleUpdated) + e.payload)))
  {
    var e1 := e.(terminalReset := false);
    var e2 := e1.(screenUpdated := false);
    var e3 := e2.(scrollbackLineAdded := false);
    var e4 := e3.(titleUpdated := false);
    DrainPayload(e4);
    DrainFlag(e3, e4, e.titleUpdated, TitleUpdated);
    DrainFlag(e2, e3, e.scrollbackLineAdded, ScrollbackLineAppended);
    DrainFlag(e1, e2, e.screenUpdated, ScreenUpdated);
    DrainFlag(e, e1, e.terminalReset, TerminalReset);
  }

  class EventQueue {
    var terminalReset: bool
    var screenUpdated: bool
    var scrollbackLineAdded: bool
    var titleUpdated: bool
    var payload: seq<Event>

    ghost function View(): Events
      reads this
    {
      Events(terminalReset, screenUpdated, scrollbackLineAdded, titleUpdated, payload)
    }

    constructor ()
      ensures View() == NO_EVENTS
    {
      terminalReset, screenUpdated, scrollbackLineAdded, titleUpdated := false, false, false, false;
      payload := [];
    }

    method MarkScreenUpdated()
      modifies this
      ensures View() == old(View()).(screenUpdated := true)
    {
      screenUpdated := true;
    }

    method MarkScrollbackLineAdded()
      modifies this
      ensures View() == old(View()).(scrollbackLineAdded := true)
    {
      scrollbackLineAdded := true;
    }

    method MarkTitleUpdated()
      modifies this
      ensures View() == old(View()).(titleUpdated := true)
    {
      titleUpdated := true;
    }

    method MarkTerminalReset()
      modifies this
      ensures View() == old(View()).(terminalReset := true)
    {
      terminalReset := true;
    }

    method Push(event: Event)
      modifies this
      ensures View() == old(View()).(payload := old(payload) + [event])
    {
      payload := payload + [event];
    }

    method ClearRequests()
      modifies this
      ensures View() == old(View()).(payload := [])
    {
      payload := [];
    }

    method Dequeue() returns (event: Option<Event>)
      modifies this
      ensures (event, View()) == Next(old(View()))
    {
      if terminalReset {
        terminalReset := false;
        event := Some(TerminalReset);
      } else if screenUpdated {
        screenUpdated := false;
        event := Some(ScreenUpdated);
      } else if scrollbackLineAdded {
        scrollbackLineAdded := false;
        event := Some(ScrollbackLineAppended);
      } else if titleUpdated {
        titleUpdated := false;
        event := Some(TitleUpdated);
      } else if payload == [] {
        event := None;
      } else {
        event := Some(payload[0]);
        payload := payload[1..];
      }
    }
  }

  /** Reply bytes the caller still owes the PTY. */
  class ReplyBuf {
    var bytes: seq<u8>
    var offset: nat

    ghost predicate Valid()
      reads this
    {
      offset <= |bytes|
    }

    function Pending(): (p: seq<u8>)
      requires Valid()
      reads this
    {
      bytes[offset..]
    }

    constructor ()
      ensures Valid() && Pending() == []
    {
      bytes, offset := [], 0;
    }

    method Push(reply: seq<u8>)
      requires Valid()
      modifies this
      ensures Valid() && Pending() == old(Pending()) + reply
    {
      bytes := bytes + reply;
    }

    /** The caller may not claim more than is pending. */
    method Advance(n: nat)
      requires Valid() && n <= |Pending()|
      modifies this
      ensures Valid() && Pending() == old(Pending())[n..]
      ensures Pending() == [] ==> bytes == []
    {
      offset := offset + n;
      if offset == |bytes| {
        bytes, offset := [], 0;
      }
    }
  }
}
