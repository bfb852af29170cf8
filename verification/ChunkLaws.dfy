/** How a child's output is cut into feeds makes no difference but to the update marks. */
module ChunkLaws {
  import opened TerminalTypes
  import opened TermSpec
  import opened MarkLaws

  lemma {:induction false} ApplyAllAppend(t: Term, a: seq<Action>, b: seq<Action>)
    requires WF(t)
    ensures ApplyAll(t, a + b) == ApplyAll(ApplyAll(t, a), b)
    decreases |a|
  {
    if a == [] {
      assert a + b == b;
    } else {
      assert (a + b)[1..] == a[1..] + b;
      ApplyAllAppend(Apply(t, a[0]), a[1..], b);
    }
  }

  function Concat<T>(chunks: seq<seq<T>>): seq<T> {
    if chunks == [] then [] else chunks[0] + Concat(chunks[1..])
  }

  function FeedChunks(t: Term, chunks: seq<seq<Action>>): (r: Term)
    requires WF(t)
    ensures WF(r)
    decreases |chunks|
  {
    if chunks == [] then t else FeedChunks(Feed(t, chunks[0]), chunks[1..])
  }

  lemma SameFeed(t: Term, actions: seq<Action>)
    requires WF(t)
    ensures Same(Feed(t, actions), ApplyAll(t, actions))
  {
  }

  lemma {:induction false} ChunksApply(t: Term, chunks: seq<seq<Action>>)
    requires WF(t)
    ensures Same(FeedChunks(t, chunks), ApplyAll(t, Concat(chunks)))
    decreases |chunks|
  {
    if chunks != [] {
      var u, v := Feed(t, chunks[0]), ApplyAll(t, chunks[0]);
      ChunksApply(u, chunks[1..]);
      SameFeed(t, chunks[0]);
      SameApplyAll(u, v, Concat(chunks[1..]));
      ApplyAllAppend(t, chunks[0], Concat(chunks[1..]));
    }
  }

  /** Any cut of the actions gives the terminal one feed of all of them gives, update marks aside. */
  lemma ChunkingIsInvisible(t: Term, chunks: seq<seq<Action>>)
    requires WF(t)
    ensures Same(FeedChunks(t, chunks), Feed(t, Concat(chunks)))
  {
    ChunksApply(t, chunks);
    SameFeed(t, Concat(chunks));
  }

  // ---- bytes ----------------------------------------------------------

  /**
   * The terminal and its tokenizer, which is any machine that turns one byte
   * into actions and remembers what an unfinished sequence or character needs.
   */
  datatype Emulator<!P> = Emulator(parser: P, step: (P, u8) -> (P, seq<Action>), term: Term)

  function ParserAfter<P>(p: P, step: (P, u8) -> (P, seq<Action>), bytes: seq<u8>): P {
    if bytes == [] then p else ParserAfter(step(p, bytes[0]).0, step, bytes[1..])
  }

  function Tokens<P>(p: P, step: (P, u8) -> (P, seq<Action>), bytes: seq<u8>): seq<Action> {
    if bytes == [] then [] else step(p, bytes[0]).1 + Tokens(step(p, bytes[0]).0, step, bytes[1..])
  }

  /** The tokenizer is kept between feeds; an update is decided once a feed. */
  function FeedBytes<P>(e: Emulator<P>, bytes: seq<u8>): (r: Emulator<P>)
    requires WF(e.term)
    ensures WF(r.term)
  {
    e.(parser := ParserAfter(e.parser, e.step, bytes), term := Feed(e.term, Tokens(e.parser, e.step, bytes)))
  }

  function FeedByteChunks<P>(e: Emulator<P>, chunks: seq<seq<u8>>): (r: Emulator<P>)
    requires WF(e.term)
    ensures WF(r.term)
    decreases |chunks|
  {
    if chunks == [] then e else FeedByteChunks(FeedBytes(e, chunks[0]), chunks[1..])
  }

  lemma {:induction false} TokensAppend<P>(p: P, step: (P, u8) -> (P, seq<Action>), a: seq<u8>, b: seq<u8>)
    ensures ParserAfter(p, step, a + b) == ParserAfter(ParserAfter(p, step, a), step, b)
    ensures Tokens(p, step, a + b) == Tokens(p, step, a) + Tokens(ParserAfter(p, step, a), step, b)
    decreases |a|
  {
    if a == [] {
      assert a + b == b;
    } else {
      assert (a + b)[1..] == a[1..] + b;
      TokensAppend(step(p, a[0]).0, step, a[1..], b);
    }
  }

  lemma {:induction false} BytesApply<P>(e: Emulator<P>, chunks: seq<seq<u8>>)
    requires WF(e.term)
    ensures var r, all := FeedByteChunks(e, chunks), Concat(chunks);
      r.parser == ParserAfter(e.parser, e.step, all) && r.step == e.step &&
      Same(r.term, ApplyAll(e.term, Tokens(e.parser, e.step, all)))
    decreases |chunks|
  {
    if chunks != [] {
      var first, rest := Tokens(e.parser, e.step, chunks[0]), Concat(chunks[1..]);
      var later := Tokens(ParserAfter(e.parser, e.step, chunks[0]), e.step, rest);
      TokensAppend(e.parser, e.step, chunks[0], rest);
      BytesApply(FeedBytes(e, chunks[0]), chunks[1..]);
      SameFeed(e.term, first);
      SameApplyAll(Feed(e.term, first), ApplyAll(e.term, first), later);
      ApplyAllAppend(e.term, first, later);
    }
  }

  /**
   * Output cut anywhere, also inside a control sequence or a character, leaves the
   * terminal and the tokenizer one feed of all of it leaves, update marks aside.
   */
  lemma ByteChunkingIsInvisible<P>(e: Emulator<P>, chunks: seq<seq<u8>>)
    requires WF(e.term)
    ensures FeedByteChunks(e, chunks).parser == FeedBytes(e, Concat(chunks)).parser
    ensures Same(FeedByteChunks(e, chunks).term, FeedBytes(e, Concat(chunks)).term)
  {
    BytesApply(e, chunks);
    SameFeed(e.term, Tokens(e.parser, e.step, Concat(chunks)));
  }
}
