/** What a child tells or asks of the host: titles, clipboards, colors, links, the bell, and reported updates. */
module HostLaws {
  import opened TerminalTypes
  import opened TermSpec
  import opened Colors
  import Base64
  import Digits

  /** The terminal with one more request for the caller. */
  function Requested(t: Term, request: ChildRequest): Term {
    t.(events := t.events.(payload := t.events.payload + [RequestReceived(request)]))
  }

  lemma OneRequest(t: Term, request: ChildRequest)
    requires WF(t)
    ensures PushRequests(t, [request]) == Requested(t, request)
  {
  }

  lemma NoRequest(t: Term)
    requires WF(t)
    ensures PushRequests(t, []) == t
  {
    assert t.events.payload + [] == t.events.payload;
  }

  lemma RequestsTellApart(t: Term, a: ChildRequest, b: ChildRequest)
    ensures Requested(t, a) == Requested(t, b) <==> a == b
    ensures Requested(t, a) != t
  {
    SamePrefix(t.events.payload, [RequestReceived(a)], [RequestReceived(b)]);
    assert |Requested(t, a).events.payload| == |t.events.payload| + 1;
  }

  /** A message of at least an identifier; the fields after it. */
  function Message(id: seq<u8>, fields: seq<seq<u8>>): Action {
    Osc([id] + fields)
  }

  lemma MessageHandled(t: Term, id: seq<u8>, fields: seq<seq<u8>>)
    requires WF(t)
    ensures Apply(t, Message(id, fields)) == HandleOsc(t, [id] + fields)
    ensures ([id] + fields)[0] == id && ([id] + fields)[1..] == fields
  {
    hide HandleOsc;
  }

  // ---- titles, links, the bell ----------------------------------------

  lemma BellApplied(t: Term)
    requires WF(t)
    ensures Apply(t, Execute(0x07)) == PushRequests(t, [RingBell]) && Apply(t, Osc([])) == t
  {
    hide PushRequests;
  }

  /** OSC 0 and 2 set the title, to nothing when none is given, and say so; BEL asks for the bell. */
  lemma TitleExactly(t: Term, fields: seq<seq<u8>>)
    requires WF(t)
    ensures Apply(t, Message([48], fields)) == Apply(t, Message([50], fields)) == t.(
      title := if fields == [] then [] else fields[0], events := t.events.(titleUpdated := true))
    ensures Apply(t, Execute(0x07)) == Requested(t, RingBell)
    ensures Apply(t, Osc([])) == t
  {
    hide Apply;
    MessageHandled(t, [48], fields);
    MessageHandled(t, [50], fields);
    BellApplied(t);
    OneRequest(t, RingBell);
  }

  /**
   * OSC 8 opens a link with a fresh identifier, which the pen takes and the caller
   * learns together with the target; without a target it closes the pen's link.
   */
  lemma LinkExactly(t: Term, fields: seq<seq<u8>>)
    requires WF(t)
    ensures var r := Apply(t, Message([56], fields));
      if |fields| < 2 || fields[1] == [] then r == t.(pen := t.pen.(hyperlink := None))
      else r == t.(
        pen := t.pen.(hyperlink := Some(t.nextLink)),
        nextLink := if t.nextLink < 0xFFFF_FFFF then t.nextLink + 1 else 1,
        events := t.events.(payload := t.events.payload + [HyperlinkAdded(t.nextLink, fields[1])]))
  {
    hide Apply;
    MessageHandled(t, [56], fields);
  }

  /** A message with an identifier that means nothing here is handed on as it is. */
  lemma OtherHandedOn(t: Term, id: seq<u8>, fields: seq<seq<u8>>)
    requires WF(t) && id !in {[48], [50], [52], [56], [49, 48], [49, 49], [49, 50], [53, 50]}
    ensures Apply(t, Message(id, fields)) == Requested(t, OtherOsc(id, fields))
  {
    hide Apply, PushRequests;
    MessageHandled(t, id, fields);
    OneRequest(t, OtherOsc(id, fields));
  }

  // ---- the clipboard --------------------------------------------------

  /** The selection a name stands for: `c` or none the clipboard, `p` the primary one. */
  function Named(name: seq<u8>): ClipboardSelection {
    if name == [] || name == [99] then Clipboard else if name == [112] then Primary else OtherSelection(name)
  }

  /** OSC 52 with a payload. */
  function ClipboardMessage(name: seq<u8>, payload: seq<u8>): Action {
    Message([53, 50], [name, payload])
  }

  lemma ClipboardHandled(t: Term, name: seq<u8>, payload: seq<u8>)
    requires WF(t)
    ensures Apply(t, ClipboardMessage(name, payload)) ==
      if payload == [63] then Requested(t, GetClipboard(Named(name)))
      else
        var append := payload != [] && payload[0] == 43;
        match Base64.Decoded(if append then payload[1..] else payload)
        case Some(text) => Requested(t, SetClipboard(text, Named(name), append))
        case None => t
  {
    hide Apply, PushRequests, Base64.Decoded;
    var fields := [[53, 50]] + [name, payload];
    MessageHandled(t, [53, 50], [name, payload]);
    assert fields == [[53, 50], name, payload];
    assert Selection(fields) == Named(name);
    var requests := ClipboardRequests(fields);
    assert HandleOsc(t, fields) == PushRequests(t, requests);
    if requests == [] {
      NoRequest(t);
    } else {
      OneRequest(t, requests[0]);
    }
  }

  lemma FirstLetter(text: seq<u8>)
    ensures text == [] ==> Base64.Encode(text) == []
    ensures text != [] ==> |Base64.Encode(text)| >= 2 && Base64.Encode(text)[0] == Base64.Letter(text[0] / 4)
  {
    var v := Base64.Sextets(text);
    if text == [] {
      assert Base64.EncodeUnpadded(text) == [] && Base64.Padding(0) == [];
    } else {
      assert |v| >= 2 && v[0] == text[0] / 4;
      assert Base64.EncodeUnpadded(text)[0] == Base64.Letter(v[0]);
    }
  }

  /**
   * A text sent base64-encoded is asked to be stored, exactly unless its first
   * byte is 248 to 251, which encodes to the `+` that asks for appending; no UTF-8
   * text begins with such a byte.
   */
  lemma StoredExactly(t: Term, name: seq<u8>, text: seq<u8>)
    requires WF(t)
    ensures Apply(t, ClipboardMessage(name, Base64.Encode(text)))
        == Requested(t, SetClipboard(text, Named(name), false))
      <==> text == [] || !(248 <= text[0] <= 251)
  {
    hide Apply, Base64.Encode, Base64.Decoded;
    var payload := Base64.Encode(text);
    FirstLetter(text);
    Base64.DecodeEncode(text, 0);
    ClipboardHandled(t, name, payload);
    var request := SetClipboard(text, Named(name), false);
    RequestsTellApart(t, request, request);
    if payload != [] {
      assert payload[0] == 43 <==> text[0] / 4 == 62;
      match Base64.Decoded(payload[1..])
      case Some(rest) => RequestsTellApart(t, SetClipboard(rest, Named(name), true), request);
      case None =>
    }
  }

  lemma PlusHandled(t: Term, name: seq<u8>, encoded: seq<u8>)
    requires WF(t)
    ensures Apply(t, ClipboardMessage(name, [43] + encoded)) ==
      match Base64.Decoded(encoded)
      case Some(text) => Requested(t, SetClipboard(text, Named(name), true))
      case None => t
  {
    hide Apply, Base64.Decoded;
    var payload := [43] + encoded;
    assert payload[0] == 43 && payload[1..] == encoded && payload != [63];
    ClipboardHandled(t, name, payload);
  }

  /** Sent behind a `+` it is asked to be appended, and a `?` asks for what is there. */
  lemma AppendedAndAskedFor(t: Term, name: seq<u8>, text: seq<u8>)
    requires WF(t)
    ensures Apply(t, ClipboardMessage(name, [43] + Base64.Encode(text)))
      == Requested(t, SetClipboard(text, Named(name), true))
    ensures Apply(t, ClipboardMessage(name, [63])) == Requested(t, GetClipboard(Named(name)))
  {
    hide Apply, Base64.Encode, Base64.Decoded;
    Base64.DecodeEncode(text, 0);
    PlusHandled(t, name, Base64.Encode(text));
    ClipboardHandled(t, name, [63]);
  }

  /** A payload that is not base64 stores nothing, with or without a `+`. */
  lemma MalformedPayloadIgnored(t: Term, name: seq<u8>, payload: seq<u8>)
    requires WF(t) && Base64.Decoded(payload).None?
    ensures Apply(t, ClipboardMessage(name, [43] + payload)) == t
    ensures payload != [63] && (payload == [] || payload[0] != 43) ==> Apply(t, ClipboardMessage(name, payload)) == t
  {
    hide Apply, Base64.Decoded;
    PlusHandled(t, name, payload);
    ClipboardHandled(t, name, payload);
  }

  /** Without a payload nothing is stored in the selection named, or in the clipboard. */
  lemma NothingStored(t: Term, name: seq<u8>)
    requires WF(t)
    ensures Apply(t, Message([53, 50], [name])) == Requested(t, SetClipboard([], Named(name), false))
    ensures Apply(t, Message([53, 50], [])) == Requested(t, SetClipboard([], Clipboard, false))
  {
    hide Apply, PushRequests, Base64.Decoded;
    Base64.DecodeEncode([], 0);
    FirstLetter([]);
    MessageHandled(t, [53, 50], [name]);
    MessageHandled(t, [53, 50], []);
    OneRequest(t, SetClipboard([], Named(name), false));
    OneRequest(t, SetClipboard([], Clipboard, false));
  }

  // ---- colors ---------------------------------------------------------

  /** The identifier of a slot's message, and the palette entry's number where there is one. */
  function SlotFields(slot: ColorSlot): seq<seq<u8>> {
    match slot
    case PaletteEntry(index) => [[52], Digits.Decimal(index)]
    case DefaultForeground => [[49, 48]]
    case DefaultBackground => [[49, 49]]
    case DefaultCursor => [[49, 50]]
  }

  lemma ColorHandled(t: Term, fields: seq<seq<u8>>)
    requires WF(t) && fields != [] && fields[0] in {[52], [49, 48], [49, 49], [49, 50]}
    ensures Apply(t, Osc(fields)) == PushRequests(t, ColorRequests(fields))
  {
    hide PushRequests, ColorRequests;
  }

  /** What the host prints for a slot, sent by a child, asks for that color to be set. */
  lemma ColorSet(t: Term, slot: ColorSlot, rgb: Rgb)
    requires WF(t)
    ensures Apply(t, Osc(SlotFields(slot) + [RgbSpec(rgb)])) == Requested(t, SetColor(slot, rgb))
  {
    hide Apply, PushRequests, RgbSpec, ColorRequests;
    SlotIds();
    assert SlotFields(slot) + [RgbSpec(rgb)] == ReportFields(slot, rgb);
    ColorHandled(t, SlotFields(slot) + [RgbSpec(rgb)]);
    FieldsRequest(slot, rgb);
    OneRequest(t, SetColor(slot, rgb));
  }

  lemma AskedRequests(slot: ColorSlot)
    ensures ColorRequests(SlotFields(slot) + [[63]]) == [GetColor(slot)]
  {
    hide ParseRgb;
    var asked: seq<u8> := [63];
    var fields := SlotFields(slot) + [asked];
    match slot
    case PaletteEntry(index) =>
      IndexRoundTrip(index);
      var rest := fields[1..];
      assert rest == [Digits.Decimal(index), asked];
      assert |rest[2..]| == 0;
      assert PaletteRequests(rest) == PairRequests(rest[0], rest[1]) + PaletteRequests(rest[2..]);
    case _ =>
      assert fields[1..] == [asked];
  }

  /** A `?` in the color's place asks for it. */
  lemma ColorAsked(t: Term, slot: ColorSlot)
    requires WF(t)
    ensures Apply(t, Osc(SlotFields(slot) + [[63]])) == Requested(t, GetColor(slot))
  {
    hide Apply, PushRequests, ColorRequests;
    ColorHandled(t, SlotFields(slot) + [[63]]);
    AskedRequests(slot);
    OneRequest(t, GetColor(slot));
  }

  /** A pair whose number or color is malformed asks for nothing, and so does a number alone or no color at all. */
  lemma MalformedColorsIgnored(t: Term, key: seq<u8>, spec: seq<u8>)
    requires WF(t) && (ParseIndex(key).None? || (spec != [63] && ParseRgb(spec).None?))
    ensures Apply(t, Osc([[52], key, spec])) == Apply(t, Osc([[52], key])) == Apply(t, Osc([[52]])) == t
    ensures Apply(t, Osc([[49, 48]])) == Apply(t, Osc([[49, 49]])) == Apply(t, Osc([[49, 50]])) == t
  {
    hide Apply, PushRequests, ParseRgb, ParseIndex;
    NoRequest(t);
    var pair := [key, spec];
    assert [[52], key, spec][1..] == pair && |pair[2..]| == 0;
    assert PaletteRequests(pair) == PairRequests(key, spec) + PaletteRequests(pair[2..]);
    assert [[52], key][1..] == [key];
    ColorHandled(t, [[52], key, spec]);
    ColorHandled(t, [[52], key]);
    ColorHandled(t, [[52]]);
    ColorHandled(t, [[49, 48]]);
    ColorHandled(t, [[49, 49]]);
    ColorHandled(t, [[49, 50]]);
  }

  /** Fields after the ones a clipboard or a default color message has are not read. */
  lemma ExtraFieldsIgnored(t: Term, fields: seq<seq<u8>>, rest: seq<seq<u8>>)
    requires WF(t)
    ensures |fields| == 3 && fields[0] == [53, 50] ==> Apply(t, Osc(fields + rest)) == Apply(t, Osc(fields))
    ensures |fields| == 2 && fields[0] in {[49, 48], [49, 49], [49, 50]} ==>
      Apply(t, Osc(fields + rest)) == Apply(t, Osc(fields))
  {
    hide PushRequests, ParseRgb, Base64.Decoded;
    var all := fields + rest;
    if |fields| == 3 && fields[0] == [53, 50] {
      assert ClipboardRequests(all) == ClipboardRequests(fields);
    } else if |fields| == 2 && fields[0] in {[49, 48], [49, 49], [49, 50]} {
      assert all[1..][0] == fields[1] && fields[1..][0] == fields[1];
      assert ColorRequests(all) == ColorRequests(fields);
    }
  }

  // ---- updates --------------------------------------------------------

  /** Whether a field that a feed compares differs. */
  predicate Differs(t: Term, u: Term) {
    || u.onAlternate != t.onAlternate || u.cursor != t.cursor || u.wrapPending != t.wrapPending
    || u.pen != t.pen || u.modes != t.modes
  }

  /**
   * A feed does what its actions do, and raises an update exactly when one is
   * still pending, a cell of the primary screen was written, or the cursor, the
   * pending wrap, the pen, a mode or the screen shown differs; it lowers the mark.
   */
  lemma FeedExactly(t: Term, actions: seq<Action>)
    requires WF(t)
    ensures var u := ApplyAll(t, actions);
      Feed(t, actions) == u.(
        primary := u.primary.(dirty := false),
        events := u.events.(screenUpdated := t.events.screenUpdated || u.primary.dirty || Differs(t, u)))
  {
    hide ApplyAll;
  }
}
