/**
 * OSC color messages: the report a host sends, and the parser that reads the
 * same form from a child.
 */
module Colors {
  import opened TerminalTypes
  import opened Digits

  datatype ColorSlot = PaletteEntry(index: u8) | DefaultForeground | DefaultBackground | DefaultCursor

  datatype ClipboardSelection = Clipboard | Primary | OtherSelection(name: seq<u8>)

  /** What a child asked for that only the caller can carry out. */
  datatype ChildRequest =
    | SetClipboard(text: seq<u8>, selection: ClipboardSelection, append: bool)
    | GetClipboard(selection: ClipboardSelection)
    | SetColor(slot: ColorSlot, rgb: Rgb)
    | GetColor(slot: ColorSlot)
    | RingBell
    | OtherOsc(id: seq<u8>, params: seq<seq<u8>>)

  const ESC: u8 := 0x1b
  const SEMICOLON: u8 := 59
  const SLASH: u8 := 47
  const PLUS: u8 := 43
  const QUESTION: seq<u8> := [63]
  /** `rgb:` */
  const RGB_PREFIX: seq<u8> := [114, 103, 98, 58]

  function OscId(slot: ColorSlot): u8 {
    match slot
    case PaletteEntry(_) => 4
    case DefaultForeground => 10
    case DefaultBackground => 11
    case DefaultCursor => 12
  }

  // ---- the parser -----------------------------------------------------

  /** A decimal byte; a leading `+`, an empty field and a value over 255 name nothing. */
  function ParseIndex(field: seq<u8>): (index: Option<u8>) {
    if |field| == 0 || !AllDecimal(field) || DecimalValue(field) > 255 then None
    else Some(DecimalValue(field))
  }

  /** One to four hex digits, scaled to a byte the way xterm does. */
  function ParseChannel(field: seq<u8>): (v: Option<u8>) {
    if |field| == 0 || |field| > 4 || !AllHex(field) then None
    else
      HexValueOf(field);
      var value := HexValue(field);
      if |field| == 1 then Some(value * 17)
      else if |field| == 2 then Some(value)
      else if |field| == 3 then Some(value / 16)
      else Some(value / 256)
  }

  /** Position of the first `b`, or the length when there is none. */
  function Find(s: seq<u8>, b: u8): (i: nat)
    ensures i <= |s|
    ensures forall k :: 0 <= k < i ==> s[k] != b
    ensures i < |s| ==> s[i] == b
  {
    if s == [] || s[0] == b then 0 else 1 + Find(s[1..], b)
  }

  /** `rgb:R/G/B`; the third channel runs to the end of the field. */
  function ParseRgb(value: seq<u8>): (rgb: Option<Rgb>) {
    if |value| < 4 || value[..4] != RGB_PREFIX then None
    else
      var digits := value[4..];
      var i := Find(digits, SLASH);
      if i == |digits| then None
      else
        var rest := digits[i + 1..];
        var j := Find(rest, SLASH);
        if j == |rest| then None
        else match (ParseChannel(digits[..i]), ParseChannel(rest[..j]), ParseChannel(rest[j + 1..]))
          case (Some(r), Some(g), Some(b)) => Some(Rgb(r, g, b))
          case _ => None
  }

  /** The request one color field makes, if it is well formed. */
  function ColorRequest(slot: ColorSlot, spec: seq<u8>): seq<ChildRequest> {
    if spec == QUESTION then [GetColor(slot)]
    else match ParseRgb(spec)
      case Some(rgb) => [SetColor(slot, rgb)]
      case None => []
  }

  /** The request of one `index ; spec` pair; a malformed pair makes none. */
  function PairRequests(key: seq<u8>, spec: seq<u8>): seq<ChildRequest> {
    match ParseIndex(key)
    case Some(index) => ColorRequest(PaletteEntry(index), spec)
    case None => []
  }

  /** The requests of OSC 4, given the fields after the identifier. */
  function PaletteRequests(fields: seq<seq<u8>>): seq<ChildRequest> {
    if |fields| < 2 then [] else PairRequests(fields[0], fields[1]) + PaletteRequests(fields[2..])
  }

  /** The requests of OSC 10, 11 or 12, given the fields after the identifier. */
  function DefaultColorRequests(fields: seq<seq<u8>>, slot: ColorSlot): seq<ChildRequest> {
    if fields == [] then [] else ColorRequest(slot, fields[0])
  }

  /** The requests of a color message, identifier first. */
  function ColorRequests(params: seq<seq<u8>>): seq<ChildRequest> {
    if params == [] then []
    else if params[0] == [52] then PaletteRequests(params[1..])
    else if params[0] == [49, 48] then DefaultColorRequests(params[1..], DefaultForeground)
    else if params[0] == [49, 49] then DefaultColorRequests(params[1..], DefaultBackground)
    else if params[0] == [49, 50] then DefaultColorRequests(params[1..], DefaultCursor)
    else []
  }

  // ---- the printer ----------------------------------------------------

  function HexByte(b: u8): (s: seq<u8>) {
    [LowerHex(b / 16), LowerHex(b % 16)]
  }

  /** `rgb:RR/GG/BB` */
  function RgbSpec(rgb: Rgb): (s: seq<u8>) {
    RGB_PREFIX + HexByte(rgb.r) + [SLASH] + HexByte(rgb.g) + [SLASH] + HexByte(rgb.b)
  }

  function ReportFields(slot: ColorSlot, rgb: Rgb): (fields: seq<seq<u8>>) {
    [Decimal(OscId(slot))]
    + (match slot case PaletteEntry(index) => [Decimal(index)] case _ => [])
    + [RgbSpec(rgb)]
  }

  function Join(fields: seq<seq<u8>>): seq<u8> {
    if fields == [] then []
    else if |fields| == 1 then fields[0]
    else fields[0] + [SEMICOLON] + Join(fields[1..])
  }

  /** `ESC ] <fields> ESC \` */
  function Framed(fields: seq<seq<u8>>): seq<u8> {
    [ESC, 93] + Join(fields) + [ESC, 92]
  }

  /** Appends two lowercase hex digits. */
  method WriteHexByte(out: seq<u8>, b: u8) returns (out': seq<u8>)
    ensures out' == out + HexByte(b)
  {
    out' := out + [LowerHex(b / 16)];
    out' := out' + [LowerHex(b % 16)];
  }

  method WriteRgb(out: seq<u8>, rgb: Rgb) returns (out': seq<u8>)
    ensures out' == out + RgbSpec(rgb)
  {
    out' := out + RGB_PREFIX;
    out' := WriteHexByte(out', rgb.r);
    out' := out' + [SLASH];
    out' := WriteHexByte(out', rgb.g);
    out' := out' + [SLASH];
    out' := WriteHexByte(out', rgb.b);
  }

  /** Appends the color report for a slot. */
  method WriteColor(out: seq<u8>, slot: ColorSlot, rgb: Rgb) returns (out': seq<u8>)
    ensures out' == out + Framed(ReportFields(slot, rgb))
  {
    out' := out + [ESC, 93];
    out' := out' + Decimal(OscId(slot));
    if slot.PaletteEntry? {
      out' := out' + ([SEMICOLON] + Decimal(slot.index));
    }
    ghost var payload := Decimal(OscId(slot))
      + match slot case PaletteEntry(index) => [SEMICOLON] + Decimal(index) case _ => [];
    assert out' == (out + [ESC, 93]) + payload;
    out' := out' + [SEMICOLON];
    out' := WriteRgb(out', rgb);
    out' := out' + [ESC, 92];
    ReportJoin(slot, rgb);
    Reassociate(out, [ESC, 93], payload, [SEMICOLON], RgbSpec(rgb), [ESC, 92]);
  }

  lemma Reassociate<T>(a: seq<T>, b: seq<T>, c: seq<T>, d: seq<T>, e: seq<T>, f: seq<T>)
    ensures a + b + c + d + e + f == a + (b + (c + d + e) + f)
  {
  }

  lemma ReportJoin(slot: ColorSlot, rgb: Rgb)
    ensures Join(ReportFields(slot, rgb))
      == Decimal(OscId(slot))
         + (match slot case PaletteEntry(index) => [SEMICOLON] + Decimal(index) case _ => [])
         + [SEMICOLON] + RgbSpec(rgb)
  {
    var f := ReportFields(slot, rgb);
    match slot
    case PaletteEntry(index) =>
      assert f == [Decimal(OscId(slot)), Decimal(index), RgbSpec(rgb)];
      assert f[1..] == [Decimal(index), RgbSpec(rgb)] && f[1..][1..] == [RgbSpec(rgb)];
      assert Join(f[1..]) == Decimal(index) + [SEMICOLON] + RgbSpec(rgb);
    case _ =>
      assert f == [Decimal(OscId(slot)), RgbSpec(rgb)];
      assert f[1..] == [RgbSpec(rgb)];
  }

  // ---- framing --------------------------------------------------------

  /** The fields of a payload, cut at every semicolon. */
  function Split(s: seq<u8>): (fields: seq<seq<u8>>)
    decreases |s|
  {
    var i := Find(s, SEMICOLON);
    if i == |s| then [s] else [s[..i]] + Split(s[i + 1..])
  }

  predicate NoSemicolon(field: seq<u8>) {
    forall i :: 0 <= i < |field| ==> field[i] != SEMICOLON
  }

  lemma FindIn(a: seq<u8>, b: u8, rest: seq<u8>)
    requires forall i :: 0 <= i < |a| ==> a[i] != b
    ensures Find(a + [b] + rest, b) == |a|
    ensures Find(a, b) == |a|
  {
    assert (a + [b] + rest)[|a|] == b;
  }

  /** Splitting is the inverse of joining fields that hold no separator. */
  lemma {:induction false} SplitJoin(fields: seq<seq<u8>>)
    requires fields != [] && forall i :: 0 <= i < |fields| ==> NoSemicolon(fields[i])
    ensures Split(Join(fields)) == fields
  {
    if |fields| == 1 {
      FindIn(fields[0], SEMICOLON, []);
    } else {
      var rest := Join(fields[1..]);
      FindIn(fields[0], SEMICOLON, rest);
      assert (fields[0] + [SEMICOLON] + rest)[|fields[0]| + 1..] == rest;
      assert (fields[0] + [SEMICOLON] + rest)[..|fields[0]|] == fields[0];
      SplitJoin(fields[1..]);
    }
  }

  // ---- round trips ----------------------------------------------------

  lemma IndexRoundTrip(index: u8)
    ensures ParseIndex(Decimal(index)) == Some(index)
    ensures NoSemicolon(Decimal(index))
  {
    DecimalRoundTrip(index);
  }

  /** A field names the palette entry it is the printed number of, with any zeros in front, and no other field any. */
  lemma IndexExactly(field: seq<u8>, index: u8)
    ensures ParseIndex(field) == Some(index) <==> exists k: nat :: field == Zeros(k) + Decimal(index)
  {
    DecimalRoundTrip(index);
    if field != [] && AllDecimal(field) && DecimalValue(field) == index {
      var k := DigitsArePrinted(field);
    }
    forall k: nat | field == Zeros(k) + Decimal(index) ensures ParseIndex(field) == Some(index) {
      ZerosInFront(k, Decimal(index));
    }
  }

  /**
   * A channel is one to four hex digits of either case and nothing else: one
   * means the doubled digit, more mean the byte that the first two spell.
   */
  lemma ChannelScaling(s: seq<u8>)
    ensures ParseChannel(s) ==
      if !(1 <= |s| <= 4 && AllHex(s)) then None
      else if |s| == 1 then Some(17 * HexDigit(s[0]))
      else Some(16 * HexDigit(s[0]) + HexDigit(s[1]))
  {
    if 1 <= |s| <= 4 && AllHex(s) {
      HexValueOf(s);
    }
  }

  /** The two digits a host prints are read back. */
  lemma ByteRoundTrip(b: u8)
    ensures ParseChannel(HexByte(b)) == Some(b)
  {
    ChannelScaling(HexByte(b));
  }

  lemma RgbIsClean(rgb: Rgb)
    ensures NoSemicolon(RgbSpec(rgb))
  {
  }

  lemma RgbRoundTrip(rgb: Rgb)
    ensures ParseRgb(RgbSpec(rgb)) == Some(rgb)
    ensures NoSemicolon(RgbSpec(rgb)) && RgbSpec(rgb) != QUESTION
  {
    hide ParseChannel, HexDigit, NoSemicolon;
    RgbIsClean(rgb);
    var s := RgbSpec(rgb);
    var r, g, b := HexByte(rgb.r), HexByte(rgb.g), HexByte(rgb.b);
    ByteRoundTrip(rgb.r);
    ByteRoundTrip(rgb.g);
    ByteRoundTrip(rgb.b);
    assert s[..4] == RGB_PREFIX;
    assert s[4..] == r + [SLASH] + (g + [SLASH] + b);
    FindIn(r, SLASH, g + [SLASH] + b);
    assert s[4..][|r| + 1..] == g + [SLASH] + b;
    FindIn(g, SLASH, b);
    assert s[4..][..|r|] == r;
    assert (g + [SLASH] + b)[..|g|] == g && (g + [SLASH] + b)[|g| + 1..] == b;
  }

  /** `rgb:` and three channels apart by slashes. */
  function Spelled(r: seq<u8>, g: seq<u8>, b: seq<u8>): seq<u8> {
    [114, 103, 98, 58] + (r + [SLASH] + (g + [SLASH] + b))
  }

  lemma CutAtSlash(a: seq<u8>, rest: seq<u8>)
    requires forall i :: 0 <= i < |a| ==> a[i] != SLASH
    ensures var s := a + [SLASH] + rest; Find(s, SLASH) == |a| && s[..|a|] == a && s[|a| + 1..] == rest
  {
    FindIn(a, SLASH, rest);
  }

  lemma ChannelHasNoSlash(s: seq<u8>)
    requires ParseChannel(s).Some?
    ensures forall i :: 0 <= i < |s| ==> s[i] != SLASH
  {
    ChannelScaling(s);
  }

  lemma SpelledParses(r: seq<u8>, g: seq<u8>, b: seq<u8>)
    requires ParseChannel(r).Some? && ParseChannel(g).Some? && ParseChannel(b).Some?
    ensures ParseRgb(Spelled(r, g, b))
      == Some(Rgb(ParseChannel(r).value, ParseChannel(g).value, ParseChannel(b).value))
  {
    hide ParseChannel, Find;
    var s := Spelled(r, g, b);
    assert s[..4] == RGB_PREFIX && s[4..] == r + [SLASH] + (g + [SLASH] + b);
    ChannelHasNoSlash(r);
    ChannelHasNoSlash(g);
    CutAtSlash(r, g + [SLASH] + b);
    CutAtSlash(g, b);
  }

  lemma RejoinedAt(s: seq<u8>, i: nat)
    requires i < |s|
    ensures s == s[..i] + [s[i]] + s[i + 1..]
  {
  }

  lemma ParsedIsSpelled(value: seq<u8>) returns (r: seq<u8>, g: seq<u8>, b: seq<u8>)
    requires ParseRgb(value).Some?
    ensures value == Spelled(r, g, b)
    ensures ParseChannel(r) == Some(ParseRgb(value).value.r) && ParseChannel(g) == Some(ParseRgb(value).value.g)
    ensures ParseChannel(b) == Some(ParseRgb(value).value.b)
  {
    hide ParseChannel, Find;
    var digits := value[4..];
    var i := Find(digits, SLASH);
    var rest := digits[i + 1..];
    var j := Find(rest, SLASH);
    r, g, b := digits[..i], rest[..j], rest[j + 1..];
    RejoinedAt(digits, i);
    RejoinedAt(rest, j);
    assert value == value[..4] + digits;
  }

  /** A value is read as a color exactly when it is `rgb:` and three channels of it apart by slashes. */
  lemma RgbExactly(value: seq<u8>, rgb: Rgb)
    ensures ParseRgb(value) == Some(rgb) <==>
      exists r, g, b :: value == Spelled(r, g, b)
        && ParseChannel(r) == Some(rgb.r) && ParseChannel(g) == Some(rgb.g) && ParseChannel(b) == Some(rgb.b)
  {
    hide ParseChannel, ParseRgb;
    if ParseRgb(value) == Some(rgb) {
      var r, g, b := ParsedIsSpelled(value);
    }
    forall r, g, b | value == Spelled(r, g, b)
        && ParseChannel(r) == Some(rgb.r) && ParseChannel(g) == Some(rgb.g) && ParseChannel(b) == Some(rgb.b)
      ensures ParseRgb(value) == Some(rgb)
    {
      SpelledParses(r, g, b);
    }
  }

  lemma Unframe(fields: seq<seq<u8>>)
    ensures |Framed(fields)| >= 4 && Framed(fields)[2..|Framed(fields)| - 2] == Join(fields)
  {
  }

  lemma NumberIsClean(n: nat)
    ensures NoSemicolon(Decimal(n))
  {
    DecimalRoundTrip(n);
  }

  lemma FieldsAreClean(slot: ColorSlot, rgb: Rgb)
    ensures var fields := ReportFields(slot, rgb);
      fields != [] && forall i :: 0 <= i < |fields| ==> NoSemicolon(fields[i])
  {
    NumberIsClean(OscId(slot));
    RgbIsClean(rgb);
    match slot
    case PaletteEntry(index) =>
      NumberIsClean(index);
      assert ReportFields(slot, rgb) == [Decimal(OscId(slot)), Decimal(index), RgbSpec(rgb)];
    case _ =>
      assert ReportFields(slot, rgb) == [Decimal(OscId(slot)), RgbSpec(rgb)];
  }

  lemma PaletteRequest(index: u8, rgb: Rgb)
    ensures PaletteRequests([Decimal(index), RgbSpec(rgb)]) == [SetColor(PaletteEntry(index), rgb)]
  {
    IndexRoundTrip(index);
    RgbRoundTrip(rgb);
    var fields := [Decimal(index), RgbSpec(rgb)];
    assert fields[2..] == [];
    assert PairRequests(fields[0], fields[1]) + PaletteRequests([]) == PairRequests(fields[0], fields[1]);
  }

  lemma SlotIds()
    ensures Decimal(4) == [52] && Decimal(10) == [49, 48] && Decimal(11) == [49, 49] && Decimal(12) == [49, 50]
  {
    assert Decimal(1) == [49];
    assert Decimal(10) == Decimal(1) + [48] && Decimal(11) == Decimal(1) + [49] && Decimal(12) == Decimal(1) + [50];
  }

  lemma FieldsRequest(slot: ColorSlot, rgb: Rgb)
    ensures ColorRequests(ReportFields(slot, rgb)) == [SetColor(slot, rgb)]
  {
    hide ParseRgb;
    var fields := ReportFields(slot, rgb);
    SlotIds();
    match slot
    case PaletteEntry(index) =>
      PaletteRequest(index, rgb);
      assert fields[1..] == [Decimal(index), RgbSpec(rgb)];
    case _ =>
      assert ColorRequest(slot, RgbSpec(rgb)) == [SetColor(slot, rgb)] by { RgbRoundTrip(rgb); }
      assert fields[0] == Decimal(OscId(slot)) && fields[1..] == [RgbSpec(rgb)];
      assert DefaultColorRequests(fields[1..], slot) == [SetColor(slot, rgb)];
  }

  /**
   * The bytes the host prints for a slot and value, framed and cut into fields
   * as a child's message is, parse back to exactly that set request.
   */
  lemma ColorRoundTrip(slot: ColorSlot, rgb: Rgb)
    ensures var bytes := Framed(ReportFields(slot, rgb));
      |bytes| >= 4
      && Split(bytes[2..|bytes| - 2]) == ReportFields(slot, rgb)
      && ColorRequests(Split(bytes[2..|bytes| - 2])) == [SetColor(slot, rgb)]
  {
    var fields := ReportFields(slot, rgb);
    FieldsAreClean(slot, rgb);
    SplitJoin(fields);
    Unframe(fields);
    FieldsRequest(slot, rgb);
  }

  /** Pairs are read independently and in order, whatever each one holds. */
  lemma {:induction false} PaletteAppend(a: seq<seq<u8>>, b: seq<seq<u8>>)
    requires |a| % 2 == 0
    ensures PaletteRequests(a + b) == PaletteRequests(a) + PaletteRequests(b)
  {
    hide PairRequests;
    if a == [] {
      assert a + b == b;
    } else {
      PaletteAppend(a[2..], b);
      assert (a + b)[2..] == a[2..] + b;
      assert (a + b)[0] == a[0] && (a + b)[1] == a[1];
      Associate(PairRequests(a[0], a[1]), PaletteRequests(a[2..]), PaletteRequests(b));
    }
  }

  function PaletteFields(entries: seq<(u8, Rgb)>): seq<seq<u8>> {
    if entries == [] then []
    else [Decimal(entries[0].0), RgbSpec(entries[0].1)] + PaletteFields(entries[1..])
  }

  /** One OSC 4 message carrying many entries makes one request per entry, in order. */
  lemma {:induction false} PaletteRoundTrip(entries: seq<(u8, Rgb)>)
    ensures var requests := PaletteRequests(PaletteFields(entries));
      |requests| == |entries|
      && forall i :: 0 <= i < |entries| ==> requests[i] == SetColor(PaletteEntry(entries[i].0), entries[i].1)
  {
    hide PairRequests, Decimal, RgbSpec;
    if entries != [] {
      var e := entries[0];
      PaletteRoundTrip(entries[1..]);
      PaletteRequest(e.0, e.1);
      PaletteAppend([Decimal(e.0), RgbSpec(e.1)], PaletteFields(entries[1..]));
    }
  }

  lemma SpecBytes()
    ensures RgbSpec(Rgb(255, 0, 138)) == RGB_PREFIX + [102, 102] + [SLASH] + [48, 48] + [SLASH] + [56, 97]
  {
  }

  /** `ESC ] 10 ; rgb:ff/00/8a ESC \`, byte for byte. */
  lemma DefaultReportBytes()
    ensures Framed(ReportFields(DefaultForeground, Rgb(255, 0, 138))) == [0x1b, 0x5d, 0x31, 0x30, 0x3b, 0x72, 0x67,
      0x62, 0x3a, 0x66, 0x66, 0x2f, 0x30, 0x30, 0x2f, 0x38, 0x61, 0x1b, 0x5c]
  {
    hide Join, Decimal, RgbSpec, ReportFields;
    SlotIds();
    SpecBytes();
    ReportJoin(DefaultForeground, Rgb(255, 0, 138));
  }

  /** `ESC ] 4 ; 7 ; rgb:ff/00/8a ESC \`, byte for byte. */
  lemma PaletteReportBytes()
    ensures Framed(ReportFields(PaletteEntry(7), Rgb(255, 0, 138))) == [0x1b, 0x5d, 0x34, 0x3b, 0x37, 0x3b, 0x72, 0x67,
      0x62, 0x3a, 0x66, 0x66, 0x2f, 0x30, 0x30, 0x2f, 0x38, 0x61, 0x1b, 0x5c]
  {
    assert Decimal(7) == [55];
    hide Join, Decimal, RgbSpec, ReportFields;
    SlotIds();
    SpecBytes();
    ReportJoin(PaletteEntry(7), Rgb(255, 0, 138));
  }
}
