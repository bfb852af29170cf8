/**
 * The base64 payload of OSC 52: the decoder, the encoder of RFC 4648 section 4
 * it inverts, and the exact set of payloads it accepts.
 */
module Base64 {
  import opened TerminalTypes

  type sextet = x: int | 0 <= x < 64

  const PAD: u8 := 61

  // ---- the alphabet ---------------------------------------------------

  predicate InAlphabet(b: u8) {
    65 <= b <= 90 || 97 <= b <= 122 || 48 <= b <= 57 || b == 43 || b == 47
  }

  function Value(b: u8): (v: sextet)
    requires InAlphabet(b)
  {
    if 65 <= b <= 90 then b - 65
    else if 97 <= b <= 122 then b - 97 + 26
    else if 48 <= b <= 57 then b - 48 + 52
    else if b == 43 then 62
    else 63
  }

  function Letter(v: sextet): (b: u8)
    ensures InAlphabet(b) && Value(b) == v
  {
    if v < 26 then 65 + v
    else if v < 52 then 97 + (v - 26)
    else if v < 62 then 48 + (v - 52)
    else if v == 62 then 43
    else 47
  }

  /** The alphabet is A to Z, a to z, 0 to 9, `+` and `/`, in this order. */
  lemma LettersInOrder(v: nat)
    requires v < 63
    ensures Letter(0) == 65 && Letter(26) == 97 && Letter(52) == 48 && Letter(62) == 43 && Letter(63) == 47
    ensures v !in {25, 51, 61, 62} ==> Letter(v + 1) == Letter(v) + 1
  {
  }

  /**
   * Shifting and or-ing bytes that share no bit is the arithmetic used below;
   * `x << n` on a byte drops the bits past the eighth.
   */
  lemma ByteArithmetic(a: bv8, b: bv8)
    requires a < 64 && b < 64
    ensures (a << 2) | (b >> 4) == a * 4 + b / 16
    ensures (a << 4) | (b >> 2) == (a % 16) * 16 + b / 4
    ensures (a << 6) | b == (a % 4) * 64 + b
  {
  }

  function Byte0(a: sextet, b: sextet): u8 { a * 4 + b / 16 }
  function Byte1(b: sextet, c: sextet): u8 { (b % 16) * 16 + c / 4 }
  function Byte2(c: sextet, d: sextet): u8 { (c % 4) * 64 + d }

  // ---- decoding -------------------------------------------------------

  /** Number of leading alphabet characters. */
  function DataLength(s: seq<u8>): (n: nat)
    ensures n <= |s|
    ensures forall i :: 0 <= i < n ==> InAlphabet(s[i])
    ensures n < |s| ==> !InAlphabet(s[n])
  {
    if s == [] || !InAlphabet(s[0]) then 0 else 1 + DataLength(s[1..])
  }

  predicate AllPadding(s: seq<u8>) {
    forall i :: 0 <= i < |s| ==> s[i] == PAD
  }

  predicate AllData(s: seq<u8>) {
    forall i :: 0 <= i < |s| ==> InAlphabet(s[i])
  }

  function Values(s: seq<u8>): (v: seq<sextet>)
    requires AllData(s)
    ensures |v| == |s|
  {
    seq(|s|, i requires 0 <= i < |s| => Value(s[i]))
  }

  /** Whole groups of four become three bytes, a tail of two or three one or two. */
  function Bytes(v: seq<sextet>): (out: seq<u8>) {
    if |v| >= 4 then
      [Byte0(v[0], v[1]), Byte1(v[1], v[2]), Byte2(v[2], v[3])] + Bytes(v[4..])
    else if |v| == 3 then [Byte0(v[0], v[1]), Byte1(v[1], v[2])]
    else if |v| == 2 then [Byte0(v[0], v[1])]
    else []
  }

  lemma {:induction false} BytesLength(v: seq<sextet>)
    ensures |Bytes(v)| == 3 * |v| / 4
  {
    if |v| >= 4 {
      BytesLength(v[4..]);
      assert 3 * |v| / 4 == 3 + 3 * |v[4..]| / 4;
    }
  }

  /** Alphabet characters, then only padding, with no lone character left over. */
  predicate Accepted(s: seq<u8>) {
    AllPadding(s[DataLength(s)..]) && DataLength(s) % 4 != 1
  }

  lemma {:induction false} BytesAppend(a: seq<sextet>, b: seq<sextet>)
    requires |a| % 4 == 0
    ensures Bytes(a + b) == Bytes(a) + Bytes(b)
  {
    hide Byte0, Byte1, Byte2;
    if a == [] {
      assert a + b == b;
    } else {
      var first := [Byte0(a[0], a[1]), Byte1(a[1], a[2]), Byte2(a[2], a[3])];
      BytesAppend(a[4..], b);
      assert (a + b)[4..] == a[4..] + b && (a + b)[..4] == a[..4];
      Associate(first, Bytes(a[4..]), Bytes(b));
    }
  }

  /** The values seen so far are what is in `out` and what still waits in `buffer`. */
  ghost predicate Holds(data: seq<sextet>, out: seq<u8>, buffer: seq<sextet>, buffered: nat) {
    && |buffer| == 4 && buffered == |data| % 4
    && out == Bytes(data[..|data| - buffered])
    && buffer[..buffered] == data[|data| - buffered..]
  }

  lemma BytesOfGroup(v: seq<sextet>)
    requires 1 < |v| <= 4
    ensures |v| == 2 ==> Bytes(v) == [Byte0(v[0], v[1])]
    ensures |v| == 3 ==> Bytes(v) == [Byte0(v[0], v[1]), Byte1(v[1], v[2])]
    ensures |v| == 4 ==> Bytes(v) == [Byte0(v[0], v[1]), Byte1(v[1], v[2]), Byte2(v[2], v[3])]
  {
    if |v| == 4 {
      assert v[4..] == [];
    }
  }

  /** Bytes of everything seen: those already out, then those of the open group. */
  lemma BytesSoFar(data: seq<sextet>, out: seq<u8>, group: seq<sextet>)
    requires |group| <= |data| && (|data| - |group|) % 4 == 0
    requires out == Bytes(data[..|data| - |group|]) && group == data[|data| - |group|..]
    ensures Bytes(data) == out + Bytes(group)
  {
    hide Bytes;
    assert data == data[..|data| - |group|] + group;
    BytesAppend(data[..|data| - |group|], group);
  }

  /** Adds one value, flushing a group when it is whole. */
  method Push(buffer: array<sextet>, buffered0: nat, out0: seq<u8>, v: sextet, ghost data: seq<sextet>)
      returns (buffered: nat, out: seq<u8>)
    requires Holds(data, out0, buffer[..], buffered0)
    modifies buffer
    ensures Holds(data + [v], out, buffer[..], buffered)
  {
    ghost var before := buffer[..];
    out := out0;
    buffer[buffered0] := v;
    buffered := buffered0 + 1;
    assert buffer[..] == before[buffered0 := v];
    GroupHeld(data, out0, before, buffered0, v);
    if buffered == 4 {
      out := out + [Byte0(buffer[0], buffer[1]), Byte1(buffer[1], buffer[2]), Byte2(buffer[2], buffer[3])];
      buffered := 0;
    }
  }

  /** One more value either waits or completes a group. */
  lemma GroupHeld(data: seq<sextet>, out: seq<u8>, buffer: seq<sextet>, buffered: nat, v: sextet)
    requires Holds(data, out, buffer, buffered)
    ensures var b := buffer[buffered := v];
      if buffered < 3 then Holds(data + [v], out, b, buffered + 1)
      else Holds(data + [v], out + [Byte0(b[0], b[1]), Byte1(b[1], b[2]), Byte2(b[2], b[3])], b, 0)
  {
    hide Bytes, Byte0, Byte1, Byte2;
    var b := buffer[buffered := v];
    var group := data[|data| - buffered..] + [v];
    GroupGrows(data, buffered, v);
    assert b[..buffered + 1] == group;
    if buffered == 3 {
      GroupCompletes(data + [v], out, b);
    }
  }

  lemma GroupCompletes(data: seq<sextet>, out: seq<u8>, b: seq<sextet>)
    requires |b| == 4 && |data| >= 4 && |data| % 4 == 0
    requires out == Bytes(data[..|data| - 4]) && b == data[|data| - 4..]
    ensures Holds(data, out + [Byte0(b[0], b[1]), Byte1(b[1], b[2]), Byte2(b[2], b[3])], b, 0)
  {
    BytesSoFar(data, out, b);
    BytesOfGroup(b);
    assert data[..|data| - 0] == data;
  }

  lemma GroupGrows(data: seq<sextet>, buffered: nat, v: sextet)
    requires buffered <= |data|
    ensures var data', group := data + [v], data[|data| - buffered..] + [v];
      && data'[..|data'| - |group|] == data[..|data| - buffered]
      && data'[|data'| - |group|..] == group
      && data'[..|data'|] == data' && data'[|data'|..] == []
  {
  }

  /** Turns what is left in the buffer into bytes; one lone value is malformed. */
  method Finish(buffer: array<sextet>, buffered: nat, out: seq<u8>, ghost data: seq<sextet>)
      returns (r: Option<seq<u8>>)
    requires Holds(data, out, buffer[..], buffered)
    ensures r == if |data| % 4 == 1 then None else Some(Bytes(data))
  {
    ghost var group := buffer[..buffered];
    BytesSoFar(data, out, group);
    if buffered == 0 {
      assert out + Bytes(group) == out;
      r := Some(out);
    } else if buffered == 2 {
      BytesOfGroup(group);
      r := Some(out + [Byte0(buffer[0], buffer[1])]);
    } else if buffered == 3 {
      BytesOfGroup(group);
      r := Some(out + [Byte0(buffer[0], buffer[1]), Byte1(buffer[1], buffer[2])]);
    } else {
      r := None;
    }
  }

  /** What a payload decodes to. */
  function Decoded(s: seq<u8>): (r: Option<seq<u8>>) {
    if Accepted(s) then Some(Bytes(Values(s[..DataLength(s)]))) else None
  }

  /** Where the loop stands after `i` characters: what they hold, and whether padding has begun. */
  ghost predicate Seen(input: seq<u8>, i: nat, padding: bool, data: seq<sextet>) {
    var n := DataLength(input);
    && i <= |input|
    && (if padding then n < i && AllPadding(input[n..i]) else i <= n)
    && data == Values(input[..Min(i, n)])
  }

  lemma SeenCharacter(input: seq<u8>, i: nat, data: seq<sextet>)
    requires Seen(input, i, false, data) && i < |input|
    ensures InAlphabet(input[i]) ==> Seen(input, i + 1, false, data + [Value(input[i])])
    ensures input[i] == PAD ==> Seen(input, i + 1, true, data)
    ensures !InAlphabet(input[i]) && input[i] != PAD ==> !Accepted(input)
  {
    var n := DataLength(input);
    if i < n {
      assert input[..i + 1] == input[..i] + [input[i]];
    } else {
      assert input[n..][0] == input[i];
    }
  }

  lemma SeenPadding(input: seq<u8>, i: nat, data: seq<sextet>)
    requires Seen(input, i, true, data) && i < |input|
    ensures if input[i] == PAD then Seen(input, i + 1, true, data) else !Accepted(input)
  {
    var n := DataLength(input);
    assert input[n..i + 1] == input[n..i] + [input[i]];
    assert input[n..][i - n] == input[i];
  }

  /** All characters seen, the payload decodes unless one value is left over. */
  lemma SeenAll(input: seq<u8>, padding: bool, data: seq<sextet>)
    requires Seen(input, |input|, padding, data)
    ensures Decoded(input) == if |data| % 4 == 1 then None else Some(Bytes(data))
  {
    var n := DataLength(input);
    assert input[n..|input|] == input[n..];
  }

  method Decode(input: seq<u8>) returns (r: Option<seq<u8>>)
    ensures r == Decoded(input)
  {
    var out: seq<u8> := [];
    var buffer := new sextet[4](_ => 0);
    var buffered := 0;
    var padding := false;
    ghost var data: seq<sextet> := [];
    for i := 0 to |input|
      invariant Seen(input, i, padding, data)
      invariant Holds(data, out, buffer[..], buffered)
    {
      var byte := input[i];
      if padding {
        SeenPadding(input, i, data);
        if byte != PAD {
          return None;
        }
        continue;
      }
      SeenCharacter(input, i, data);
      if byte == PAD {
        padding := true;
        continue;
      }
      if !InAlphabet(byte) {
        return None;
      }
      buffered, out := Push(buffer, buffered, out, Value(byte), data);
      data := data + [Value(byte)];
    }
    SeenAll(input, padding, data);
    r := Finish(buffer, buffered, out, data);
  }

  // ---- encoding -------------------------------------------------------

  function Sextet0(a: u8): sextet { a / 4 }
  function Sextet1(a: u8, b: u8): sextet { (a % 4) * 16 + b / 16 }
  function Sextet2(b: u8, c: u8): sextet { (b % 16) * 4 + c / 64 }
  function Sextet3(c: u8): sextet { c % 64 }

  /** Three bytes become four values; one or two at the end, two or three. */
  function Sextets(bytes: seq<u8>): (v: seq<sextet>) {
    if |bytes| >= 3 then
      [Sextet0(bytes[0]), Sextet1(bytes[0], bytes[1]), Sextet2(bytes[1], bytes[2]), Sextet3(bytes[2])]
      + Sextets(bytes[3..])
    else if |bytes| == 2 then [Sextet0(bytes[0]), Sextet1(bytes[0], bytes[1]), Sextet2(bytes[1], 0)]
    else if |bytes| == 1 then [Sextet0(bytes[0]), Sextet1(bytes[0], 0)]
    else []
  }

  function Letters(v: seq<sextet>): (s: seq<u8>)
    ensures |s| == |v| && AllData(s) && Values(s) == v
  {
    seq(|v|, i requires 0 <= i < |v| => Letter(v[i]))
  }

  function Padding(count: nat): (s: seq<u8>)
    ensures |s| == count && AllPadding(s)
  {
    seq(count, _ => PAD)
  }

  function EncodeUnpadded(bytes: seq<u8>): (s: seq<u8>) {
    Letters(Sextets(bytes))
  }

  function PaddingNeeded(n: nat): nat {
    (3 - n % 3) % 3
  }

  /** Padded to a whole number of groups. */
  function Encode(bytes: seq<u8>): (s: seq<u8>) {
    EncodeUnpadded(bytes) + Padding(PaddingNeeded(|bytes|))
  }

  lemma GroupOfBytes(a: u8, b: u8, c: u8)
    ensures Byte0(Sextet0(a), Sextet1(a, b)) == a
    ensures Byte1(Sextet1(a, b), Sextet2(b, c)) == b
    ensures Byte2(Sextet2(b, c), Sextet3(c)) == c
  {
  }

  lemma GroupOfSextets(p: sextet, q: sextet, r: sextet, s: sextet)
    ensures Sextet0(Byte0(p, q)) == p
    ensures Sextet1(Byte0(p, q), Byte1(q, r)) == q
    ensures Sextet2(Byte1(q, r), Byte2(r, s)) == r
    ensures Sextet3(Byte2(r, s)) == s
    ensures Sextet1(Byte0(p, q), 0) == q <==> q % 16 == 0
    ensures Sextet2(Byte1(q, r), 0) == r <==> r % 4 == 0
  {
  }

  lemma BytesCons(p: sextet, q: sextet, r: sextet, s: sextet, rest: seq<sextet>)
    ensures Bytes([p, q, r, s] + rest) == [Byte0(p, q), Byte1(q, r), Byte2(r, s)] + Bytes(rest)
  {
    assert ([p, q, r, s] + rest)[4..] == rest;
  }

  lemma SextetsCons(a: u8, b: u8, c: u8, rest: seq<u8>)
    ensures Sextets([a, b, c] + rest)
      == [Sextet0(a), Sextet1(a, b), Sextet2(b, c), Sextet3(c)] + Sextets(rest)
  {
    assert ([a, b, c] + rest)[3..] == rest;
  }

  lemma OneByte(a: u8)
    ensures Bytes(Sextets([a])) == [a]
  {
    var p, q := Sextet0(a), Sextet1(a, 0);
    assert Byte0(p, q) == a by { GroupOfBytes(a, 0, 0); }
    BytesOfGroup([p, q]);
    assert Sextets([a]) == [p, q];
  }

  lemma TwoBytes(a: u8, b: u8)
    ensures Bytes(Sextets([a, b])) == [a, b]
  {
    BytesOfGroup([Sextet0(a), Sextet1(a, b), Sextet2(b, 0)]);
    GroupOfBytes(a, b, 0);
  }

  /** Values needed for a number of bytes. */
  function SextetCount(n: nat): nat {
    n / 3 * 4 + (if n % 3 == 0 then 0 else n % 3 + 1)
  }

  lemma {:induction false} SextetsLength(bytes: seq<u8>)
    ensures |Sextets(bytes)| == SextetCount(|bytes|)
  {
    if |bytes| >= 3 {
      SextetsLength(bytes[3..]);
      CountStep(|bytes[3..]|);
    }
  }

  lemma CountOf(q: nat, r: nat)
    requires r < 3
    ensures SextetCount(3 * q + r) == 4 * q + (if r == 0 then 0 else r + 1)
    ensures PaddingNeeded(3 * q + r) == if r == 0 then 0 else 3 - r
  {
    assert (3 * q + r) / 3 == q && (3 * q + r) % 3 == r;
  }

  lemma CountStep(n: nat)
    ensures SextetCount(n + 3) == SextetCount(n) + 4
    ensures (SextetCount(n) + PaddingNeeded(n)) % 4 == 0
    ensures SextetCount(n) % 4 != 1
  {
    hide SextetCount, PaddingNeeded;
    var q, r := n / 3, n % 3;
    CountOf(q, r);
    CountOf(q + 1, r);
    assert n == 3 * q + r && n + 3 == 3 * (q + 1) + r;
  }

  lemma {:induction false} SextetsRoundTrip(bytes: seq<u8>)
    ensures Bytes(Sextets(bytes)) == bytes
  {
    hide Byte0, Byte1, Byte2, Sextet0, Sextet1, Sextet2, Sextet3;
    if bytes == [] {
    } else if |bytes| == 1 {
      OneByte(bytes[0]);
      assert bytes == [bytes[0]];
    } else if |bytes| == 2 {
      TwoBytes(bytes[0], bytes[1]);
      assert bytes == [bytes[0], bytes[1]];
    } else {
      var a, b, c, rest := bytes[0], bytes[1], bytes[2], bytes[3..];
      SextetsRoundTrip(rest);
      SextetsCons(a, b, c, rest);
      BytesCons(Sextet0(a), Sextet1(a, b), Sextet2(b, c), Sextet3(c), Sextets(rest));
      GroupOfBytes(a, b, c);
      assert bytes == [a, b, c] + rest;
    }
  }

  lemma {:induction false} DataLengthOf(data: seq<u8>, rest: seq<u8>)
    requires AllData(data) && AllPadding(rest)
    ensures DataLength(data + rest) == |data|
  {
    if data == [] {
      assert data + rest == rest;
    } else {
      assert (data + rest)[1..] == data[1..] + rest;
      DataLengthOf(data[1..], rest);
    }
  }

  lemma DecodePadded(bytes: seq<u8>, padding: nat)
    ensures Decoded(EncodeUnpadded(bytes) + Padding(padding)) == Some(bytes)
  {
    var data, pad := EncodeUnpadded(bytes), Padding(padding);
    var s := data + pad;
    DataLengthOf(data, pad);
    assert s[..|data|] == data && s[|data|..] == pad;
    SextetsLength(bytes);
    CountStep(|bytes|);
    SextetsRoundTrip(bytes);
  }

  lemma EncodeLength(bytes: seq<u8>)
    ensures |Encode(bytes)| % 4 == 0
  {
    SextetsLength(bytes);
    CountStep(|bytes|);
  }

  /** Every byte string is read back from its encoding, with any amount of padding. */
  lemma DecodeEncode(bytes: seq<u8>, padding: nat)
    ensures Decoded(EncodeUnpadded(bytes) + Padding(padding)) == Some(bytes)
    ensures Decoded(EncodeUnpadded(bytes)) == Some(bytes)
    ensures Decoded(Encode(bytes)) == Some(bytes) && |Encode(bytes)| % 4 == 0
  {
    DecodePadded(bytes, padding);
    assert EncodeUnpadded(bytes) + Padding(0) == EncodeUnpadded(bytes) by {
      assert Padding(0) == [];
    }
    DecodePadded(bytes, 0);
    DecodePadded(bytes, PaddingNeeded(|bytes|));
    EncodeLength(bytes);
  }

  /**
   * A payload decodes exactly when it is alphabet characters followed only by
   * padding with a character count other than one past a group, and it then
   * yields three bytes for every four characters, rounded down.
   */
  lemma DecodesExactly(s: seq<u8>)
    ensures Decoded(s).Some? <==>
      exists n :: 0 <= n <= |s| && AllData(s[..n]) && AllPadding(s[n..]) && n % 4 != 1
    ensures forall n :: 0 <= n <= |s| && AllData(s[..n]) && AllPadding(s[n..]) && n % 4 != 1 ==>
      |Decoded(s).value| == 3 * n / 4
  {
    if Accepted(s) {
      assert AllData(s[..DataLength(s)]);
      BytesLength(Values(s[..DataLength(s)]));
    }
    forall n | 0 <= n <= |s| && AllData(s[..n]) && AllPadding(s[n..]) ensures n == DataLength(s) {
      DataLengthOf(s[..n], s[n..]);
      assert s[..n] + s[n..] == s;
    }
  }

  /** The bits of a tail that no byte uses are zero. */
  predicate Canonical(v: seq<sextet>) {
    && (|v| % 4 == 2 ==> v[|v| - 1] % 16 == 0)
    && (|v| % 4 == 3 ==> v[|v| - 1] % 4 == 0)
  }

  lemma TailOfThree(v: seq<sextet>)
    requires |v| == 3
    ensures Sextets(Bytes(v)) == v <==> Canonical(v)
  {
    GroupOfSextets(v[0], v[1], v[2], 0);
    assert Sextets(Bytes(v))[2] == v[2] <==> Canonical(v);
  }

  lemma TailOfTwo(v: seq<sextet>)
    requires |v| == 2
    ensures Sextets(Bytes(v)) == v <==> Canonical(v)
  {
    GroupOfSextets(v[0], v[1], 0, 0);
    assert Sextets(Bytes(v))[1] == v[1] <==> Canonical(v);
  }

  lemma CanonicalTail(v: seq<sextet>)
    requires |v| >= 4 && |v| % 4 != 1
    ensures |v[4..]| % 4 != 1 && (Canonical(v) <==> Canonical(v[4..]))
  {
    assert |v[4..]| % 4 == |v| % 4;
    if |v[4..]| > 0 {
      assert v[4..][|v[4..]| - 1] == v[|v| - 1];
    }
  }

  lemma {:induction false} BytesRoundTrip(v: seq<sextet>)
    requires |v| % 4 != 1
    ensures Sextets(Bytes(v)) == v <==> Canonical(v)
  {
    hide Byte0, Byte1, Byte2, Sextet0, Sextet1, Sextet2, Sextet3;
    if |v| < 4 {
      if |v| == 3 {
        TailOfThree(v);
      } else if |v| == 2 {
        TailOfTwo(v);
      }
    } else {
      var rest := v[4..];
      assert v == [v[0], v[1], v[2], v[3]] + rest;
      BytesRoundTrip(rest);
      BytesCons(v[0], v[1], v[2], v[3], rest);
      SextetsCons(Byte0(v[0], v[1]), Byte1(v[1], v[2]), Byte2(v[2], v[3]), Bytes(rest));
      GroupOfSextets(v[0], v[1], v[2], v[3]);
      CanonicalTail(v);
      SamePrefix([v[0], v[1], v[2], v[3]], rest, Sextets(Bytes(rest)));
    }
  }

  /**
   * The decoder does not reject stray bits in a tail: encoding its result gives
   * the payload's characters back exactly when there are none.
   */
  lemma EncodeDecode(s: seq<u8>)
    requires Decoded(s).Some?
    ensures Sextets(Decoded(s).value) == Values(s[..DataLength(s)]) <==> Canonical(Values(s[..DataLength(s)]))
  {
    BytesRoundTrip(Values(s[..DataLength(s)]));
  }

  /** The first examples of RFC 4648 section 10: `f`, `fo` and `foo` are `Zg==`, `Zm8=` and `Zm9v`. */
  lemma KnownAnswers()
    ensures Encode([102]) == [90, 103, 61, 61]
    ensures Encode([102, 111]) == [90, 109, 56, 61]
    ensures Encode([102, 111, 111]) == [90, 109, 57, 118]
  {
    var one, two, three: seq<u8> := [102], [102, 111], [102, 111, 111];
    assert three[3..] == [] && Sextets(three) == [25, 38, 61, 47] + Sextets([]);
    assert EncodeUnpadded(one) == [90, 103] && Padding(2) == [61, 61];
    assert EncodeUnpadded(two) == [90, 109, 56] && Padding(1) == [61];
    assert EncodeUnpadded(three) == [90, 109, 57, 118] && Padding(0) == [];
  }
}
