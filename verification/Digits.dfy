/** Numbers as ASCII digits, as replies print them and color fields carry them. */
module Digits {
  import opened TerminalTypes

  // ---- decimal --------------------------------------------------------

  function Decimal(n: nat): (s: seq<u8>) {
    if n < 10 then [48 + n] else Decimal(n / 10) + [48 + n % 10]
  }

  predicate AllDecimal(s: seq<u8>) {
    forall i :: 0 <= i < |s| ==> 48 <= s[i] <= 57
  }

  function DecimalValue(s: seq<u8>): nat
    requires AllDecimal(s)
  {
    if s == [] then 0 else DecimalValue(s[..|s| - 1]) * 10 + (s[|s| - 1] - 48)
  }

  function Pow10(k: nat): nat {
    if k == 0 then 1 else 10 * Pow10(k - 1)
  }

  lemma {:induction false} DecimalRoundTrip(n: nat)
    ensures |Decimal(n)| >= 1 && AllDecimal(Decimal(n)) && DecimalValue(Decimal(n)) == n
  {
    if n < 10 {
      assert DecimalValue([48 + n]) == DecimalValue([]) * 10 + n;
    } else {
      DecimalRoundTrip(n / 10);
      var s := Decimal(n);
      assert s[..|s| - 1] == Decimal(n / 10);
    }
  }

  lemma {:induction false} DecimalLength(n: nat, k: nat)
    requires k >= 1 && n < Pow10(k)
    ensures |Decimal(n)| <= k
  {
    if n >= 10 {
      DecimalLength(n / 10, k - 1);
    }
  }

  function Zeros(k: nat): (s: seq<u8>)
    ensures |s| == k
  {
    seq(k, _ => 48)
  }

  lemma {:induction false} ZerosInFront(k: nat, s: seq<u8>)
    requires AllDecimal(s)
    ensures AllDecimal(Zeros(k) + s) && DecimalValue(Zeros(k) + s) == DecimalValue(s)
    decreases |s|
  {
    var all := Zeros(k) + s;
    if s == [] {
      assert all == Zeros(k);
      OnlyZeros(k);
    } else {
      ZerosInFront(k, s[..|s| - 1]);
      assert all[..|all| - 1] == Zeros(k) + s[..|s| - 1];
    }
  }

  lemma {:induction false} OnlyZeros(k: nat)
    ensures DecimalValue(Zeros(k)) == 0
  {
    if k > 0 {
      OnlyZeros(k - 1);
      assert Zeros(k)[..k - 1] == Zeros(k - 1);
    }
  }

  lemma {:induction false} ZeroIsZeros(s: seq<u8>)
    requires AllDecimal(s) && DecimalValue(s) == 0
    ensures s == Zeros(|s|)
    decreases |s|
  {
    if s != [] {
      ZeroIsZeros(s[..|s| - 1]);
    }
  }

  /** A run of digits is its value as printed, behind some zeros. */
  lemma {:induction false} DigitsArePrinted(s: seq<u8>) returns (k: nat)
    requires s != [] && AllDecimal(s)
    ensures s == Zeros(k) + Decimal(DecimalValue(s))
    decreases |s|
  {
    var init, d := s[..|s| - 1], s[|s| - 1] - 48;
    assert s == init + [48 + d];
    if DecimalValue(init) == 0 {
      ZeroIsZeros(init);
      k := |init|;
      assert Decimal(d) == [48 + d];
    } else {
      k := DigitsArePrinted(init);
      var v := DecimalValue(init);
      assert (10 * v + d) / 10 == v && (10 * v + d) % 10 == d;
      assert Decimal(10 * v + d) == Decimal(v) + [48 + d];
      Associate(Zeros(k), Decimal(v), [48 + d]);
    }
  }

  // ---- hexadecimal ----------------------------------------------------

  predicate IsHex(b: u8) {
    48 <= b <= 57 || 65 <= b <= 70 || 97 <= b <= 102
  }

  function HexDigit(b: u8): (v: nat)
    requires IsHex(b)
    ensures v < 16
  {
    if b <= 57 then b - 48 else if b <= 70 then b - 55 else b - 87
  }

  predicate AllHex(s: seq<u8>) {
    forall i :: 0 <= i < |s| ==> IsHex(s[i])
  }

  function HexValue(s: seq<u8>): nat
    requires AllHex(s)
  {
    if s == [] then 0 else HexValue(s[..|s| - 1]) * 16 + HexDigit(s[|s| - 1])
  }

  function LowerHex(v: nat): (b: u8)
    requires v < 16
    ensures IsHex(b) && HexDigit(b) == v
  {
    if v < 10 then 48 + v else 87 + v
  }

  /** The value of up to four digits, written out. */
  lemma HexValueOf(s: seq<u8>)
    requires AllHex(s) && 1 <= |s| <= 4
    ensures HexValue(s) ==
      (if |s| == 1 then HexDigit(s[0])
       else if |s| == 2 then HexDigit(s[0]) * 16 + HexDigit(s[1])
       else if |s| == 3 then HexDigit(s[0]) * 256 + HexDigit(s[1]) * 16 + HexDigit(s[2])
       else HexDigit(s[0]) * 4096 + HexDigit(s[1]) * 256 + HexDigit(s[2]) * 16 + HexDigit(s[3]))
  {
    assert HexValue(s[..0]) == 0;
    assert s[..1][..0] == s[..0] && HexValue(s[..1]) == HexDigit(s[0]);
    if |s| >= 2 {
      assert s[..2][..1] == s[..1] && HexValue(s[..2]) == HexDigit(s[0]) * 16 + HexDigit(s[1]);
    }
    if |s| >= 3 {
      assert s[..3][..2] == s[..2];
      assert HexValue(s[..3]) == HexDigit(s[0]) * 256 + HexDigit(s[1]) * 16 + HexDigit(s[2]);
    }
    assert s[..|s|] == s;
  }
}
