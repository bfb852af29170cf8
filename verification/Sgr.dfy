/** SGR: the graphic-rendition codes of ECMA-48 section 8.3.117 applied to a pen. */
module Sgr {
  import opened TerminalTypes

  /** The color after a 38 or 48, and how many codes it takes. */
  function ParseExtendedColor(values: seq<u16>): (r: Option<(Color, nat)>)
    ensures r.Some? ==> 2 <= r.value.1 <= |values|
  {
    if |values| == 0 then None
    else if values[0] == 5 then
      if |values| < 2 || values[1] > 255 then None else Some((Indexed(values[1]), 2))
    else if values[0] == 2 then
      if |values| < 2 || values[1] > 255 then None
      else if |values| < 3 || values[2] > 255 then None
      else if |values| < 4 || values[3] > 255 then None
      else Some((Direct(Rgb(values[1], values[2], values[3])), 4))
    else None
  }

  /** One code other than 38 and 48. */
  function ApplyCode(pen: Style, n: u16): Style {
    if n == 0 then DEFAULT_STYLE
    else if n == 1 then pen.(bold := true)
    else if n == 3 then pen.(italic := true)
    else if n == 4 then pen.(underline := true)
    else if n == 7 then pen.(reverse := true)
    else if n == 22 then pen.(bold := false)
    else if n == 23 then pen.(italic := false)
    else if n == 24 then pen.(underline := false)
    else if n == 27 then pen.(reverse := false)
    else if 30 <= n <= 37 then pen.(foreground := Some(Indexed(n - 30)))
    else if n == 39 then pen.(foreground := None)
    else if 40 <= n <= 47 then pen.(background := Some(Indexed(n - 40)))
    else if n == 49 then pen.(background := None)
    else if 90 <= n <= 97 then pen.(foreground := Some(Indexed(n - 90 + 8)))
    else if 100 <= n <= 107 then pen.(background := Some(Indexed(n - 100 + 8)))
    else pen
  }

  /** How many codes the first one takes, counting itself. */
  function Taken(values: seq<u16>): (n: nat)
    requires |values| > 0
    ensures 1 <= n <= |values|
  {
    if values[0] == 38 || values[0] == 48 then
      match ParseExtendedColor(values[1..]) case Some(c) => 1 + c.1 case None => 1
    else 1
  }

  /** The pen after the first code and what it takes with it. */
  function ApplyFirst(pen: Style, values: seq<u16>): Style
    requires |values| > 0
  {
    if values[0] == 38 then
      match ParseExtendedColor(values[1..]) case Some(c) => pen.(foreground := Some(c.0)) case None => pen
    else if values[0] == 48 then
      match ParseExtendedColor(values[1..]) case Some(c) => pen.(background := Some(c.0)) case None => pen
    else ApplyCode(pen, values[0])
  }

  /** The codes applied left to right. */
  function Apply(pen: Style, values: seq<u16>): Style
    decreases |values|
  {
    if values == [] then pen else Apply(ApplyFirst(pen, values), values[Taken(values)..])
  }

  /** An SGR sequence; one with no parameter at all resets. */
  function Render(pen: Style, values: seq<u16>): Style {
    if values == [] then DEFAULT_STYLE else Apply(pen, values)
  }

  method HandleSgr(pen0: Style, values: seq<u16>) returns (pen: Style)
    ensures pen == Render(pen0, values)
  {
    if values == [] {
      return DEFAULT_STYLE;
    }
    pen := pen0;
    var i := 0;
    while i < |values|
      invariant 0 <= i <= |values|
      invariant Apply(pen, values[i..]) == Apply(pen0, values)
    {
      ghost var start, before := i, pen;
      var n := values[i];
      if n == 38 {
        match ParseExtendedColor(values[i + 1..])
        case Some(c) => pen := pen.(foreground := Some(c.0)); i := i + c.1;
        case None =>
      } else if n == 48 {
        match ParseExtendedColor(values[i + 1..])
        case Some(c) => pen := pen.(background := Some(c.0)); i := i + c.1;
        case None =>
      } else {
        pen := ApplyCode(pen, n);
      }
      i := i + 1;
      assert values[start..][1..] == values[start + 1..];
      assert values[start..][Taken(values[start..])..] == values[i..];
    }
  }

  // ---- splitting a code list ------------------------------------------

  /** The codes after a 38 or 48 stop before the color is complete. */
  predicate Truncated(values: seq<u16>) {
    || |values| == 0
    || (values[0] == 5 && |values| == 1)
    || (values[0] == 2 && |values| < 4 && forall i :: 1 <= i < |values| ==> values[i] <= 255)
  }

  /** No color code of the list is cut off by the end of it. */
  predicate Closed(values: seq<u16>)
    decreases |values|
  {
    values == []
    || ((values[0] == 38 || values[0] == 48 ==> !Truncated(values[1..]))
        && Closed(values[Taken(values)..]))
  }

  lemma ExtendedColorPrefix(p: seq<u16>, q: seq<u16>)
    requires !Truncated(p)
    ensures ParseExtendedColor(p + q) == ParseExtendedColor(p)
  {
    if p[0] == 2 && |p| < 4 {
      var i :| 1 <= i < |p| && p[i] > 255;
    }
  }

  /** What a complete first code does does not depend on what follows the list. */
  lemma Peel(pen: Style, p: seq<u16>, q: seq<u16>)
    requires p != [] && (p[0] == 38 || p[0] == 48 ==> !Truncated(p[1..]))
    ensures Apply(pen, p + q) == Apply(ApplyFirst(pen, p), p[Taken(p)..] + q)
  {
    assert (p + q)[1..] == p[1..] + q;
    if p[0] == 38 || p[0] == 48 {
      ExtendedColorPrefix(p[1..], q);
    }
    assert (p + q)[Taken(p)..] == p[Taken(p)..] + q;
  }

  lemma {:induction false} ApplyAppend(pen: Style, p: seq<u16>, q: seq<u16>)
    requires Closed(p)
    ensures Apply(pen, p + q) == Apply(Apply(pen, p), q)
    decreases |p|
  {
    if p == [] {
      assert p + q == q;
    } else {
      Peel(pen, p, q);
      ApplyAppend(ApplyFirst(pen, p), p[Taken(p)..], q);
    }
  }

  /**
   * Sending two non-empty lists in one sequence or in two is the same for every
   * pen and continuation exactly when the first list cuts off no color.
   */
  lemma Compositional(p: seq<u16>)
    requires p != []
    ensures Closed(p) <==>
      forall pen: Style, q: seq<u16> :: q != [] ==> Render(pen, p + q) == Render(Render(pen, p), q)
  {
    if Closed(p) {
      forall pen: Style, q: seq<u16> | q != []
        ensures Render(pen, p + q) == Render(Render(pen, p), q)
      {
        ApplyAppend(pen, p, q);
      }
    } else {
      var pen := DEFAULT_STYLE;
      var q, q' := CutOff(p, pen);
      InertApply(Apply(pen, p), q);
      InertApply(Apply(pen, p), q');
      assert Render(pen, p + q) != Render(Render(pen, p), q) || Render(pen, p + q') != Render(Render(pen, p), q');
    }
  }

  /** Codes of 5 (blink, which the pen does not hold), 200 and 201 change nothing on their own. */
  predicate Inert(q: seq<u16>) {
    forall i :: 0 <= i < |q| ==> q[i] == 200 || q[i] == 201 || q[i] == 5
  }

  lemma {:induction false} InertApply(pen: Style, q: seq<u16>)
    requires Inert(q)
    ensures Apply(pen, q) == pen
    decreases |q|
  {
    if q != [] {
      InertApply(pen, q[1..]);
    }
  }

  /** The codes that complete a truncated color with the channel or index `k`. */
  function Completion(values: seq<u16>, k: u16): (q: seq<u16>)
    requires Truncated(values) && (k == 200 || k == 201)
    ensures q != [] && Inert(q)
  {
    if |values| == 0 then [5, k]
    else if values[0] == 5 then [k]
    else seq(4 - |values|, _ => k)
  }

  lemma CompletionParses(values: seq<u16>, k: u16)
    requires Truncated(values) && (k == 200 || k == 201)
    ensures ParseExtendedColor(values + Completion(values, k)).Some?
    ensures var c := ParseExtendedColor(values + Completion(values, k)).value;
      c.1 == |values| + |Completion(values, k)|
      && c.0 == (if |values| == 0 || values[0] == 5 then Indexed(k)
                 else Direct(Rgb((values + Completion(values, k))[1], (values + Completion(values, k))[2], k)))
  {
  }

  lemma CompletedHere(pen: Style, p: seq<u16>, k: u16)
    requires p != [] && (p[0] == 38 || p[0] == 48) && Truncated(p[1..]) && (k == 200 || k == 201)
    ensures var color := Some(ParseExtendedColor(p[1..] + Completion(p[1..], k)).value.0);
      Apply(pen, p + Completion(p[1..], k))
      == if p[0] == 38 then pen.(foreground := color) else pen.(background := color)
  {
    var q := p + Completion(p[1..], k);
    CompletionParses(p[1..], k);
    assert q[1..] == p[1..] + Completion(p[1..], k);
    assert q[Taken(q)..] == [];
  }

  /**
   * For a list that cuts a color off, two continuations that mean nothing on
   * their own complete it to two different colors.
   */
  lemma {:induction false} CutOff(p: seq<u16>, pen: Style) returns (q: seq<u16>, q': seq<u16>)
    requires p != [] && !Closed(p)
    ensures q != [] && Inert(q) && q' != [] && Inert(q')
    ensures Apply(pen, p + q) != Apply(pen, p + q')
    decreases |p|
  {
    if (p[0] == 38 || p[0] == 48) && Truncated(p[1..]) {
      q, q' := Completion(p[1..], 200), Completion(p[1..], 201);
      CompletedHere(pen, p, 200);
      CompletedHere(pen, p, 201);
      CompletionParses(p[1..], 200);
      CompletionParses(p[1..], 201);
    } else {
      q, q' := CutOff(p[Taken(p)..], ApplyFirst(pen, p));
      Peel(pen, p, q);
      Peel(pen, p, q');
    }
  }

  // ---- writing a style as codes ---------------------------------------

  function ColorCodes(base: u16, color: Option<Color>): (codes: seq<u16>) {
    match color
    case None => []
    case Some(Indexed(index)) => [base, 5, index]
    case Some(Direct(rgb)) => [base, 2, rgb.r, rgb.g, rgb.b]
  }

  function FlagCode(on: bool, code: u16): (codes: seq<u16>) {
    if on then [code] else []
  }

  /** A reset followed by what the style has. */
  function Codes(style: Style): (codes: seq<u16>) {
    [0] + (FlagCode(style.bold, 1) + (FlagCode(style.italic, 3) + (FlagCode(style.underline, 4)
    + (FlagCode(style.reverse, 7) + (ColorCodes(38, style.foreground) + ColorCodes(48, style.background))))))
  }

  lemma ApplyFlag(pen: Style, on: bool, code: u16)
    requires code != 38 && code != 48
    ensures Closed(FlagCode(on, code))
    ensures Apply(pen, FlagCode(on, code)) == if on then ApplyCode(pen, code) else pen
  {
    if on {
      assert [code][1..] == [];
    }
  }

  lemma ApplyColor(pen: Style, color: Option<Color>, base: u16)
    requires base == 38 || base == 48
    ensures Closed(ColorCodes(base, color))
    ensures Apply(pen, ColorCodes(base, color)) ==
      if color.None? then pen
      else if base == 38 then pen.(foreground := color) else pen.(background := color)
  {
    var codes := ColorCodes(base, color);
    if color.Some? {
      assert codes[Taken(codes)..] == [];
      assert Apply(pen, codes) == ApplyFirst(pen, codes);
    }
  }

  /** From any pen, the codes of a style without a link restore that style. */
  lemma CodesRestore(pen: Style, style: Style)
    requires style.hyperlink.None?
    ensures Render(pen, Codes(style)) == style
  {
    var c2, c3, c4, c5, c6, c7 := FlagCode(style.bold, 1), FlagCode(style.italic, 3),
      FlagCode(style.underline, 4), FlagCode(style.reverse, 7),
      ColorCodes(38, style.foreground), ColorCodes(48, style.background);
    ApplyFlag(pen, true, 0);
    ApplyAppend(pen, [0], c2 + (c3 + (c4 + (c5 + (c6 + c7)))));
    var p1 := DEFAULT_STYLE;
    ApplyFlag(p1, style.bold, 1);
    ApplyAppend(p1, c2, c3 + (c4 + (c5 + (c6 + c7))));
    var p2 := p1.(bold := style.bold);
    ApplyFlag(p2, style.italic, 3);
    ApplyAppend(p2, c3, c4 + (c5 + (c6 + c7)));
    var p3 := p2.(italic := style.italic);
    ApplyFlag(p3, style.underline, 4);
    ApplyAppend(p3, c4, c5 + (c6 + c7));
    var p4 := p3.(underline := style.underline);
    ApplyFlag(p4, style.reverse, 7);
    ApplyAppend(p4, c5, c6 + c7);
    var p5 := p4.(reverse := style.reverse);
    ApplyColor(p5, style.foreground, 38);
    ApplyAppend(p5, c6, c7);
    ApplyColor(p5.(foreground := style.foreground), style.background, 48);
  }

  // ---- what each code means -------------------------------------------

  lemma OneCode(pen: Style, n: u16)
    ensures Render(pen, [n]) == ApplyFirst(pen, [n])
  {
    var codes: seq<u16> := [n];
    assert codes[Taken(codes)..] == [];
    assert Apply(pen, codes) == Apply(ApplyFirst(pen, codes), []);
  }

  lemma ColorOf(pen: Style, base: u16, index: u16)
    requires (base == 38 || base == 48) && index <= 255
    ensures Render(pen, [base, 5, index])
      == if base == 38 then pen.(foreground := Some(Indexed(index))) else pen.(background := Some(Indexed(index)))
  {
    var codes: seq<u16> := [base, 5, index];
    assert codes == ColorCodes(base, Some(Indexed(index)));
    ApplyColor(pen, Some(Indexed(index)), base);
  }

  /** A code over 20 takes back what one sets, and no code at all takes back everything. */
  lemma CodesTakeBack(pen: Style)
    ensures Render(Render(pen, [1]), [22]) == pen.(bold := false) && Render(pen, [1]).bold
    ensures Render(Render(pen, [3]), [23]) == pen.(italic := false) && Render(pen, [3]).italic
    ensures Render(Render(pen, [4]), [24]) == pen.(underline := false) && Render(pen, [4]).underline
    ensures Render(Render(pen, [7]), [27]) == pen.(reverse := false) && Render(pen, [7]).reverse
    ensures Render(pen, [39]) == pen.(foreground := None) && Render(pen, [49]) == pen.(background := None)
    ensures Render(pen, []) == Render(pen, [0]) == Style(None, None, false, false, false, false, None)
  {
    OneCode(pen, 0);
    OneCode(pen, 1);
    OneCode(pen, 3);
    OneCode(pen, 4);
    OneCode(pen, 7);
    OneCode(pen, 39);
    OneCode(pen, 49);
    OneCode(pen.(bold := true), 22);
    OneCode(pen.(italic := true), 23);
    OneCode(pen.(underline := true), 24);
    OneCode(pen.(reverse := true), 27);
  }

  /** The short color codes are the first sixteen entries of the palette, and do what the long ones do. */
  lemma ShortColors(pen: Style, i: nat)
    requires i < 8
    ensures Render(pen, [30 + i]) == Render(pen, [38, 5, i]) == pen.(foreground := Some(Indexed(i)))
    ensures Render(pen, [40 + i]) == Render(pen, [48, 5, i]) == pen.(background := Some(Indexed(i)))
    ensures Render(pen, [90 + i]) == Render(pen, [38, 5, 8 + i]) == pen.(foreground := Some(Indexed(8 + i)))
    ensures Render(pen, [100 + i]) == Render(pen, [48, 5, 8 + i]) == pen.(background := Some(Indexed(8 + i)))
  {
    ColorOf(pen, 38, i);
    ColorOf(pen, 48, i);
    ColorOf(pen, 38, 8 + i);
    ColorOf(pen, 48, 8 + i);
    OneCode(pen, 30 + i);
    OneCode(pen, 40 + i);
    OneCode(pen, 90 + i);
    OneCode(pen, 100 + i);
  }

  /** Every other code changes nothing. */
  lemma OtherCodes(pen: Style, n: u16)
    requires n !in {0, 1, 3, 4, 7, 22, 23, 24, 27, 39, 49}
    requires !(30 <= n <= 37) && !(40 <= n <= 47) && !(90 <= n <= 97) && !(100 <= n <= 107)
    ensures Render(pen, [n]) == pen
  {
    OneCode(pen, n);
  }
}
