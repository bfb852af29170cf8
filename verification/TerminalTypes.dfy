/** Values shared by the emulator, the session and the input encoder. */
module TerminalTypes {
  type u8 = x: int | 0 <= x < 0x100
  type u16 = x: int | 0 <= x < 0x1_0000
  type NonZeroU16 = x: int | 1 <= x < 0x1_0000 witness 1

  datatype Option<+T> = None | Some(value: T)

  datatype Rgb = Rgb(r: u8, g: u8, b: u8)

  datatype Color = Indexed(index: u8) | Direct(rgb: Rgb)

  datatype Style = Style(
    foreground: Option<Color>,
    background: Option<Color>,
    bold: bool,
    italic: bool,
    underline: bool,
    reverse: bool,
    hyperlink: Option<nat>)

  const DEFAULT_STYLE := Style(None, None, false, false, false, false, None)

  /** Width 2 is the lead of a wide glyph, width 0 its trailing half. */
  datatype Cell = Cell(ch: char, width: u8, style: Style)

  const EMPTY := Cell(' ', 1, DEFAULT_STYLE)

  function Blank(style: Style): Cell {
    Cell(' ', 1, style)
  }

  lemma Associate<T>(a: seq<T>, b: seq<T>, c: seq<T>)
    ensures a + (b + c) == a + b + c
  {
  }

  lemma SamePrefix<T>(a: seq<T>, b: seq<T>, c: seq<T>)
    ensures a + b == a + c <==> b == c
  {
    assert (a + b)[|a|..] == b && (a + c)[|a|..] == c;
  }

  function Min(a: int, b: int): int {
    if a <= b then a else b
  }

  function Max(a: int, b: int): int {
    if a <= b then b else a
  }

  /** Unsigned subtraction and addition that stop at the ends of the range. */
  function SatSub(a: nat, b: nat): nat {
    if a <= b then 0 else a - b
  }

  function SatAdd16(a: u16, b: u16): u16 {
    Min(a + b, 0xFFFF)
  }
}
