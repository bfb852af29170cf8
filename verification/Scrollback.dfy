/** The retained history: what a displaced row adds and what trimming keeps. */
module Scrollback {
  import opened TerminalTypes
  import opened Grid

  function CellCount(lines: seq<Row>): (n: nat) {
    if lines == [] then 0 else |lines[0]| + CellCount(lines[1..])
  }

  /** The rows of a list that draw something, in order. */
  function Content(rows: seq<Row>): (r: seq<Row>)
    ensures forall i :: 0 <= i < |r| ==> !IsBlankRow(r[i])
  {
    if rows == [] then []
    else (if IsBlankRow(rows[0]) then [] else [rows[0]]) + Content(rows[1..])
  }

  lemma {:induction false} CellCountAppend(a: seq<Row>, b: seq<Row>)
    ensures CellCount(a + b) == CellCount(a) + CellCount(b)
  {
    if a == [] {
      assert a + b == b;
    } else {
      CellCountAppend(a[1..], b);
      assert (a + b)[1..] == a[1..] + b;
    }
  }

  lemma {:induction false} ContentAppend(a: seq<Row>, b: seq<Row>)
    ensures Content(a + b) == Content(a) + Content(b)
  {
    if a == [] {
      assert a + b == b;
    } else {
      ContentAppend(a[1..], b);
      assert (a + b)[1..] == a[1..] + b;
      Associate(if IsBlankRow(a[0]) then [] else [a[0]], Content(a[1..]), Content(b));
    }
  }

  /** Both limits hold; a limit of zero keeps nothing, not even empty lines. */
  predicate Fits(lines: seq<Row>, maxLines: nat, maxCells: nat) {
    |lines| <= maxLines && CellCount(lines) <= maxCells && (maxCells == 0 ==> lines == [])
  }

  /** The history from line `k` on is within both limits. */
  predicate FitsFrom(lines: seq<Row>, k: nat, maxLines: nat, maxCells: nat) {
    k <= |lines| && Fits(lines[k..], maxLines, maxCells)
  }

  /** The oldest lines dropped until both limits hold. */
  function Trimmed(lines: seq<Row>, maxLines: nat, maxCells: nat): (r: seq<Row>)
    ensures Fits(r, maxLines, maxCells)
  {
    if lines == [] || Fits(lines, maxLines, maxCells) then lines else Trimmed(lines[1..], maxLines, maxCells)
  }

  /** What is kept is the longest suffix within both limits. */
  lemma {:induction false} TrimmedIsLongest(lines: seq<Row>, maxLines: nat, maxCells: nat)
    ensures var r := Trimmed(lines, maxLines, maxCells);
      && |r| <= |lines| && r == lines[|lines| - |r|..]
      && forall k :: 0 <= k < |lines| - |r| ==> !FitsFrom(lines, k, maxLines, maxCells)
  {
    if lines != [] && !Fits(lines, maxLines, maxCells) {
      TrimmedIsLongest(lines[1..], maxLines, maxCells);
      assert lines[0..] == lines;
      forall k | 0 < k <= |lines|
        ensures FitsFrom(lines, k, maxLines, maxCells) == FitsFrom(lines[1..], k - 1, maxLines, maxCells)
      {
        assert lines[k..] == lines[1..][k - 1..];
      }
    }
  }

  /** Drops the oldest lines until both limits hold; `cells` counts what is left. */
  method Trim(lines0: seq<Row>, cells0: nat, maxLines: nat, maxCells: nat) returns (lines: seq<Row>, cells: nat)
    requires cells0 == CellCount(lines0)
    ensures lines == Trimmed(lines0, maxLines, maxCells) && cells == CellCount(lines)
  {
    lines, cells := lines0, cells0;
    if maxLines == 0 || maxCells == 0 {
      OnlyEmptyFits(lines, maxLines, maxCells);
      return [], 0;
    }
    while lines != [] && (|lines| > maxLines || cells > maxCells)
      invariant cells == CellCount(lines)
      invariant Trimmed(lines, maxLines, maxCells) == Trimmed(lines0, maxLines, maxCells)
    {
      assert cells >= |lines[0]|;
      cells := SatSub(cells, |lines[0]|);
      lines := lines[1..];
    }
  }

  lemma OnlyEmptyFits(lines: seq<Row>, maxLines: nat, maxCells: nat)
    requires maxLines == 0 || maxCells == 0
    ensures Trimmed(lines, maxLines, maxCells) == []
  {
  }

  /** A suffix of what fits fits, so the longest one is the only maximal one. */
  lemma FitsSuffix(lines: seq<Row>, k: nat, maxLines: nat, maxCells: nat)
    requires Fits(lines, maxLines, maxCells) && k <= |lines|
    ensures Fits(lines[k..], maxLines, maxCells)
  {
    CellCountAppend(lines[..k], lines[k..]);
    assert lines == lines[..k] + lines[k..];
  }

  /** A suffix that fits and cannot be extended is the trimmed history. */
  lemma TrimmedUnique(lines: seq<Row>, k: nat, maxLines: nat, maxCells: nat)
    requires FitsFrom(lines, k, maxLines, maxCells)
    requires k == 0 || !FitsFrom(lines, k - 1, maxLines, maxCells)
    ensures Trimmed(lines, maxLines, maxCells) == lines[k..]
  {
    var j := |lines| - |Trimmed(lines, maxLines, maxCells)|;
    TrimmedIsLongest(lines, maxLines, maxCells);
    if j < k {
      assert lines[j..][k - 1 - j..] == lines[k - 1..];
      FitsSuffix(lines[j..], k - 1 - j, maxLines, maxCells);
    }
  }

  lemma FitsBoth(lines: seq<Row>, lines1: nat, cells1: nat, lines2: nat, cells2: nat)
    ensures Fits(lines, Min(lines1, lines2), Min(cells1, cells2))
      <==> Fits(lines, lines1, cells1) && Fits(lines, lines2, cells2)
  {
  }

  lemma TrimStep(lines: seq<Row>, maxLines: nat, maxCells: nat)
    requires lines != []
    ensures Trimmed(lines, maxLines, maxCells)
      == if Fits(lines, maxLines, maxCells) then lines else Trimmed(lines[1..], maxLines, maxCells)
  {
  }

  /** Trimming twice is trimming once to the tighter of each limit. */
  lemma {:induction false} TrimCompose(lines: seq<Row>, lines1: nat, cells1: nat, lines2: nat, cells2: nat)
    ensures Trimmed(Trimmed(lines, lines1, cells1), lines2, cells2)
      == Trimmed(lines, Min(lines1, lines2), Min(cells1, cells2))
  {
    if lines != [] {
      FitsBoth(lines, lines1, cells1, lines2, cells2);
      TrimStep(lines, lines1, cells1);
      TrimStep(lines, Min(lines1, lines2), Min(cells1, cells2));
      TrimCompose(lines[1..], lines1, cells1, lines2, cells2);
      if Fits(lines, lines1, cells1) {
        TrimStep(lines, lines2, cells2);
        FitsSuffix(lines, 1, lines1, cells1);
      }
    }
  }

  /** Trimming to the same limits again removes nothing. */
  lemma TrimIdempotent(lines: seq<Row>, maxLines: nat, maxCells: nat)
    ensures Trimmed(Trimmed(lines, maxLines, maxCells), maxLines, maxCells) == Trimmed(lines, maxLines, maxCells)
  {
    TrimCompose(lines, maxLines, maxCells, maxLines, maxCells);
  }
}
