/**
 * The cursor movements of package `cursor`, each one control sequence of
 * ECMA-48: CUP (section 8.3.21), CUU (8.3.22), CUD (8.3.19), CUF (8.3.20)
 * and CUB (8.3.18), plus the DEC private mode 25 that hides and shows the
 * cursor.
 */
module Cursor {
  import opened ByteString
  import opened Wrappers
  import opened Ansi

  const CUP: byte := 72  // 'H'
  const CUU: byte := 65  // 'A'
  const CUD: byte := 66  // 'B'
  const CUF: byte := 67  // 'C'
  const CUB: byte := 68  // 'D'

  /** Moves to the 0-based cell (x, y); CUP counts lines and columns from 1. */
  function GotoXY(x: int, y: int): (r: seq<byte>)
    ensures ParseControlSequence(r) == Some(([x + 1, y + 1], CUP))
  {
    ControlSequenceRoundTrip([x + 1, y + 1], CUP);
    ControlSequence([x + 1, y + 1], CUP)
  }

  function Up(n: int): (r: seq<byte>)
    ensures ParseControlSequence(r) == Some(([n], CUU))
  {
    ControlSequenceRoundTrip([n], CUU);
    ControlSequence([n], CUU)
  }

  function Down(n: int): (r: seq<byte>)
    ensures ParseControlSequence(r) == Some(([n], CUD))
  {
    ControlSequenceRoundTrip([n], CUD);
    ControlSequence([n], CUD)
  }

  function Left(n: int): (r: seq<byte>)
    ensures ParseControlSequence(r) == Some(([n], CUB))
  {
    ControlSequenceRoundTrip([n], CUB);
    ControlSequence([n], CUB)
  }

  function Right(n: int): (r: seq<byte>)
    ensures ParseControlSequence(r) == Some(([n], CUF))
  {
    ControlSequenceRoundTrip([n], CUF);
    ControlSequence([n], CUF)
  }

  /** "\033[?25l": reset DEC private mode 25. */
  function HideCursor(): (r: seq<byte>)
    ensures |r| == 6 && r[..2] == CSI && r[|r| - 1] == 108
  {
    CSI + Str("?25") + [108]
  }

  /** "\033[?25h": set DEC private mode 25. */
  function ShowCursor(): (r: seq<byte>)
    ensures |r| == 6 && r[..2] == CSI && r[|r| - 1] == 104
  {
    CSI + Str("?25") + [104]
  }

  /**
   * The two differ only in their final byte, so a terminal tells them apart
   * by that byte alone; and the '?' private marker keeps them apart from every
   * numeric sequence, so no reading of `GotoXY`, `Up`, `Down`, `Left` or
   * `Right` output can be mistaken for either.
   */
  lemma HideShowDifferInFinalByte()
    ensures |HideCursor()| == |ShowCursor()| == 6
    ensures HideCursor()[..5] == ShowCursor()[..5]
    ensures HideCursor()[5] != ShowCursor()[5]
    ensures ParseControlSequence(HideCursor()).None? && ParseControlSequence(ShowCursor()).None?
  {
    var mid := HideCursor()[2..5];
    assert mid == Str("?25");
    assert mid[0] == 63;
    assert LastIndexOf(mid, SEMI).None?;
    assert ShowCursor()[2..5] == mid;
  }
}
