/**
 * The SGR (Select Graphic Rendition, section 8.3.117 of ECMA-48) builders of
 * package `font`: `SetStyle`, `Decorate` and `Splice`, with the colour and
 * style codes they are given.
 */
module Font {
  import opened ByteString
  import opened Decimal
  import opened Ansi
  import opened Utf8
  import opened Wrappers

  // Style codes.
  const Bold := 1
  const Dim := 2
  const Italic := 3
  const Underline := 4
  const BlinkSlow := 5
  const BlinkFast := 6
  const Reverse := 7
  const Hide := 8
  const CrossedOut := 9

  // Colour codes: foreground 30..37 and 90..97, background 40..47 and 100..107.
  const RESET := 0
  const Black := 30
  const Red := 31
  const Green := 32
  const Yellow := 33
  const Blue := 34
  const Magenta := 35
  const Cyan := 36
  const White := 37
  const LightBlack := 90
  const LightRed := 91
  const LightGreen := 92
  const LightYellow := 93
  const LightBlue := 94
  const LightMagenta := 95
  const LightCyan := 96
  const LightWhite := 97
  const BlackBg := 40
  const RedBg := 41
  const GreenBg := 42
  const YellowBg := 43
  const BlueBg := 44
  const MagentaBg := 45
  const CyanBg := 46
  const WhiteBg := 47
  const LightBlackBg := 100
  const LightRedBg := 101
  const LightGreenBg := 102
  const LightYellowBg := 103
  const LightBlueBg := 104
  const LightMagentaBg := 105
  const LightCyanBg := 106
  const LightWhiteBg := 107

  /** The final byte of SGR, 'm'. */
  const SGR: byte := 109

  /** The sequence that resets every attribute, "\033[0m". */
  function ResetSequence(): (r: seq<byte>)
    ensures r == [ESC, 91, 48, SGR]
  {
    ControlSequence([RESET], SGR)
  }

  /** The SGR sequence that selects `style`. */
  function SetStyle(style: int): (r: seq<byte>)
    ensures ParseControlSequence(r) == Some(([style], SGR))
    ensures forall text :: Decorated(text, [style]) == r + text + ResetSequence()
  {
    ControlSequenceRoundTrip([style], SGR);
    ControlSequence([style], SGR)
  }

  /**
   * What `Decorate(text, codes...)` returns: one SGR sequence selecting every
   * code, the text, and the reset sequence.
   */
  function Decorated(text: seq<byte>, codes: seq<int>): seq<byte>
  {
    ControlSequence(codes, SGR) + text + ResetSequence()
  }

  /** One more code extends the parameter text by a separator (unless it is the first) and its digits. */
  lemma ParamsStep(ps: seq<int>, i: nat)
    requires i < |ps|
    ensures Params(ps[..i + 1]) == Params(ps[..i]) + (if i > 0 then [SEMI] else []) + Itoa(ps[i])
  {
    assert ps[..i + 1][..i] == ps[..i];
  }

  lemma Assoc3(a: seq<byte>, b: seq<byte>, c: seq<byte>, d: seq<byte>)
    ensures a + b + c + d == a + (b + c + d)
  {
  }

  /** `Decorate`, appending to a buffer the way the `strings.Builder` loop does. */
  method Decorate(text: seq<byte>, style: seq<int>) returns (r: seq<byte>)
    ensures r == Decorated(text, style)
  {
    var buf := CSI;
    var l := |style|;
    for i := 0 to l
      invariant buf == CSI + Params(style[..i]) + (if 0 < i < l then [SEMI] else [])
    {
      ParamsStep(style, i);
      ghost var sep: seq<byte>, before := if i > 0 then [SEMI] else [], Params(style[..i]);
      var digits := Itoa(style[i]);
      assert buf == CSI + before + sep;
      buf := buf + digits;
      Assoc3(CSI, before, sep, digits);
      if i < l - 1 {
        buf := buf + [SEMI];
      }
    }
    assert style[..l] == style;
    buf := buf + [SGR];
    buf := buf + text;
    buf := buf + ResetSequence();
    r := buf;
  }

  /** With codes present, `Decorate` writes one separator fewer than there are codes, and none after the last. */
  lemma DecoratedSeparators(text: seq<byte>, codes: seq<int>)
    requires |codes| > 0
    ensures Count(ControlSequence(codes, SGR), SEMI) == |codes| - 1
    ensures Decorated(text, codes)[|Params(codes)| + 1] != SEMI
  {
    var p := Params(codes);
    var cs := ControlSequence(codes, SGR);
    assert cs == CSI + p + [SGR];
    CountConcat(CSI + p, [SGR], SEMI);
    CountConcat(CSI, p, SEMI);
    assert Params(codes)[|p| - 1] in Itoa(codes[|codes| - 1]) by {
      if |codes| > 1 {
        assert p == Params(codes[..|codes| - 1]) + [SEMI] + Itoa(codes[|codes| - 1]);
        var it := Itoa(codes[|codes| - 1]);
        assert p[|p| - 1] == it[|it| - 1];
      }
    }
    ItoaHasNoSemi(codes[|codes| - 1]);
  }

  /** With no codes, `Decorate` writes an SGR sequence with no parameter. */
  lemma DecoratedNoCodes(text: seq<byte>)
    ensures Decorated(text, []) == [ESC, 91, SGR] + text + [ESC, 91, 48, SGR]
  {
  }

  /** The text sits verbatim between the opening sequence and the reset sequence. */
  lemma DecoratedLayout(text: seq<byte>, codes: seq<int>)
    ensures var r := Decorated(text, codes);
      var n := |Params(codes)| + 3;
      |r| == n + |text| + 4 && r[..n] == ControlSequence(codes, SGR) &&
      r[n..n + |text|] == text && r[n + |text|..] == ResetSequence()
  {
  }

  /** Inside the opening sequence only its last byte is an 'm'. */
  lemma OpeningEnd(text: seq<byte>, codes: seq<int>, i: nat)
    requires i < |Params(codes)| + 3
    ensures (Decorated(text, codes)[i] == SGR) <==> i == |Params(codes)| + 2
  {
    var p := Params(codes);
    var r := Decorated(text, codes);
    if 2 <= i < |p| + 2 {
      assert r[i] == p[i - 2];
    }
  }

  /** The opening sequence ends at the first 'm': decorated strings determine their text and codes. */
  lemma DecoratedInjective(t1: seq<byte>, c1: seq<int>, t2: seq<byte>, c2: seq<int>)
    requires Decorated(t1, c1) == Decorated(t2, c2)
    ensures t1 == t2 && c1 == c2
  {
    var r := Decorated(t1, c1);
    var n1, n2 := |Params(c1)|, |Params(c2)|;
    if n1 < n2 {
      OpeningEnd(t2, c2, n1 + 2);
    } else if n2 < n1 {
      OpeningEnd(t1, c1, n2 + 2);
    }
    assert n1 == n2;
    DecoratedLayout(t1, c1);
    DecoratedLayout(t2, c2);
    assert |t1| == |t2|;
    assert t1 == r[n1 + 3..n1 + 3 + |t1|] == t2;
    assert ControlSequence(c1, SGR) == r[..n1 + 3] == ControlSequence(c2, SGR);
    assert Params(c1) == Params(c2);
    ParamsInjective(c1, c2);
  }

  /** The dynamically typed arguments of `Splice`. */
  datatype Arg = IntArg(i: int) | RuneArg(r: int) | StrArg(s: seq<byte>) | OtherArg

  /** What `Splice` writes for one argument. */
  function Piece(a: Arg): seq<byte>
  {
    match a
    case IntArg(i) => ControlSequence([i], SGR)
    case RuneArg(r) => EncodeRune(r)
    case StrArg(s) => s
    case OtherArg => []
  }

  /** What `Splice(args...)` returns. */
  function Spliced(args: seq<Arg>): seq<byte>
    decreases |args|
  {
    if |args| == 0 then [] else Piece(args[0]) + Spliced(args[1..])
  }

  /** One case of the type switch of `Splice`: the argument's bytes go to the end of the buffer. */
  method WritePiece(buf: seq<byte>, a: Arg) returns (buf': seq<byte>)
    ensures buf' == buf + Piece(a)
  {
    match a
    case IntArg(v) => buf' := buf + ControlSequence([v], SGR);
    case RuneArg(v) => buf' := buf + EncodeRune(v);
    case StrArg(v) => buf' := buf + v;
    case OtherArg => buf' := buf;
  }

  method Splice(args: seq<Arg>) returns (r: seq<byte>)
    ensures r == Spliced(args)
  {
    var buf := [];
    for i := 0 to |args|
      invariant buf == Spliced(args[..i])
    {
      TakeSnoc(args, i);
      SplicedSnoc(args[..i], args[i]);
      buf := WritePiece(buf, args[i]);
    }
    assert args[..|args|] == args;
    r := buf;
  }

  /** `Splice` writes its arguments in order: splicing a concatenation concatenates. */
  lemma {:induction false} SplicedConcat(a: seq<Arg>, b: seq<Arg>)
    ensures Spliced(a + b) == Spliced(a) + Spliced(b)
    decreases |a|
  {
    if |a| == 0 {
      assert a + b == b;
    } else {
      assert (a + b)[0] == a[0] && (a + b)[1..] == a[1..] + b;
      SplicedConcat(a[1..], b);
    }
  }

  lemma SplicedSnoc(a: seq<Arg>, x: Arg)
    ensures Spliced(a + [x]) == Spliced(a) + Piece(x)
  {
    SplicedConcat(a, [x]);
    assert [x][1..] == [];
  }

  /** An argument of any other type is dropped. */
  lemma SplicedDropsOther(a: seq<Arg>, b: seq<Arg>)
    ensures Spliced(a + [OtherArg] + b) == Spliced(a + b)
  {
    SplicedConcat(a + [OtherArg], b);
    SplicedSnoc(a, OtherArg);
    SplicedConcat(a, b);
  }

  /** A string argument is copied verbatim and an int argument becomes exactly `SetStyle` of it. */
  lemma SplicedPieces(a: seq<Arg>, s: seq<byte>, k: int)
    ensures Spliced(a + [StrArg(s)]) == Spliced(a) + s
    ensures Spliced(a + [IntArg(k)]) == Spliced(a) + SetStyle(k)
  {
    SplicedSnoc(a, StrArg(s));
    SplicedSnoc(a, IntArg(k));
  }
}
