/**
 * Control sequences of ECMA-48 (section 5.4): the Control Sequence
 * Introducer ESC '[', numeric parameters written in decimal and separated by
 * ';', and one final byte in 0x40..0x7E. Every escape the library writes
 * (SGR in `font`, the cursor movements in `cursor`) has this shape, except
 * that a negative code is written with a '-', which the standard counts as
 * an intermediate byte rather than a parameter byte.
 */
module Ansi {
  import opened ByteString
  import opened Wrappers
  import opened Decimal

  const ESC: byte := 27
  const CSI: seq<byte> := [ESC, 91]
  const SEMI: byte := 59

  /** The bytes a written parameter string can hold: digits, ';' and the '-' of a negative code. */
  predicate IsWrittenParamByte(b: byte)
  {
    IsDigit(b) || b == MINUS || b == SEMI
  }

  /** ECMA-48 section 5.4: a parameter byte, 0x30..0x3F. */
  predicate IsParamByte(b: byte)
  {
    0x30 <= b <= 0x3F
  }

  /** ECMA-48 section 5.4: the final byte of a control sequence. */
  predicate IsFinalByte(b: byte)
  {
    0x40 <= b <= 0x7E
  }

  lemma ItoaHasNoSemi(n: int)
    ensures SEMI !in Itoa(n)
  {
    var s := Itoa(n);
    assert forall i :: 0 <= i < |s| ==> s[i] != SEMI;
  }

  /** The parameters written in decimal and joined by ';', with no separator after the last. */
  function Params(ps: seq<int>): (r: seq<byte>)
    ensures forall i :: 0 <= i < |r| ==> IsWrittenParamByte(r[i])
    ensures Count(r, SEMI) == if |ps| == 0 then 0 else |ps| - 1
    ensures |ps| > 0 ==> |r| > 0
    decreases |ps|
  {
    if |ps| == 0 then []
    else if |ps| == 1 then
      ItoaHasNoSemi(ps[0]);
      CountAbsent(Itoa(ps[0]), SEMI);
      Itoa(ps[0])
    else
      var init, last := Params(ps[..|ps| - 1]), Itoa(ps[|ps| - 1]);
      ItoaHasNoSemi(ps[|ps| - 1]);
      CountAbsent(last, SEMI);
      CountConcat(init + [SEMI], last, SEMI);
      CountConcat(init, [SEMI], SEMI);
      init + [SEMI] + last
  }

  /** Codes of at least 0 are written with parameter bytes of the standard only. */
  lemma {:induction false} ParamsStandard(ps: seq<int>)
    requires forall i :: 0 <= i < |ps| ==> ps[i] >= 0
    ensures forall i :: 0 <= i < |Params(ps)| ==> IsParamByte(Params(ps)[i])
    decreases |ps|
  {
    if |ps| > 1 {
      ParamsStandard(ps[..|ps| - 1]);
      var init, last := Params(ps[..|ps| - 1]), Itoa(ps[|ps| - 1]);
      assert Params(ps) == init + [SEMI] + last;
      assert forall i :: 0 <= i < |last| ==> IsDigit(last[i]);
    } else if |ps| == 1 {
      assert Params(ps) == Itoa(ps[0]);
    }
  }

  /** The control sequence with parameters `ps` and final byte `final`. */
  function ControlSequence(ps: seq<int>, final: byte): (r: seq<byte>)
    ensures |r| == |Params(ps)| + 3
    ensures r[..2] == CSI && r[|r| - 1] == final
    ensures r[2..|r| - 1] == Params(ps)
  {
    CSI + Params(ps) + [final]
  }

  /** The position of the last `b` in `s`. */
  function LastIndexOf(s: seq<byte>, b: byte): (r: Option<nat>)
    ensures r.Some? ==> r.value < |s| && s[r.value] == b && b !in s[r.value + 1..]
    ensures r.None? ==> b !in s
    decreases |s|
  {
    if |s| == 0 then None
    else if s[|s| - 1] == b then Some(|s| - 1)
    else
      var r := LastIndexOf(s[..|s| - 1], b);
      assert r.Some? ==> s[r.value + 1..] == s[..|s| - 1][r.value + 1..] + [s[|s| - 1]];
      assert r.None? ==> s == s[..|s| - 1] + [s[|s| - 1]];
      r
  }

  lemma {:induction false} LastIndexOfSplit(a: seq<byte>, b: byte, tail: seq<byte>)
    requires b !in tail
    ensures LastIndexOf(a + [b] + tail, b) == Some(|a|)
    decreases |tail|
  {
    if |tail| > 0 {
      var s := a + [b] + tail;
      assert s[|s| - 1] == tail[|tail| - 1];
      assert s[..|s| - 1] == a + [b] + tail[..|tail| - 1];
      LastIndexOfSplit(a, b, tail[..|tail| - 1]);
    }
  }

  /** How a parameter string with at least one separator is read back. */
  lemma ParseParamsSplit(a: seq<byte>, tail: seq<byte>)
    requires SEMI !in tail
    ensures ParseParams(a + [SEMI] + tail) ==
      match ParseParams(a)
      case None => None
      case Some(init) =>
        if |init| == 0 then None
        else (match ParseInt(tail) case None => None case Some(v) => Some(init + [v]))
  {
    var s := a + [SEMI] + tail;
    LastIndexOfSplit(a, SEMI, tail);
    assert s[..|a|] == a;
    assert s[|a| + 1..] == tail;
  }

  /** Reads back a parameter string: decimal numbers separated by ';', none of them empty. */
  function ParseParams(s: seq<byte>): (r: Option<seq<int>>)
    ensures r.Some? && |s| > 0 ==> |r.value| > 0
    decreases |s|
  {
    match LastIndexOf(s, SEMI)
    case None =>
      if |s| == 0 then Some([])
      else (match ParseInt(s) case None => None case Some(v) => Some([v]))
    case Some(k) =>
      match ParseParams(s[..k])
      case None => None
      case Some(init) =>
        if |init| == 0 then None
        else (match ParseInt(s[k + 1..]) case None => None case Some(v) => Some(init + [v]))
  }

  lemma {:induction false} ParamsRoundTrip(ps: seq<int>)
    ensures ParseParams(Params(ps)) == Some(ps)
    decreases |ps|
  {
    if |ps| == 1 {
      ItoaHasNoSemi(ps[0]);
      ItoaRoundTrip(ps[0]);
      assert LastIndexOf(Itoa(ps[0]), SEMI).None?;
      assert [ps[0]] == ps;
    } else if |ps| > 1 {
      var front := ps[..|ps| - 1];
      ItoaHasNoSemi(ps[|ps| - 1]);
      ParseParamsSplit(Params(front), Itoa(ps[|ps| - 1]));
      ParamsRoundTrip(front);
      ItoaRoundTrip(ps[|ps| - 1]);
      assert front + [ps[|ps| - 1]] == ps;
    }
  }

  /** Different parameter lists are written differently. */
  lemma ParamsInjective(ps: seq<int>, qs: seq<int>)
    requires Params(ps) == Params(qs)
    ensures ps == qs
  {
    ParamsRoundTrip(ps);
    ParamsRoundTrip(qs);
  }

  /** Reads back a control sequence whose parameters are all numeric. */
  function ParseControlSequence(s: seq<byte>): (r: Option<(seq<int>, byte)>)
    ensures r.Some? ==> IsFinalByte(r.value.1)
  {
    if |s| >= 3 && s[..2] == CSI && IsFinalByte(s[|s| - 1]) then
      match ParseParams(s[2..|s| - 1])
      case None => None
      case Some(ps) => Some((ps, s[|s| - 1]))
    else None
  }

  /** A control sequence is read back as the parameters and the final byte it was written with. */
  lemma ControlSequenceRoundTrip(ps: seq<int>, final: byte)
    requires IsFinalByte(final)
    ensures ParseControlSequence(ControlSequence(ps, final)) == Some((ps, final))
  {
    ParamsRoundTrip(ps);
  }

  /**
   * No final byte occurs inside a parameter string, so the first one ends the
   * sequence: a terminal, like `ParseControlSequence`, reads the parameters
   * `Decorate` and `SetStyle` write without cutting them short.
   */
  lemma ParamsHaveNoFinalByte(ps: seq<int>, i: int)
    requires 0 <= i < |Params(ps)|
    ensures !IsFinalByte(Params(ps)[i])
  {
  }
}
