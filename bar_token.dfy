/**
 * The format tokenizer of both progress-bar packages (`unmarshalToken`, the
 * same code in `pb` and in the legacy `progress_bar`), and the spinner token,
 * the only token with state of its own.
 */
module BarToken {
  import opened ByteString
  import opened Wrappers

  const PERCENT: byte := 37

  /** What a token is, without the state a spinner carries. */
  datatype Kind = Bar | Current | Total | Percent | Elapsed | Rate | Spinner | Text(payload: seq<byte>)

  /** The built-in names, in the order they are tried. */
  const LegalTokens: seq<seq<byte>> := [
    [37, 98, 97, 114],                     // %bar
    [37, 99, 117, 114, 114, 101, 110, 116], // %current
    [37, 116, 111, 116, 97, 108],           // %total
    [37, 112, 101, 114, 99, 101, 110, 116], // %percent
    [37, 101, 108, 97, 112, 115, 101, 100], // %elapsed
    [37, 114, 97, 116, 101],                // %rate
    [37, 115, 112, 105, 110, 110, 101, 114] // %spinner
  ]

  function NamedKind(i: nat): (k: Kind)
    requires i < |LegalTokens|
    ensures !k.Text?
  {
    [Bar, Current, Total, Percent, Elapsed, Rate, Spinner][i]
  }

  /** How a token is spelled in the format string. */
  function Spelling(k: Kind): seq<byte>
  {
    match k
    case Bar => LegalTokens[0]
    case Current => LegalTokens[1]
    case Total => LegalTokens[2]
    case Percent => LegalTokens[3]
    case Elapsed => LegalTokens[4]
    case Rate => LegalTokens[5]
    case Spinner => LegalTokens[6]
    case Text(p) => p
  }

  /** The spellings of `ks`, concatenated. */
  function Flatten(ks: seq<Kind>): seq<byte>
    decreases |ks|
  {
    if |ks| == 0 then [] else Spelling(ks[0]) + Flatten(ks[1..])
  }

  predicate HasPrefix(s: seq<byte>, p: seq<byte>)
  {
    |p| <= |s| && s[..|p|] == p
  }

  /** The first built-in name at index `from` or later that `s` starts with. */
  function FirstMatch(s: seq<byte>, from: nat): (r: Option<nat>)
    requires from <= |LegalTokens|
    ensures r.Some? ==> from <= r.value < |LegalTokens| && HasPrefix(s, LegalTokens[r.value])
    ensures r.Some? ==> forall j :: from <= j < r.value ==> !HasPrefix(s, LegalTokens[j])
    ensures r.None? ==> forall j :: from <= j < |LegalTokens| ==> !HasPrefix(s, LegalTokens[j])
    decreases |LegalTokens| - from
  {
    if from == |LegalTokens| then None
    else if HasPrefix(s, LegalTokens[from]) then Some(from)
    else FirstMatch(s, from + 1)
  }

  /** `strings.IndexAny(s, "%")`. */
  function IndexOfPercent(s: seq<byte>): (r: Option<nat>)
    ensures r.Some? ==> r.value < |s| && s[r.value] == PERCENT && PERCENT !in s[..r.value]
    ensures r.None? ==> PERCENT !in s
    decreases |s|
  {
    if |s| == 0 then None
    else if s[0] == PERCENT then Some(0)
    else
      var r := IndexOfPercent(s[1..]);
      assert r.Some? ==> s[..r.value + 1] == [s[0]] + s[1..][..r.value];
      assert s == [s[0]] + s[1..];
      if r.None? then None else Some(r.value + 1)
  }

  /** Where a literal that starts at `s[0]` ends: just before the next '%' after the first byte. */
  function LiteralEnd(s: seq<byte>): (e: nat)
    requires |s| > 0
    ensures 1 <= e <= |s|
    ensures PERCENT !in s[1..e]
    ensures e < |s| ==> s[e] == PERCENT
  {
    match IndexOfPercent(s[1..])
    case None => |s|
    case Some(k) => k + 1
  }

  /**
   * The token that starts `s` and how many bytes it spans: a built-in name
   * when `s` starts with '%' and one of the names, otherwise a literal.
   */
  function NextToken(s: seq<byte>): (r: (Kind, nat))
    requires |s| > 0
    ensures 0 < r.1 <= |s|
    ensures Spelling(r.0) == s[..r.1]
  {
    if s[0] == PERCENT && FirstMatch(s, 0).Some? then
      var i := FirstMatch(s, 0).value;
      (NamedKind(i), |LegalTokens[i]|)
    else
      var e := LiteralEnd(s);
      (Text(s[..e]), e)
  }

  /** The tokens `unmarshalToken` builds from `s`. */
  function Tokenize(s: seq<byte>): (r: seq<Kind>)
    ensures |r| <= |s|
    ensures r == [] <==> s == []
    decreases |s|
  {
    if |s| == 0 then [] else [NextToken(s).0] + Tokenize(s[NextToken(s).1..])
  }

  /**
   * Every built-in name is `%` and at least one more byte: a matched name
   * always consumes more than the `%` itself, so a lone `%` at the end of a
   * format can only start a literal, as `UnknownDegrades` describes.
   */
  lemma NamesAreNonEmpty(i: nat)
    requires i < |LegalTokens|
    ensures |LegalTokens[i]| > 1 && LegalTokens[i][0] == PERCENT
  {
  }

  /** Tokenizing loses nothing: the spellings of the tokens are the format string again. */
  lemma {:induction false} TokenizeLossless(s: seq<byte>)
    ensures Flatten(Tokenize(s)) == s
    decreases |s|
  {
    if |s| > 0 {
      var n := NextToken(s).1;
      TokenizeLossless(s[n..]);
      assert s == s[..n] + s[n..];
    }
  }

  /** A non-empty format without '%' is one literal. */
  lemma TokenizeNoPercent(s: seq<byte>)
    requires |s| > 0 && PERCENT !in s
    ensures Tokenize(s) == [Text(s)]
  {
    assert PERCENT !in s[1..];
    assert LiteralEnd(s) == |s|;
    assert s[..|s|] == s && s[|s|..] == [];
  }

  /** The step `unmarshalToken` takes when it reads a literal: up to the next '%' after the first byte, or to the end. */
  lemma LiteralNext(s: seq<byte>)
    requires |s| > 0 && (s[0] != PERCENT || FirstMatch(s, 0).None?)
    ensures NextToken(s) == (Text(s[..LiteralEnd(s)]), LiteralEnd(s))
  {
  }

  lemma HeadTextShape(s: seq<byte>)
    requires |s| > 0 && NextToken(s).0.Text?
    ensures var p := NextToken(s).0.payload; |p| > 0 && PERCENT !in p[1..]
  {
    assert !(s[0] == PERCENT && FirstMatch(s, 0).Some?);
    var e := LiteralEnd(s);
    assert s[..e][1..] == s[1..e];
  }

  /** Every literal is non-empty and holds a '%' at most as its first byte. */
  lemma {:induction false} TokenizeTextShape(s: seq<byte>, k: nat)
    requires k < |Tokenize(s)| && Tokenize(s)[k].Text?
    ensures var p := Tokenize(s)[k].payload; |p| > 0 && PERCENT !in p[1..]
    decreases |s|
  {
    if k == 0 {
      HeadTextShape(s);
    } else {
      TokenizeTail(s, k);
      TokenizeTextShape(s[NextToken(s).1..], k - 1);
    }
  }

  /** Past the first token, the tokens are those of the rest of the input. */
  lemma TokenizeTail(s: seq<byte>, k: nat)
    requires 0 < k < |Tokenize(s)|
    ensures |s| > 0 && k - 1 < |Tokenize(s[NextToken(s).1..])|
    ensures Tokenize(s)[k] == Tokenize(s[NextToken(s).1..])[k - 1]
  {
  }

  /**
   * A '%' that starts no built-in name begins a literal that runs to the next
   * '%' (excluded) or to the end; it is never an error.
   */
  lemma UnknownDegrades(s: seq<byte>)
    requires |s| > 0 && s[0] == PERCENT
    requires forall i :: 0 <= i < |LegalTokens| ==> !HasPrefix(s, LegalTokens[i])
    ensures exists e ::
      && 1 <= e <= |s| && PERCENT !in s[1..e] && (e < |s| ==> s[e] == PERCENT)
      && Tokenize(s) == [Text(s[..e])] + Tokenize(s[e..])
  {
    var e := LiteralEnd(s);
    assert 1 <= e <= |s| && PERCENT !in s[1..e] && (e < |s| ==> s[e] == PERCENT);
  }

  /** The first name in list order that the input starts with wins, and exactly its length is consumed. */
  lemma FirstMatchWins(s: seq<byte>, i: nat)
    requires i < |LegalTokens| && HasPrefix(s, LegalTokens[i])
    requires forall j :: 0 <= j < i ==> !HasPrefix(s, LegalTokens[j])
    ensures NextToken(s) == (NamedKind(i), |LegalTokens[i]|)
    ensures Tokenize(s) == [NamedKind(i)] + Tokenize(s[|LegalTokens[i]|..])
  {
    assert s[0] == LegalTokens[i][0];
  }

  /** The names differ in their second byte, so at most one of them can match. */
  lemma NamesArePrefixFree(s: seq<byte>, i: nat, j: nat)
    requires i < |LegalTokens| && j < |LegalTokens|
    requires HasPrefix(s, LegalTokens[i]) && HasPrefix(s, LegalTokens[j])
    ensures i == j
  {
    assert s[1] == LegalTokens[i][1] == LegalTokens[j][1];
  }

  /** The glyphs a spinner cycles through, "\|/-". */
  const SpinnerGlyphs: seq<byte> := [92, 124, 47, 45]

  /** The spinner state after `k` renderings starting from `cur`. */
  function SpinnerAfter(cur: int, k: nat): int
    decreases k
  {
    if k == 0 then cur else (SpinnerAfter(cur, k - 1) + 1) % 4
  }

  /** `s.cur = (s.cur + 1) % 4` cycles: after `k` steps the state is `(cur + k) % 4`. */
  lemma {:induction false} SpinnerAfterIsModular(cur: int, k: nat)
    requires 0 <= cur < 4
    ensures SpinnerAfter(cur, k) == (cur + k) % 4
    decreases k
  {
    if k > 0 {
      SpinnerAfterIsModular(cur, k - 1);
      ModFourStep(cur + k - 1);
    }
  }

  lemma ModFourStep(x: nat)
    ensures (x % 4 + 1) % 4 == (x + 1) % 4
  {
    var q, r := x / 4, x % 4;
    assert x == 4 * q + r;
    if r == 3 {
      assert x + 1 == 4 * (q + 1);
    } else {
      assert x + 1 == 4 * q + (r + 1);
    }
  }

  /** Four renderings return a spinner to where it started, showing each glyph once. */
  lemma SpinnerCycle(cur: int)
    requires 0 <= cur < 4
    ensures SpinnerAfter(cur, 4) == cur
    ensures forall a, b :: 0 <= a < b < 4 ==> SpinnerAfter(cur, a) != SpinnerAfter(cur, b)
  {
    SpinnerAfterIsModular(cur, 1);
    SpinnerAfterIsModular(cur, 2);
    SpinnerAfterIsModular(cur, 3);
    SpinnerAfterIsModular(cur, 4);
    var s := [SpinnerAfter(cur, 0), SpinnerAfter(cur, 1), SpinnerAfter(cur, 2), SpinnerAfter(cur, 3)];
    assert s == [cur, (cur + 1) % 4, (cur + 2) % 4, (cur + 3) % 4];
    if cur == 0 {
      assert s == [0, 1, 2, 3];
    } else if cur == 1 {
      assert s == [1, 2, 3, 0];
    } else if cur == 2 {
      assert s == [2, 3, 0, 1];
    } else {
      assert s == [3, 0, 1, 2];
    }
  }

  /** `TokenSpinner`: its state is updated in place every time it is rendered. */
  class Spinner {
    var cur: int

    constructor ()
      ensures cur == 0
    {
      cur := 0;
    }

    method ToString() returns (res: seq<byte>)
      requires 0 <= cur < 4
      modifies this
      ensures res == [SpinnerGlyphs[old(cur)]]
      ensures cur == SpinnerAfter(old(cur), 1) && 0 <= cur < 4
    {
      res := SpinnerGlyphs[cur..cur + 1];
      cur := (cur + 1) % 4;
    }
  }

  /** A parsed token; a spinner token refers to its state object. */
  datatype Token =
    | TokenBar | TokenCurrent | TokenTotal | TokenPercent | TokenElapsed | TokenRate
    | TokenString(payload: seq<byte>)
    | TokenSpinner(s: Spinner)

  function KindOf(t: Token): (k: Kind)
    ensures k == Spinner <==> t.TokenSpinner?
  {
    match t
    case TokenBar => Bar
    case TokenCurrent => Current
    case TokenTotal => Total
    case TokenPercent => Percent
    case TokenElapsed => Elapsed
    case TokenRate => Rate
    case TokenString(p) => Text(p)
    case TokenSpinner(_) => Spinner
  }

  function Kinds(ts: seq<Token>): (ks: seq<Kind>)
    ensures |ks| == |ts| && forall i :: 0 <= i < |ts| ==> ks[i] == KindOf(ts[i])
    decreases |ts|
  {
    if |ts| == 0 then [] else Kinds(ts[..|ts| - 1]) + [KindOf(ts[|ts| - 1])]
  }

  lemma KindsSnoc(ts: seq<Token>, t: Token)
    ensures Kinds(ts + [t]) == Kinds(ts) + [KindOf(t)]
  {
    assert (ts + [t])[..|ts|] == ts;
  }

  /** One step of `unmarshalToken`: the token it appends accounts for the `n` bytes it consumes. */
  lemma Advance(ts: seq<Token>, t: Token, token: seq<byte>, n: nat, format: seq<byte>)
    requires |token| > 0 && NextToken(token) == (KindOf(t), n)
    requires Kinds(ts) + Tokenize(token) == Tokenize(format)
    ensures Kinds(ts + [t]) + Tokenize(token[n..]) == Tokenize(format)
  {
    KindsSnoc(ts, t);
  }

  /** Every spinner of `ts` is in its initial state. */
  predicate SpinnersAtStart(ts: seq<Token>)
    reads SpinnerSet(ts)
  {
    forall i :: 0 <= i < |ts| && ts[i].TokenSpinner? ==> ts[i].s.cur == 0
  }

  lemma AppendKeepsDistinct(ts: seq<Token>, t: Token)
    requires DistinctSpinners(ts) && SpinnersAtStart(ts)
    requires t.TokenSpinner? ==> t.s.cur == 0
    requires t.TokenSpinner? ==> forall i :: 0 <= i < |ts| && ts[i].TokenSpinner? ==> ts[i].s != t.s
    ensures DistinctSpinners(ts + [t]) && SpinnersAtStart(ts + [t])
  {
  }

  /** The spinner objects of `ts`. */
  function SpinnerSet(ts: seq<Token>): set<Spinner>
  {
    set i | 0 <= i < |ts| && ts[i].TokenSpinner? :: ts[i].s
  }

  /** No spinner object occurs twice in `ts`. */
  predicate DistinctSpinners(ts: seq<Token>)
  {
    forall i, j :: 0 <= i < j < |ts| && ts[i].TokenSpinner? && ts[j].TokenSpinner? ==> ts[i].s != ts[j].s
  }

  predicate SpinnersInRange(ts: seq<Token>)
    reads SpinnerSet(ts)
  {
    forall i :: 0 <= i < |ts| && ts[i].TokenSpinner? ==> 0 <= ts[i].s.cur < 4
  }

  /** The state of every spinner of `ts`, position by position (0 elsewhere). */
  function Curs(ts: seq<Token>): (cs: seq<int>)
    reads SpinnerSet(ts)
    ensures |cs| == |ts|
    ensures forall i :: 0 <= i < |ts| ==> cs[i] == if ts[i].TokenSpinner? then ts[i].s.cur else 0
  {
    seq(|ts|, i reads SpinnerSet(ts) requires 0 <= i < |ts| => if ts[i].TokenSpinner? then ts[i].s.cur else 0)
  }

  /** The token `unmarshalToken` appends for the `i`-th built-in name; a spinner starts fresh. */
  method NewToken(i: nat) returns (t: Token)
    requires i < |LegalTokens|
    ensures KindOf(t) == NamedKind(i)
    ensures t.TokenSpinner? ==> fresh(t.s) && t.s.cur == 0
  {
    if i == 0 { t := TokenBar; }
    else if i == 1 { t := TokenCurrent; }
    else if i == 2 { t := TokenTotal; }
    else if i == 3 { t := TokenPercent; }
    else if i == 4 { t := TokenElapsed; }
    else if i == 5 { t := TokenRate; }
    else { var s := new Spinner(); t := TokenSpinner(s); }
  }

  /**
   * The inner loop of `unmarshalToken`: the index of the first built-in name
   * `token` starts with, or `|LegalTokens|` when there is none.
   */
  method MatchName(token: seq<byte>) returns (i: nat)
    ensures i <= |LegalTokens|
    ensures i < |LegalTokens| ==> HasPrefix(token, LegalTokens[i])
    ensures forall j :: 0 <= j < i ==> !HasPrefix(token, LegalTokens[j])
  {
    i := 0;
    while i < |LegalTokens|
      invariant 0 <= i <= |LegalTokens|
      invariant forall j :: 0 <= j < i ==> !HasPrefix(token, LegalTokens[j])
    {
      if HasPrefix(token, LegalTokens[i]) {
        return;
      }
      i := i + 1;
    }
  }

  /**
   * The `commonString` block of `unmarshalToken`: appends the literal that
   * starts `token`, up to the next '%' after its first byte; `last` tells
   * that it ran to the end.
   */
  method CommonString(ts: seq<Token>, token: seq<byte>, ghost format: seq<byte>)
    returns (ts': seq<Token>, token': seq<byte>, last: bool)
    requires |token| > 0 && (token[0] != PERCENT || FirstMatch(token, 0).None?)
    requires Kinds(ts) + Tokenize(token) == Tokenize(format)
    requires DistinctSpinners(ts) && SpinnersAtStart(ts)
    ensures Kinds(ts') + Tokenize(token') == Tokenize(format)
    ensures DistinctSpinners(ts') && SpinnersAtStart(ts')
    ensures |token'| < |token| && (last <==> token' == [])
  {
    LiteralNext(token);
    var idx := IndexOfPercent(token[1..]);
    if idx.None? {
      assert LiteralEnd(token) == |token| && token[..|token|] == token;
      Advance(ts, TokenString(token), token, |token|, format);
      AppendKeepsDistinct(ts, TokenString(token));
      ts' := ts + [TokenString(token)];
      token' := token[|token|..];
      last := true;
    } else {
      assert LiteralEnd(token) == idx.value + 1;
      Advance(ts, TokenString(token[..idx.value + 1]), token, idx.value + 1, format);
      AppendKeepsDistinct(ts, TokenString(token[..idx.value + 1]));
      ts' := ts + [TokenString(token[..idx.value + 1])];
      token' := token[idx.value + 1..];
      last := false;
    }
  }

  /**
   * `unmarshalToken`: scans the format from the front; at a '%' it tries the
   * built-in names in order, otherwise (or when none matches) it takes a
   * literal up to the next '%'.
   */
  method UnmarshalToken(format: seq<byte>) returns (ts: seq<Token>)
    ensures Kinds(ts) == Tokenize(format)
    ensures DistinctSpinners(ts)
    ensures SpinnersAtStart(ts)
  {
    ts := [];
    if |format| == 0 {
      return;
    }
    var token := format;
    var ok := false;
    while |token| > 0
      invariant Kinds(ts) + Tokenize(token) == Tokenize(format)
      invariant DistinctSpinners(ts) && SpinnersAtStart(ts)
      decreases |token|
    {
      ok := false;
      if token[0] == PERCENT {
        var i := MatchName(token);
        if i < |LegalTokens| {
          FirstMatchWins(token, i);
          var t := NewToken(i);
          Advance(ts, t, token, |LegalTokens[i]|, format);
          AppendKeepsDistinct(ts, t);
          token := token[|LegalTokens[i]|..];
          ts := ts + [t];
          ok := true;
        }
        if ok && |token| == 0 {
          break;
        }
      }
      if token[0] != PERCENT || !ok {
        var last;
        ts, token, last := CommonString(ts, token, format);
        if last {
          break;
        }
      }
    }
  }
}
