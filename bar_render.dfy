/**
 * Rendering of the progress-bar tokens (`toString` of every token), shared
 * by the current (`pb`) and the legacy (`progress_bar`) package: both render
 * from the same few numbers, which each package reads from its own record.
 */
module BarRender {
  import opened ByteString
  import opened Wrappers
  import opened Decimal
  import opened Ansi
  import opened Font
  import opened BarToken

  /** The glyphs and colours of the `%bar` token. */
  datatype BarStyle = BarStyle(
    complete: seq<byte>, incomplete: seq<byte>, unCertain: seq<byte>,
    completeColor: int, incompleteColor: int, unCertainColor: int)

  /** What a token reads when it renders: the counters, the bar width, the mode and the style. */
  datatype View = View(current: int, total: int, width: int, uncertain: bool, style: BarStyle)

  /**
   * What the process supplies to a render: the already formatted text of the
   * clock-based tokens `%elapsed` and `%rate`, and the `int` the platform's
   * float-to-integer conversion yields for a positive and for a negative
   * infinity (Go leaves both to the implementation).
   */
  datatype Env = Env(elapsed: seq<byte>, rate: seq<byte>, plusInf: int, minusInf: int)

  function Abs(x: int): nat
  {
    if x < 0 then -x else x
  }

  lemma QuotientBounds(a: nat, b: nat)
    requires b > 0
    ensures (a / b) * b <= a < (a / b) * b + b
  {
    assert a == (a / b) * b + a % b;
  }

  /** From `q * t <= w * t` with a positive `t`. */
  lemma CancelLe(q: int, w: int, t: int)
    requires t > 0 && q * t <= w * t
    ensures q <= w
  {
    assert (q - w) * t <= 0;
  }

  lemma ScaleLe(c: int, t: int, w: int)
    requires c <= t && w >= 0
    ensures c * w <= t * w
  {
    assert (t - c) * w >= 0;
  }

  /** Converting an exact quotient to Go's `int`: truncation toward zero. */
  function TruncDiv(a: int, b: int): (q: int)
    requires b != 0
    ensures Abs(q) * Abs(b) <= Abs(a) < Abs(q) * Abs(b) + Abs(b)
    ensures q > 0 ==> (a > 0) == (b > 0)
    ensures q < 0 ==> (a > 0) != (b > 0)
  {
    var m := Abs(a) / Abs(b);
    QuotientBounds(Abs(a), Abs(b));
    if (a < 0) != (b < 0) then -m else m
  }

  /** The first `n` bytes of `s` repeated without end. */
  function Fill(s: seq<byte>, n: nat): (r: seq<byte>)
    requires |s| > 0
  {
    Repeat(s, n / |s| + 1)[..n]
  }

  lemma {:induction false} RepeatSnoc(s: seq<byte>, count: nat)
    ensures Repeat(s, count) + s == Repeat(s, count + 1)
    decreases count
  {
    if count > 0 {
      RepeatSnoc(s, count - 1);
      assert Repeat(s, count) + s == s + (Repeat(s, count - 1) + s);
    }
  }

  /** `repeatStr(s, length)`; the `strings.Repeat` or slice panic of a negative length is `None`. */
  function RepeatStr(s: seq<byte>, length: int): (r: Option<seq<byte>>)
    ensures |s| == 0 ==> r == Some([])
    ensures |s| > 0 ==> (r.Some? <==> length >= 0)
    ensures r.Some? && |s| > 0 ==> |r.value| == length && r.value == Fill(s, length)
  {
    if |s| == 0 then Some([])
    else if length < 0 then None
    else
      var c := length / |s|;
      RepeatSnoc(s, c);
      assert (Repeat(s, c) + s)[..length] == Repeat(s, c) + s[..length % |s|];
      Some(Repeat(s, c) + s[..length % |s|])
  }

  /** The number of complete glyph bytes of a certain bar, `int(current / total * width)`. */
  function CompleteLength(v: View): (n: int)
    requires v.total != 0
    ensures v.total > 0 && v.current * v.width >= 0 ==> 0 <= n && n * v.total <= v.current * v.width < (n + 1) * v.total
  {
    TruncDiv(v.current * v.width, v.total)
  }

  /**
   * `TokenBar.toString`. An uncertain bar is the incomplete fill, the marker and
   * the incomplete fill again; a certain bar is the complete then the incomplete
   * fill. A division by a zero total is `None`, like a panic of `repeatStr`.
   */
  function BarText(v: View): Option<seq<byte>>
  {
    var st := v.style;
    if v.uncertain then
      var left := RepeatStr(st.incomplete, v.current);
      var right := RepeatStr(st.incomplete, v.width - v.current - |st.unCertain|);
      if left.None? || right.None? then None
      else Some(Decorated(left.value, [st.incompleteColor])
                + Decorated(st.unCertain, [st.unCertainColor])
                + Decorated(right.value, [st.incompleteColor]))
    else if v.total == 0 then None
    else
      var done := RepeatStr(st.complete, CompleteLength(v));
      var rest := RepeatStr(st.incomplete, v.width - CompleteLength(v));
      if done.None? || rest.None? then None
      else Some(Decorated(done.value, [st.completeColor]) + Decorated(rest.value, [st.incompleteColor]))
  }

  /**
   * A certain bar whose counter lies in `[0, total]` splits its width between
   * `current * width / total` complete bytes and the incomplete rest; a full
   * counter leaves no incomplete part and a zero counter no complete part.
   */
  lemma CertainBar(v: View)
    requires !v.uncertain && v.total > 0 && 0 <= v.current <= v.total && v.width >= 0
    requires |v.style.complete| > 0 && |v.style.incomplete| > 0
    ensures 0 <= CompleteLength(v) <= v.width
    ensures CompleteLength(v) * v.total <= v.current * v.width < (CompleteLength(v) + 1) * v.total
    ensures BarText(v) == Some(
              Decorated(Fill(v.style.complete, CompleteLength(v)), [v.style.completeColor])
              + Decorated(Fill(v.style.incomplete, v.width - CompleteLength(v)), [v.style.incompleteColor]))
    ensures |Fill(v.style.complete, CompleteLength(v))| + |Fill(v.style.incomplete, v.width - CompleteLength(v))| == v.width
    ensures v.current == v.total ==> CompleteLength(v) == v.width
    ensures v.current == 0 ==> CompleteLength(v) == 0
  {
    CompleteLengthBounds(v.current, v.total, v.width);
    assert CompleteLength(v) == TruncDiv(v.current * v.width, v.total);
  }

  /** The arithmetic of `CertainBar`: `int(current / total * width)` lies in `[0, width]`, exactly `width` when full. */
  lemma CompleteLengthBounds(c: int, t: int, w: int)
    requires t > 0 && 0 <= c <= t && w >= 0
    ensures var q := TruncDiv(c * w, t);
      && 0 <= q <= w
      && q * t <= c * w < (q + 1) * t
      && (c == t ==> q == w)
      && (c == 0 ==> q == 0)
  {
    var q := TruncDiv(c * w, t);
    ScaleLe(c, t, w);
    assert q * t <= w * t;
    CancelLe(q, w, t);
    if c == t {
      assert w * t < (q + 1) * t;
      CancelLe(w, q, t);
    }
  }

  /** A certain bar with a zero total divides by zero. */
  lemma CertainBarZeroTotal(v: View)
    requires !v.uncertain && v.total == 0
    ensures BarText(v) == None
  {
  }

  /**
   * An uncertain bar is `current` fill bytes, the marker verbatim and
   * `width - current - |marker|` fill bytes; any other counter panics.
   */
  lemma UncertainBar(v: View)
    requires v.uncertain && |v.style.incomplete| > 0
    ensures BarText(v).Some? <==> 0 <= v.current && v.current + |v.style.unCertain| <= v.width
    ensures var st := v.style;
      BarText(v).Some? ==>
        BarText(v).value
        == Decorated(Fill(st.incomplete, v.current), [st.incompleteColor])
           + Decorated(st.unCertain, [st.unCertainColor])
           + Decorated(Fill(st.incomplete, v.width - v.current - |st.unCertain|), [st.incompleteColor])
  {
  }

  /**
   * The value `TokenPercent` prints: 0 for a zero counter, else
   * `int(current / total * 100)`; over a zero total the quotient is an
   * infinity of the counter's sign, converted as the platform does.
   */
  function PercentValue(v: View, env: Env): int
  {
    if v.current == 0 then 0
    else if v.total == 0 then (if v.current > 0 then env.plusInf else env.minusInf)
    else TruncDiv(v.current * 100, v.total)
  }

  /** `TokenPercent.toString`: `fmt.Sprintf("%3d%%", percent)`. */
  function PercentText(v: View, env: Env): seq<byte>
  {
    PadLeft(Itoa(PercentValue(v, env)), 3) + [PERCENT]
  }

  /** `%percent` always renders: at least four bytes, the value right-aligned in three or more, then '%'. */
  lemma PercentTextShape(v: View, env: Env)
    ensures var t := PercentText(v, env);
      |t| >= 4 && t[|t| - 1] == PERCENT && t[..|t| - 1] == PadLeft(Itoa(PercentValue(v, env)), 3)
  {
  }

  /** A zero counter shows `"  0%"` whatever the total. */
  lemma PercentAtZero(v: View, env: Env)
    requires v.current == 0
    ensures PercentValue(v, env) == 0
    ensures PercentText(v, env) == [SPACE, SPACE, 48, PERCENT]
  {
    assert Itoa(0) == [48];
    var pad := PadLeft([48], 3);
    assert pad[..2] == [SPACE, SPACE] && pad[2..] == [48];
    assert pad == pad[..2] + pad[2..] == [SPACE, SPACE, 48];
    assert PercentText(v, env) == pad + [PERCENT];
  }

  /**
   * A non-zero counter over a zero total shows the platform's conversion of
   * the infinity of the counter's sign, in decimal, padded to three bytes.
   */
  lemma PercentZeroTotal(v: View, env: Env)
    requires v.total == 0 && v.current != 0
    ensures var p := if v.current > 0 then env.plusInf else env.minusInf;
      var t := PercentText(v, env);
      && PercentValue(v, env) == p
      && |t| > |Itoa(p)|
      && t[|t| - 1] == PERCENT
      && ParseInt(t[|t| - 1 - |Itoa(p)|..|t| - 1]) == Some(p)
  {
    var p := PercentValue(v, env);
    var pad := PadLeft(Itoa(p), 3);
    assert PercentText(v, env)[|pad| - |Itoa(p)|..|pad|] == pad[|pad| - |Itoa(p)|..] == Itoa(p);
    ItoaRoundTrip(p);
  }

  lemma DigitsBelowThousand(n: nat)
    requires n < 1000
    ensures |Digits(n)| <= 3
  {
    if n >= 100 {
      assert |Digits(n / 10 / 10)| == 1;
      assert |Digits(n / 10)| == 2;
    } else if n >= 10 {
      assert |Digits(n / 10)| == 1;
    }
  }

  /**
   * A counter in `[0, total]` shows the percentage truncated to an integer in
   * `[0, 100]`, padded to exactly four bytes ending in '%'.
   */
  lemma PercentInRange(v: View, env: Env)
    requires v.total > 0 && 0 <= v.current <= v.total
    ensures var p := PercentValue(v, env);
      && 0 <= p <= 100
      && p * v.total <= v.current * 100 < (p + 1) * v.total
    ensures |PercentText(v, env)| == 4
  {
    var p := PercentValue(v, env);
    if v.current != 0 {
      ScaleLe(v.current, v.total, 100);
      assert p * v.total <= 100 * v.total;
      CancelLe(p, 100, v.total);
    }
    DigitsBelowThousand(p);
  }

  /** The text one token renders, `cur` being a spinner's state (a slice out of range panics). */
  function KindText(k: Kind, v: View, env: Env, cur: int): Option<seq<byte>>
  {
    match k
    case Bar => BarText(v)
    case Current => Some(Itoa(v.current))
    case Total => Some(Itoa(v.total))
    case Percent => Some(PercentText(v, env))
    case Elapsed => Some(env.elapsed)
    case Rate => Some(env.rate)
    case Spinner => if 0 <= cur < 4 then Some(SpinnerGlyphs[cur..cur + 1]) else None
    case Text(p) => Some(p)
  }

  /** A certain view with a positive total, a counter in `[0, Total]`, a width of at least 0 and non-empty glyphs. */
  predicate Printable(v: View)
  {
    !v.uncertain && v.total > 0 && 0 <= v.current <= v.total && v.width >= 0
    && |v.style.complete| > 0 && |v.style.incomplete| > 0
  }

  /** A token renders when the bar does and the spinner state is in range. */
  lemma KindRenders(k: Kind, v: View, env: Env, cur: int)
    requires 0 <= cur < 4 && BarText(v).Some?
    ensures KindText(k, v, env, cur).Some?
  {
    match k
    case Bar =>
    case Percent =>
    case _ =>
  }

  /** The bar of a printable view renders. */
  lemma PrintableBar(v: View)
    requires Printable(v)
    ensures BarText(v).Some?
  {
    CertainBar(v);
  }

  /** `%current` and `%total` print the decimal value of their counter, which parses back. */
  lemma CounterTexts(v: View, env: Env, cur: int)
    ensures ParseInt(KindText(Current, v, env, cur).value) == Some(v.current)
    ensures ParseInt(KindText(Total, v, env, cur).value) == Some(v.total)
  {
    ItoaRoundTrip(v.current);
    ItoaRoundTrip(v.total);
  }

  /** A literal renders as its payload and a spinner as one glyph of `\|/-`. */
  lemma LiteralAndSpinnerTexts(p: seq<byte>, v: View, env: Env, cur: int)
    requires 0 <= cur < 4
    ensures KindText(Text(p), v, env, cur) == Some(p)
    ensures KindText(Spinner, v, env, cur) == Some([SpinnerGlyphs[cur]])
  {
    assert SpinnerGlyphs[cur..cur + 1] == [SpinnerGlyphs[cur]];
  }

  /** Every token of `ks` at a position in `[lo, hi)` renders without a panic. */
  predicate Renders(ks: seq<Kind>, cs: seq<int>, v: View, env: Env, lo: nat, hi: nat)
    requires lo <= hi <= |ks| == |cs|
  {
    forall i :: lo <= i < hi ==> KindText(ks[i], v, env, cs[i]).Some?
  }

  /** The concatenated texts of the tokens of `ks` at positions `[lo, hi)`, spinners holding `cs`. */
  function Joined(ks: seq<Kind>, cs: seq<int>, v: View, env: Env, lo: nat, hi: nat): seq<byte>
    requires lo <= hi <= |ks| == |cs| && Renders(ks, cs, v, env, lo, hi)
    decreases hi
  {
    if hi == lo then []
    else Joined(ks, cs, v, env, lo, hi - 1) + KindText(ks[hi - 1], v, env, cs[hi - 1]).value
  }

  lemma {:induction false} FlattenSnoc(ks: seq<Kind>, k: Kind)
    ensures Flatten(ks + [k]) == Flatten(ks) + Spelling(k)
    decreases |ks|
  {
    if |ks| == 0 {
      assert ks + [k] == [k] && [k][1..] == [];
    } else {
      FlattenSnoc(ks[1..], k);
      var t := ks + [k];
      assert t[0] == ks[0] && t[1..] == ks[1..] + [k];
      assert Flatten(t) == Spelling(ks[0]) + (Flatten(ks[1..]) + Spelling(k));
      AppendAssoc(Spelling(ks[0]), Flatten(ks[1..]), Spelling(k));
    }
  }

  /** A line of literals renders as the concatenation of their payloads, the format text itself. */
  lemma {:induction false} JoinedLiterals(ks: seq<Kind>, cs: seq<int>, v: View, env: Env, hi: nat)
    requires hi <= |ks| == |cs| && forall i :: 0 <= i < |ks| ==> ks[i].Text?
    ensures Renders(ks, cs, v, env, 0, hi)
    ensures Joined(ks, cs, v, env, 0, hi) == Flatten(ks[..hi])
    decreases hi
  {
    if hi == 0 {
      assert ks[..0] == [];
    } else {
      JoinedLiterals(ks, cs, v, env, hi - 1);
      FlattenSnoc(ks[..hi - 1], ks[hi - 1]);
      assert ks[..hi - 1] + [ks[hi - 1]] == ks[..hi];
    }
  }

  /** The spinner states after every spinner of `ks` rendered once. */
  function Stepped(ks: seq<Kind>, cs: seq<int>): (r: seq<int>)
    requires |cs| == |ks|
    ensures |r| == |cs|
    ensures forall i :: 0 <= i < |ks| ==> r[i] == if ks[i] == Spinner then SpinnerAfter(cs[i], 1) else cs[i]
  {
    seq(|ks|, i requires 0 <= i < |ks| => if ks[i] == Spinner then SpinnerAfter(cs[i], 1) else cs[i])
  }

  /**
   * Four renderings of a line bring every token's state back where it was;
   * one rendering moves each spinner one glyph on, modulo 4.
   */
  lemma SteppedCycles(ks: seq<Kind>, cs: seq<int>)
    requires |cs| == |ks|
    requires forall i :: 0 <= i < |ks| && ks[i] == Spinner ==> 0 <= cs[i] < 4
    ensures Stepped(ks, Stepped(ks, Stepped(ks, Stepped(ks, cs)))) == cs
    ensures forall i :: 0 <= i < |ks| && ks[i] == Spinner ==> Stepped(ks, cs)[i] == (cs[i] + 1) % 4
  {
    var c1 := Stepped(ks, cs);
    var c2 := Stepped(ks, c1);
    var c3 := Stepped(ks, c2);
    var c4 := Stepped(ks, c3);
    forall i | 0 <= i < |ks|
      ensures c4[i] == cs[i]
      ensures ks[i] == Spinner ==> c1[i] == (cs[i] + 1) % 4
    {
      if ks[i] == Spinner {
        SpinnerAfterIsModular(cs[i], 1);
        SpinnerAfterIsModular(c1[i], 1);
        SpinnerAfterIsModular(c2[i], 1);
        SpinnerAfterIsModular(c3[i], 1);
      }
    }
  }

  /** `t.toString(...)`: a spinner shows its glyph and advances its state in place. */
  method RenderToken(t: Token, v: View, env: Env) returns (r: Option<seq<byte>>)
    requires t.TokenSpinner? ==> 0 <= t.s.cur < 4
    modifies if t.TokenSpinner? then {t.s} else {}
    ensures t.TokenSpinner? ==> r == KindText(Spinner, v, env, old(t.s.cur))
    ensures t.TokenSpinner? ==> t.s.cur == SpinnerAfter(old(t.s.cur), 1) && 0 <= t.s.cur < 4
    ensures !t.TokenSpinner? ==> r == KindText(KindOf(t), v, env, 0)
  {
    match t
    case TokenSpinner(s) =>
      var g := s.ToString();
      assert SpinnerGlyphs[old(s.cur)..old(s.cur) + 1] == g;
      r := Some(g);
    case TokenBar => r := BarText(v);
    case TokenCurrent => r := Some(Itoa(v.current));
    case TokenTotal => r := Some(Itoa(v.total));
    case TokenPercent => r := Some(PercentText(v, env));
    case TokenElapsed => r := Some(env.elapsed);
    case TokenRate => r := Some(env.rate);
    case TokenString(p) => r := Some(p);
  }

  /** The spinners of `ts` before position `i` have rendered once since they held `cs`; the others still hold `cs`. */
  predicate SpinnersStepped(ts: seq<Token>, cs: seq<int>, i: int)
    requires |cs| == |ts|
    reads SpinnerSet(ts)
  {
    forall j :: 0 <= j < |ts| && ts[j].TokenSpinner? ==>
      ts[j].s.cur == if j < i then SpinnerAfter(cs[j], 1) else cs[j]
  }

  /**
   * One iteration of a rendering loop: token `i` renders and its text extends
   * the line built from position `lo`; `ok` is false when the token panicked.
   */
  method RenderNext(ts: seq<Token>, i: nat, v: View, env: Env, ghost cs: seq<int>, ghost lo: nat, line: seq<byte>)
    returns (line': seq<byte>, ok: bool)
    requires lo <= i < |ts| == |cs| && DistinctSpinners(ts)
    requires forall j :: 0 <= j < |ts| ==> 0 <= cs[j] < 4 && (!ts[j].TokenSpinner? ==> cs[j] == 0)
    requires SpinnersStepped(ts, cs, i)
    requires Renders(Kinds(ts), cs, v, env, lo, i) && line == Joined(Kinds(ts), cs, v, env, lo, i)
    modifies if ts[i].TokenSpinner? then {ts[i].s} else {}
    ensures ok <==> KindText(Kinds(ts)[i], v, env, cs[i]).Some?
    ensures ok ==> Renders(Kinds(ts), cs, v, env, lo, i + 1)
    ensures ok ==> line' == Joined(Kinds(ts), cs, v, env, lo, i + 1)
    ensures SpinnersStepped(ts, cs, i + 1)
  {
    ghost var ks := Kinds(ts);
    assert ks[i] == KindOf(ts[i]);
    assert ts[i].TokenSpinner? ==> ts[i].s.cur == cs[i];
    var t := RenderToken(ts[i], v, env);
    assert t == KindText(ks[i], v, env, cs[i]);
    ok := t.Some?;
    line' := line;
    if ok {
      JoinedStep(ks, cs, v, env, lo, i);
      line' := line + t.value;
    }
    forall j | 0 <= j < |ts| && ts[j].TokenSpinner? && j != i
      ensures ts[j].s.cur == old(ts[j].s.cur)
    {
      assert ts[i].TokenSpinner? ==> ts[j].s != ts[i].s;
    }
  }

  /** The line built from `lo` grows by the text of the next token. */
  lemma JoinedStep(ks: seq<Kind>, cs: seq<int>, v: View, env: Env, lo: nat, i: nat)
    requires lo <= i < |ks| == |cs| && Renders(ks, cs, v, env, lo, i)
    requires KindText(ks[i], v, env, cs[i]).Some?
    ensures Renders(ks, cs, v, env, lo, i + 1)
    ensures Joined(ks, cs, v, env, lo, i + 1) == Joined(ks, cs, v, env, lo, i) + KindText(ks[i], v, env, cs[i]).value
  {
  }

  /** Once every token has rendered, the spinner states are the stepped snapshot and stay in range. */
  lemma AllStepped(ts: seq<Token>, cs: seq<int>)
    requires |cs| == |ts| && SpinnersStepped(ts, cs, |ts|)
    requires forall j :: 0 <= j < |ts| ==> 0 <= cs[j] < 4 && (!ts[j].TokenSpinner? ==> cs[j] == 0)
    ensures Curs(ts) == Stepped(Kinds(ts), cs) && SpinnersInRange(ts)
  {
    forall j | 0 <= j < |ts|
      ensures Curs(ts)[j] == Stepped(Kinds(ts), cs)[j]
      ensures ts[j].TokenSpinner? ==> 0 <= ts[j].s.cur < 4
    {
      SteppedAt(ts, cs, j);
    }
  }

  /** One position of `AllStepped`. */
  lemma SteppedAt(ts: seq<Token>, cs: seq<int>, j: nat)
    requires j < |cs| == |ts| && SpinnersStepped(ts, cs, |ts|)
    requires 0 <= cs[j] < 4 && (!ts[j].TokenSpinner? ==> cs[j] == 0)
    ensures Curs(ts)[j] == Stepped(Kinds(ts), cs)[j]
    ensures ts[j].TokenSpinner? ==> 0 <= ts[j].s.cur < 4
  {
    assert Kinds(ts)[j] == KindOf(ts[j]);
    if ts[j].TokenSpinner? {
      assert ts[j].s.cur == SpinnerAfter(cs[j], 1);
      SpinnerAfterIsModular(cs[j], 1);
    }
  }
}
