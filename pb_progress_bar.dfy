/**
 * The current progress bar (`pb/progress_bar.go`): construction, the running
 * `Context` and its counter updates, the prefix/bar/suffix split of `Print`,
 * the `Runner`, the `BytesWriter` protocol and the per-step bodies of the
 * `iter`, `Run` and `RunWithWriter` loops.
 */
module PbProgressBar {
  import opened ByteString
  import opened Wrappers
  import opened Font
  import opened BarToken
  import opened BarRender
  import opened PbOption

  datatype Error =
    | EmptyFormat      // "tokens cannot be empty"
    | NilModFunc       // "modify func cannot be nil"
    | BarIsUncertain   // "the bar is uncertain"
    | ChannelClosed    // "channel closed"
    | AlreadyClosed    // "the BytesWriter has been closed"

  /** The style defaults `NewProgressBar` applies: empty glyphs and `RESET` colours are replaced. */
  function ReviseStyle(s: Style): (r: Style)
    ensures |r.complete| > 0 && |r.incomplete| > 0 && |r.unCertain| > 0
    ensures r.completeColor != RESET && r.completeHeadColor != RESET
    ensures r.incompleteColor != RESET && r.unCertainColor != RESET
    ensures s.complete != [] ==> r.complete == s.complete
    ensures s.incomplete != [] ==> r.incomplete == s.incomplete
    ensures s.unCertain != [] ==> r.unCertain == s.unCertain
    ensures s.completeColor != RESET ==> r.completeColor == s.completeColor
    ensures s.completeHeadColor != RESET ==> r.completeHeadColor == s.completeHeadColor
    ensures s.incompleteColor != RESET ==> r.incompleteColor == s.incompleteColor
    ensures s.unCertainColor != RESET ==> r.unCertainColor == s.unCertainColor
    ensures r.completeHead == s.completeHead
  {
    s.(complete := if s.complete == [] then [61] else s.complete,
       incomplete := if s.incomplete == [] then [45] else s.incomplete,
       unCertain := if s.unCertain == [] then [60, 45, 62] else s.unCertain,
       completeColor := if s.completeColor == RESET then White else s.completeColor,
       completeHeadColor := if s.completeHeadColor == RESET then White else s.completeHeadColor,
       incompleteColor := if s.incompleteColor == RESET then LightBlack else s.incompleteColor,
       unCertainColor := if s.unCertainColor == RESET then White else s.unCertainColor)
  }

  /** The defaults an empty style field receives: `"="`, `"-"`, `"<->"`, White, White, LightBlack, White. */
  lemma ReviseStyleOfZero()
    ensures ReviseStyle(ZeroStyle) == Style([61], [], [45], [60, 45, 62], White, White, LightBlack, White)
  {
  }

  /** The width guard as written: `Width <= 0 && Width > x`. */
  predicate WidthGuardAsWritten(width: int, consoleWidth: int)
  {
    width <= 0 && width > consoleWidth
  }

  /** The width guard as intended: a width that is not positive or exceeds the console. */
  predicate WidthGuard(width: int, consoleWidth: int)
  {
    width <= 0 || width > consoleWidth
  }

  /**
   * The revision of `NewProgressBar` as written: with a console width that is
   * never negative the width guard never fires.
   */
  function RevisedAsWritten(p: Property, consoleWidth: int): (r: Property)
    ensures r.barWidth >= 0 && (p.barWidth >= 0 ==> r.barWidth == p.barWidth)
    ensures r.width != p.width ==> r.width == consoleWidth < p.width <= 0
    ensures r.style == ReviseStyle(p.style)
    ensures r.(barWidth := p.barWidth, width := p.width, style := p.style) == p
  {
    p.(barWidth := if p.barWidth < 0 then 0 else p.barWidth,
       width := if WidthGuardAsWritten(p.width, consoleWidth) then consoleWidth else p.width,
       style := ReviseStyle(p.style))
  }

  /** The revision of `NewProgressBar` with the width guard corrected, as evidently intended. */
  function Revised(p: Property, consoleWidth: int): (r: Property)
    ensures r.barWidth >= 0 && (p.barWidth >= 0 ==> r.barWidth == p.barWidth)
    ensures consoleWidth > 0 ==> 0 < r.width <= consoleWidth
    ensures 0 < p.width <= consoleWidth ==> r.width == p.width
    ensures r.style == ReviseStyle(p.style)
    ensures r.(barWidth := p.barWidth, width := p.width, style := p.style) == p
  {
    p.(barWidth := if p.barWidth < 0 then 0 else p.barWidth,
       width := if WidthGuard(p.width, consoleWidth) then consoleWidth else p.width,
       style := ReviseStyle(p.style))
  }

  /**
   * As written, `NewProgressBar` never changes `Width` for a console width of
   * at least 0; it agrees with the corrected revision on a width in
   * `(0, consoleWidth]`, and the two never differ but in the width.
   */
  lemma AsWrittenKeepsWidth(p: Property, consoleWidth: int)
    ensures consoleWidth >= 0 ==> RevisedAsWritten(p, consoleWidth).width == p.width
    ensures 0 < p.width <= consoleWidth ==> RevisedAsWritten(p, consoleWidth) == Revised(p, consoleWidth)
    ensures RevisedAsWritten(p, consoleWidth).(width := p.width) == Revised(p, consoleWidth).(width := p.width)
  {
  }

  /** What a token renders from: the `Context` counters and its copy of the property. */
  function ViewOf(p: Property, current: int, total: int): View
  {
    View(current, total, p.width, p.uncertain,
         BarStyle(p.style.complete, p.style.incomplete, p.style.unCertain,
                  p.style.completeColor, p.style.incompleteColor, p.style.unCertainColor))
  }

  /** `DefaultUncertainBarProperty`: blank fill, a three-blank white-background marker. */
  const DefaultUncertainBarProperty := ZeroProperty.(style := ZeroStyle.(incomplete := [32], unCertain := [32, 32, 32], unCertainColor := WhiteBg))

  /** `DefaultUncertainBar` is built from these builders. */
  const DefaultUncertainBuilders := [WithProperty(DefaultUncertainBarProperty), WithUncertain]

  /**
   * As written, the default uncertain bar keeps `Width` 0, so its first render
   * asks `repeatStr` for a negative length and panics, on any console.
   */
  lemma DefaultUncertainBarPanicsAsWritten(consoleWidth: int)
    requires consoleWidth >= 0
    ensures var p := RevisedAsWritten(AppliedAll(DefaultUncertainBuilders, ZeroProperty), consoleWidth);
      p.width == 0 && BarText(ViewOf(p, 0, 0)) == None
  {
    var q := AppliedAll(DefaultUncertainBuilders, ZeroProperty);
    assert DefaultUncertainBuilders[1..] == [WithUncertain] && [WithUncertain][1..] == [];
    assert q == AppliedAll([WithUncertain], DefaultUncertainBarProperty);
    assert q == AppliedAll([], DefaultUncertainBarProperty.(uncertain := true));
    UncertainBar(ViewOf(RevisedAsWritten(q, consoleWidth), 0, 0));
  }

  /** With the corrected guard the default uncertain bar spans the console and renders. */
  lemma DefaultUncertainBarRendersCorrected(consoleWidth: int)
    requires consoleWidth >= 3
    ensures var p := Revised(AppliedAll(DefaultUncertainBuilders, ZeroProperty), consoleWidth);
      p.width == consoleWidth && BarText(ViewOf(p, 0, 0)).Some?
  {
    var q := AppliedAll(DefaultUncertainBuilders, ZeroProperty);
    assert DefaultUncertainBuilders[1..] == [WithUncertain] && [WithUncertain][1..] == [];
    assert q == AppliedAll([WithUncertain], DefaultUncertainBarProperty);
    assert q == AppliedAll([], DefaultUncertainBarProperty.(uncertain := true));
    UncertainBar(ViewOf(Revised(q, consoleWidth), 0, 0));
  }

  /** The static part of a progress bar: its property and its parsed tokens. */
  class ProgressBar {
    var property: Property
    var tokens: seq<Token>

    constructor (p: Property, ts: seq<Token>)
      ensures property == p && tokens == ts
    {
      property := p;
      tokens := ts;
    }

    /** The spinners are distinct objects, each in a state it can render. */
    ghost predicate Valid()
      reads this, SpinnerSet(tokens)
    {
      DistinctSpinners(tokens) && SpinnersInRange(tokens)
    }

    /** `Start(n)`: an uncertain bar is an error; otherwise a runner over a new context with `Total = n`. */
    method Start(n: int, consoleWidth: int) returns (r: Result<Runner, Error>)
      ensures property.uncertain <==> r == Err(BarIsUncertain)
      ensures !property.uncertain ==> r.Ok?
      ensures r.Ok? ==>
        && fresh(r.value) && fresh(r.value.ctx) && r.value.bar == this
        && r.value.ctx.property == property && r.value.ctx.tokens == tokens
        && r.value.ctx.total == n && r.value.ctx.current == 0 && r.value.ctx.windowWidth == consoleWidth
    {
      if property.uncertain {
        return Err(BarIsUncertain);
      }
      var ctx := new Context(this, consoleWidth);
      ctx.total := n;
      var runner := new Runner(this, ctx);
      r := Ok(runner);
    }

    /**
     * `Iter(n, f)`: nothing for `n <= 0`. An uncertain bar gets a closed
     * channel and a nil stop channel from `iter`, so `f` is never called and
     * `close(stop)` panics. Otherwise the values `iter` sends, once each to
     * `f`: `0 .. n`, that is `n + 1` calls. `ok` is false when something
     * panicked, which a printable property rules out.
     */
    method Iter(n: int, consoleWidth: int, env: Env) returns (sent: seq<int>, ok: bool)
      requires Valid()
      modifies SpinnerSet(tokens)
      ensures n <= 0 ==> sent == [] && ok
      ensures n > 0 && property.uncertain ==> sent == [] && !ok
      ensures n > 0 && !property.uncertain && ok ==> sent == Span(0, n + 1) && |sent| == n + 1 && Valid()
      ensures n > 0 && Printable(ViewOf(property, 0, n)) ==> ok
    {
      if n <= 0 {
        return [], true;
      }
      if property.uncertain {
        return [], false;
      }
      var ctx := new Context(this, consoleWidth);
      ctx.total := n;
      sent, ok := ctx.IterLoop(env);
    }

    /**
     * `Run` for `ticks` ticks: nothing on a certain bar; on an uncertain bar
     * one print and step per tick, the counter running from 0 against a
     * total of 0, until the last tick or the first bar that does not render,
     * each completed tick showing the marker inside the width.
     */
    method Run(ticks: nat, consoleWidth: int, env: Env) returns (started: bool, done: nat)
      requires Valid()
      modifies SpinnerSet(tokens)
      ensures started == property.uncertain && done <= ticks
      ensures !started ==> done == 0
      ensures started ==> forall j :: 0 <= j < done ==> BarText(ViewOf(property, j, 0)).Some?
      ensures started && done < ticks ==> BarText(ViewOf(property, done, 0)).None?
      ensures started && (forall j :: 0 <= j < ticks ==> BarText(ViewOf(property, j, 0)).Some?) ==> done == ticks
      ensures done > 0 && |property.style.incomplete| > 0 ==> done - 1 + |property.style.unCertain| <= property.width
    {
      if !property.uncertain {
        return false, 0;
      }
      var ctx := new Context(this, consoleWidth);
      ghost var failed;
      done, failed := ctx.RunTicks(ticks, env);
      started := true;
    }

    /**
     * `RunWithWriter(n)`, its goroutine fed the counts `adds`: no writer for an
     * uncertain bar or one without `Bytes`; otherwise the counts consumed, the
     * counter `min(sum, n)` and the writer closed once the sum reaches `n`.
     */
    method RunWithWriter(n: int, consoleWidth: int, adds: seq<nat>, env: Env)
      returns (writer: Option<BytesWriter>, k: nat, ok: bool)
      requires Valid()
      modifies SpinnerSet(tokens)
      ensures (property.uncertain || !property.bytes) <==> writer.None?
      ensures writer.None? ==> k == 0 && ok
      ensures writer.Some? ==> fresh(writer.value) && k <= |adds| && writer.value.pending == []
      ensures writer.Some? && ok ==> (writer.value.closed <==> k > 0 && Sum(adds[..k]) >= n)
      ensures writer.Some? && ok ==> forall j :: 0 < j < k ==> Sum(adds[..j]) < n
      ensures writer.Some? && ok && k < |adds| ==> writer.value.closed
      ensures writer.Some? && n > 0 && Printable(ViewOf(property, 0, n)) ==> ok
    {
      if property.uncertain || !property.bytes {
        return None, 0, true;
      }
      var ctx := new Context(this, consoleWidth);
      ctx.total := n;
      var bw := new BytesWriter();
      k, ok := ctx.ConsumeWrites(bw, adds, env);
      writer := Some(bw);
    }
  }

  /** `Runner`: a progress bar and the context it drives by hand. */
  class Runner {
    var bar: ProgressBar
    var ctx: Context

    constructor (b: ProgressBar, c: Context)
      ensures bar == b && ctx == c
    {
      bar := b;
      ctx := c;
    }

    /**
     * `Update(value)`: clamp to `[0, Total]`, move the counter there, print.
     * On a certain bar with a positive total and a printable property the print
     * never panics.
     */
    method Update(value: int, env: Env) returns (ok: bool)
      requires ctx.Valid()
      modifies ctx, SpinnerSet(ctx.tokens)
      ensures ctx.property == old(ctx.property) && ctx.tokens == old(ctx.tokens) && ctx.total == old(ctx.total)
      ensures ctx.current == AfterSetTo(ctx.property.uncertain, old(ctx.current), ctx.total, ClampToTotal(value, ctx.total))
      ensures ok ==> ctx.Valid()
      ensures !ctx.property.uncertain && ctx.total > 0 && Printable(ViewOf(ctx.property, 0, ctx.total)) ==> ok
    {
      var v := ClampToTotal(value, ctx.total);
      ctx.UpdateCurrentTo(v);
      if ctx.total >= 0 {
        SetToInRange(old(ctx.current), ctx.total, value);
      }
      ok := ctx.PrintOk(env);
    }

    /** `UpdateAdd(value)`: `updateCurrentWithAdd`, then print. */
    method UpdateAdd(value: int, env: Env) returns (ok: bool)
      requires ctx.Valid()
      modifies ctx, SpinnerSet(ctx.tokens)
      ensures ctx.property == old(ctx.property) && ctx.tokens == old(ctx.tokens) && ctx.total == old(ctx.total)
      ensures ctx.current == AfterAdd(ctx.property.uncertain, old(ctx.current), ctx.total, value)
      ensures ok ==> ctx.Valid()
      ensures Printable(ctx.Shown()) ==> ok
    {
      ctx.UpdateCurrentWithAdd(value);
      ok := ctx.PrintOk(env);
    }
  }

  /**
   * `NewProgressBar(style, mfs...)`: an empty format or a nil builder is an
   * error and builds nothing; otherwise the builders run in order on the zero
   * property, the defaults are filled in with the width guard as written and
   * the format is parsed.
   */
  method NewProgressBar(style: seq<byte>, mfs: seq<Option<ModFunc>>, consoleWidth: int)
    returns (r: Result<ProgressBar, Error>)
    ensures style == [] ==> r == Err(EmptyFormat)
    ensures style != [] && (exists i :: 0 <= i < |mfs| && mfs[i].None?) ==> r == Err(NilModFunc)
    ensures r.Ok? <==> style != [] && (forall i :: 0 <= i < |mfs| ==> mfs[i].Some?)
    ensures r.Ok? ==>
      && fresh(r.value)
      && r.value.property == RevisedAsWritten(AppliedAll(Values(mfs), ZeroProperty), consoleWidth)
      && Kinds(r.value.tokens) == Tokenize(style)
      && DistinctSpinners(r.value.tokens) && SpinnersAtStart(r.value.tokens)
  {
    if style == [] {
      return Err(EmptyFormat);
    }
    var property := new PropertyRef(ZeroProperty);
    var i := 0;
    while i < |mfs|
      invariant 0 <= i <= |mfs|
      invariant forall j :: 0 <= j < i ==> mfs[j].Some?
      invariant property.value == AppliedAll(Values(mfs[..i]), ZeroProperty)
    {
      if mfs[i].None? {
        return Err(NilModFunc);
      }
      FoldLeftConcat(Applied, Values(mfs[..i]), [mfs[i].value], ZeroProperty);
      assert Values(mfs[..i + 1]) == Values(mfs[..i]) + [mfs[i].value];
      property.Apply(mfs[i].value);
      i := i + 1;
    }
    assert mfs[..i] == mfs;
    var p := property.value;
    if p.barWidth < 0 {
      p := p.(barWidth := 0);
    }
    if WidthGuardAsWritten(p.width, consoleWidth) {
      p := p.(width := consoleWidth);
    }
    p := p.(style := ReviseStyle(p.style));
    var ts := UnmarshalToken(style);
    var pb := new ProgressBar(p, ts);
    r := Ok(pb);
  }

  // ---------------------------------------------------------------------
  // Counter updates of a running context

  /** `updateCurrent`: an uncertain bar adds one, a certain bar adds one up to `Total`. */
  function AfterStep(uncertain: bool, current: int, total: int): int
  {
    if uncertain then current + 1 else if current + 1 < total then current + 1 else total
  }

  /** `updateCurrentWithAdd`: an uncertain bar adds one; a certain bar adds `add`, clamped above only. */
  function AfterAdd(uncertain: bool, current: int, total: int, add: int): int
  {
    if uncertain then AfterStep(uncertain, current, total)
    else if current + add < total then current + add else total
  }

  /** `updateCurrentTo`: an uncertain bar steps unless `value` is already current; a certain bar clamps to `[0, Total]`. */
  function AfterSetTo(uncertain: bool, current: int, total: int, value: int): int
  {
    if uncertain && value != current then AfterStep(uncertain, current, total)
    else
      var v := if value < 0 then 0 else value;
      if v < total then v else total
  }

  /** `Runner.Update` clamps its argument to `[0, Total]` first. */
  function ClampToTotal(value: int, total: int): (r: int)
    ensures total >= 0 ==> 0 <= r <= total
    ensures 0 <= value <= total ==> r == value
    ensures total >= 0 && value < 0 ==> r == 0
    ensures value > total ==> r == total
  {
    var v := if value < 0 then 0 else value;
    if v < total then v else total
  }

  /** A certain step is `min(Current + 1, Total)`: it never passes `Total`; an uncertain step adds exactly one. */
  lemma StepBounds(uncertain: bool, current: int, total: int)
    ensures !uncertain ==> AfterStep(uncertain, current, total) <= total
    ensures !uncertain && current < total ==> AfterStep(uncertain, current, total) == current + 1
    ensures !uncertain && current >= total ==> AfterStep(uncertain, current, total) == total
    ensures uncertain ==> AfterStep(uncertain, current, total) == current + 1
  {
  }

  /** A certain add only clamps from above: a negative add can take the counter below zero. */
  lemma AddClampsAboveOnly(current: int, total: int, add: int)
    ensures AfterAdd(false, current, total, add) <= total
    ensures current + add <= total ==> AfterAdd(false, current, total, add) == current + add
    ensures AfterAdd(false, 0, 10, -5) == -5
  {
  }

  /** Certain adds of non-negative amounts accumulate: adding `a` then `b` is adding `a + b`. */
  lemma AddsAccumulate(current: int, total: int, a: int, b: int)
    requires a >= 0 && b >= 0 && current <= total
    ensures AfterAdd(false, AfterAdd(false, current, total, a), total, b) == AfterAdd(false, current, total, a + b)
  {
  }

  /** `Runner.Update` and a certain `updateCurrentTo` land in `[0, Total]`, at `value` itself when it lies there. */
  lemma SetToInRange(current: int, total: int, value: int)
    requires total >= 0
    ensures 0 <= AfterSetTo(false, current, total, ClampToTotal(value, total)) <= total
    ensures 0 <= AfterSetTo(false, current, total, value) <= total
    ensures 0 <= value <= total ==> AfterSetTo(false, current, total, value) == value
  {
  }

  // ---------------------------------------------------------------------
  // The prefix / bar / suffix split of `Context.Print`

  /** The position of the first `%bar`, or `|ks|` when there is none. */
  function FirstBar(ks: seq<Kind>): (i: nat)
    ensures i <= |ks| && (i < |ks| ==> ks[i] == Bar)
    ensures forall j :: 0 <= j < i ==> ks[j] != Bar
    decreases |ks|
  {
    if |ks| == 0 || ks[0] == Bar then 0 else 1 + FirstBar(ks[1..])
  }

  /** Where the prefix ends: at the first bar; with no bar the prefix is empty. */
  function PrefixEnd(ks: seq<Kind>): (a: nat)
    ensures a <= |ks|
  {
    if FirstBar(ks) < |ks| then FirstBar(ks) else 0
  }

  /** Where the suffix starts: after the first bar; with no bar every token is in the suffix. */
  function SuffixStart(ks: seq<Kind>): (b: nat)
    ensures b <= |ks|
  {
    if FirstBar(ks) < |ks| then FirstBar(ks) + 1 else 0
  }

  /**
   * The split of `Print`: with a bar, the line is the tokens before the first
   * bar, that bar, and every later token (further bars included); the prefix
   * holds no bar. With no bar, every token goes to the suffix.
   */
  lemma PrintSplit(ks: seq<Kind>)
    ensures PrefixEnd(ks) <= SuffixStart(ks) <= |ks|
    ensures Bar !in ks[..PrefixEnd(ks)]
    ensures Bar in ks ==> ks == ks[..PrefixEnd(ks)] + [Bar] + ks[SuffixStart(ks)..]
    ensures Bar !in ks ==> PrefixEnd(ks) == 0 && SuffixStart(ks) == 0
  {
    var f := FirstBar(ks);
    if Bar in ks {
      var k :| 0 <= k < |ks| && ks[k] == Bar;
      assert f <= k;
      assert ks == ks[..f] + [ks[f]] + ks[f + 1..];
    }
  }

  /**
   * The texts of the prefix and of the suffix of the split, spinners holding
   * `cs`; `None` when a token of either panics.
   */
  function Pieces(ks: seq<Kind>, cs: seq<int>, v: View, env: Env): Option<(seq<byte>, seq<byte>)>
    requires |cs| == |ks|
  {
    var a, b := PrefixEnd(ks), SuffixStart(ks);
    if Renders(ks, cs, v, env, 0, a) && Renders(ks, cs, v, env, b, |ks|) then
      Some((Joined(ks, cs, v, env, 0, a), Joined(ks, cs, v, env, b, |ks|)))
    else None
  }

  /**
   * What `Print` writes and the `WidthWithoutBar` it records, rendered with
   * spinner states `cs`: `"\r"` unless the position is bound (the `GotoXY`
   * string is discarded), the prefix, the bar (rendered even when the format
   * has none, through the nil `*TokenBar`), the suffix. `None` is a panic.
   */
  function PrintedLine(ks: seq<Kind>, cs: seq<int>, v: View, env: Env, bindPos: bool): Option<(seq<byte>, int)>
    requires |cs| == |ks|
  {
    LineOf(Pieces(ks, cs, v, env), BarText(v), bindPos)
  }

  /** The bytes written for a prefix, a bar and a suffix. */
  function Line(bindPos: bool, pre: seq<byte>, bar: seq<byte>, suf: seq<byte>): seq<byte>
  {
    (if bindPos then [] else [13]) + pre + bar + suf
  }

  /** The line and the width without the bar, once the pieces and the bar are known; `None` if either panicked. */
  function LineOf(pieces: Option<(seq<byte>, seq<byte>)>, bar: Option<seq<byte>>, bindPos: bool): Option<(seq<byte>, int)>
  {
    if pieces.None? || bar.None? then None
    else Some((Line(bindPos, pieces.value.0, bar.value, pieces.value.1), |pieces.value.0| + |pieces.value.1|))
  }

  lemma LineOfSome(pre: seq<byte>, suf: seq<byte>, bar: seq<byte>, bindPos: bool)
    ensures LineOf(Some((pre, suf)), Some(bar), bindPos) == Some((Line(bindPos, pre, bar, suf), |pre| + |suf|))
  {
  }

  /** `cs` is a snapshot of the spinner states of `ts`: in range, and 0 for every other token. */
  ghost predicate Snapshot(ts: seq<Token>, cs: seq<int>)
  {
    |cs| == |ts| && forall j :: 0 <= j < |ts| ==> 0 <= cs[j] < 4 && (!ts[j].TokenSpinner? ==> cs[j] == 0)
  }

  /**
   * What `Print` has built after `i` tokens: before the first bar (at `f`)
   * only the suffix builder is filled; after it the prefix is frozen and the
   * suffix builder restarts at `lo == f + 1`.
   */
  ghost predicate PiecesSoFar(ks: seq<Kind>, cs: seq<int>, v: View, env: Env, f: nat, lo: nat, i: nat,
                              seen: bool, pre: seq<byte>, suf: seq<byte>)
  {
    && lo <= i <= |ks| == |cs| && f <= |ks|
    && (seen <==> f < i)
    && lo == (if seen then f + 1 else 0)
    && (!seen ==> pre == [])
    && (seen ==> Renders(ks, cs, v, env, 0, f) && pre == Joined(ks, cs, v, env, 0, f))
    && Renders(ks, cs, v, env, lo, i) && suf == Joined(ks, cs, v, env, lo, i)
  }

  /** A token that panicked lies in the prefix or in the suffix, so the line does not render. */
  lemma PiecesFail(ks: seq<Kind>, cs: seq<int>, v: View, env: Env, i: nat, seen: bool)
    requires i < |ks| == |cs| && KindText(ks[i], v, env, cs[i]).None?
    requires if seen then FirstBar(ks) < i else i < FirstBar(ks)
    ensures Pieces(ks, cs, v, env).None?
  {
  }

  /** After the last token the two builders hold the prefix and the suffix of the split. */
  lemma PiecesComplete(ks: seq<Kind>, cs: seq<int>, v: View, env: Env, lo: nat, seen: bool, pre: seq<byte>, suf: seq<byte>)
    requires PiecesSoFar(ks, cs, v, env, FirstBar(ks), lo, |ks|, seen, pre, suf)
    ensures Pieces(ks, cs, v, env) == Some((pre, suf))
  {
    if !seen {
      assert PrefixEnd(ks) == 0;
    }
  }

  /** The first bar freezes the prefix and restarts the suffix builder after it. */
  lemma PiecesAtBar(ks: seq<Kind>, cs: seq<int>, v: View, env: Env, lo: nat, i: nat, pre: seq<byte>, suf: seq<byte>)
    requires i < |ks| && ks[i] == Bar
    requires PiecesSoFar(ks, cs, v, env, FirstBar(ks), lo, i, false, pre, suf)
    ensures PiecesSoFar(ks, cs, v, env, FirstBar(ks), i + 1, i + 1, true, suf, [])
  {
    assert Joined(ks, cs, v, env, i + 1, i + 1) == [];
  }

  /** Any other token extends the builder in use. */
  lemma PiecesAfterText(ks: seq<Kind>, cs: seq<int>, v: View, env: Env, lo: nat, i: nat,
                        seen: bool, pre: seq<byte>, suf: seq<byte>, suf': seq<byte>)
    requires i < |ks| && PiecesSoFar(ks, cs, v, env, FirstBar(ks), lo, i, seen, pre, suf)
    requires !seen ==> ks[i] != Bar
    requires Renders(ks, cs, v, env, lo, i + 1) && suf' == Joined(ks, cs, v, env, lo, i + 1)
    ensures PiecesSoFar(ks, cs, v, env, FirstBar(ks), lo, i + 1, seen, pre, suf')
  {
  }

  /** A token that is no spinner leaves every spinner as it was. */
  lemma SteppedPastOther(ts: seq<Token>, cs: seq<int>, i: nat)
    requires i < |ts| == |cs| && !ts[i].TokenSpinner? && SpinnersStepped(ts, cs, i)
    ensures SpinnersStepped(ts, cs, i + 1)
  {
  }

  /** One iteration of the loop of `Print`: the first bar swaps the builders, any other token renders into the suffix builder. */
  method PrintStep(ts: seq<Token>, i: nat, v: View, env: Env, ghost cs: seq<int>, ghost lo: nat,
                   seen: bool, pre: seq<byte>, suf: seq<byte>)
    returns (ghost lo': nat, seen': bool, pre': seq<byte>, suf': seq<byte>, ok: bool)
    requires i < |ts| && DistinctSpinners(ts) && Snapshot(ts, cs) && SpinnersStepped(ts, cs, i)
    requires PiecesSoFar(Kinds(ts), cs, v, env, FirstBar(Kinds(ts)), lo, i, seen, pre, suf)
    modifies if ts[i].TokenSpinner? then {ts[i].s} else {}
    ensures SpinnersStepped(ts, cs, i + 1)
    ensures ok ==> PiecesSoFar(Kinds(ts), cs, v, env, FirstBar(Kinds(ts)), lo', i + 1, seen', pre', suf')
    ensures !ok ==> Pieces(Kinds(ts), cs, v, env).None?
  {
    ghost var ks := Kinds(ts);
    assert ks[i] == KindOf(ts[i]);
    if ts[i].TokenBar? && !seen {
      PiecesAtBar(ks, cs, v, env, lo, i, pre, suf);
      SteppedPastOther(ts, cs, i);
      lo', seen', pre', suf', ok := i + 1, true, suf, [], true;
    } else {
      assert !seen ==> ks[i] != Bar && i < FirstBar(ks);
      lo', seen', pre' := lo, seen, pre;
      suf', ok := RenderNext(ts, i, v, env, cs, lo, suf);
      if ok {
        PiecesAfterText(ks, cs, v, env, lo, i, seen, pre, suf, suf');
      } else {
        PiecesFail(ks, cs, v, env, i, seen);
      }
    }
  }

  /**
   * The loop of `Print`: the first bar swaps the builders, every other token
   * renders into the current one. `ok` is false when a token panicked.
   */
  method RenderPieces(ts: seq<Token>, v: View, env: Env) returns (pre: seq<byte>, suf: seq<byte>, ok: bool)
    requires DistinctSpinners(ts) && SpinnersInRange(ts)
    modifies SpinnerSet(ts)
    ensures Pieces(Kinds(ts), old(Curs(ts)), v, env) == if ok then Some((pre, suf)) else None
    ensures ok ==> Curs(ts) == Stepped(Kinds(ts), old(Curs(ts))) && SpinnersInRange(ts)
  {
    ghost var cs := Curs(ts);
    assert Snapshot(ts, cs);
    ghost var lo;
    var seen;
    lo, seen, pre, suf, ok := PiecesLoop(ts, v, env, cs);
    if ok {
      PiecesComplete(Kinds(ts), cs, v, env, lo, seen, pre, suf);
      AllStepped(ts, cs);
    }
  }

  /** The loop itself, over the states `cs` the spinners held before it. */
  method PiecesLoop(ts: seq<Token>, v: View, env: Env, ghost cs: seq<int>)
    returns (ghost lo: nat, seen: bool, pre: seq<byte>, suf: seq<byte>, ok: bool)
    requires DistinctSpinners(ts) && Snapshot(ts, cs) && SpinnersStepped(ts, cs, 0)
    modifies SpinnerSet(ts)
    ensures ok ==> SpinnersStepped(ts, cs, |ts|)
    ensures ok ==> PiecesSoFar(Kinds(ts), cs, v, env, FirstBar(Kinds(ts)), lo, |ts|, seen, pre, suf)
    ensures !ok ==> Pieces(Kinds(ts), cs, v, env).None?
  {
    ghost var ks := Kinds(ts);
    ghost var f := FirstBar(ks);
    lo := 0;
    pre, suf, ok := [], [], true;
    seen := false;
    var i := 0;
    while i < |ts| && ok
      invariant i <= |ts|
      invariant ok ==> PiecesSoFar(ks, cs, v, env, f, lo, i, seen, pre, suf) && SpinnersStepped(ts, cs, i)
      invariant !ok ==> Pieces(ks, cs, v, env).None?
    {
      lo, seen, pre, suf, ok := PrintStep(ts, i, v, env, cs, lo, seen, pre, suf);
      i := i + 1;
    }
  }

  // ---------------------------------------------------------------------
  // Lines that always render

  /** A printable view renders every token, so `Print` does not panic, whatever the format. */
  lemma PrintableRenders(ks: seq<Kind>, cs: seq<int>, v: View, env: Env, bindPos: bool)
    requires |cs| == |ks| && Printable(v)
    requires forall j :: 0 <= j < |cs| ==> 0 <= cs[j] < 4
    ensures PrintedLine(ks, cs, v, env, bindPos).Some?
  {
    PrintableBar(v);
    BarRendersLine(ks, cs, v, env, bindPos);
  }

  /** `Print` panics only in the bar: a line whose bar renders renders, spinners in range, whatever the format. */
  lemma BarRendersLine(ks: seq<Kind>, cs: seq<int>, v: View, env: Env, bindPos: bool)
    requires |cs| == |ks| && BarText(v).Some?
    requires forall j :: 0 <= j < |cs| ==> 0 <= cs[j] < 4
    ensures PrintedLine(ks, cs, v, env, bindPos).Some?
  {
    forall j | 0 <= j < |ks|
      ensures KindText(ks[j], v, env, cs[j]).Some?
    {
      KindRenders(ks[j], v, env, cs[j]);
    }
    assert Renders(ks, cs, v, env, 0, PrefixEnd(ks));
    assert Renders(ks, cs, v, env, SuffixStart(ks), |ks|);
  }

  /** The line of a split whose pieces and bar render. */
  lemma PrintedOf(ks: seq<Kind>, cs: seq<int>, v: View, env: Env, bindPos: bool, pre: seq<byte>, suf: seq<byte>, bar: seq<byte>)
    requires |cs| == |ks| && Pieces(ks, cs, v, env) == Some((pre, suf)) && BarText(v) == Some(bar)
    ensures PrintedLine(ks, cs, v, env, bindPos) == Some((Line(bindPos, pre, bar, suf), |pre| + |suf|))
  {
    LineOfSome(pre, suf, bar, bindPos);
  }

  /**
   * An uncertain bar whose marker runs past the width cannot be drawn: `Print`
   * panics, whatever the other tokens.
   */
  lemma UncertainOverrun(ks: seq<Kind>, cs: seq<int>, v: View, env: Env, bindPos: bool)
    requires |cs| == |ks| && v.uncertain && |v.style.incomplete| > 0
    requires v.current >= 0 && v.current + |v.style.unCertain| > v.width
    ensures PrintedLine(ks, cs, v, env, bindPos) == None
  {
    UncertainBar(v);
  }

  /** The body of `Print` over the tokens: the pieces, then the bar; `None` is a panic. */
  method RenderLine(ts: seq<Token>, v: View, env: Env, bindPos: bool) returns (line: Option<seq<byte>>, width: int)
    requires DistinctSpinners(ts) && SpinnersInRange(ts)
    modifies SpinnerSet(ts)
    ensures var printed := PrintedLine(Kinds(ts), old(Curs(ts)), v, env, bindPos);
      && (line.Some? <==> printed.Some?)
      && (line.Some? ==> line.value == printed.value.0 && width == printed.value.1)
    ensures line.Some? ==> SpinnersInRange(ts) && Curs(ts) == Stepped(Kinds(ts), old(Curs(ts)))
  {
    ghost var ks, cs := Kinds(ts), Curs(ts);
    var pre, suf, ok := RenderPieces(ts, v, env);
    if !ok {
      return None, 0;
    }
    var bar := RenderToken(TokenBar, v, env);
    if bar.None? {
      return None, 0;
    }
    PrintedOf(ks, cs, v, env, bindPos, pre, suf, bar.value);
    line, width := Some(Line(bindPos, pre, bar.value, suf)), |pre| + |suf|;
  }

  /** A line that renders shows the bar, so an uncertain marker fits the width. */
  lemma PrintedShowsBar(ks: seq<Kind>, cs: seq<int>, v: View, env: Env, bindPos: bool)
    requires |cs| == |ks| && PrintedLine(ks, cs, v, env, bindPos).Some?
    ensures BarText(v).Some?
    ensures v.uncertain && |v.style.incomplete| > 0 ==> 0 <= v.current && v.current + |v.style.unCertain| <= v.width
  {
    if v.uncertain && |v.style.incomplete| > 0 {
      UncertainBar(v);
    }
  }

  /** The integers `lo, lo + 1, ..., hi - 1`: the values `iter` sends. */
  function Span(lo: int, hi: int): (r: seq<int>)
    ensures |r| == if lo <= hi then hi - lo else 0
    ensures forall k :: 0 <= k < |r| ==> r[k] == lo + k
    decreases hi - lo
  {
    if lo >= hi then [] else Span(lo, hi - 1) + [hi - 1]
  }

  /** The byte counts received so far. */
  function Sum(xs: seq<nat>): nat
    decreases |xs|
  {
    if |xs| == 0 then 0 else Sum(xs[..|xs| - 1]) + xs[|xs| - 1]
  }

  /** The counter of a certain writer bar after the first `k` counts: 0 before any, then `min(sum, Total)`. */
  function Received(adds: seq<nat>, k: nat, total: int): int
    requires k <= |adds|
  {
    if k == 0 then 0 else if Sum(adds[..k]) < total then Sum(adds[..k]) else total
  }

  /** Each received count is one certain `updateCurrentWithAdd`. */
  lemma ReceivedStep(adds: seq<nat>, k: nat, total: int)
    requires k < |adds| && (k > 0 ==> Sum(adds[..k]) < total)
    ensures Received(adds, k + 1, total) == AfterAdd(false, Received(adds, k, total), total, adds[k])
  {
    assert adds[..k + 1][..k] == adds[..k];
    assert Sum(adds[..k + 1]) == Sum(adds[..k]) + adds[k];
  }

  // ---------------------------------------------------------------------
  // The running context

  /**
   * A running instance: a copy of the property, a copy of the token slice
   * (whose spinners are the bar's own objects) and the counters.
   */
  class Context {
    var property: Property
    var tokens: seq<Token>
    var total: int
    var current: int
    var windowWidth: int
    var widthWithoutBar: int
    var direction: int

    /** `NewContext(p)`: counters at 0, direction 1, the console width passed in. */
    constructor (bar: ProgressBar, consoleWidth: int)
      ensures property == bar.property && tokens == bar.tokens
      ensures total == 0 && current == 0 && windowWidth == consoleWidth
      ensures widthWithoutBar == 0 && direction == 1
    {
      property := bar.property;
      tokens := bar.tokens;
      total := 0;
      current := 0;
      windowWidth := consoleWidth;
      widthWithoutBar := 0;
      direction := 1;
    }

    /** The spinners are distinct objects, each in a state it can render. */
    ghost predicate Valid()
      reads this, SpinnerSet(tokens)
    {
      DistinctSpinners(tokens) && SpinnersInRange(tokens)
    }

    /** What the tokens render from. */
    function Shown(): View
      reads this
    {
      ViewOf(property, current, total)
    }

    /** `updateCurrent`. */
    method UpdateCurrent()
      modifies this
      ensures current == AfterStep(property.uncertain, old(current), total)
      ensures property == old(property) && tokens == old(tokens) && total == old(total)
      ensures windowWidth == old(windowWidth) && widthWithoutBar == old(widthWithoutBar) && direction == old(direction)
    {
      if property.uncertain {
        current := current + 1;
      } else {
        current := if current + 1 < total then current + 1 else total;
      }
    }

    /** `updateCurrentWithAdd`. */
    method UpdateCurrentWithAdd(add: int)
      modifies this
      ensures current == AfterAdd(property.uncertain, old(current), total, add)
      ensures property == old(property) && tokens == old(tokens) && total == old(total)
      ensures windowWidth == old(windowWidth) && widthWithoutBar == old(widthWithoutBar) && direction == old(direction)
    {
      if property.uncertain {
        UpdateCurrent();
      } else {
        current := if current + add < total then current + add else total;
      }
    }

    /** `updateCurrentTo`. */
    method UpdateCurrentTo(value: int)
      modifies this
      ensures current == AfterSetTo(property.uncertain, old(current), total, value)
      ensures property == old(property) && tokens == old(tokens) && total == old(total)
      ensures windowWidth == old(windowWidth) && widthWithoutBar == old(widthWithoutBar) && direction == old(direction)
    {
      if property.uncertain && value != current {
        UpdateCurrent();
      } else {
        var v := if value < 0 then 0 else value;
        current := if v < total then v else total;
      }
    }

    /**
     * `Print`: the line `PrintedLine` describes, rendered with the spinner states
     * before the call; `None` is a panic. A line that renders records its
     * width without the bar and steps each spinner once.
     */
    method Print(env: Env) returns (line: Option<seq<byte>>)
      requires Valid()
      modifies this, SpinnerSet(tokens)
      ensures property == old(property) && tokens == old(tokens) && total == old(total) && current == old(current)
      ensures windowWidth == old(windowWidth) && direction == old(direction)
      ensures var printed := PrintedLine(Kinds(tokens), old(Curs(tokens)), Shown(), env, property.bindPos);
        line == if printed.Some? then Some(printed.value.0) else None
      ensures var printed := PrintedLine(Kinds(tokens), old(Curs(tokens)), Shown(), env, property.bindPos);
        line.Some? ==> widthWithoutBar == printed.value.1
      ensures line.Some? ==> Valid() && Curs(tokens) == Stepped(Kinds(tokens), old(Curs(tokens)))
    {
      var width;
      line, width := RenderLine(tokens, Shown(), env, property.bindPos);
      if line.Some? {
        widthWithoutBar := width;
      }
    }

    /**
     * One round of `iter` and of `Run`: print, then `updateCurrent`. `ok` is
     * false when the print panicked, which happens exactly when the bar does
     * not render; a printable view never panics.
     */
    method Tick(env: Env) returns (ok: bool, ghost cs: seq<int>)
      requires Valid()
      modifies this, SpinnerSet(tokens)
      ensures property == old(property) && tokens == old(tokens) && total == old(total)
      ensures ok ==> Valid() && current == AfterStep(property.uncertain, old(current), total)
      ensures ok <==> BarText(old(Shown())).Some?
      ensures !ok ==> current == old(current) && |cs| == |tokens|
      ensures !ok ==> PrintedLine(Kinds(tokens), cs, Shown(), env, property.bindPos) == None
      ensures Printable(old(Shown())) ==> ok
    {
      cs := Curs(tokens);
      if BarText(Shown()).Some? {
        BarRendersLine(Kinds(tokens), cs, Shown(), env, property.bindPos);
      }
      if Printable(Shown()) {
        PrintableBar(Shown());
      }
      var line := Print(env);
      ok := line.Some?;
      if ok {
        PrintedShowsBar(Kinds(tokens), cs, Shown(), env, property.bindPos);
        UpdateCurrent();
      }
    }

    /**
     * The goroutine of `iter` on a certain bar: for `i` from `Current` to
     * `Total`, print, send `i`, step. Unless a print panics (`ok` false) the
     * values sent are `Current .. Total`; a printable view never panics.
     */
    method IterLoop(env: Env) returns (sent: seq<int>, ok: bool)
      requires Valid() && !property.uncertain
      modifies this, SpinnerSet(tokens)
      ensures property == old(property) && tokens == old(tokens) && total == old(total)
      ensures ok ==> sent == Span(old(current), total + 1) && Valid()
      ensures ok && old(current) <= total ==> current == total
      ensures Printable(old(Shown())) ==> ok
    {
      ghost var start := current;
      ghost var printable := Printable(Shown());
      sent, ok := [], true;
      var i := current;
      while i <= total && ok
        invariant start <= i && sent == Span(start, i) && (i <= total + 1 || i == start)
        invariant property == old(property) && tokens == old(tokens) && total == old(total)
        invariant ok ==> Valid()
        invariant current == if i == start then start else if i <= total then i else total
        invariant printable ==> ok && 0 <= current <= total
        decreases total + 1 - i, ok
      {
        ghost var cs;
        ok, cs := Tick(env);
        if ok {
          sent := sent + [i];
          i := i + 1;
        }
      }
    }

    /**
     * The goroutine of `Run` on an uncertain bar, for `ticks` ticks. It stops
     * at the first print that panics (`done < ticks`), which is the first
     * whose bar does not render; every tick it completed drew the marker
     * inside the width.
     */
    method RunTicks(ticks: nat, env: Env) returns (done: nat, ghost failed: seq<int>)
      requires Valid() && property.uncertain
      modifies this, SpinnerSet(tokens)
      ensures property == old(property) && tokens == old(tokens) && total == old(total)
      ensures done <= ticks && current == old(current) + done
      ensures done < ticks ==> |failed| == |tokens| && PrintedLine(Kinds(tokens), failed, Shown(), env, property.bindPos) == None
      ensures done < ticks ==> BarText(Shown()).None?
      ensures forall j :: old(current) <= j < current ==> BarText(ViewOf(property, j, total)).Some?
      ensures done > 0 && |property.style.incomplete| > 0 ==>
        0 <= old(current) && current - 1 + |property.style.unCertain| <= property.width
    {
      done, failed := 0, [];
      var ok := true;
      while done < ticks && ok
        invariant done <= ticks && current == old(current) + done
        invariant property == old(property) && tokens == old(tokens) && total == old(total)
        invariant ok ==> Valid()
        invariant !ok ==> done < ticks && |failed| == |tokens| && PrintedLine(Kinds(tokens), failed, Shown(), env, property.bindPos) == None
        invariant !ok ==> BarText(Shown()).None?
        invariant forall j :: old(current) <= j < current ==> BarText(ViewOf(property, j, total)).Some?
        invariant done > 0 && |property.style.incomplete| > 0 ==>
          0 <= old(current) && current - 1 + |property.style.unCertain| <= property.width
        decreases ticks - done, ok
      {
        ghost var v := Shown();
        ok, failed := Tick(env);
        if ok {
          if |property.style.incomplete| > 0 {
            UncertainBar(v);
          }
          done := done + 1;
        }
      }
    }

    /** `Print` seen only for whether it panicked: a printable view never does. */
    method PrintOk(env: Env) returns (ok: bool)
      requires Valid()
      modifies this, SpinnerSet(tokens)
      ensures property == old(property) && tokens == old(tokens) && total == old(total) && current == old(current)
      ensures ok ==> Valid()
      ensures Printable(Shown()) ==> ok
    {
      if Printable(Shown()) {
        PrintableRenders(Kinds(tokens), Curs(tokens), Shown(), env, property.bindPos);
      }
      var line := Print(env);
      ok := line.Some?;
    }

    /**
     * The goroutine of `RunWithWriter` on a certain bar, fed the byte counts
     * `adds` the writer sent: print, then for each count add it, print, and
     * close the writer once `Current` reaches `Total`. `k` counts are consumed;
     * `ok` is false when a print panicked, which a positive total and a
     * printable property rule out.
     */
    method ConsumeWrites(bw: BytesWriter, adds: seq<nat>, env: Env) returns (k: nat, ok: bool)
      requires Valid() && !property.uncertain && current == 0 && !bw.closed
      modifies this, SpinnerSet(tokens), bw
      ensures property == old(property) && tokens == old(tokens) && total == old(total)
      ensures k <= |adds| && bw.pending == old(bw.pending)
      ensures ok ==> Valid() && current == Received(adds, k, total)
      ensures ok ==> forall j :: 0 < j < k ==> Sum(adds[..j]) < total
      ensures ok ==> (bw.closed <==> k > 0 && Sum(adds[..k]) >= total)
      ensures ok && k < |adds| ==> bw.closed
      ensures total > 0 && Printable(ViewOf(property, 0, total)) ==> ok
    {
      ghost var printable := total > 0 && Printable(ViewOf(property, 0, total));
      ok := PrintOk(env);
      k := 0;
      var stop := false;
      while k < |adds| && ok && !stop
        invariant k <= |adds| && bw.pending == old(bw.pending)
        invariant property == old(property) && tokens == old(tokens) && total == old(total)
        invariant ok ==> Valid()
        invariant current == Received(adds, k, total)
        invariant forall j :: 0 < j < k ==> Sum(adds[..j]) < total
        invariant bw.closed <==> stop
        invariant stop ==> k > 0 && Sum(adds[..k]) >= total
        invariant ok && !stop && k > 0 ==> Sum(adds[..k]) < total
        invariant printable ==> ok
        decreases |adds| - k, !stop
      {
        ReceivedStep(adds, k, total);
        UpdateCurrentWithAdd(adds[k]);
        k := k + 1;
        ok := PrintOk(env);
        if ok && current == total {
          var _ := bw.Close();
          stop := true;
        }
      }
    }
  }

  /** A call on a `BytesWriter`. */
  datatype WriterCall = WriteCall(length: nat) | CloseCall

  /**
   * The open/closed protocol of `BytesWriter`: the state after a call and its
   * error. `Write` fails once the writer is closed; `close` always leaves it
   * closed and fails if it already was.
   */
  function WriterStep(closed: bool, call: WriterCall): (bool, Option<Error>)
  {
    match call
    case WriteCall(_) => (closed, if closed then Some(ChannelClosed) else None)
    case CloseCall => (true, if closed then Some(AlreadyClosed) else None)
  }

  /** The errors of a sequence of calls on a writer that starts `closed` or not. */
  function Outcomes(closed: bool, calls: seq<WriterCall>): (r: seq<Option<Error>>)
    ensures |r| == |calls|
    decreases |calls|
  {
    if |calls| == 0 then []
    else
      var (closed', err) := WriterStep(closed, calls[0]);
      [err] + Outcomes(closed', calls[1..])
  }

  /**
   * On a fresh writer a call succeeds exactly when no `close` came before it:
   * every `Write` until then succeeds, the first `close` succeeds, and every
   * later call fails with its own error.
   */
  lemma {:induction false} WriterProtocol(closed: bool, calls: seq<WriterCall>, i: nat)
    requires i < |calls|
    ensures Outcomes(closed, calls)[i] ==
      if closed || CloseCall in calls[..i] then
        Some(if calls[i].CloseCall? then AlreadyClosed else ChannelClosed)
      else None
    decreases i
  {
    var (closed', _) := WriterStep(closed, calls[0]);
    if i > 0 {
      WriterProtocol(closed', calls[1..], i - 1);
      assert calls[..i] == [calls[0]] + calls[1..][..i - 1];
    }
  }

  /** `BytesWriter`: `closed` is `closeCh` being closed; `pending` the counts sent on `bytesChan`. */
  class BytesWriter {
    var closed: bool
    var pending: seq<int>

    /** `NewBytesWriter`. */
    constructor ()
      ensures !closed && pending == []
    {
      closed := false;
      pending := [];
    }

    /** `Write(b)` and `update`: report `len(b)`, and send it unless the writer is closed. */
    method Write(b: seq<byte>) returns (n: int, err: Option<Error>)
      modifies this
      ensures n == |b| && (closed, err) == WriterStep(old(closed), WriteCall(|b|))
      ensures pending == if old(closed) then old(pending) else old(pending) + [|b|]
    {
      n := |b|;
      if closed {
        err := Some(ChannelClosed);
      } else {
        pending := pending + [|b|];
        err := None;
      }
    }

    /** `close`: fails on a closed writer, otherwise closes both channels. */
    method Close() returns (err: Option<Error>)
      modifies this
      ensures (closed, err) == WriterStep(old(closed), CloseCall) && pending == old(pending)
    {
      if closed {
        err := Some(AlreadyClosed);
      } else {
        closed := true;
        err := None;
      }
    }
  }
}
