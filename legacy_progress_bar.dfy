/**
 * The first progress bar (`progress_bar/progress_bar.go`): construction with
 * its defaults, `Update`, `Print`, and the ticker loop of `Run` with its
 * bounce and its stop test.
 */
module LegacyProgressBar {
  import opened ByteString
  import opened Wrappers
  import opened Font
  import opened BarToken
  import opened BarRender

  datatype Error = EmptyStyle   // "style cannot be empty"

  /** The glyphs and colours of the `%bar` token (this package has no head glyph). */
  datatype Style = Style(
    complete: seq<byte>, incomplete: seq<byte>, unCertain: seq<byte>,
    completeColor: int, incompleteColor: int, unCertainColor: int)

  /** The settings and the counter; `rate` and `elapsed` are the env, passed in where they are shown. */
  datatype Property = Property(
    total: int, current: int,
    posX: int, posY: int,
    width: int,
    uncertain: bool,
    style: Style)

  /** The zero value of `Style`. */
  const ZeroStyle := Style([], [], [], RESET, RESET, RESET)

  /** The style defaults `NewProgressBar` applies: empty glyphs and `RESET` colours are replaced. */
  function ReviseStyle(st: Style): (r: Style)
    ensures |r.complete| > 0 && |r.incomplete| > 0 && |r.unCertain| > 0
    ensures st.complete != [] ==> r.complete == st.complete
    ensures st.incomplete != [] ==> r.incomplete == st.incomplete
    ensures st.unCertain != [] ==> r.unCertain == st.unCertain
    ensures r.completeColor != RESET && r.incompleteColor != RESET && r.unCertainColor != RESET
    ensures st.completeColor != RESET ==> r.completeColor == st.completeColor
    ensures st.incompleteColor != RESET ==> r.incompleteColor == st.incompleteColor
    ensures st.unCertainColor != RESET ==> r.unCertainColor == st.unCertainColor
  {
    st.(complete := if st.complete == [] then [35] else st.complete,
        incomplete := if st.incomplete == [] then [45] else st.incomplete,
        unCertain := if st.unCertain == [] then [60, 45, 62] else st.unCertain,
        completeColor := if st.completeColor == RESET then White else st.completeColor,
        incompleteColor := if st.incompleteColor == RESET then LightBlack else st.incompleteColor,
        unCertainColor := if st.unCertainColor == RESET then White else st.unCertainColor)
  }

  /**
   * The revision of `NewProgressBar`: a zero total becomes 100, a counter of an
   * uncertain bar or outside `[0, Total]` becomes 0, a width that is not
   * positive becomes 20, and the style gets its defaults.
   */
  function Revised(p: Property): (r: Property)
    ensures r.total != 0 && (p.total != 0 ==> r.total == p.total)
    ensures r.width > 0 && (p.width > 0 ==> r.width == p.width)
    ensures 0 <= r.current && (r.current == 0 || r.current <= r.total)
    ensures r.uncertain ==> r.current == 0
    ensures !p.uncertain && 0 <= p.current <= r.total ==> r.current == p.current
    ensures r.style == ReviseStyle(p.style)
    ensures r.posX == p.posX && r.posY == p.posY && r.uncertain == p.uncertain
  {
    var total := if p.total == 0 then 100 else p.total;
    p.(total := total,
       current := if p.uncertain || p.current < 0 || p.current > total then 0 else p.current,
       width := if p.width <= 0 then 20 else p.width,
       style := ReviseStyle(p.style))
  }

  /** The zero property becomes a certain bar of 100 steps, 20 wide, drawn with `"#"`, `"-"` and `"<->"`. */
  lemma RevisedOfZero()
    ensures Revised(Property(0, 0, 0, 0, 0, false, ZeroStyle))
      == Property(100, 0, 0, 0, 20, false, Style([35], [45], [60, 45, 62], White, LightBlack, White))
  {
  }

  /** What the tokens render from. */
  function ViewOf(p: Property): View
  {
    View(p.current, p.total, p.width, p.uncertain,
         BarStyle(p.style.complete, p.style.incomplete, p.style.unCertain,
                  p.style.completeColor, p.style.incompleteColor, p.style.unCertainColor))
  }

  /** What `Print` writes: every token in order, spinners holding `cs`; `None` if one panics. */
  function LineText(ks: seq<Kind>, cs: seq<int>, v: View, env: Env): Option<seq<byte>>
    requires |cs| == |ks|
  {
    if Renders(ks, cs, v, env, 0, |ks|) then Some(Joined(ks, cs, v, env, 0, |ks|)) else None
  }

  /** A line renders when the bar does and the spinner states are in range. */
  lemma LineRenders(ks: seq<Kind>, cs: seq<int>, v: View, env: Env)
    requires |cs| == |ks| && BarText(v).Some?
    requires forall j :: 0 <= j < |cs| ==> 0 <= cs[j] < 4
    ensures LineText(ks, cs, v, env).Some?
  {
    forall j | 0 <= j < |ks|
      ensures KindText(ks[j], v, env, cs[j]).Some?
    {
      KindRenders(ks[j], v, env, cs[j]);
    }
  }

  // ---------------------------------------------------------------------
  // The counter and its direction

  /** The counter and the direction of an uncertain bar. */
  datatype Motion = Motion(current: int, direction: int)

  /** The rightmost start of the uncertain marker: `Width - len(UnCertain)`. */
  function Cap(p: Property): int
  {
    p.width - |p.style.unCertain|
  }

  /** The direction rule of the `Run` step: -1 on reaching the cap, then 1 on reaching 0. */
  function Bounce(c: int, cap: int, direction: int): int
  {
    var d := if c == cap then -1 else direction;
    if c == 0 then 1 else d
  }

  /**
   * `Update(current)` as written: the counter is capped from above only, and
   * the direction turns to -1 at the cap but is never turned back at 0.
   */
  function UpdatedAsWritten(p: Property, direction: int, current: int): Motion
  {
    if p.uncertain then
      var c := if current < Cap(p) then current else Cap(p);
      Motion(c, if c == Cap(p) then -1 else direction)
    else Motion(if current < p.total then current else p.total, direction)
  }

  /**
   * As written, `Update` leaves the counter where it was asked to be unless
   * that is past the cap (for a certain bar, `Total`), where it stops; the
   * direction turns to -1 exactly when the cap is reached and is kept
   * otherwise, and a certain bar's direction never changes.
   */
  lemma UpdatedAsWrittenClamps(p: Property, direction: int, current: int)
    ensures var m := UpdatedAsWritten(p, direction, current);
      && (p.uncertain ==> m.current <= Cap(p) && (m.current == current || m.current == Cap(p)))
      && (p.uncertain ==> (m.current == Cap(p) <==> current >= Cap(p)))
      && (p.uncertain ==> if m.current == Cap(p) then m.direction == -1 else m.direction == direction)
      && (!p.uncertain ==> m.current <= p.total && (m.current == current || m.current == p.total))
      && (!p.uncertain ==> (m.current == p.total <==> current >= p.total) && m.direction == direction)
  {
  }

  /**
   * `Update(current)` corrected: the counter is clamped to `[0, cap]` (a
   * certain one to `[0, Total]`) and the direction follows the rule of the
   * `Run` step at both ends, as evidently intended.
   */
  function Updated(p: Property, direction: int, current: int): (m: Motion)
    ensures p.uncertain && Cap(p) >= 0 ==> 0 <= m.current <= Cap(p)
    ensures p.uncertain && 0 <= current <= Cap(p) ==> m.current == current
    ensures !p.uncertain && p.total >= 0 ==> 0 <= m.current <= p.total && m.direction == direction
    ensures !p.uncertain && 0 <= current <= p.total ==> m.current == current
  {
    var v := if current < 0 then 0 else current;
    if p.uncertain then
      var c := if v < Cap(p) then v else Cap(p);
      Motion(c, Bounce(c, Cap(p), direction))
    else Motion(if v < p.total then v else p.total, direction)
  }

  /** The `update` closure of `Run`: an uncertain counter moves by the direction and bounces; a certain one adds 1. */
  function Advanced(p: Property, direction: int): Motion
  {
    if p.uncertain then
      var c := p.current + direction;
      Motion(c, Bounce(c, Cap(p), direction))
    else Motion(p.current + 1, direction)
  }

  /** The stop test of the `Run` loop, made after each print. */
  predicate Stops(p: Property)
  {
    (!p.uncertain && p.current == p.total) || (p.uncertain && p.current == p.width)
  }

  /** An uncertain counter that bounces between 0 and the cap, heading away from an end it sits on. */
  predicate Bouncing(c: int, d: int, cap: int)
  {
    0 <= c <= cap && (d == 1 || d == -1) && (c == cap ==> d == -1) && (c == 0 ==> d == 1)
  }

  /** The `Run` step keeps a bouncing counter bouncing, one position at a time. */
  lemma AdvanceBounces(p: Property, d: int)
    requires p.uncertain && Cap(p) >= 1 && Bouncing(p.current, d, Cap(p))
    ensures var m := Advanced(p, d);
      Bouncing(m.current, m.direction, Cap(p)) && (m.current == p.current + 1 || m.current == p.current - 1)
  {
  }

  /**
   * The two `Update`s agree on every counter the lower clamp and the turn at 0
   * do not touch: a positive one on an uncertain bar whose cap is not 0, one
   * of at least 0 on a certain bar.
   */
  lemma UpdatedAgreesAsWritten(p: Property, d: int, current: int)
    requires if p.uncertain then current > 0 && Cap(p) != 0 else current >= 0
    ensures UpdatedAsWritten(p, d, current) == Updated(p, d, current)
  {
  }

  /** The corrected `Update` leaves any counter with a direction of 1 or -1 bouncing. */
  lemma UpdateBounces(p: Property, d: int, current: int)
    requires p.uncertain && Cap(p) >= 1 && (d == 1 || d == -1)
    ensures var m := Updated(p, d, current);
      Bouncing(m.current, m.direction, Cap(p))
  {
  }

  /**
   * A certain `Run` step adds one; an uncertain bar whose marker is at least
   * one byte wide and whose counter bounces never meets the stop test
   * `Current == Width`, so only an interrupt ends its `Run`.
   */
  lemma StopTest(p: Property, d: int)
    ensures !p.uncertain ==> Advanced(p, d) == Motion(p.current + 1, d)
    ensures p.uncertain && |p.style.unCertain| >= 1 && Bouncing(p.current, d, Cap(p)) ==> !Stops(p)
  {
  }

  /** A bouncing counter draws the bar, so every token with a spinner state in range renders. */
  lemma BouncingRenders(p: Property, d: int, env: Env)
    requires p.uncertain && |p.style.incomplete| > 0 && Bouncing(p.current, d, Cap(p))
    ensures BarText(ViewOf(p)).Some?
    ensures forall k: Kind, cur: int :: 0 <= cur < 4 ==> KindText(k, ViewOf(p), env, cur).Some?
  {
    UncertainBar(ViewOf(p));
    forall k: Kind, cur: int | 0 <= cur < 4
      ensures KindText(k, ViewOf(p), env, cur).Some?
    {
      KindRenders(k, ViewOf(p), env, cur);
    }
  }

  /** The default uncertain style: 20 wide, `"-"` fill, `"<->"` marker; its cap is 17. */
  const Bouncer := Property(100, 17, 0, 0, 20, true, Style([35], [45], [60, 45, 62], White, LightBlack, White))

  /**
   * As written, `Update(0)` on a bar heading back (direction -1) keeps the
   * direction, so the next `Run` step takes the counter to -1, whose bar
   * panics; `Update(-1)` panics at once. The corrected `Update` turns the
   * direction at 0 and clamps at 0.
   */
  lemma UpdateAsWrittenLeavesRange()
    ensures Bouncing(Bouncer.current, -1, Cap(Bouncer))
    ensures UpdatedAsWritten(Bouncer, -1, 0) == Motion(0, -1)
    ensures !Bouncing(0, -1, Cap(Bouncer))
    ensures Advanced(Bouncer.(current := 0), -1).current == -1
    ensures BarText(ViewOf(Bouncer.(current := -1))) == None
    ensures UpdatedAsWritten(Bouncer, -1, -1).current == -1
    ensures Updated(Bouncer, -1, 0) == Motion(0, 1) && Updated(Bouncer, -1, -1) == Motion(0, 1)
  {
    UncertainBar(ViewOf(Bouncer.(current := -1)));
  }

  /** Every token renders, spinners in range. */
  method RenderAll(ts: seq<Token>, v: View, env: Env) returns (line: Option<seq<byte>>)
    requires DistinctSpinners(ts) && SpinnersInRange(ts)
    modifies SpinnerSet(ts)
    ensures line == LineText(Kinds(ts), old(Curs(ts)), v, env)
    ensures line.Some? ==> SpinnersInRange(ts) && Curs(ts) == Stepped(Kinds(ts), old(Curs(ts)))
  {
    ghost var ks, cs := Kinds(ts), Curs(ts);
    assert forall j :: 0 <= j < |ts| ==> 0 <= cs[j] < 4 && (!ts[j].TokenSpinner? ==> cs[j] == 0);
    var text: seq<byte> := [];
    var ok := true;
    var i := 0;
    while i < |ts| && ok
      invariant i <= |ts|
      invariant ok ==> Renders(ks, cs, v, env, 0, i) && text == Joined(ks, cs, v, env, 0, i) && SpinnersStepped(ts, cs, i)
      invariant !ok ==> i > 0 && KindText(ks[i - 1], v, env, cs[i - 1]).None?
    {
      text, ok := RenderNext(ts, i, v, env, cs, 0, text);
      i := i + 1;
    }
    if ok {
      AllStepped(ts, cs);
      line := Some(text);
    } else {
      line := None;
    }
  }

  /** The legacy progress bar: its tokens, its run state and its property, counter included. */
  class ProgressBar {
    var tokens: seq<Token>
    var running: bool
    var direction: int
    var property: Property

    constructor (ts: seq<Token>, p: Property)
      ensures tokens == ts && property == p && !running && direction == 1
    {
      tokens := ts;
      property := p;
      running := false;
      direction := 1;
    }

    /** The spinners are distinct objects, each in a state it can render. */
    ghost predicate Valid()
      reads this, SpinnerSet(tokens)
    {
      DistinctSpinners(tokens) && SpinnersInRange(tokens)
    }

    /** `Print`: every token rendered from the property (the `GotoXY` string is discarded). */
    method Print(env: Env) returns (line: Option<seq<byte>>)
      requires Valid()
      modifies SpinnerSet(tokens)
      ensures line == LineText(Kinds(tokens), old(Curs(tokens)), ViewOf(property), env)
      ensures line.Some? ==> Valid() && Curs(tokens) == Stepped(Kinds(tokens), old(Curs(tokens)))
    {
      line := RenderAll(tokens, ViewOf(property), env);
    }

    /**
     * `Update(current)`: a running `Run` is stopped first; then the counter and
     * the direction move as `UpdatedAsWritten` says, and the bar prints.
     */
    method Update(current: int, env: Env) returns (line: Option<seq<byte>>)
      requires Valid()
      modifies this, SpinnerSet(tokens)
      ensures tokens == old(tokens) && !running
      ensures var m := UpdatedAsWritten(old(property), old(direction), current);
        property == old(property).(current := m.current) && direction == m.direction
      ensures line == LineText(Kinds(tokens), old(Curs(tokens)), ViewOf(property), env)
      ensures line.Some? ==> Valid()
    {
      running := false;
      var m := UpdatedAsWritten(property, direction, current);
      property := property.(current := m.current);
      direction := m.direction;
      line := Print(env);
    }

    /** An uncertain bar that bounces, its marker non-empty and at least one byte narrower than the bar. */
    ghost predicate Moving()
      reads this
    {
      property.uncertain && |property.style.unCertain| >= 1 && Cap(property) >= 1 && Bouncing(property.current, direction, Cap(property))
    }

    /**
     * One tick of the `Run` loop: print; stop if the stop test holds;
     * otherwise run the `update` closure. `ok` is false when the print panicked.
     */
    method Tick(env: Env) returns (stop: bool, ok: bool)
      requires Valid()
      modifies this, SpinnerSet(tokens)
      ensures tokens == old(tokens) && running == old(running)
      ensures ok <==> LineText(Kinds(tokens), old(Curs(tokens)), ViewOf(old(property)), env).Some?
      ensures ok ==> Valid() && (stop <==> Stops(old(property)))
      ensures var m := Advanced(old(property), old(direction));
        if ok && !stop then property == old(property).(current := m.current) && direction == m.direction
        else property == old(property) && direction == old(direction)
      ensures old(Moving()) ==> !stop && Moving()
    {
      var line := Print(env);
      ok := line.Some?;
      if Moving() {
        StopTest(property, direction);
      }
      stop := Stops(property);
      if ok && !stop {
        Advance();
      }
    }

    /** The `update` closure of `Run`. */
    method Advance()
      modifies this
      ensures tokens == old(tokens) && running == old(running)
      ensures var m := Advanced(old(property), old(direction));
        property == old(property).(current := m.current) && direction == m.direction
      ensures old(Moving()) ==> Moving()
    {
      if Moving() {
        AdvanceBounces(property, direction);
      }
      var m := Advanced(property, direction);
      property := property.(current := m.current);
      direction := m.direction;
    }

    /**
     * `Run` for `ticks` ticks of its ticker: nothing when already running;
     * otherwise print, then tick until the stop test holds (`finished`), a
     * print panics (`ok` false) or the ticks run out. `done` counts the updates.
     */
    method Run(ticks: nat, env: Env) returns (done: nat, finished: bool, ok: bool)
      requires Valid()
      modifies this, SpinnerSet(tokens)
      ensures tokens == old(tokens) && done <= ticks
      ensures property == old(property).(current := property.current)
      ensures old(running) ==> done == 0 && !finished && ok && running && property == old(property) && direction == old(direction)
      ensures !old(running) && ok ==> Valid() && (running <==> !finished) && (finished || done == ticks)
      ensures ok && finished ==> Stops(property)
      ensures !property.uncertain ==> property.current == old(property.current) + done
      ensures !old(running) && ok && !old(property).uncertain ==>
        (finished <==> old(property.current) <= property.total < old(property.current) + ticks)
      ensures old(Moving()) ==> Moving() && !finished
    {
      if running {
        return 0, false, true;
      }
      running := true;
      done, finished := 0, false;
      var line := Print(env);
      ok := line.Some?;
      ghost var moving := Moving();
      while ok && !finished && done < ticks
        invariant tokens == old(tokens) && done <= ticks && running
        invariant property == old(property).(current := property.current)
        invariant ok ==> Valid()
        invariant ok && finished ==> Stops(property)
        invariant !property.uncertain ==> property.current == old(property.current) + done
        invariant !property.uncertain && ok ==>
          if finished then old(property.current) + done == property.total && done < ticks
          else !(old(property.current) <= property.total < old(property.current) + done)
        invariant moving ==> Moving() && !finished
        decreases ticks - done, !finished, ok
      {
        var stop;
        stop, ok := Tick(env);
        if ok && stop {
          finished := true;
        } else if ok {
          done := done + 1;
        }
      }
      if ok && finished {
        running := false;
      }
    }

    /**
     * `Stop`: the interrupt ends a running `Run`, and the bar is no longer
     * running; the counter stays where it is. On a bar that is not running no
     * one receives the interrupt, so `Stop` never returns (`blocked`) and
     * nothing changes.
     */
    method Stop() returns (blocked: bool)
      modifies this
      ensures blocked <==> !old(running)
      ensures !running
      ensures tokens == old(tokens) && property == old(property) && direction == old(direction)
    {
      blocked := !running;
      running := false;
    }
  }

  /** The style half of `NewProgressBar`, one field after another. */
  method PatchStyle(st: Style) returns (r: Style)
    ensures r == ReviseStyle(st)
  {
    r := st;
    if r.complete == [] {
      r := r.(complete := [35]);
    }
    if r.incomplete == [] {
      r := r.(incomplete := [45]);
    }
    if r.unCertain == [] {
      r := r.(unCertain := [60, 45, 62]);
    }
    if r.completeColor == RESET {
      r := r.(completeColor := White);
    }
    if r.incompleteColor == RESET {
      r := r.(incompleteColor := LightBlack);
    }
    if r.unCertainColor == RESET {
      r := r.(unCertainColor := White);
    }
  }

  /**
   * `NewProgressBar(style, property)`: an empty style is an error; otherwise
   * the property is revised, the style parsed and the direction set to 1.
   */
  method NewProgressBar(style: seq<byte>, property: Property) returns (r: Result<ProgressBar, Error>)
    ensures style == [] <==> r == Err(EmptyStyle)
    ensures r.Ok? ==>
      && fresh(r.value) && r.value.property == Revised(property)
      && Kinds(r.value.tokens) == Tokenize(style) && r.value.direction == 1 && !r.value.running
      && DistinctSpinners(r.value.tokens) && SpinnersAtStart(r.value.tokens)
  {
    if style == [] {
      return Err(EmptyStyle);
    }
    var p := property;
    if p.total == 0 {
      p := p.(total := 100);
    }
    if p.uncertain || p.current < 0 || p.current > p.total {
      p := p.(current := 0);
    }
    if p.width <= 0 {
      p := p.(width := 20);
    }
    var st := PatchStyle(p.style);
    p := p.(style := st);
    var ts := UnmarshalToken(style);
    var bar := new ProgressBar(ts, p);
    r := Ok(bar);
  }
}
