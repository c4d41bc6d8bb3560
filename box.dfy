/**
 * Package `box`: `NewBox`, which runs the builders and then fills in
 * defaults and clamps fields, and the first line `Print` draws.
 */
module BoxFrame {
  import opened ByteString
  import opened Wrappers
  import opened Font
  import opened Utf8
  import opened BoxOption

  datatype Error = NilModFunc   // "modify func cannot be nil"

  /** `Box`: a property record, not changed after `NewBox`. */
  datatype Box = Box(property: Property)

  /** Every zero rune of the frame gets the matching rune of the fine frame. */
  function ReviseChar(c: Char): (r: Char)
    ensures r.top != 0 && r.bottom != 0 && r.left != 0 && r.right != 0
    ensures r.topLeft != 0 && r.topRight != 0 && r.bottomLeft != 0 && r.bottomRight != 0
    ensures r.top == (if c.top == 0 then Horizontal else c.top)
    ensures r.bottom == (if c.bottom == 0 then Horizontal else c.bottom)
    ensures r.left == (if c.left == 0 then Vertical else c.left)
    ensures r.right == (if c.right == 0 then Vertical else c.right)
    ensures r.topLeft == (if c.topLeft == 0 then DownRight else c.topLeft)
    ensures r.topRight == (if c.topRight == 0 then DownLeft else c.topRight)
    ensures r.bottomLeft == (if c.bottomLeft == 0 then UpRight else c.bottomLeft)
    ensures r.bottomRight == (if c.bottomRight == 0 then UpLeft else c.bottomRight)
  {
    Char(if c.topLeft == 0 then DownRight else c.topLeft,
         if c.topRight == 0 then DownLeft else c.topRight,
         if c.bottomLeft == 0 then UpRight else c.bottomLeft,
         if c.bottomRight == 0 then UpLeft else c.bottomRight,
         if c.top == 0 then Horizontal else c.top,
         if c.bottom == 0 then Horizontal else c.bottom,
         if c.left == 0 then Vertical else c.left,
         if c.right == 0 then Vertical else c.right)
  }

  /** A zero colour is white. */
  function Whitened(c: int): (r: int)
    ensures r != 0 && (c != 0 ==> r == c) && (c == 0 ==> r == White)
  {
    if c == 0 then White else c
  }

  /** Every zero colour becomes white. */
  function ReviseColor(c: Color): Color
  {
    Color(Whitened(c.topLeftColor), Whitened(c.topRightColor), Whitened(c.bottomLeftColor),
          Whitened(c.bottomRightColor), Whitened(c.topColor), Whitened(c.bottomColor),
          Whitened(c.leftColor), Whitened(c.rightColor), Whitened(c.titleColor), Whitened(c.innerColor))
  }

  /**
   * The revision of `NewBox`, after the builders: runes and colours get
   * their defaults, negative padding becomes 0, an alignment outside
   * `[Center, Right]` becomes `Center`, a title position outside
   * `[TopLeft, InsideRight]` becomes `TopLeft`, and a position outside the
   * console becomes 0. The console size is `(width, height)` and `NewBox`
   * names it `maxY, maxX`, so `PosX` is compared with the height and `PosY`
   * against the width.
   */
  function Revised(p: Property, consoleWidth: int, consoleHeight: int): (r: Property)
    ensures r.style == Style(ReviseChar(p.style.runes), ReviseColor(p.style.color))
    ensures r.padX >= 0 && r.padY >= 0
    ensures r.padX == (if p.padX < 0 then 0 else p.padX) && r.padY == (if p.padY < 0 then 0 else p.padY)
    ensures Center <= r.align <= Right
    ensures Center <= p.align <= Right ==> r.align == p.align
    ensures !(Center <= p.align <= Right) ==> r.align == Center
    ensures TopLeft <= r.titlePos <= InsideRight
    ensures TopLeft <= p.titlePos <= InsideRight ==> r.titlePos == p.titlePos
    ensures !(TopLeft <= p.titlePos <= InsideRight) ==> r.titlePos == TopLeft
    ensures r.posX == (if 0 <= p.posX < consoleHeight then p.posX else 0)
    ensures r.posY == (if 0 <= p.posY < consoleWidth then p.posY else 0)
    ensures r.bindPos == p.bindPos
  {
    Property(Style(ReviseChar(p.style.runes), ReviseColor(p.style.color)),
             if p.padX < 0 then 0 else p.padX,
             if p.padY < 0 then 0 else p.padY,
             if p.align < 0 || p.align > 2 then Center else p.align,
             if p.titlePos < 0 || p.titlePos > 8 then TopLeft else p.titlePos,
             if p.posX < 0 || p.posX >= consoleHeight then 0 else p.posX,
             if p.posY < 0 || p.posY >= consoleWidth then 0 else p.posY,
             p.bindPos)
  }

  /** Revising twice is revising once, and the default property needs no revision. */
  lemma RevisedIdempotent(p: Property, consoleWidth: int, consoleHeight: int)
    ensures Revised(Revised(p, consoleWidth, consoleHeight), consoleWidth, consoleHeight)
      == Revised(p, consoleWidth, consoleHeight)
    ensures Revised(DefaultProperty, consoleWidth, consoleHeight) == DefaultProperty
  {
  }

  /** The zero property, with no builder at all, becomes the default property. */
  lemma RevisedZero(consoleWidth: int, consoleHeight: int)
    ensures Revised(ZeroProperty, consoleWidth, consoleHeight) == DefaultProperty.(padX := 0, padY := 0)
  {
  }

  /** The rune half of `NewBox`, one field after another. */
  method PatchChar(c: Char) returns (r: Char)
    ensures r == ReviseChar(c)
  {
    r := c;
    if r.top == 0 {
      r := r.(top := Horizontal);
    }
    if r.bottom == 0 {
      r := r.(bottom := Horizontal);
    }
    if r.left == 0 {
      r := r.(left := Vertical);
    }
    if r.right == 0 {
      r := r.(right := Vertical);
    }
    if r.topLeft == 0 {
      r := r.(topLeft := DownRight);
    }
    if r.topRight == 0 {
      r := r.(topRight := DownLeft);
    }
    if r.bottomLeft == 0 {
      r := r.(bottomLeft := UpRight);
    }
    if r.bottomRight == 0 {
      r := r.(bottomRight := UpLeft);
    }
  }

  /** The colour half of `NewBox`, one field after another: the corners, then the rest. */
  method PatchColor(c: Color) returns (r: Color)
    ensures r == ReviseColor(c)
  {
    r := PatchCornerColors(c);
    r := PatchSideColors(r);
  }

  method PatchCornerColors(c: Color) returns (r: Color)
    ensures r == c.(topLeftColor := Whitened(c.topLeftColor), topRightColor := Whitened(c.topRightColor),
                    bottomLeftColor := Whitened(c.bottomLeftColor), bottomRightColor := Whitened(c.bottomRightColor))
  {
    r := c;
    if r.topLeftColor == 0 {
      r := r.(topLeftColor := White);
    }
    if r.topRightColor == 0 {
      r := r.(topRightColor := White);
    }
    if r.bottomLeftColor == 0 {
      r := r.(bottomLeftColor := White);
    }
    if r.bottomRightColor == 0 {
      r := r.(bottomRightColor := White);
    }
  }

  method PatchSideColors(c: Color) returns (r: Color)
    ensures r == c.(topColor := Whitened(c.topColor), bottomColor := Whitened(c.bottomColor),
                    leftColor := Whitened(c.leftColor), rightColor := Whitened(c.rightColor),
                    titleColor := Whitened(c.titleColor), innerColor := Whitened(c.innerColor))
  {
    r := c;
    if r.topColor == 0 {
      r := r.(topColor := White);
    }
    if r.bottomColor == 0 {
      r := r.(bottomColor := White);
    }
    if r.leftColor == 0 {
      r := r.(leftColor := White);
    }
    if r.rightColor == 0 {
      r := r.(rightColor := White);
    }
    if r.titleColor == 0 {
      r := r.(titleColor := White);
    }
    if r.innerColor == 0 {
      r := r.(innerColor := White);
    }
  }

  /** The layout half of `NewBox`: padding, alignment, title position and position. */
  method PatchLayout(p: Property, consoleWidth: int, consoleHeight: int) returns (r: Property)
    ensures r == Revised(p, consoleWidth, consoleHeight).(style := p.style)
  {
    r := p;
    if r.padX < 0 {
      r := r.(padX := 0);
    }
    if r.padY < 0 {
      r := r.(padY := 0);
    }
    if r.align < 0 || r.align > 2 {
      r := r.(align := Center);
    }
    if r.titlePos < 0 || r.titlePos > 8 {
      r := r.(titlePos := TopLeft);
    }
    var maxY, maxX := consoleWidth, consoleHeight;
    if r.posX < 0 || r.posX >= maxX {
      r := r.(posX := 0);
    }
    if r.posY < 0 || r.posY >= maxY {
      r := r.(posY := 0);
    }
  }

  /**
   * `NewBox(mfs...)` with the console size passed in: a nil builder is an
   * error; otherwise the builders run in order on the zero property and the
   * result is revised.
   */
  method NewBox(mfs: seq<Option<ModFunc>>, consoleWidth: int, consoleHeight: int) returns (r: Result<Box, Error>)
    ensures (exists i :: 0 <= i < |mfs| && mfs[i].None?) <==> r == Err(NilModFunc)
    ensures r.Ok? ==> r.value.property == Revised(AppliedAll(Values(mfs), ZeroProperty), consoleWidth, consoleHeight)
  {
    var property := new PropertyRef(ZeroProperty);
    var i := 0;
    while i < |mfs|
      invariant 0 <= i <= |mfs|
      invariant forall j :: 0 <= j < i ==> mfs[j].Some?
      invariant property.value == AppliedAll(Values(mfs[..i]), ZeroProperty)
    {
      if mfs[i].None? {
        return Err(NilModFunc);
      }
      FoldLeftConcat(Applied, Values(mfs[..i]), [mfs[i].value], ZeroProperty);
      assert Values(mfs[..i + 1]) == Values(mfs[..i]) + [mfs[i].value];
      property.Apply(mfs[i].value);
      i := i + 1;
    }
    assert mfs[..i] == mfs;
    var p := property.value;
    var c := PatchChar(p.style.runes);
    var k := PatchColor(p.style.color);
    p := p.(style := Style(c, k));
    p := PatchLayout(p, consoleWidth, consoleHeight);
    r := Ok(Box(p));
  }

  /** A box built from `WithDefault` alone is the default box wherever the console is. */
  lemma DefaultBox(consoleWidth: int, consoleHeight: int)
    ensures Revised(AppliedAll(Values([Some(WithDefault)]), ZeroProperty), consoleWidth, consoleHeight) == DefaultProperty
  {
    assert Values([Some(WithDefault)]) == [WithDefault];
    assert AppliedAll([WithDefault], ZeroProperty) == AppliedAll([], DefaultProperty);
  }

  // ---------------------------------------------------------------------
  // The first line of `Print`

  /** The greatest byte length of the payload lines, 0 when there are none. */
  function MaxLength(payload: seq<seq<byte>>): (m: nat)
    ensures forall i :: 0 <= i < |payload| ==> |payload[i]| <= m
    ensures m == 0 || exists i :: 0 <= i < |payload| && |payload[i]| == m
    decreases |payload|
  {
    if |payload| == 0 then 0
    else
      var m := MaxLength(payload[..|payload| - 1]);
      var n := |payload[|payload| - 1]|;
      assert forall i :: 0 <= i < |payload| - 1 ==> payload[..|payload| - 1][i] == payload[i];
      if m < n then n else m
  }

  /** The loop of `Print` that finds `maxLen`. */
  method LongestLine(payload: seq<seq<byte>>) returns (maxLen: int)
    ensures maxLen == MaxLength(payload)
  {
    maxLen := 0;
    for i := 0 to |payload|
      invariant maxLen == MaxLength(payload[..i])
    {
      assert payload[..i + 1][..i] == payload[..i];
      maxLen := if maxLen < |payload[i]| then |payload[i]| else maxLen;
    }
    assert payload[..|payload|] == payload;
  }

  /** The arguments `Print` passes to `Splice` for the first line, the top run repeated `count` times. */
  function TopArgs(p: Property, count: nat): seq<Arg>
  {
    [IntArg(p.style.color.topLeftColor)] + [RuneArg(p.style.runes.topLeft)]
    + [IntArg(p.style.color.topColor)] + [StrArg(Repeat(EncodeRune(p.style.runes.top), count))]
    + [IntArg(p.style.color.topRightColor)] + [RuneArg(p.style.runes.topRight)]
  }

  /**
   * A first line whose top run repeats `count` times: the top-left rune in
   * its colour, the top rune `count` times in its colour, then the top-right
   * rune in its colour; `None` when `count` is negative, where
   * `strings.Repeat` panics.
   */
  function TopLineOf(p: Property, count: int): (r: Option<seq<byte>>)
    ensures r.Some? <==> count >= 0
    ensures r.Some? ==>
      var c, k := p.style.runes, p.style.color;
      r.value == SetStyle(k.topLeftColor) + EncodeRune(c.topLeft) + SetStyle(k.topColor)
               + Repeat(EncodeRune(c.top), count) + SetStyle(k.topRightColor) + EncodeRune(c.topRight)
  {
    if count < 0 then None
    else
      TopArgsText(p, count);
      Some(Spliced(TopArgs(p, count)))
  }

  /** The first line `Print` draws: its top run is `maxLen + 2*PadX` long, so a padding of 0 or more always draws it. */
  function TopLine(p: Property, payload: seq<seq<byte>>): (r: Option<seq<byte>>)
    ensures p.padX >= 0 ==> r.Some?
  {
    TopLineOf(p, MaxLength(payload) + p.padX * 2)
  }

  /** The six arguments of the first line write their pieces in order. */
  lemma TopArgsText(p: Property, count: nat)
    ensures var c, k := p.style.runes, p.style.color;
      Spliced(TopArgs(p, count))
        == SetStyle(k.topLeftColor) + EncodeRune(c.topLeft) + SetStyle(k.topColor)
         + Repeat(EncodeRune(c.top), count) + SetStyle(k.topRightColor) + EncodeRune(c.topRight)
  {
    var c, k := p.style.runes, p.style.color;
    var a0 := [IntArg(k.topLeftColor)];
    assert Spliced(a0) == SetStyle(k.topLeftColor) by {
      assert a0[1..] == [];
      assert Spliced(a0) == Piece(a0[0]) + [];
    }
    var a1 := a0 + [RuneArg(c.topLeft)];
    SplicedSnoc(a0, RuneArg(c.topLeft));
    var a2 := a1 + [IntArg(k.topColor)];
    SplicedSnoc(a1, IntArg(k.topColor));
    var a3 := a2 + [StrArg(Repeat(EncodeRune(c.top), count))];
    SplicedSnoc(a2, StrArg(Repeat(EncodeRune(c.top), count)));
    var a4 := a3 + [IntArg(k.topRightColor)];
    SplicedSnoc(a3, IntArg(k.topRightColor));
    SplicedSnoc(a4, RuneArg(c.topRight));
    assert Spliced(a1) == SetStyle(k.topLeftColor) + EncodeRune(c.topLeft);
    assert Spliced(a2) == SetStyle(k.topLeftColor) + EncodeRune(c.topLeft) + SetStyle(k.topColor);
  }

  /**
   * `box.Print(title, payload)` as far as it goes: it writes the first line;
   * the title is not used and the `GotoXY` string is built but discarded.
   */
  method Print(box: Box, title: seq<byte>, payload: seq<seq<byte>>) returns (written: Option<seq<byte>>)
    ensures written == TopLine(box.property, payload)
  {
    var p := box.property;
    var maxLen := LongestLine(payload);
    var count := maxLen + p.padX * 2;
    if count < 0 {
      return None;
    }
    var line := Splice(TopArgs(p, count));
    written := Some(line);
  }
}
