/**
 * The `Property` record of package `box`, its default value, and the option
 * builders (`ModFunc`s) that write it through a `*Property`. Runes are Unicode
 * code points.
 */
module BoxOption {
  import opened Wrappers
  import opened Font

  /** The frame runes of a box. */
  datatype Char = Char(
    topLeft: int, topRight: int, bottomLeft: int, bottomRight: int,
    top: int, bottom: int, left: int, right: int)

  /** The colours of the frame, the title and the text inside. */
  datatype Color = Color(
    topLeftColor: int, topRightColor: int, bottomLeftColor: int, bottomRightColor: int,
    topColor: int, bottomColor: int, leftColor: int, rightColor: int,
    titleColor: int, innerColor: int)

  datatype Style = Style(runes: Char, color: Color)

  /** The settings of a box; `PosX` and `PosY` matter only when `BindPos` is set. */
  datatype Property = Property(
    style: Style,
    padX: int, padY: int,
    align: int,
    titlePos: int,
    posX: int, posY: int,
    bindPos: bool)

  // Content alignments and title positions
  const Center := 0
  const Right := 2
  const TopLeft := 0
  const InsideRight := 8

  // The runes of the fine frame: ─ │ ┌ ┐ └ ┘
  const Horizontal := 0x2500
  const Vertical := 0x2502
  const DownRight := 0x250C
  const DownLeft := 0x2510
  const UpRight := 0x2514
  const UpLeft := 0x2518

  const ZeroChar := Char(0, 0, 0, 0, 0, 0, 0, 0)
  const ZeroColor := Color(0, 0, 0, 0, 0, 0, 0, 0, 0, 0)

  /** The zero value of `Property`, which `NewBox` starts from. */
  const ZeroProperty := Property(Style(ZeroChar, ZeroColor), 0, 0, 0, 0, 0, 0, false)

  /** The fine frame. */
  const FineChar := Char(DownRight, DownLeft, UpRight, UpLeft, Horizontal, Horizontal, Vertical, Vertical)

  /** Everything white. */
  const WhiteColor := Color(White, White, White, White, White, White, White, White, White, White)

  /** `DefaultProperty`: padding 1, centred, title top left, fine white frame. */
  const DefaultProperty := Property(Style(FineChar, WhiteColor), 1, 1, Center, TopLeft, 0, 0, false)

  /** The builders of option.go. */
  datatype ModFunc =
    | WithDefault
    | WithProperty(p: Property)
    | WithPos(x: int, y: int)
    | WithStyle(s: Style)

  /** The record a `ModFunc` leaves behind when it runs on `p`. */
  function Applied(mf: ModFunc, p: Property): Property
  {
    match mf
    case WithDefault => DefaultProperty
    case WithProperty(q) => q
    case WithPos(x, y) => p.(posX := x, posY := y, bindPos := true)
    case WithStyle(s) => p.(style := s)
  }

  /** `mfs` run in order, as `NewBox` runs them when none is nil. */
  function AppliedAll(mfs: seq<ModFunc>, p: Property): Property
  {
    FoldLeft(Applied, mfs, p)
  }

  /** The `*Property` a `ModFunc` receives. */
  class PropertyRef {
    var value: Property

    constructor (p: Property)
      ensures value == p
    {
      value := p;
    }

    /** `mf(p)`: the builder writes its fields in place. */
    method Apply(mf: ModFunc)
      modifies this
      ensures value == Applied(mf, old(value))
    {
      match mf
      case WithDefault => value := DefaultProperty;
      case WithProperty(q) => value := q;
      case WithPos(x, y) =>
        value := value.(posX := x);
        value := value.(posY := y);
        value := value.(bindPos := true);
      case WithStyle(s) => value := value.(style := s);
    }
  }

  /** `WithDefault` and `WithProperty` overwrite every field, so what was there before does not matter. */
  lemma OverwritingBuilders(p: Property, q: Property, r: Property)
    ensures Applied(WithDefault, p) == Applied(WithDefault, q) == DefaultProperty
    ensures Applied(WithProperty(r), p) == Applied(WithProperty(r), q) == r
  {
  }

  /** `WithPos` sets the position and binds it, and changes nothing else; it is idempotent. */
  lemma WithPosFrame(p: Property, x: int, y: int)
    ensures var r := Applied(WithPos(x, y), p);
      r.posX == x && r.posY == y && r.bindPos
      && r.(posX := p.posX, posY := p.posY, bindPos := p.bindPos) == p
      && Applied(WithPos(x, y), r) == r
  {
  }

  /** `WithStyle` replaces only `Style`, and the last of two `WithStyle`s wins. */
  lemma WithStyleFrame(p: Property, s: Style, t: Style)
    ensures var r := Applied(WithStyle(s), p);
      r.style == s && r.(style := p.style) == p
      && Applied(WithStyle(t), r) == Applied(WithStyle(t), p)
  {
  }

  /** `WithPos` and `WithStyle` write disjoint fields, so they commute. */
  lemma PosAndStyleCommute(p: Property, x: int, y: int, s: Style)
    ensures Applied(WithStyle(s), Applied(WithPos(x, y), p)) == Applied(WithPos(x, y), Applied(WithStyle(s), p))
  {
  }

  /**
   * `WithDefault` and `WithProperty` overwrite whatever the builders in front
   * of them did: only the builders after them count.
   */
  lemma OverwriteDiscardsEarlierBuilders(before: seq<ModFunc>, after: seq<ModFunc>, q: Property, p: Property)
    ensures AppliedAll(before + [WithDefault] + after, p) == AppliedAll(after, DefaultProperty)
    ensures AppliedAll(before + [WithProperty(q)] + after, p) == AppliedAll(after, q)
  {
    FoldLeftConcat(Applied, before + [WithDefault], after, p);
    FoldLeftConcat(Applied, before, [WithDefault], p);
    assert AppliedAll([WithDefault], AppliedAll(before, p)) == DefaultProperty;
    FoldLeftConcat(Applied, before + [WithProperty(q)], after, p);
    FoldLeftConcat(Applied, before, [WithProperty(q)], p);
    assert AppliedAll([WithProperty(q)], AppliedAll(before, p)) == q;
  }
}
