/**
 * The `Property` record of the current progress bar and the option builders
 * (`ModFunc`s) that write its fields through a `*Property`.
 */
module PbOption {
  import opened ByteString
  import opened Wrappers
  import opened Font

  /** The glyphs and colours of the `%bar` token. */
  datatype Style = Style(
    complete: seq<byte>, completeHead: seq<byte>, incomplete: seq<byte>, unCertain: seq<byte>,
    completeColor: int, completeHeadColor: int, incompleteColor: int, unCertainColor: int)

  /** The settings of a progress bar; `formatChanged` is the record's private flag. */
  datatype Property = Property(
    style: Style,
    format: seq<byte>,
    posX: int, posY: int,
    barWidth: int,
    width: int,
    uncertain: bool,
    bytes: bool,
    bindPos: bool,
    formatChanged: bool)

  /** The zero value of `Style`. */
  const ZeroStyle := Style([], [], [], [], RESET, RESET, RESET, RESET)

  /** The zero value of `Property`, which `NewProgressBar` starts from. */
  const ZeroProperty := Property(ZeroStyle, [], 0, 0, 0, 0, false, false, false, false)

  /** `DefaultProperty` as `InitProgressBar` sets it: blank glyphs, white-background complete part. */
  const DefaultProperty := ZeroProperty.(style := ZeroStyle.(complete := [32], incomplete := [32], completeColor := WhiteBg))

  /** The builders of option.go; `WithCount` is not part of this model. */
  datatype ModFunc =
    | WithDefault
    | WithProperty(p: Property)
    | WithPos(x: int, y: int)
    | WithWidth(w: int)
    | WithUncertain
    | WithStyle(s: Style)
    | WithFormat(f: seq<byte>)

  /** The record a `ModFunc` leaves behind when it runs on `p`. */
  function Applied(mf: ModFunc, p: Property): Property
  {
    match mf
    case WithDefault => DefaultProperty
    case WithProperty(q) => q
    case WithPos(x, y) => p.(posX := x, posY := y)
    case WithWidth(w) => p.(width := w)
    case WithUncertain => p.(uncertain := true)
    case WithStyle(s) => p.(style := s)
    case WithFormat(f) => p.(format := f)
  }

  /** `mfs` run in order, as `NewProgressBar` runs them when none is nil. */
  function AppliedAll(mfs: seq<ModFunc>, p: Property): Property
  {
    FoldLeft(Applied, mfs, p)
  }

  /** The `*Property` a `ModFunc` receives. */
  class PropertyRef {
    var value: Property

    constructor (p: Property)
      ensures value == p
    {
      value := p;
    }

    /** `mf(p)`: the builder writes its fields in place. */
    method Apply(mf: ModFunc)
      modifies this
      ensures value == Applied(mf, old(value))
    {
      match mf
      case WithDefault => value := DefaultProperty;
      case WithProperty(q) => value := q;
      case WithPos(x, y) => value := value.(posX := x); value := value.(posY := y);
      case WithWidth(w) => value := value.(width := w);
      case WithUncertain => value := value.(uncertain := true);
      case WithStyle(s) => value := value.(style := s);
      case WithFormat(f) => value := value.(format := f);
    }
  }

  /** `WithDefault` and `WithProperty` overwrite every field, so what was there before does not matter. */
  lemma OverwritingBuilders(p: Property, q: Property, r: Property)
    ensures Applied(WithDefault, p) == Applied(WithDefault, q) == DefaultProperty
    ensures Applied(WithProperty(r), p) == Applied(WithProperty(r), q) == r
  {
  }

  /** `WithPos` sets the position and nothing else; in particular it leaves `BindPos` alone. */
  lemma WithPosFrame(p: Property, x: int, y: int)
    ensures var r := Applied(WithPos(x, y), p);
      r.posX == x && r.posY == y && r.bindPos == p.bindPos
      && r.(posX := p.posX, posY := p.posY) == p
  {
  }

  /** `WithWidth` sets `Width` and nothing else (not `BarWidth`). */
  lemma WithWidthFrame(p: Property, w: int)
    ensures var r := Applied(WithWidth(w), p);
      r.width == w && r.barWidth == p.barWidth && r.(width := p.width) == p
  {
  }

  /** `WithUncertain` sets the flag and nothing else, and running it twice is running it once. */
  lemma WithUncertainFrame(p: Property)
    ensures var r := Applied(WithUncertain, p);
      r.uncertain && r.(uncertain := p.uncertain) == p && Applied(WithUncertain, r) == r
  {
  }

  /** `WithStyle` replaces only `Style`, and `WithFormat` sets only `Format` (not `formatChanged`). */
  lemma WithStyleAndFormatFrame(p: Property, s: Style, f: seq<byte>)
    ensures var r := Applied(WithStyle(s), p);
      r.style == s && r.(style := p.style) == p
    ensures var r := Applied(WithFormat(f), p);
      r.format == f && r.formatChanged == p.formatChanged && r.(format := p.format) == p
  {
  }

  /** Builders that write disjoint fields commute. */
  lemma DisjointBuildersCommute(p: Property, x: int, y: int, w: int, s: Style, f: seq<byte>)
    ensures Applied(WithWidth(w), Applied(WithPos(x, y), p)) == Applied(WithPos(x, y), Applied(WithWidth(w), p))
    ensures Applied(WithStyle(s), Applied(WithFormat(f), p)) == Applied(WithFormat(f), Applied(WithStyle(s), p))
    ensures Applied(WithUncertain, Applied(WithStyle(s), p)) == Applied(WithStyle(s), Applied(WithUncertain, p))
  {
  }

  /**
   * `WithDefault` overwrites whatever the builders in front of it did: only
   * the builders after it count.
   */
  lemma DefaultDiscardsEarlierBuilders(before: seq<ModFunc>, after: seq<ModFunc>, p: Property)
    ensures AppliedAll(before + [WithDefault] + after, p) == AppliedAll(after, DefaultProperty)
  {
    FoldLeftConcat(Applied, before + [WithDefault], after, p);
    FoldLeftConcat(Applied, before, [WithDefault], p);
    assert AppliedAll([WithDefault], AppliedAll(before, p)) == DefaultProperty;
  }
}
