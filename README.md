# gocui core in Dafny

gocui is a small Go library of console widgets. This project models its core and proves properties of the model:

- **Escape sequences.** The `font` package builds SGR escape sequences (section 8.3.117 of ECMA-48). The `cursor` package builds the cursor movement sequences:
  - CUP (section 8.3.21), via `GotoXY`;
  - CUU (8.3.22), CUD (8.3.19), CUF (8.3.20) and CUB (8.3.18), via `Up`, `Down`, `Right` and `Left`;
  - the DEC private mode 25 sequences, via `HideCursor` and `ShowCursor`.
- **Progress bars.** There are two versions, the current one (`pb`) and the legacy one (`progress_bar`). Each has:
  - a format tokenizer (`unmarshalToken`);
  - token renderers (`%bar`, `%percent`, `%current`, `%total`, `%spinner`, literal text);
  - construction-time defaulting of its `Property`;
  - counter updates;
  - the per-step bodies of the loops that drive it.
- **Boxes.** The `box` package normalises a box `Property` (`NewBox`) and draws the first line of a box (`Print`).
- **Option builders.** Both `pb` and `box` use functional option builders (`ModFunc`s) that write fields of a `Property` in place, through a `*Property`.

Modules, one per file:

| module | file | models |
|---|---|---|
| `ByteString` | bytestring.dfy | bytes, `strings.Repeat` |
| `Wrappers` | wrappers.dfy | `Option`, `Result`, `Values`, `FoldLeft` |
| `Decimal` | decimal.dfy | `strconv.Itoa`, `%3d` padding and a decimal reader |
| `Ansi` | ansi.dfy | control sequences of ECMA-48 (section 5.4) and their reader |
| `Utf8` | utf8.dfy | the UTF-8 encoding that writing a rune produces |
| `Font` | font.dfy | `SetStyle`, `Decorate`, `Splice` |
| `Cursor` | cursor.dfy | `GotoXY`, `Up`, `Down`, `Left`, `Right`, `HideCursor`, `ShowCursor` |
| `BarToken` | bar_token.dfy | the tokens, the tokenizer and the spinner |
| `BarRender` | bar_render.dfy | the token renderers, shared by both bar versions |
| `PbOption` | pb_option.dfy | pb `Property`, `Style` and builders |
| `PbProgressBar` | pb_progress_bar.dfy | pb `NewProgressBar`, `Context`, `Runner`, `BytesWriter`, loop steps |
| `LegacyProgressBar` | legacy_progress_bar.dfy | the legacy bar |
| `BoxOption` | box_option.dfy | box `Property` and builders |
| `BoxFrame` | box.dfy | `NewBox` and the first line of `Print` |

Modelling choices:

- **Where state changes.**
  - Classes model what the source updates in place: the spinner state, the pb `Context`, `Runner`, `BytesWriter` and `ProgressBar`, the legacy `ProgressBar`, and the `*Property` a builder writes through.
  - A spinner token refers to a `Spinner` object. `NewContext` copies the token slice, so every context shares the spinners of its bar.
  - Loops that append to a buffer are methods. They are proved equal to a function of their inputs, and that function carries the lemmas.
- **Errors, panics and nil builders.**
  - Errors are `Result` values.
  - A panic (a slice out of range, a negative repeat count) is `None`.
  - A nil `ModFunc` is `None` in a `seq<Option<ModFunc>>`.
- **Strings, numbers and widths.**
  - Strings are byte sequences, and every length is a byte length, as `len` is in Go.
  - Go converts `float64(current) / float64(total) * width` to `int`. The model uses the exact quotient truncated toward zero instead (`BarRender.TruncDiv`).
  - Both bar versions render through one `BarRender.View`. The current bar fills it from `Context.Current`, `Context.Total` and `Property.Width`; the legacy bar fills it from its `Property`.
- **Values passed in.** The console size, which comes from a system call, is a parameter. So are the text of the clock tokens and the integers the platform converts a positive and a negative float infinity to (both in `BarRender.Env`).
- **Output.**
  - Output is the payload bytes a call would write, without the `ClearArea` prefix (a `GotoXY` and `Width` blanks) that the legacy `Print` writes first. The strings `cursor.GotoXY` returns inside `Print` are discarded, as the source discards them.
  - The current `Print` writes `"\r"` first unless `BindPos` is set.
  - The current `Print` calls `ToString` on a possibly nil `*TokenBar`. That call does not dereference its receiver, so a format without `%bar` still draws the bar first; the model does the same.
- **Reconciling versions.** The current files come from different commits.
  - `pb/bar_token.go` reads `ctx.current`, `ctx.property.Total` and `p.Width`. These are taken to be `Context.Current`, `Context.Total` and `Property.Width`.
  - `pb/progress_bar.go` expects a second result from `unmarshalToken`, the bar position. Nothing reads it, and it is not modelled.
- **Concurrency.** Goroutines, channels and tickers are sequential here.
  - `Run` is a number of ticks.
  - `iter` is its loop and the values it sends.
  - `RunWithWriter` is the sequence of byte counts written to its writer.

## Model

| member | source | states |
|---|---|---|
| ByteString.Repeat | pb/bar_token.go:55 | `strings.Repeat(s, count)` is `count * len(s)` bytes long |
| Decimal.Digits | pb/bar_token.go:71-73 | the decimal digits of a natural number are non-empty, all digits, with no leading zero |
| Decimal.Itoa | pb/bar_token.go:71-77 | `strconv.Itoa` writes digits, with a leading minus exactly when the number is negative |
| Decimal.DigitsRoundTrip | pb/bar_token.go:71-73 | the value the digits denote is the number written |
| Decimal.ItoaRoundTrip | pb/bar_token.go:71-77 | reading back what `Itoa` writes gives the number again |
| Decimal.ItoaInjective | pb/bar_token.go:71-77 | different numbers are written differently |
| Decimal.PadLeft | pb/bar_token.go:87 | `%3d` right-aligns in a field at least 3 wide, padding with blanks and keeping the digits verbatim |
| Ansi.ItoaHasNoSemi | font/font.go:86-91 | a written code never contains the `;` separator |
| Ansi.Params | font/font.go:86-91 | the joined codes use only digits, `;` and the `-` of a negative code, and hold exactly one `;` fewer than there are codes |
| Ansi.ParamsStandard | font/font.go:86-91 | codes of at least 0 are written with parameter bytes of section 5.4 of ECMA-48 (0x30..0x3F) only; a negative code's `-` is an intermediate byte there |
| Ansi.ControlSequence | font/font.go:84-92 | a control sequence is CSI, the parameter text, then the final byte |
| Ansi.ParseParams | font/font.go:86-91 | the reader of parameter texts yields at least one code for a non-empty text |
| Ansi.ParamsRoundTrip | font/font.go:86-91 | reading back the joined codes gives the code list again, whatever its length |
| Ansi.ParamsInjective | font/font.go:86-91 | different code lists are written differently |
| Ansi.ParseControlSequence | font/font.go:82-96 | a control sequence read back ends in a final byte (section 5.4 of ECMA-48) |
| Ansi.ControlSequenceRoundTrip | font/font.go:82-96 | reading back a control sequence gives the parameters and the final byte it was written with |
| Ansi.ParamsHaveNoFinalByte | font/font.go:86-91 | no byte of a parameter text is a final byte, so the first final byte ends a sequence |
| Utf8.EncodeRune | font/font.go:104-105 | writing a rune produces 1 to 4 bytes: a lead byte and continuation bytes, one byte exactly for ASCII |
| Utf8.DecodeRune | font/font.go:104-105 | a well-formed sequence decodes to a valid rune |
| Utf8.EncodeDecode | font/font.go:104-105 | decoding a written rune gives the rune back, or U+FFFD for an invalid one |
| Utf8.DecodeEncode | font/font.go:104-105 | every well-formed sequence is the encoding of the rune it decodes to |
| Font.SetStyle | font/font.go:78-80 | `SetStyle(s)` reads back as SGR with the single parameter `s`, and decorating with one code is `SetStyle` of it, the text, then the reset |
| Font.Decorate | font/font.go:82-96 | the builder loop produces the SGR opening for the codes, the text and the reset suffix |
| Font.Decorated | font/font.go:82-96 | definition: the SGR opening for the codes, the text, then the reset sequence; its properties are the lemmas below |
| Font.DecoratedSeparators | font/font.go:86-91 | with codes present there is one separator fewer than there are codes, and none after the last |
| Font.DecoratedNoCodes | font/font.go:84-95 | with no codes the result is `ESC [ m`, the text, `ESC [ 0 m` |
| Font.DecoratedLayout | font/font.go:92-94 | the text sits verbatim between the opening sequence and the reset suffix, at known offsets |
| Font.OpeningEnd | font/font.go:84-92 | inside the opening sequence only its last byte is an `m` |
| Font.DecoratedInjective | font/font.go:82-96 | a decorated string determines its text and its codes |
| Font.Piece | font/font.go:101-108 | definition: an `int` becomes `SetStyle` of it, a rune its UTF-8 bytes, a string itself, anything else nothing |
| Font.Spliced | font/font.go:98-111 | definition: the pieces of the arguments concatenated in order |
| Font.WritePiece | font/font.go:101-108 | one case of the type switch appends exactly that argument's bytes |
| Font.Splice | font/font.go:98-111 | the builder loop produces the pieces of the arguments in order |
| Font.SplicedConcat | font/font.go:100-109 | splicing a concatenation of argument lists concatenates their results |
| Font.SplicedSnoc | font/font.go:100-109 | one more argument appends its piece |
| Font.SplicedDropsOther | font/font.go:101-108 | an argument of any other type is dropped |
| Font.SplicedPieces | font/font.go:102-107 | a string is copied verbatim and an int `k` becomes `SetStyle(k)` |
| Cursor.GotoXY | cursor/cursor.go:8-10 | reads back as CUP with parameters `x+1` and `y+1` |
| Cursor.Up | cursor/cursor.go:13-15 | reads back as CUU with parameter `n` |
| Cursor.Down | cursor/cursor.go:18-20 | reads back as CUD with parameter `n` |
| Cursor.Left | cursor/cursor.go:23-25 | reads back as CUB with parameter `n` |
| Cursor.Right | cursor/cursor.go:28-30 | reads back as CUF with parameter `n` |
| Cursor.HideCursor | cursor/cursor.go:33-35 | six bytes, starting with CSI and ending in `l` |
| Cursor.ShowCursor | cursor/cursor.go:38-40 | six bytes, starting with CSI and ending in `h` |
| Cursor.HideShowDifferInFinalByte | cursor/cursor.go:33-40 | the two sequences agree on their first five bytes, differ in the last, and neither reads as a numeric control sequence |
| BarToken.NamedKind | pb/bar_token.go:125-140 | every built-in name yields a non-literal token |
| BarToken.FirstMatch | pb/bar_token.go:122-144 | the match found is the first built-in name in list order that the input starts with; none is found only when no name matches |
| BarToken.IndexOfPercent | pb/bar_token.go:150 | the index found is that of the first `%`; none is found only when there is no `%` |
| BarToken.LiteralEnd | pb/bar_token.go:149-156 | a literal takes at least one byte and stops just before the next `%` after its first byte, or at the end |
| BarToken.NextToken | pb/bar_token.go:117-157 | each scanning step consumes at least one byte, and the token it emits is spelled by exactly the bytes consumed |
| BarToken.Tokenize | pb/bar_token.go:111-160 | at most one token per format byte, and no tokens exactly for an empty format |
| BarToken.NamesAreNonEmpty | pb/bar_token.go:24-28 | every built-in name starts with `%` and is longer than one byte |
| BarToken.TokenizeLossless | pb/bar_token.go:111-159 | the spellings of the tokens, concatenated, are the format string; an empty format yields no tokens |
| BarToken.TokenizeNoPercent | pb/bar_token.go:117-152 | a non-empty format without `%` is one literal holding the whole input |
| BarToken.LiteralNext | pb/bar_token.go:148-156 | a step that reads a literal emits the bytes up to the next `%` after the first |
| BarToken.TokenizeTextShape | pb/bar_token.go:149-156 | every literal is non-empty and holds `%` at most as its first byte |
| BarToken.UnknownDegrades | pb/bar_token.go:145-156 | a `%` that starts no built-in name begins a literal running up to the next `%`; this is no error |
| BarToken.FirstMatchWins | progress_bar/bar_token.go:120-141 | the first built-in name in list order that matches wins, and exactly its length is consumed |
| BarToken.NamesArePrefixFree | progress_bar/bar_token.go:24-28 | at most one built-in name can match at a position |
| BarToken.SpinnerAfterIsModular | progress_bar/bar_token.go:102-106 | after `k` renderings the spinner state is `(cur + k) % 4` |
| BarToken.SpinnerCycle | progress_bar/bar_token.go:102-106 | four renderings return the spinner to its state, showing four different glyphs on the way |
| BarToken.Spinner.constructor | pb/bar_token.go:139 | a new spinner starts at state 0 |
| BarToken.Spinner.ToString | pb/bar_token.go:104-108 | returns the glyph of `\|/-` at the current state and advances the state modulo 4 |
| BarToken.Advance | pb/bar_token.go:122-143 | the token appended for a matched name accounts for exactly the bytes consumed, so the tokens so far plus the rest's tokens stay those of the format |
| BarToken.NewToken | pb/bar_token.go:125-140 | appends the token of the matched name, with a fresh spinner at state 0 for `%spinner` |
| BarToken.MatchName | pb/bar_token.go:122-144 | the loop over the names stops at the first that matches, or after all |
| BarToken.CommonString | pb/bar_token.go:148-157 | the literal step consumes bytes, keeps the token invariant and ends the scan exactly when nothing is left |
| BarToken.UnmarshalToken | pb/bar_token.go:111-160 | the scanning loop produces the tokens of the format, each spinner a distinct object at state 0 |
| BarRender.TruncDiv | pb/bar_token.go:65 | the conversion of a quotient to `int` truncates toward zero |
| BarRender.RepeatStr | pb/bar_token.go:51-56 | `repeatStr` of an empty string is empty; of a non-empty one and a length `n >= 0` it is the glyphs cycled to exactly `n` bytes; a negative length panics |
| BarRender.CompleteLength | pb/bar_token.go:65 | with a positive total and a non-negative product, `int(current / total * width)` is the whole `n >= 0` with `n * total <= current * width < (n + 1) * total` |
| BarRender.BarText | pb/bar_token.go:50-68 | definition: an uncertain bar is fill, marker, fill; a certain one complete then incomplete fill; a negative repeat or a zero total is a panic; its properties are the lemmas below |
| BarRender.CertainBar | pb/bar_token.go:64-67 | a certain bar is the complete fill of `floor(current*width/total)` bytes and the incomplete fill of the rest; the two add up to the width; full gives no incomplete part and zero no complete part |
| BarRender.CompleteLengthBounds | progress_bar/bar_token.go:62-65 | the complete length lies in `[0, width]`, is the width when full and 0 when empty |
| BarRender.CertainBarZeroTotal | pb/bar_token.go:65 | a certain bar with total 0 does not render |
| BarRender.UncertainBar | progress_bar/bar_token.go:56-61 | an uncertain bar renders exactly when the marker fits; it is `current` fill bytes, the marker verbatim, then the rest of the width in fill |
| BarRender.PercentValue | pb/bar_token.go:79-88 | definition: 0 for a zero counter; over a zero total the platform's integer for the infinity of the counter's sign; else the quotient times 100 truncated toward zero |
| BarRender.PercentText | pb/bar_token.go:79-88 | definition: `fmt.Sprintf("%3d%%", percent)` of `PercentValue`; proved about in `PercentTextShape` |
| BarRender.PercentTextShape | pb/bar_token.go:79-88 | `%percent` always renders: at least four bytes, the value right-aligned in a field of at least three, then `%` |
| BarRender.PercentAtZero | pb/bar_token.go:79-88 | a zero counter shows `"  0%"` whatever the total |
| BarRender.PercentZeroTotal | pb/bar_token.go:79-88 | a non-zero counter over a zero total shows, before the `%`, the decimal text of the platform's integer for the infinity of the counter's sign, which reads back as that integer |
| BarRender.PercentInRange | progress_bar/bar_token.go:77-86 | with a counter in `[0, total]` the percentage is `floor(current*100/total)`, in `[0, 100]`, and renders as 4 bytes |
| BarRender.KindText | pb/bar_token.go:50-108 | definition: each token's text; only `%bar` and a spinner state outside `[0, 4)` can panic |
| BarRender.KindRenders | pb/bar_token.go:50-108 | every token renders when the bar does and the spinner state is in range; `%percent` always renders |
| BarRender.PrintableBar | pb/bar_token.go:50-68 | a certain bar with a positive total, a counter in range, a width of at least 0 and non-empty glyphs renders |
| BarRender.CounterTexts | progress_bar/bar_token.go:69-75 | `%current` and `%total` render the decimal value of the counter and of the total |
| BarRender.LiteralAndSpinnerTexts | pb/bar_token.go:100-108 | a literal renders as its payload and a spinner as one glyph |
| BarRender.JoinedLiterals | progress_bar/progress_bar.go:143-146 | a line of literals renders as the format text itself |
| BarRender.SteppedCycles | pb/bar_token.go:104-108 | one rendering moves each spinner to `(cur + 1) % 4`, and four renderings of a line bring every state back where it was |
| BarRender.RenderToken | pb/bar_token.go:50-108 | rendering a token yields its text (`%percent` always, also over a zero total); a spinner also advances its shared state |
| BarRender.RenderNext | progress_bar/progress_bar.go:144-146 | one step of the render loop appends the next token's text, or reports the panic |
| BarRender.AllStepped | progress_bar/bar_token.go:102-106 | after a whole line every spinner has advanced by one and stays in range |
| Wrappers.Values | pb/progress_bar.go:202-207 | the builders of a list in which none is nil, one per entry in order; box/box.go:181-186 uses it too |
| Wrappers.FoldLeftConcat | pb/progress_bar.go:202-207 | running two builder lists in turn is running their concatenation, for the builders of pb and of box/box.go:181-186 alike |
| PbOption.PropertyRef.Apply | pb/option.go:9-72 | running a builder writes its fields in place |
| PbOption.OverwritingBuilders | pb/option.go:9-21 | `WithDefault` and `WithProperty` overwrite every field, whatever was there |
| PbOption.WithPosFrame | pb/option.go:28-33 | `WithPos` sets `PosX` and `PosY` only; `BindPos` is untouched |
| PbOption.WithWidthFrame | pb/option.go:38-42 | `WithWidth` sets `Width` only, not `BarWidth` |
| PbOption.WithUncertainFrame | pb/option.go:53-57 | `WithUncertain` sets the flag only and is idempotent |
| PbOption.WithStyleAndFormatFrame | pb/option.go:60-72 | `WithStyle` replaces `Style` only; `WithFormat` sets `Format` only |
| PbOption.DisjointBuildersCommute | pb/option.go:28-72 | builders that write disjoint fields commute |
| PbOption.DefaultDiscardsEarlierBuilders | pb/option.go:6-13 | builders in front of `WithDefault` have no effect |
| PbProgressBar.ReviseStyle | pb/progress_bar.go:217-240 | glyphs become non-empty and colours non-`RESET`, and set values are kept |
| PbProgressBar.ReviseStyleOfZero | pb/progress_bar.go:217-240 | the defaults are `"="`, `"-"`, `"<->"`, White, White, LightBlack and White |
| PbProgressBar.Revised | pb/progress_bar.go:209-240 | corrected: `BarWidth >= 0`; a width that is not positive or exceeds the console becomes the console width; nothing else but the style changes |
| PbProgressBar.RevisedAsWritten | pb/progress_bar.go:209-240 | as written: `BarWidth >= 0`; the width changes only to a negative console width below a non-positive width; nothing else but the style changes |
| PbProgressBar.AsWrittenKeepsWidth | pb/progress_bar.go:213-216 | as written, the width is never changed for a console width of 0 or more; the as-written and corrected revisions differ only in the width, and agree on a width in `(0, consoleWidth]` |
| PbProgressBar.DefaultUncertainBarPanicsAsWritten | pb/progress_bar.go:46-59 | as written, the default uncertain bar keeps width 0 and cannot draw its bar |
| PbProgressBar.DefaultUncertainBarRendersCorrected | pb/progress_bar.go:46-59 | with the corrected guard, the default uncertain bar spans the console and draws |
| PbProgressBar.NewProgressBar | pb/progress_bar.go:196-251 | an empty format and any nil builder are errors, and nothing is built; the call succeeds exactly when the format is non-empty and no builder is nil, and then the builders run in order on the zero property, are revised as written (the `&&` width guard), and the format is tokenized |
| PbProgressBar.ProgressBar.Start | pb/progress_bar.go:423-437 | an uncertain bar is an error, and a certain bar always gets a runner over a fresh context with `Total = n` and `Current = 0` |
| PbProgressBar.ProgressBar.Iter | pb/progress_bar.go:387-450 | nothing for `n <= 0`; an uncertain bar sends nothing and panics on closing the nil stop channel; otherwise the values `0..n` are sent in order, which never panics for a printable bar |
| PbProgressBar.ProgressBar.Run | pb/progress_bar.go:455-489 | only an uncertain bar runs; the ticks go on while the bar at counter `j` (total 0) renders and stop exactly at the first one that does not, so a bar that renders throughout completes every tick; each completed tick kept the marker inside the width |
| PbProgressBar.ProgressBar.RunWithWriter | pb/progress_bar.go:495-536 | a writer only for a certain bytes bar; it closes exactly when the byte counts reach `n`, and every count is consumed while it stays open |
| PbProgressBar.Runner.Update | pb/progress_bar.go:125-129 | clamps the value to `[0, Total]`, sets the counter as `updateCurrentTo` does, then prints |
| PbProgressBar.Runner.UpdateAdd | pb/progress_bar.go:132-135 | adds as `updateCurrentWithAdd` does, then prints |
| PbProgressBar.AfterStep | pb/progress_bar.go:302-317 | definition: an uncertain counter adds one, a certain one adds one up to `Total`; proved about in `StepBounds` |
| PbProgressBar.AfterAdd | pb/progress_bar.go:320-326 | definition: an uncertain counter steps, a certain one adds `add` clamped from above; proved about in `AddClampsAboveOnly` |
| PbProgressBar.AfterSetTo | pb/progress_bar.go:329-335 | definition: an uncertain counter steps unless already at the value, a certain one moves to the value clamped to `[0, Total]`; proved about in `SetToInRange` |
| PbProgressBar.ClampToTotal | pb/progress_bar.go:125-129 | the `Runner.Update` clamp lands in `[0, Total]`: 0 below, `Total` above, the value itself in between |
| PbProgressBar.StepBounds | pb/progress_bar.go:302-317 | a certain step is `min(Current+1, Total)`, never past `Total`; an uncertain step adds exactly 1 |
| PbProgressBar.AddClampsAboveOnly | pb/progress_bar.go:320-326 | a certain add clamps from above only; a negative add can go below 0 |
| PbProgressBar.AddsAccumulate | pb/progress_bar.go:320-326 | two non-negative certain adds are one add of their sum |
| PbProgressBar.SetToInRange | pb/progress_bar.go:329-335 | a certain `updateCurrentTo`, also after the `Runner.Update` clamp, lands in `[0, Total]`, on the value itself when it lies there |
| PbProgressBar.FirstBar | pb/progress_bar.go:343 | the first `%bar`, with none before it |
| PbProgressBar.PrintSplit | pb/progress_bar.go:342-350 | the tokens before the first `%bar` form the prefix and all later ones, further bars included, the suffix |
| PbProgressBar.PiecesFail | pb/progress_bar.go:342-350 | a token that panics in either piece makes the line panic |
| PbProgressBar.PiecesComplete | pb/progress_bar.go:342-350 | after the loop the two builders hold the prefix and the suffix |
| PbProgressBar.PrintStep | pb/progress_bar.go:343-349 | one loop step: the first bar swaps the builders, any other token renders into the current one |
| PbProgressBar.PiecesLoop | pb/progress_bar.go:342-350 | the `for` loop of `Print` ends with the builders holding what the tokens so far render, split at the first bar, each spinner stepped once, or reports the panic |
| PbProgressBar.RenderPieces | pb/progress_bar.go:339-350 | the loop builds exactly the prefix and suffix texts and steps every spinner once |
| PbProgressBar.PrintableRenders | pb/progress_bar.go:338-352 | a printable view never panics, whatever the format |
| PbProgressBar.BarRendersLine | pb/progress_bar.go:338-365 | with the spinners in range, a line whose bar renders renders whatever the format: only the bar can make `Print` panic |
| PbProgressBar.PrintedOf | pb/progress_bar.go:351-365 | the line is the prefix, the bar and the suffix, and `WidthWithoutBar` is the length of prefix plus suffix |
| PbProgressBar.UncertainOverrun | pb/progress_bar.go:477-481 | an uncertain counter whose marker passes the width makes `Print` panic |
| PbProgressBar.PrintedLine | pb/progress_bar.go:338-365 | definition: `"\r"` unless the position is bound, the prefix, the bar and the suffix, with the width without the bar; a panic of a piece or the bar is `None`; proved about in `PrintedOf` |
| PbProgressBar.RenderLine | pb/progress_bar.go:338-365 | the token body of `Print` yields exactly the printed line and its width without the bar |
| PbProgressBar.PrintedShowsBar | pb/progress_bar.go:352 | a line that renders has drawn its bar, so the uncertain marker fitted |
| PbProgressBar.Span | pb/progress_bar.go:408 | the values `lo, lo+1, ..., hi-1` |
| PbProgressBar.ReceivedStep | pb/progress_bar.go:520-525 | each received byte count is one certain `updateCurrentWithAdd` |
| PbProgressBar.Context.constructor | pb/progress_bar.go:142-157 | a new context copies the property and tokens, has counters at 0, direction 1 and the console width |
| PbProgressBar.Context.UpdateCurrent | pb/progress_bar.go:302-317 | sets the counter to `AfterStep` and changes nothing else |
| PbProgressBar.Context.UpdateCurrentWithAdd | pb/progress_bar.go:320-326 | sets the counter to `AfterAdd` and changes nothing else |
| PbProgressBar.Context.UpdateCurrentTo | pb/progress_bar.go:329-335 | sets the counter to `AfterSetTo` and changes nothing else |
| PbProgressBar.Context.Print | pb/progress_bar.go:338-370 | writes the printed line, sets `WidthWithoutBar` and steps each spinner; counters are unchanged; only the bar or a spinner out of range can panic |
| PbProgressBar.Context.Tick | pb/progress_bar.go:479-481 | one tick of `Run`: print, then `updateCurrent`; it panics exactly when the bar does not render, and a printable view never panics |
| PbProgressBar.Context.IterLoop | pb/progress_bar.go:405-417 | the loop of `iter` sends `Current..Total` in order and ends at `Total` |
| PbProgressBar.Context.RunTicks | pb/progress_bar.go:475-487 | the ticker loop adds one per tick; when it stops early, the next print panicked because its bar did not render |
| PbProgressBar.Context.ConsumeWrites | pb/progress_bar.go:517-534 | the writer loop adds each byte count, prints, and closes the writer exactly when the counter reaches `Total` |
| PbProgressBar.WriterProtocol | pb/progress_bar.go:167-193 | while open, writes and the close succeed; after a close every write fails with "channel closed" and every close with "has been closed" |
| PbProgressBar.BytesWriter.constructor | pb/progress_bar.go:159-164 | a new writer is open, with nothing pending |
| PbProgressBar.BytesWriter.Write | pb/progress_bar.go:167-181 | returns `len(b)`; an open writer sends the count, and a closed one fails |
| PbProgressBar.BytesWriter.Close | pb/progress_bar.go:184-193 | closes an open writer; a closed one fails |
| LegacyProgressBar.ReviseStyle | progress_bar/progress_bar.go:81-98 | glyphs become non-empty and colours non-`RESET`, and set values are kept |
| LegacyProgressBar.Revised | progress_bar/progress_bar.go:71-98 | `Total != 0` and `Width > 0`; the counter is reset to 0 when uncertain or outside `[0, Total]`, and kept otherwise |
| LegacyProgressBar.RevisedOfZero | progress_bar/progress_bar.go:72-98 | the zero property becomes 100 steps, 20 wide, drawn with `"#"`, `"-"` and `"<->"` |
| LegacyProgressBar.LineText | progress_bar/progress_bar.go:137-151 | definition: every token's text in order, or `None` when one panics; proved about in `LineRenders` and `RenderAll` |
| LegacyProgressBar.LineRenders | progress_bar/progress_bar.go:143-146 | a line renders when its bar does and the spinners are in range |
| LegacyProgressBar.UpdatedAsWritten | progress_bar/progress_bar.go:124-131 | definition as written: `min` with the cap (a certain bar `min` with `Total`), and direction -1 when the counter lands on the cap |
| LegacyProgressBar.UpdatedAsWrittenClamps | progress_bar/progress_bar.go:124-131 | as written, the counter is kept unless it is past the cap (a certain bar: `Total`), where it stops; the direction turns to -1 exactly when the cap is reached and is kept otherwise |
| LegacyProgressBar.Updated | progress_bar/progress_bar.go:124-131 | corrected, as evidently intended: an uncertain counter is clamped into `[0, Width - len(UnCertain)]`; a certain one into `[0, Total]`; values in range are kept |
| LegacyProgressBar.UpdatedAgreesAsWritten | progress_bar/progress_bar.go:124-131 | the as-written and the corrected update agree on a positive uncertain counter whose cap is not 0 and on a certain counter of 0 or more |
| LegacyProgressBar.Advanced | progress_bar/progress_bar.go:159-175 | definition: an uncertain counter moves by the direction, which turns at the cap and at 0; a certain one adds 1; proved about in `AdvanceBounces` |
| LegacyProgressBar.Stops | progress_bar/progress_bar.go:195-197 | definition: the stop test, a certain counter at `Total` or an uncertain counter at `Width`; proved about in `StopTest` |
| LegacyProgressBar.AdvanceBounces | progress_bar/progress_bar.go:163-170 | the `Run` step moves a bouncing marker one position and keeps it bouncing |
| LegacyProgressBar.UpdateBounces | progress_bar/progress_bar.go:124-131 | after the corrected `Update`, the marker bounces |
| LegacyProgressBar.StopTest | progress_bar/progress_bar.go:163-198 | a certain step adds 1; a bouncing uncertain bar never meets the stop test |
| LegacyProgressBar.BouncingRenders | progress_bar/bar_token.go:56-61 | a bouncing marker is drawn, so every token with a spinner state in range renders |
| LegacyProgressBar.UpdateAsWrittenLeavesRange | progress_bar/progress_bar.go:124-131 | as written, `Update(0)` while heading left leaves the direction at -1, the next step reaches -1 and the bar panics |
| LegacyProgressBar.RenderAll | progress_bar/progress_bar.go:143-146 | the builder loop writes every token's text in order, or reports the panic |
| LegacyProgressBar.ProgressBar.constructor | progress_bar/progress_bar.go:103-110 | a new bar holds its tokens and property, is not running and heads right |
| LegacyProgressBar.ProgressBar.Print | progress_bar/progress_bar.go:137-151 | writes every token rendered from the property |
| LegacyProgressBar.ProgressBar.Update | progress_bar/progress_bar.go:117-134 | stops the run, sets counter and direction as the update as written does, then prints |
| LegacyProgressBar.ProgressBar.Tick | progress_bar/progress_bar.go:193-199 | prints, tests for the stop and otherwise runs the update; a bouncing bar never stops |
| LegacyProgressBar.ProgressBar.Advance | progress_bar/progress_bar.go:159-175 | the update closure moves the counter and keeps a bouncing marker bouncing |
| LegacyProgressBar.ProgressBar.Run | progress_bar/progress_bar.go:154-205 | nothing if running; a certain counter adds one per update; a finished run met the stop test; a certain run that does not panic finishes exactly when `Total` lies in `[Current, Current + ticks)`, so it stops at the first state that meets the test; a bouncing bar never finishes |
| LegacyProgressBar.ProgressBar.Stop | progress_bar/progress_bar.go:208-211 | the bar is no longer running, and nothing else changes; on a bar that is not running the send of the interrupt blocks for ever (`blocked`) |
| LegacyProgressBar.PatchStyle | progress_bar/progress_bar.go:81-98 | the field-by-field defaulting yields the revised style |
| LegacyProgressBar.NewProgressBar | progress_bar/progress_bar.go:66-113 | an empty style is an error; otherwise the property is revised, the style tokenized, the direction 1 and the bar not running |
| BoxOption.PropertyRef.Apply | box/option.go:8-38 | running a builder writes its fields in place |
| BoxOption.OverwritingBuilders | box/option.go:8-20 | `WithDefault` and `WithProperty` overwrite the whole property |
| BoxOption.WithPosFrame | box/option.go:25-31 | `WithPos` sets `PosX`, `PosY` and `BindPos = true`, nothing else, and is idempotent |
| BoxOption.WithStyleFrame | box/option.go:34-38 | `WithStyle` replaces `Style` only, and the last of two wins |
| BoxOption.PosAndStyleCommute | box/option.go:25-38 | `WithPos` and `WithStyle` commute |
| BoxOption.OverwriteDiscardsEarlierBuilders | box/option.go:8-20 | builders in front of `WithDefault` or `WithProperty` have no effect |
| BoxFrame.ReviseChar | box/box.go:187-211 | each zero rune becomes the matching fine rune (`─`, `│`, `┌`, `┐`, `└`, `┘`), and set runes are kept |
| BoxFrame.Whitened | box/box.go:213-242 | a zero colour becomes White, and other colours are kept |
| BoxFrame.Revised | box/box.go:187-262 | the whole normalisation: runes and colours filled; paddings at least 0; align in `[0,2]` and title position in `[0,8]`, else the defaults; positions outside the console reset to 0 |
| BoxFrame.RevisedIdempotent | box/box.go:187-262 | normalising twice is normalising once, and the default property is already normal |
| BoxFrame.RevisedZero | box/box.go:187-262 | with no builders, the box is the default one with zero padding |
| BoxFrame.PatchChar | box/box.go:188-211 | the field-by-field rune patching yields `ReviseChar` |
| BoxFrame.PatchColor | box/box.go:213-242 | the field-by-field colour patching yields every colour whitened |
| BoxFrame.PatchCornerColors | box/box.go:213-224 | the corner colours are whitened and the rest untouched |
| BoxFrame.PatchSideColors | box/box.go:225-242 | the side, title and inner colours are whitened and the corners untouched |
| BoxFrame.PatchLayout | box/box.go:244-262 | the padding, alignment, title position and position fields are revised |
| BoxFrame.NewBox | box/box.go:179-264 | a nil builder anywhere is the error; otherwise the builders run in order on the zero property, which is then revised |
| BoxFrame.DefaultBox | box/box.go:179-264 | a box built from `WithDefault` alone is the default box |
| BoxFrame.MaxLength | box/box.go:268-271 | the greatest byte length of the payload lines, 0 for none |
| BoxFrame.LongestLine | box/box.go:268-271 | the `maxLen` loop computes it |
| BoxFrame.TopLineOf | box/box.go:280-283 | the first line is the top-left colour and rune, the top colour, the top rune repeated `count` times, then the top-right colour and rune; a negative count panics |
| BoxFrame.TopLine | box/box.go:280-283 | with a padding of 0 or more the first line is always drawn |
| BoxFrame.TopArgsText | box/box.go:280-283 | the six `Splice` arguments write their pieces in order |
| BoxFrame.Print | box/box.go:266-287 | writes the first line, its top run `maxLen + 2*PadX` long |

## Left out

- Goroutines, channels, tickers, `select` and the mutexes are not modelled: every loop runs in sequence. Interrupting a run from outside is only `LegacyProgressBar.ProgressBar.Update` and `Stop`.
- Clock-based text is passed in already formatted (`BarRender.Env`): `StartTime`, `elapsed`, `rate`, `%elapsed` and `%rate`, because they read the wall clock and format floats.
- Floating-point arithmetic is replaced by exact rational arithmetic truncated toward zero. Where the float quotient is finite the two differ when rounding takes a product just below a whole number: `float64(29) / float64(100) * 100` is `28.999999999999996`, so Go shows ` 28%` where the model shows ` 29%`; the complete length of a bar can be one byte short in the same way.
- BarRender.PercentValue: the quotient of a non-zero counter and a zero total is an infinity, and the integer Go converts it to is platform-dependent; it is a parameter (`Env.plusInf`, `Env.minusInf`), so `%percent` always renders, as in Go. Only rounding of finite quotients is not modelled, as the line above says.
- BarRender.CertainBarZeroTotal: a certain bar over a zero total converts an infinite or NaN quotient to a platform-dependent integer and then computes `Width - completeLength` in 64-bit arithmetic. The model treats it as the panic `strings.Repeat` produces with non-empty glyphs on common platforms; with empty glyphs Go draws nothing instead. Both revisions of the style make the glyphs non-empty.
- Integer widths are not modelled. `int` and `int64` counters are unbounded, so no overflow happens; the spinner's `int8` state stays in `[0, 4)`.
- Terminal output effects are not modelled: clearing the line (`ClearArea`, `ClearLineAfterCursor`), console locking, and `fmt.Print` itself. Output is the payload bytes a call would write, without the `ClearArea` prefix the legacy `Print` writes before the line (progress_bar/progress_bar.go:141, window/window.go:10-13).
- The console size is a parameter, because it comes from a system call (`GetConsoleSize`).
- `SetColor`, `SetColorRgb` and `ResetColor` print directly and return nothing.
- `pb.ProgressBar.UpdateProperty` is not modelled. It repeats the defaulting of `NewProgressBar` with a different default glyph and retokenizes the format.
- `pb.WithCount` writes a `Total` field that the pb `Property` does not have.
- The bar position that `pb/progress_bar.go` expects as a second result of `unmarshalToken` is not modelled; `unmarshalToken` in pb/bar_token.go returns one value, and nothing reads the second.
- `pb.ProgressBar.Go`, the package-level `Go` and `Iter`, and `Runner.Stop` and `Context.stop` are not modelled. The first three call `Run` or `Iter` around a user function; the last two do nothing.
- Iterations are counted, not executed: the user function of `Iter` and the bytes given to `Write` are not modelled beyond their count, and the model leaves out the `f == nil` test of `Iter`.
- The legacy `init` and the `DefaultBar` variables are not modelled; the pb default bars appear through `DefaultUncertainBuilders`.
- Box `Print` draws only the first line, as the source does. Its `title` argument is unused in the source and ignored here.
- Display widths of runes are not modelled; every length is a byte length.
- Demo programs, `main.go` and `init/init.go` are not modelled.

## Findings

| source | as written | input that shows it | evidently intended | confidence | as-written member | corrected member |
|---|---|---|---|---|---|---|
| pb/progress_bar.go:214 | `if property.Width <= 0 && property.Width > x`: no width is both at most 0 and above a console width of 0 or more, so the width is never replaced | `DefaultUncertainBar`, built with `WithProperty(DefaultUncertainBarProperty), WithUncertain()`: its width stays 0, the three-byte marker does not fit, and its first `Print` panics on a negative repeat | a width that is not positive or exceeds the console becomes the console width (`\|\|`) | not executed | PbProgressBar.DefaultUncertainBarPanicsAsWritten | PbProgressBar.Revised |
| progress_bar/progress_bar.go:124-131 | `Update` clamps the counter from above only, and sets the direction only when the cap is hit | a bar 20 wide with marker `"<->"` at counter 17 heading left; `Update(0)` keeps direction -1, the next `Run` step sets the counter to -1, and `Print` panics; `Update(-1)` panics at once | an uncertain counter is clamped into `[0, Width - len(UnCertain)]` and heads right at 0, as the `Run` step does; a certain one is clamped into `[0, Total]` | not executed | LegacyProgressBar.UpdateAsWrittenLeavesRange | LegacyProgressBar.Updated |
