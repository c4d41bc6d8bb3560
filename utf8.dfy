/**
 * UTF-8 encoding of a single rune as Go's `utf8.EncodeRune` (used by
 * `strings.Builder.WriteRune` and by `string(r)`) writes it: a rune that is
 * negative, a surrogate half or above U+10FFFF is written as U+FFFD.
 * `DecodeRune` is the strict decoder that inverts it.
 */
module Utf8 {
  import opened ByteString
  import opened Wrappers

  const MAX_RUNE: int := 0x10FFFF
  const RUNE_ERROR: int := 0xFFFD

  predicate ValidRune(r: int)
  {
    0 <= r <= MAX_RUNE && !(0xD800 <= r <= 0xDFFF)
  }

  predicate IsContinuation(b: byte)
  {
    0x80 <= b < 0xC0
  }

  function EncodeRune(r: int): (s: seq<byte>)
    ensures 1 <= |s| <= 4
    ensures !IsContinuation(s[0])
    ensures forall i :: 1 <= i < |s| ==> IsContinuation(s[i])
    ensures |s| == 1 <==> 0 <= r < 0x80
  {
    if 0 <= r < 0x80 then [r]
    else if 0 <= r < 0x800 then [0xC0 + r / 64, 0x80 + r % 64]
    else if !ValidRune(r) then [0xEF, 0xBF, 0xBD]
    else if r < 0x10000 then [0xE0 + r / 4096, 0x80 + (r / 64) % 64, 0x80 + r % 64]
    else [0xF0 + r / 262144, 0x80 + (r / 4096) % 64, 0x80 + (r / 64) % 64, 0x80 + r % 64]
  }

  /** The rune that `s`, exactly one well-formed UTF-8 sequence, encodes. */
  function DecodeRune(s: seq<byte>): (r: Option<int>)
    ensures r.Some? ==> ValidRune(r.value)
  {
    if |s| == 1 && s[0] < 0x80 then Some(s[0])
    else if |s| == 2 && 0xC2 <= s[0] < 0xE0 && IsContinuation(s[1]) then
      Some((s[0] as int - 0xC0) * 64 + (s[1] as int - 0x80))
    else if |s| == 3 && 0xE0 <= s[0] < 0xF0 && IsContinuation(s[1]) && IsContinuation(s[2]) then
      var v := (s[0] as int - 0xE0) * 4096 + (s[1] as int - 0x80) * 64 + (s[2] as int - 0x80);
      if v < 0x800 || 0xD800 <= v <= 0xDFFF then None else Some(v)
    else if |s| == 4 && 0xF0 <= s[0] < 0xF8 && IsContinuation(s[1]) && IsContinuation(s[2])
         && IsContinuation(s[3]) then
      var v := (s[0] as int - 0xF0) * 262144 + (s[1] as int - 0x80) * 4096 + (s[2] as int - 0x80) * 64 + (s[3] as int - 0x80);
      if v < 0x10000 || v > MAX_RUNE then None else Some(v)
    else None
  }

  /** Decoding what was encoded gives the rune back, or U+FFFD for an invalid one. */
  lemma EncodeDecode(r: int)
    ensures DecodeRune(EncodeRune(r)) == Some(if ValidRune(r) then r else RUNE_ERROR)
  {
    if 0 <= r < 0x80 {
    } else if 0 <= r < 0x800 {
      assert r == (r / 64) * 64 + r % 64;
    } else if !ValidRune(r) {
    } else if r < 0x10000 {
      assert r / 64 == (r / 4096) * 64 + (r / 64) % 64;
      assert r == (r / 64) * 64 + r % 64;
    } else {
      assert r / 4096 == (r / 262144) * 64 + (r / 4096) % 64;
      assert r / 64 == (r / 4096) * 64 + (r / 64) % 64;
      assert r == (r / 64) * 64 + r % 64;
    }
  }

  /** Appending a base-64 digit and taking it off again. */
  lemma Digit64(q: int, d: int)
    requires 0 <= d < 64
    ensures (q * 64 + d) / 64 == q && (q * 64 + d) % 64 == d
  {
  }

  lemma DivDiv64(x: int)
    requires x >= 0
    ensures x / 4096 == (x / 64) / 64
  {
    var q, r := x / 4096, x % 4096;
    assert x == (q * 64 + r / 64) * 64 + r % 64;
    Digit64(q * 64 + r / 64, r % 64);
    Digit64(q, r / 64);
  }

  /** Every well-formed sequence is the encoding of the rune it decodes to. */
  lemma DecodeEncode(s: seq<byte>)
    requires DecodeRune(s).Some?
    ensures EncodeRune(DecodeRune(s).value) == s
  {
    var r := DecodeRune(s).value;
    if |s| == 2 {
      var a: int, b: int := s[0] as int - 0xC0, s[1] as int - 0x80;
      assert r == a * 64 + b;
      Digit64(a, b);
    } else if |s| == 3 {
      var a: int, b: int, c: int := s[0] as int - 0xE0, s[1] as int - 0x80, s[2] as int - 0x80;
      assert r == (a * 64 + b) * 64 + c;
      Digit64(a * 64 + b, c);
      Digit64(a, b);
      DivDiv64(r);
    } else if |s| == 4 {
      DecodeEncode4(s);
    }
  }

  lemma DecodeEncode4(s: seq<byte>)
    requires |s| == 4 && DecodeRune(s).Some?
    ensures EncodeRune(DecodeRune(s).value) == s
  {
    var r := DecodeRune(s).value;
    var a: int, b: int, c: int, d: int := s[0] as int - 0xF0, s[1] as int - 0x80, s[2] as int - 0x80, s[3] as int - 0x80;
    assert r == ((a * 64 + b) * 64 + c) * 64 + d;
    Digit64((a * 64 + b) * 64 + c, d);
    Digit64(a * 64 + b, c);
    Digit64(a, b);
    DivDiv64(r);
    DivDiv64(r / 64);
    assert r / 262144 == (r / 4096) / 64;
  }
}
