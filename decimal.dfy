/**
 * Decimal rendering of integers as Go's `strconv.Itoa` and the `%d` verb of
 * `fmt.Sprintf` write it, with the parser that inverts it.
 */
module Decimal {
  import opened ByteString
  import opened Wrappers

  const MINUS: byte := 45
  const SPACE: byte := 32

  predicate IsDigit(b: byte)
  {
    48 <= b <= 57
  }

  predicate AllDigits(s: seq<byte>)
  {
    forall i :: 0 <= i < |s| ==> IsDigit(s[i])
  }

  /** The decimal digits of `n`, most significant first, with no leading zero. */
  function Digits(n: nat): (r: seq<byte>)
    ensures 0 < |r|
    ensures AllDigits(r)
    ensures |r| > 1 ==> r[0] != 48
    decreases n
  {
    if n < 10 then [48 + n] else Digits(n / 10) + [48 + n % 10]
  }

  /** `strconv.Itoa(n)`, which is also what `fmt.Sprintf("%d", n)` writes. */
  function Itoa(n: int): (r: seq<byte>)
    ensures 0 < |r|
    ensures forall i :: 0 <= i < |r| ==> IsDigit(r[i]) || (i == 0 && r[i] == MINUS)
    ensures (r[0] == MINUS) <==> n < 0
  {
    if n < 0 then [MINUS] + Digits(-n) else Digits(n)
  }

  /** The number a non-empty run of digits denotes. */
  function DigitsValue(s: seq<byte>): nat
    requires AllDigits(s)
    decreases |s|
  {
    if s == [] then 0 else DigitsValue(s[..|s| - 1]) * 10 + (s[|s| - 1] - 48)
  }

  /** An optional minus sign followed by one or more digits. */
  function ParseInt(s: seq<byte>): (r: Option<int>)
  {
    if |s| > 0 && AllDigits(s) then Some(DigitsValue(s))
    else if |s| > 1 && s[0] == MINUS && AllDigits(s[1..]) then Some(-(DigitsValue(s[1..]) as int))
    else None
  }

  lemma {:induction false} DigitsRoundTrip(n: nat)
    ensures DigitsValue(Digits(n)) == n
    decreases n
  {
    if n >= 10 {
      var d := Digits(n / 10);
      assert (d + [48 + n % 10])[..|d|] == d;
      DigitsRoundTrip(n / 10);
    }
  }

  /** Reading back what `Itoa` writes gives the number again. */
  lemma ItoaRoundTrip(n: int)
    ensures ParseInt(Itoa(n)) == Some(n)
  {
    if n < 0 {
      DigitsRoundTrip(-n);
      assert Itoa(n)[1..] == Digits(-n);
    } else {
      DigitsRoundTrip(n);
    }
  }

  /** Different numbers are written differently. */
  lemma ItoaInjective(m: int, n: int)
    requires Itoa(m) == Itoa(n)
    ensures m == n
  {
    ItoaRoundTrip(m);
    ItoaRoundTrip(n);
  }

  /** `s` right-aligned in a field of `width` bytes, as `%<width>d` pads. */
  function PadLeft(s: seq<byte>, width: nat): (r: seq<byte>)
    ensures |r| == if |s| < width then width else |s|
    ensures r[|r| - |s|..] == s
    ensures forall i :: 0 <= i < |r| - |s| ==> r[i] == SPACE
  {
    if |s| < width then seq(width - |s|, _ => SPACE) + s else s
  }
}
