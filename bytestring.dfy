/**
 * Go strings are byte strings: `len` counts bytes and slicing cuts at byte
 * boundaries. The whole model works on `seq<byte>`.
 */
module ByteString {

  type byte = b: int | 0 <= b < 256

  /** The bytes of an ASCII Go string literal. */
  function Str(s: string): (r: seq<byte>)
    ensures |r| == |s|
    ensures forall i :: 0 <= i < |s| ==> r[i] == (s[i] as int) % 256
  {
    if s == [] then [] else [(s[0] as int) % 256] + Str(s[1..])
  }

  /** `strings.Repeat(s, count)` for a count the call accepts. */
  function Repeat(s: seq<byte>, count: nat): (r: seq<byte>)
    ensures |r| == count * |s|
  {
    if count == 0 then [] else s + Repeat(s, count - 1)
  }

  /** Number of occurrences of `b` in `s`. */
  function Count(s: seq<byte>, b: byte): nat
  {
    if s == [] then 0 else Count(s[..|s| - 1], b) + (if s[|s| - 1] == b then 1 else 0)
  }

  lemma {:induction false} CountConcat(s: seq<byte>, t: seq<byte>, b: byte)
    ensures Count(s + t, b) == Count(s, b) + Count(t, b)
    decreases |t|
  {
    if t == [] {
      assert s + t == s;
    } else {
      assert (s + t)[..|s + t| - 1] == s + t[..|t| - 1];
      CountConcat(s, t[..|t| - 1], b);
    }
  }

  lemma {:induction false} CountAbsent(s: seq<byte>, b: byte)
    requires b !in s
    ensures Count(s, b) == 0
    decreases |s|
  {
    if s != [] {
      CountAbsent(s[..|s| - 1], b);
    }
  }

  /** A non-empty sequence is its front and its last element, also after a prefix. */
  lemma SplitLast<T>(a: seq<T>, b: seq<T>)
    requires |b| > 0
    ensures b == b[..|b| - 1] + [b[|b| - 1]]
    ensures a + b == (a + b[..|b| - 1]) + [b[|b| - 1]]
  {
  }

  lemma AppendAssoc<T>(a: seq<T>, b: seq<T>, c: seq<T>)
    ensures a + (b + c) == (a + b) + c
  {
  }

  /** A prefix one longer is the prefix and the next element. */
  lemma TakeSnoc<T>(s: seq<T>, i: nat)
    requires i < |s|
    ensures s[..i + 1] == s[..i] + [s[i]]
  {
  }
}
