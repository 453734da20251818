/** UTF-8 encoding of strings. Go measures strings and buffer space in
    bytes of this encoding; the model's strings are sequences of Unicode
    scalar values. */
module Utf8 {

  type Byte = b: int | 0 <= b < 256

  /** Number of bytes UTF-8 uses for one scalar value. */
  function Width(ch: char): (w: nat)
    ensures 1 <= w <= 4
    ensures w == 1 <==> (ch as int) < 0x80
  {
    var n := ch as int;
    if n < 0x80 then 1 else if n < 0x800 then 2 else if n < 0x1_0000 then 3 else 4
  }

  /** The UTF-8 bytes of one scalar value. */
  function EncodeChar(ch: char): (bs: seq<Byte>)
    ensures |bs| == Width(ch)
    ensures |bs| == 1 ==> bs[0] == ch as int
  {
    var n := ch as int;
    if n < 0x80 then [n]
    else if n < 0x800 then [0xC0 + n / 0x40, 0x80 + n % 0x40]
    else if n < 0x1_0000 then [0xE0 + n / 0x1000, 0x80 + (n / 0x40) % 0x40, 0x80 + n % 0x40]
    else [0xF0 + n / 0x4_0000, 0x80 + (n / 0x1000) % 0x40, 0x80 + (n / 0x40) % 0x40, 0x80 + n % 0x40]
  }

  /** Go's `len` of a string: its size in UTF-8 bytes. */
  function Size(s: string): (n: nat)
    ensures |s| <= n <= 4 * |s|
    decreases |s|
  {
    if |s| == 0 then 0 else Width(s[0]) + Size(s[1..])
  }

  /** The UTF-8 bytes of a string; there are exactly `Size(s)` of them. */
  function Encode(s: string): (bs: seq<Byte>)
    ensures |bs| == Size(s)
    decreases |s|
  {
    if |s| == 0 then [] else EncodeChar(s[0]) + Encode(s[1..])
  }

  predicate IsAscii(s: string) {
    forall i :: 0 <= i < |s| ==> (s[i] as int) < 0x80
  }

  lemma {:induction false} EncodeConcat(a: string, b: string)
    ensures Encode(a + b) == Encode(a) + Encode(b)
    decreases |a|
  {
    if |a| > 0 {
      EncodeConcat(a[1..], b);
      assert (a + b)[1..] == a[1..] + b;
    } else {
      assert a + b == b;
    }
  }

  lemma {:induction false} SizeConcat(a: string, b: string)
    ensures Size(a + b) == Size(a) + Size(b)
    decreases |a|
  {
    if |a| > 0 {
      SizeConcat(a[1..], b);
      assert (a + b)[1..] == a[1..] + b;
    } else {
      assert a + b == b;
    }
  }

  /** On ASCII text bytes and characters coincide. */
  lemma {:induction false} AsciiSize(s: string)
    requires IsAscii(s)
    ensures Size(s) == |s|
    decreases |s|
  {
    if |s| > 0 {
      assert IsAscii(s[1..]) by {
        forall i | 0 <= i < |s| - 1 ensures (s[1..][i] as int) < 0x80 {
          assert s[1..][i] == s[i + 1];
        }
      }
      AsciiSize(s[1..]);
    }
  }
}
