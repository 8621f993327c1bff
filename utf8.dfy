/**
  UTF-8, as Rust's `String` stores text: `String::len` is the number of bytes
  and `into_bytes` hands the checksum engine these bytes.
 */
module Utf8 {

  predicate IsAscii(c: char) {
    c as int < 0x80
  }

  predicate AllAscii(s: string) {
    forall i :: 0 <= i < |s| ==> IsAscii(s[i])
  }

  /** The UTF-8 encoding of one Unicode scalar value. */
  function EncodeChar(c: char): (r: seq<bv8>)
    ensures 1 <= |r| <= 4
    ensures |r| == 1 <==> IsAscii(c)
    ensures |r| == 1 ==> r[0] as int == c as int
  {
    var n := c as int;
    if n < 0x80 then [n as bv8]
    else if n < 0x800 then [(0xC0 + n / 0x40) as bv8, (0x80 + n % 0x40) as bv8]
    else if n < 0x1_0000 then
      [(0xE0 + n / 0x1000) as bv8, (0x80 + (n / 0x40) % 0x40) as bv8, (0x80 + n % 0x40) as bv8]
    else
      [(0xF0 + n / 0x4_0000) as bv8, (0x80 + (n / 0x1000) % 0x40) as bv8,
       (0x80 + (n / 0x40) % 0x40) as bv8, (0x80 + n % 0x40) as bv8]
  }

  /** The bytes of a string, as `String::into_bytes` returns them. */
  function Encode(s: string): seq<bv8> {
    if s == [] then [] else EncodeChar(s[0]) + Encode(s[1..])
  }

  /** `String::len`: the number of UTF-8 bytes, never fewer than the characters. */
  function ByteLength(s: string): (n: nat)
    ensures n >= |s|
    ensures n == |s| <==> AllAscii(s)
  {
    if s == [] then 0 else |EncodeChar(s[0])| + ByteLength(s[1..])
  }

  lemma {:induction false} ByteLengthIsEncodedLength(s: string)
    ensures |Encode(s)| == ByteLength(s)
  {
    if s != [] {
      ByteLengthIsEncodedLength(s[1..]);
    }
  }

  lemma {:induction false} EncodeAppend(a: string, b: string)
    ensures Encode(a + b) == Encode(a) + Encode(b)
  {
    if a == [] {
      assert a + b == b;
    } else {
      assert (a + b)[1..] == a[1..] + b;
      EncodeAppend(a[1..], b);
    }
  }

  lemma EncodeOne(c: char)
    ensures Encode([c]) == EncodeChar(c)
  {
    assert [c][1..] == [];
  }

  /** An ASCII string encodes to one byte per character, each the character's code. */
  lemma {:induction false} EncodeAscii(s: string)
    requires AllAscii(s)
    ensures |Encode(s)| == |s|
    ensures forall i :: 0 <= i < |s| ==> Encode(s)[i] as int == s[i] as int
  {
    if s != [] {
      EncodeAscii(s[1..]);
      assert Encode(s) == EncodeChar(s[0]) + Encode(s[1..]);
      forall i | 0 <= i < |s| ensures Encode(s)[i] as int == s[i] as int {
        if i > 0 {
          assert s[1..][i - 1] == s[i];
        }
      }
    }
  }
}
