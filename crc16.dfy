/**
  The payload checksum: CRC-16 with polynomial 0x1021, initial register 0xFFFF,
  no reflection of input or output and no final XOR (the CCITT-FALSE variant),
  written in hexadecimal as four upper-case digits.
 */
module Crc16 {

  const Poly: bv16 := 0x1021
  const Init: bv16 := 0xFFFF
  const XorOut: bv16 := 0x0000
  const Check: bv16 := 0x29B1

  /** One step of the shift register: shift left, and add the polynomial when the top bit fell out. */
  function Shift(x: bv16): bv16 {
    if x & 0x8000 != 0 then (x << 1) ^ Poly else x << 1
  }

  function ShiftN(x: bv16, n: nat): bv16
    decreases n
  {
    if n == 0 then x else ShiftN(Shift(x), n - 1)
  }

  /** A byte placed in the top half of the register. */
  function Wide(b: bv8): bv16 {
    (b as bv16) << 8
  }

  /**
    The register after one message byte, most significant bit first (no
    reflection): the byte is added into the top half of the register, which is
    then shifted eight times.
   */
  function FeedByte(reg: bv16, b: bv8): bv16 {
    ShiftN(reg ^ Wide(b), 8)
  }

  /** The register after a whole message. */
  function Register(reg: bv16, bytes: seq<bv8>): bv16
    decreases |bytes|
  {
    if bytes == [] then reg else Register(FeedByte(reg, bytes[0]), bytes[1..])
  }

  function Checksum(bytes: seq<bv8>): bv16 {
    Register(Init, bytes) ^ XorOut
  }

  lemma RegisterStep(bytes: seq<bv8>, i: nat, reg: bv16, next: bv16)
    requires i < |bytes| && next == ShiftN(reg ^ Wide(bytes[i]), 8)
    ensures Register(next, bytes[i + 1..]) == Register(reg, bytes[i..])
  {
    assert bytes[i..][1..] == bytes[i + 1..];
  }

  lemma RegisterDone(bytes: seq<bv8>, reg: bv16)
    requires Register(reg, bytes[|bytes|..]) == Register(Init, bytes)
    ensures reg ^ XorOut == Checksum(bytes)
  {
    assert bytes[|bytes|..] == [];
  }

  lemma ShiftNStep(x: bv16, n: nat)
    requires n > 0
    ensures ShiftN(x, n) == ShiftN(Shift(x), n - 1)
  {
  }

  /** The eight shifts that consume one byte added into the top of the register. */
  method ShiftByte(start: bv16) returns (crc: bv16)
    ensures crc == ShiftN(start, 8)
  {
    crc := start;
    var j := 0;
    while j < 8
      invariant 0 <= j <= 8
      invariant ShiftN(crc, 8 - j) == ShiftN(start, 8)
    {
      ShiftNStep(crc, 8 - j);
      if crc & 0x8000 != 0 {
        crc := (crc << 1) ^ Poly;
      } else {
        crc := crc << 1;
      }
      j := j + 1;
    }
  }

  /**
    The digest the payload generator feeds (`digest`, `update`, `finalize`), as a
    bitwise loop over the bytes.
   */
  method Compute(bytes: seq<bv8>) returns (crc: bv16)
    ensures crc == Checksum(bytes)
  {
    crc := Init;
    var i := 0;
    while i < |bytes|
      invariant 0 <= i <= |bytes|
      invariant Register(crc, bytes[i..]) == Register(Init, bytes)
    {
      var next := ShiftByte(crc ^ Wide(bytes[i]));
      RegisterStep(bytes, i, crc, next);
      crc := next;
      i := i + 1;
    }
    RegisterDone(bytes, crc);
    crc := crc ^ XorOut;
  }

  /** The algorithm's check value: the checksum of the ASCII text "123456789" is 0x29B1. */
  lemma CheckValue()
    ensures Checksum([0x31, 0x32, 0x33, 0x34, 0x35, 0x36, 0x37, 0x38, 0x39]) == Check
  {
    var m: seq<bv8> := [0x31, 0x32, 0x33, 0x34, 0x35, 0x36, 0x37, 0x38, 0x39];
    assert FeedByte(0xFFFF, 0x31) == 0xC782;
    assert FeedByte(0xC782, 0x32) == 0x3DBA;
    assert FeedByte(0x3DBA, 0x33) == 0x5BCE;
    assert FeedByte(0x5BCE, 0x34) == 0x5349;
    assert FeedByte(0x5349, 0x35) == 0x4560;
    assert FeedByte(0x4560, 0x36) == 0x2EF4;
    assert FeedByte(0x2EF4, 0x37) == 0x7718;
    assert FeedByte(0x7718, 0x38) == 0xA12B;
    assert FeedByte(0xA12B, 0x39) == 0x29B1;
    assert Register(0x29B1, m[9..]) == 0x29B1;
    assert Register(0xA12B, m[8..]) == 0x29B1;
    assert Register(0x7718, m[7..]) == 0x29B1;
    assert Register(0x2EF4, m[6..]) == 0x29B1;
    assert Register(0x4560, m[5..]) == 0x29B1;
    assert Register(0x5349, m[4..]) == 0x29B1;
    assert Register(0x5BCE, m[3..]) == 0x29B1;
    assert Register(0x3DBA, m[2..]) == 0x29B1;
    assert Register(0xC782, m[1..]) == 0x29B1;
  }

  // ---------------------------------------------------------------------------
  // Error detection: a message and one that differs from it in one byte have
  // different checksums
  // ---------------------------------------------------------------------------

  lemma ShiftInjective(x: bv16, y: bv16)
    requires Shift(x) == Shift(y)
    ensures x == y
  {
    assert Shift(x) & 1 == (if x & 0x8000 != 0 then 1 else 0);
    assert Shift(y) & 1 == (if y & 0x8000 != 0 then 1 else 0);
  }

  lemma {:induction false} ShiftNInjective(x: bv16, y: bv16, j: nat)
    requires ShiftN(x, j) == ShiftN(y, j)
    ensures x == y
    decreases j
  {
    if j > 0 {
      ShiftNInjective(Shift(x), Shift(y), j - 1);
      ShiftInjective(x, y);
    }
  }

  /** For a given register, different bytes lead to different registers. */
  lemma FeedByteInjectiveInByte(reg: bv16, b1: bv8, b2: bv8)
    requires b1 != b2
    ensures FeedByte(reg, b1) != FeedByte(reg, b2)
  {
    if FeedByte(reg, b1) == FeedByte(reg, b2) {
      ShiftNInjective(reg ^ Wide(b1), reg ^ Wide(b2), 8);
      assert false;
    }
  }

  /** For a given byte, different registers lead to different registers. */
  lemma FeedByteInjectiveInRegister(r1: bv16, r2: bv16, b: bv8)
    requires r1 != r2
    ensures FeedByte(r1, b) != FeedByte(r2, b)
  {
    if FeedByte(r1, b) == FeedByte(r2, b) {
      ShiftNInjective(r1 ^ Wide(b), r2 ^ Wide(b), 8);
      assert false;
    }
  }

  lemma {:induction false} RegisterInjective(r1: bv16, r2: bv16, bytes: seq<bv8>)
    requires r1 != r2
    ensures Register(r1, bytes) != Register(r2, bytes)
    decreases |bytes|
  {
    if bytes != [] {
      FeedByteInjectiveInRegister(r1, r2, bytes[0]);
      RegisterInjective(FeedByte(r1, bytes[0]), FeedByte(r2, bytes[0]), bytes[1..]);
    }
  }

  lemma {:induction false} RegisterAppend(reg: bv16, a: seq<bv8>, b: seq<bv8>)
    ensures Register(reg, a + b) == Register(Register(reg, a), b)
    decreases |a|
  {
    if a == [] {
      assert a + b == b;
    } else {
      assert (a + b)[1..] == a[1..] + b;
      RegisterAppend(FeedByte(reg, a[0]), a[1..], b);
    }
  }

  /** Changing any one byte of a message changes its checksum. */
  lemma SingleByteChangeDetected(m1: seq<bv8>, m2: seq<bv8>, k: nat)
    requires |m1| == |m2| && k < |m1| && m1[k] != m2[k]
    requires forall i :: 0 <= i < |m1| && i != k ==> m1[i] == m2[i]
    ensures Checksum(m1) != Checksum(m2)
  {
    assert m1[..k] == m2[..k];
    assert m1[k + 1..] == m2[k + 1..];
    assert m1 == m1[..k] + m1[k..];
    assert m2 == m2[..k] + m2[k..];
    RegisterAppend(Init, m1[..k], m1[k..]);
    RegisterAppend(Init, m2[..k], m2[k..]);
    var r := Register(Init, m1[..k]);
    assert m1[k..][1..] == m1[k + 1..];
    assert m2[k..][1..] == m2[k + 1..];
    FeedByteInjectiveInByte(r, m1[k], m2[k]);
    RegisterInjective(FeedByte(r, m1[k]), FeedByte(r, m2[k]), m1[k + 1..]);
  }

  // ---------------------------------------------------------------------------
  // `format!("{:04x}", crc).to_uppercase()`
  // ---------------------------------------------------------------------------

  function LowerHexDigit(v: nat): char
    requires v < 16
  {
    "0123456789abcdef"[v]
  }

  /** `format!("{:04x}", v)`: four lower-case hexadecimal digits, zero-padded. */
  function LowerHex4(v: bv16): (s: string)
    ensures |s| == 4
  {
    LowerHex4Of(v as int)
  }

  /** The four digits of a number below 0x10000, most significant first. */
  function LowerHex4Of(n: nat): (s: string)
    requires n < 0x1_0000
    ensures |s| == 4
  {
    [LowerHexDigit(n / 0x1000), LowerHexDigit(n % 0x1000 / 0x100), LowerHexDigit(n % 0x100 / 0x10), LowerHexDigit(n % 0x10)]
  }

  /** ASCII upper-casing of one character: lower-case letters become upper-case, all else stays. */
  function UpperChar(c: char): char {
    if 'a' <= c <= 'z' then (c as int - 32) as char else c
  }

  /** `str::to_uppercase` on ASCII text. */
  function ToUppercase(s: string): (r: string)
    ensures |r| == |s|
  {
    if s == [] then [] else [UpperChar(s[0])] + ToUppercase(s[1..])
  }

  lemma {:induction false} ToUppercaseAt(s: string, i: nat)
    requires i < |s|
    ensures ToUppercase(s)[i] == UpperChar(s[i])
    decreases i
  {
    if i > 0 {
      ToUppercaseAt(s[1..], i - 1);
    }
  }

  predicate IsUpperHexDigit(c: char) {
    '0' <= c <= '9' || 'A' <= c <= 'F'
  }

  function HexValue(c: char): (v: nat)
    requires IsUpperHexDigit(c)
    ensures v < 16
  {
    if '0' <= c <= '9' then c as int - '0' as int else c as int - 'A' as int + 10
  }

  /** The scanner's reading of a four-digit upper-case hexadecimal checksum. */
  function ParseHex4(s: string): nat
    requires |s| == 4 && forall i :: 0 <= i < 4 ==> IsUpperHexDigit(s[i])
  {
    HexValue(s[0]) * 0x1000 + HexValue(s[1]) * 0x100 + HexValue(s[2]) * 0x10 + HexValue(s[3])
  }

  /** The text written for a checksum. */
  function HexUpper4(v: bv16): string {
    ToUppercase(LowerHex4(v))
  }

  lemma UppercaseHexDigit(v: nat)
    requires v < 16
    ensures IsUpperHexDigit(UpperChar(LowerHexDigit(v))) && HexValue(UpperChar(LowerHexDigit(v))) == v
  {
  }

  lemma HexDigitsRecompose(n: nat)
    requires n < 0x10000
    ensures n == n / 0x1000 * 0x1000 + n % 0x1000 / 0x100 * 0x100 + n % 0x100 / 0x10 * 0x10 + n % 0x10
  {
    assert n % 0x1000 % 0x100 == n % 0x100;
    assert n % 0x100 % 0x10 == n % 0x10;
  }

  /** A register value read as a number converts back to the same value. */
  lemma ValueConvertsBack(x: bv16)
    ensures (x as int) as bv16 == x
  {
  }

  /** The checksum text is four upper-case hexadecimal digits that read back as the checksum. */
  lemma HexUpper4RoundTrip(v: bv16)
    ensures |HexUpper4(v)| == 4
    ensures forall i :: 0 <= i < 4 ==> IsUpperHexDigit(HexUpper4(v)[i])
    ensures ParseHex4(HexUpper4(v)) == v as int
  {
    HexRoundTripOf(v as int);
  }

  lemma HexRoundTripOf(n: nat)
    requires n < 0x1_0000
    ensures forall i :: 0 <= i < 4 ==> IsUpperHexDigit(ToUppercase(LowerHex4Of(n))[i])
    ensures ParseHex4(ToUppercase(LowerHex4Of(n))) == n
  {
    var ds := [n / 0x1000, n % 0x1000 / 0x100, n % 0x100 / 0x10, n % 0x10];
    var l := LowerHex4Of(n);
    assert forall i :: 0 <= i < 4 ==> ds[i] < 16 && l[i] == LowerHexDigit(ds[i]);
    UpperDigits(l, ds);
    HexDigitsRecompose(n);
    ParseHex4Digits(ToUppercase(l), ds);
  }

  /** Upper-casing four lower-case hexadecimal digits gives upper-case digits of the same values. */
  lemma UpperDigits(l: string, ds: seq<nat>)
    requires |l| == 4 && |ds| == 4
    requires forall i :: 0 <= i < 4 ==> ds[i] < 16 && l[i] == LowerHexDigit(ds[i])
    ensures forall i :: 0 <= i < 4 ==> IsUpperHexDigit(ToUppercase(l)[i]) && HexValue(ToUppercase(l)[i]) == ds[i]
  {
    forall i | 0 <= i < 4
      ensures IsUpperHexDigit(ToUppercase(l)[i]) && HexValue(ToUppercase(l)[i]) == ds[i]
    {
      ToUppercaseAt(l, i);
      UppercaseHexDigit(ds[i]);
    }
  }

  lemma ParseHex4Digits(h: string, ds: seq<nat>)
    requires |h| == 4 && |ds| == 4
    requires forall i :: 0 <= i < 4 ==> IsUpperHexDigit(h[i]) && HexValue(h[i]) == ds[i]
    ensures ParseHex4(h) == ds[0] * 0x1000 + ds[1] * 0x100 + ds[2] * 0x10 + ds[3]
  {
  }
}
