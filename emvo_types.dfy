/**
  The typed field values of an EMV merchant-presented QR payload: numeric,
  alphanumeric-special and free text, each with its charset rule, its length and
  its type discriminator; the error type; and the decimal tag-range test.
 */
module EmvoTypes {
  import opened Wrappers
  import Utf8

  const TypeNameNumeric: string := "numeric"
  const TypeNameAlphaNumeric: string := "alpha_numeric"
  const TypeNameStr: string := "str"

  /** A data-object identifier such as "00" or "29". */
  type TagID = string

  /** The errors of the encoder; `Details` is the message each carries. */
  datatype EMVOError =
    | DataInvalid(tagId: TagID)
    | DataIsEmpty(tagId: TagID)
    | DataLengthInvalid(tagId: TagID)
    | NumericInvalid
    | AlphaNumericInvalid
    | StringInvalid
    | PayloadFormatEmpty
    | PayloadFormatInvalid
  {
    function Details(): string {
      match this
      case DataInvalid(t) => "Tag Id " + t + " Data Invalid"
      case DataIsEmpty(t) => "Tag Id " + t + " Data Is Empty"
      case DataLengthInvalid(t) => "Tag Id " + t + " Data Length Invalid"
      case NumericInvalid => "Numeric invalid"
      case AlphaNumericInvalid => "Alpha Numeric Invalid"
      case StringInvalid => "String  Invalid"
      case PayloadFormatEmpty => "Data is empty"
      case PayloadFormatInvalid => "Data Invalid"
    }
  }

  // ---------------------------------------------------------------------------
  // Charsets (the two regular expressions of the numeric and alphanumeric types)
  // ---------------------------------------------------------------------------

  predicate IsDigit(c: char) {
    '0' <= c <= '9'
  }

  predicate IsAsciiLetter(c: char) {
    'a' <= c <= 'z' || 'A' <= c <= 'Z'
  }

  /** `\s` of the regex crate: the Unicode White_Space property. */
  predicate IsWhitespace(c: char) {
    var n := c as int;
    (0x09 <= n <= 0x0D) || n == 0x20 || n == 0x85 || n == 0xA0 || n == 0x1680
    || (0x2000 <= n <= 0x200A) || n == 0x2028 || n == 0x2029 || n == 0x202F
    || n == 0x205F || n == 0x3000
  }

  /** One character of the class `[0-9a-zA-Z\s.!?\\-]`. */
  predicate IsAlphanumericSpecialChar(c: char) {
    IsDigit(c) || IsAsciiLetter(c) || IsWhitespace(c)
    || c == '.' || c == '!' || c == '?' || c == '\\' || c == '-'
  }

  /** The whole text matches `^[0-9]*$`; the empty text does. */
  predicate NumericValid(s: string) {
    forall i :: 0 <= i < |s| ==> IsDigit(s[i])
  }

  /** The whole text matches `^[0-9a-zA-Z\s.!?\\-]*$`; the empty text does. */
  predicate AlphanumericSpecialValid(s: string) {
    forall i :: 0 <= i < |s| ==> IsAlphanumericSpecialChar(s[i])
  }

  // ---------------------------------------------------------------------------
  // The three scalar kinds
  // ---------------------------------------------------------------------------

  /** `EMVNumeric`, `EMVAlphanumbericSpecial` and `EMVString`; each only ever holds a value. */
  datatype ScalarData = EMVNumeric(d: string) | EMVAlphanumericSpecial(d: string) | EMVString(d: string)
  {
    /** `len`: `String::len` (UTF-8 bytes) for the first two kinds, the character count for text. */
    function Len(): (n: nat)
      ensures n >= |d|
      ensures EMVString? ==> n == |d|
      ensures !EMVString? ==> (n == |d| <==> Utf8.AllAscii(d))
    {
      if EMVString? then |d| else Utf8.ByteLength(d)
    }

    /** `valid`: the kind's charset rule; text is always valid UTF-8. */
    predicate Valid() {
      match this
      case EMVNumeric(s) => NumericValid(s)
      case EMVAlphanumericSpecial(s) => AlphanumericSpecialValid(s)
      case EMVString(_) => true
    }

    function Value(): string {
      d
    }

    function TypeName(): string {
      match this
      case EMVNumeric(_) => TypeNameNumeric
      case EMVAlphanumericSpecial(_) => TypeNameAlphaNumeric
      case EMVString(_) => TypeNameStr
    }
  }

  /** `EMVNumeric::try_from`. */
  function NumericTryFrom(value: string): (r: Result<ScalarData, EMVOError>)
    ensures r.Ok? <==> NumericValid(value)
    ensures r.Ok? ==> r.value.EMVNumeric? && r.value.Value() == value && r.value.Valid()
    ensures r.Err? ==> r.error == NumericInvalid
  {
    var numeric := EMVNumeric(value);
    if numeric.Valid() then Ok(numeric) else Err(NumericInvalid)
  }

  /** `EMVAlphanumbericSpecial::try_from`. */
  function AlphanumericSpecialTryFrom(value: string): (r: Result<ScalarData, EMVOError>)
    ensures r.Ok? <==> AlphanumericSpecialValid(value)
    ensures r.Ok? ==> r.value.EMVAlphanumericSpecial? && r.value.Value() == value && r.value.Valid()
    ensures r.Err? ==> r.error == AlphaNumericInvalid
  {
    var alphaNumericSpecial := EMVAlphanumericSpecial(value);
    if alphaNumericSpecial.Valid() then Ok(alphaNumericSpecial) else Err(AlphaNumericInvalid)
  }

  /** `EMVString::try_from`: every text is accepted. */
  function StringTryFrom(value: string): (r: Result<ScalarData, EMVOError>)
    ensures r.Ok? && r.value.EMVString? && r.value.Value() == value && r.value.Valid()
  {
    var emvStr := EMVString(value);
    if emvStr.Valid() then Ok(emvStr) else Err(StringInvalid)
  }

  /** Every numeric text is also an alphanumeric-special text. */
  lemma NumericIsAlphanumericSpecial(s: string)
    requires NumericValid(s)
    ensures AlphanumericSpecialValid(s)
    ensures AlphanumericSpecialTryFrom(s).Ok?
  {
  }

  /** A text holding '@' or '#' is not alphanumeric-special. */
  lemma AlphanumericSpecialRejects(s: string, i: nat)
    requires i < |s| && (s[i] == '@' || s[i] == '#')
    ensures !AlphanumericSpecialValid(s)
    ensures AlphanumericSpecialTryFrom(s) == Err(AlphaNumericInvalid)
  {
    assert !IsAlphanumericSpecialChar(s[i]);
  }

  /** A numeric value is ASCII, so its byte length is its character count. */
  lemma NumericLenIsCharCount(s: string)
    requires NumericValid(s)
    ensures Utf8.AllAscii(s)
    ensures EMVNumeric(s).Len() == |s|
  {
  }

  lemma TypeNamesDistinct()
    ensures TypeNameNumeric != TypeNameAlphaNumeric
    ensures TypeNameNumeric != TypeNameStr
    ensures TypeNameAlphaNumeric != TypeNameStr
  {
  }

  // ---------------------------------------------------------------------------
  // Decimal numbers: `str::parse::<usize>` and `format!("{}")`
  // ---------------------------------------------------------------------------

  const UsizeMax: nat := 0xFFFF_FFFF_FFFF_FFFF

  function DigitValue(c: char): (v: nat)
    requires IsDigit(c)
    ensures v < 10
  {
    c as int - '0' as int
  }

  function DigitChar(v: nat): (c: char)
    requires v < 10
    ensures IsDigit(c) && DigitValue(c) == v
  {
    (v + '0' as int) as char
  }

  /** The value of a digit string, most significant digit first. */
  function DecimalValue(s: string): nat
    requires NumericValid(s)
  {
    if s == [] then 0 else DecimalValue(s[..|s| - 1]) * 10 + DigitValue(s[|s| - 1])
  }

  /** `str::parse::<usize>`: an optional '+', at least one digit, and no overflow. */
  function ParseUsize(s: string): (r: Option<nat>)
    ensures r.Some? ==> r.value <= UsizeMax
    ensures r.Some? <==> var digits := if |s| > 0 && s[0] == '+' then s[1..] else s;
                         digits != [] && NumericValid(digits) && DecimalValue(digits) <= UsizeMax
    ensures r.Some? ==> var digits := if |s| > 0 && s[0] == '+' then s[1..] else s;
                        r.value == DecimalValue(digits)
  {
    var digits := if |s| > 0 && s[0] == '+' then s[1..] else s;
    if digits != [] && NumericValid(digits) && DecimalValue(digits) <= UsizeMax
    then Some(DecimalValue(digits))
    else None
  }

  /** The decimal representation of a number, without leading zeros. */
  function NatToDecimal(n: nat): (s: string)
    ensures |s| >= 1 && NumericValid(s)
    ensures n < 10 <==> |s| == 1
    ensures n < 100 ==> |s| <= 2
  {
    if n < 10 then [DigitChar(n)] else NatToDecimal(n / 10) + [DigitChar(n % 10)]
  }

  /** Printing and then parsing a number gives the number back. */
  lemma {:induction false} NatToDecimalRoundTrip(n: nat)
    ensures DecimalValue(NatToDecimal(n)) == n
  {
    var s := NatToDecimal(n);
    if n >= 10 {
      NatToDecimalRoundTrip(n / 10);
      assert s[..|s| - 1] == NatToDecimal(n / 10);
    }
  }

  /** Parsing the decimal text of a number, with or without a leading '+', gives the number back. */
  lemma ParseUsizeRoundTrip(n: nat)
    requires n <= UsizeMax
    ensures ParseUsize(NatToDecimal(n)) == Some(n)
    ensures ParseUsize("+" + NatToDecimal(n)) == Some(n)
  {
    var s := NatToDecimal(n);
    NatToDecimalRoundTrip(n);
    assert IsDigit(s[0]);
    assert ("+" + s)[1..] == s;
  }

  /** `TagIDData::is_between`: the tag lies in the inclusive decimal range. */
  function IsBetween(tag: TagID, start: TagID, end: TagID): (r: bool)
    requires ParseUsize(tag).Some? && ParseUsize(start).Some? && ParseUsize(end).Some?
    ensures r <==> ParseUsize(start).value <= ParseUsize(tag).value <= ParseUsize(end).value
  {
    var currentTag := ParseUsize(tag).value;
    var startTag := ParseUsize(start).value;
    var endTag := ParseUsize(end).value;
    currentTag >= startTag && currentTag <= endTag
  }

  /** Two-character digit tags. */
  predicate IsTwoDigitTag(t: TagID) {
    |t| == 2 && IsDigit(t[0]) && IsDigit(t[1])
  }

  /** String order on two-character tags. */
  predicate TagLe(a: TagID, b: TagID)
    requires |a| == 2 && |b| == 2
  {
    a[0] < b[0] || (a[0] == b[0] && a[1] <= b[1])
  }

  /** The number a two-digit tag stands for (its `usize` value, by TwoDigitValue). */
  function TagNumber(t: TagID): nat
    requires IsTwoDigitTag(t)
  {
    10 * DigitValue(t[0]) + DigitValue(t[1])
  }

  lemma TwoDigitValue(t: TagID)
    requires IsTwoDigitTag(t)
    ensures ParseUsize(t) == Some(TagNumber(t))
  {
    assert t[..1][..0] == [];
    assert DecimalValue(t[..1]) == DigitValue(t[0]);
    assert t[..|t| - 1] == t[..1];
  }

  /** On two-digit tags the decimal range test is the string order of the tags. */
  lemma IsBetweenIsTagOrder(tag: TagID, start: TagID, end: TagID)
    requires IsTwoDigitTag(tag) && IsTwoDigitTag(start) && IsTwoDigitTag(end)
    ensures ParseUsize(tag).Some? && ParseUsize(start).Some? && ParseUsize(end).Some?
    ensures IsBetween(tag, start, end) <==> TagLe(start, tag) && TagLe(tag, end)
  {
    TwoDigitValue(tag);
    TwoDigitValue(start);
    TwoDigitValue(end);
  }
}
