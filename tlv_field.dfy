/**
  TLV data objects: a field binds a two-character tag, a typed value and a
  declared maximum length and renders as tag, two length digits and value; the
  segment builder concatenates fields in order and stops at the first error.
  A scanner-side decoder is the inverse the rendering is proved against.
 */
module TlvField {
  import opened Wrappers
  import opened EmvoTypes
  import Utf8

  /** `EMVQRFieldDataObject`: every one the encoder builds wraps one of the three scalar kinds. */
  datatype Field = Field(tagId: TagID, data: ScalarData, length: nat)

  function Zeros(n: nat): (z: string)
    ensures |z| == n && forall i :: 0 <= i < n ==> z[i] == '0'
  {
    if n == 0 then [] else ['0'] + Zeros(n - 1)
  }

  /** `format!("{:0>width$}", s)`: left-padded with '0' to `width` characters, never cut. */
  function LeftPadZeros(s: string, width: nat): (r: string)
    ensures |r| == if |s| < width then width else |s|
    ensures r == Zeros(|r| - |s|) + s
  {
    if |s| < width then Zeros(width - |s|) + s else s
  }

  /** `format!("{:0>2}", n)`: the decimal digits of `n`, at least two of them. */
  function Pad2(n: nat): (r: string)
    ensures NumericValid(r) && DecimalValue(r) == n
    ensures n < 100 ==> |r| == 2
  {
    NatToDecimalRoundTrip(n);
    var digits := NatToDecimal(n);
    if n < 10 then
      assert ("0" + digits)[..1] == "0";
      "0" + digits
    else
      digits
  }

  /** Below 100 the length digits are the tens digit and the units digit. */
  lemma Pad2Digits(n: nat)
    requires n < 100
    ensures Pad2(n) == [DigitChar(n / 10), DigitChar(n % 10)]
  {
    if n >= 10 {
      assert NatToDecimal(n) == NatToDecimal(n / 10) + [DigitChar(n % 10)];
    }
  }

  /** Two length digits read back give the same two digits when printed again. */
  lemma Pad2OfDigits(dd: string)
    requires |dd| == 2 && NumericValid(dd)
    ensures Pad2(DecimalValue(dd)) == dd
  {
    assert dd[..1][..0] == [];
    assert dd[..|dd| - 1] == dd[..1];
    var a, b := DigitValue(dd[0]), DigitValue(dd[1]);
    assert DecimalValue(dd[..1]) == a;
    var n := DecimalValue(dd);
    assert n == 10 * a + b;
    assert n / 10 == a && n % 10 == b;
    Pad2Digits(n);
    assert DigitChar(a) == dd[0] && DigitChar(b) == dd[1];
    assert dd == [dd[0], dd[1]];
  }

  // ---------------------------------------------------------------------------
  // Rendering one field
  // ---------------------------------------------------------------------------

  predicate IsNumericField(f: Field) {
    f.data.TypeName() == TypeNameNumeric
  }

  /** The value as it stands after the length digits. */
  function WireValue(f: Field): string {
    if IsNumericField(f) then LeftPadZeros(f.data.Value(), f.length) else f.data.Value()
  }

  /**
    `EMVQRFieldDataObject::value`, as the code evidently intends it: invalid data,
    then empty data, then data longer than the declared length are errors, in that
    order; a numeric value is zero-padded to the declared width, which is also the
    length written; any other value is written as it is, with its own length.
   */
  function Render(f: Field): (r: Result<string, EMVOError>)
    ensures r.Ok? <==> f.data.Valid() && f.data.Value() != [] && f.data.Len() <= f.length
    ensures !f.data.Valid() ==> r == Err(DataInvalid(f.tagId))
    ensures f.data.Valid() && f.data.Value() == [] ==> r == Err(DataIsEmpty(f.tagId))
    ensures f.data.Valid() && f.data.Value() != [] && f.data.Len() > f.length ==>
              r == Err(DataLengthInvalid(f.tagId))
  {
    if !f.data.Valid() then
      Err(DataInvalid(f.tagId))
    else if f.data.Value() != [] then
      if f.data.Len() > f.length then
        Err(DataLengthInvalid(f.tagId))
      else if IsNumericField(f) then
        Ok(f.tagId + Pad2(f.length) + LeftPadZeros(f.data.Value(), f.length))
      else
        Ok(f.tagId + Pad2(f.data.Len()) + f.data.Value())
    else
      Err(DataIsEmpty(f.tagId))
  }

  /**
    `EMVQRFieldDataObject::value` as written: the match arm names `TYPE_NAME_NUMERIC`,
    which is no constant in scope, so the arm binds a fresh variable and matches
    every type; every value is padded to the declared width.
   */
  function RenderAsWritten(f: Field): (r: Result<string, EMVOError>)
    ensures r.Ok? <==> Render(f).Ok?
    ensures r.Err? ==> r == Render(f)
  {
    if !f.data.Valid() then
      Err(DataInvalid(f.tagId))
    else if f.data.Value() != [] then
      if f.data.Len() > f.length then
        Err(DataLengthInvalid(f.tagId))
      else
        Ok(f.tagId + Pad2(f.length) + LeftPadZeros(f.data.Value(), f.length))
    else
      Err(DataIsEmpty(f.tagId))
  }

  /** A numeric field: the declared width as length digits and a zero-padded value of that width. */
  lemma RenderNumeric(f: Field)
    requires IsNumericField(f) && Render(f).Ok? && f.length <= 99
    ensures var r, t, v := Render(f).value, |f.tagId|, f.data.Value();
      && |r| == t + 2 + f.length
      && r[..t] == f.tagId
      && DecimalValue(r[t..t + 2]) == f.length
      && r[t + 2..] == Zeros(f.length - |v|) + v
  {
    var r, t, v := Render(f).value, |f.tagId|, f.data.Value();
    var p, z := Pad2(f.length), LeftPadZeros(v, f.length);
    assert |v| <= f.length;
    assert r == f.tagId + p + z;
    assert |p| == 2 && |z| == f.length;
    assert r[..t] == f.tagId;
    assert r[t..t + 2] == p;
    assert r[t + 2..] == z;
  }

  /** Any other field: its own length as length digits and the value, unpadded. */
  lemma RenderVariable(f: Field)
    requires !IsNumericField(f) && Render(f).Ok? && f.length <= 99
    ensures var r, t, v := Render(f).value, |f.tagId|, f.data.Value();
      && |r| == t + 2 + |v|
      && r[..t] == f.tagId
      && DecimalValue(r[t..t + 2]) == f.data.Len() <= f.length
      && r[t + 2..] == v
  {
    var r, t := Render(f).value, |f.tagId|;
    assert r[t..t + 2] == Pad2(f.data.Len());
  }

  /** Rendering never truncates: a value longer than the declared length is an error. */
  lemma RenderNeverTruncates(f: Field)
    ensures Render(f).Ok? ==> var r := Render(f).value; |r| >= |f.data.Value()| && r[|r| - |f.data.Value()|..] == f.data.Value()
    ensures f.data.Valid() && |f.data.Value()| > f.length ==> Render(f) == Err(DataLengthInvalid(f.tagId))
  {
    if Render(f).Ok? {
      var v := f.data.Value();
      var p := if IsNumericField(f) then f.tagId + Pad2(f.length) + Zeros(f.length - |v|) else f.tagId + Pad2(f.data.Len());
      assert Render(f).value == p + v;
      assert (p + v)[|p|..] == v;
    }
  }

  /** An ASCII text value renders with its own length. */
  lemma RenderText(f: Field)
    requires f.data.EMVAlphanumericSpecial? && AlphanumericSpecialValid(f.data.Value()) && Utf8.AllAscii(f.data.Value())
    requires f.data.Value() != [] && |f.data.Value()| <= f.length
    ensures Render(f) == Ok(f.tagId + Pad2(|f.data.Value()|) + f.data.Value())
  {
    assert !IsNumericField(f);
  }

  // ---------------------------------------------------------------------------
  // The segment builder
  // ---------------------------------------------------------------------------

  /** `EMVQFieldDataObjectListBuilder::to_string`: the renderings in order, or the first error. */
  function RenderAll(fields: seq<Field>): Result<string, EMVOError> {
    if fields == [] then
      Ok("")
    else
      match Render(fields[0])
      case Err(e) => Err(e)
      case Ok(d) =>
        match RenderAll(fields[1..])
        case Err(e) => Err(e)
        case Ok(rest) => Ok(d + rest)
  }

  /** A list that fails, fails with the error of one of its fields. */
  lemma {:induction false} RenderAllErrFromField(fields: seq<Field>)
    requires RenderAll(fields).Err?
    ensures exists i :: 0 <= i < |fields| && Render(fields[i]) == Err(RenderAll(fields).error)
  {
    if Render(fields[0]).Ok? {
      var rest := fields[1..];
      RenderAllErrFromField(rest);
      var i :| 0 <= i < |rest| && Render(rest[i]) == Err(RenderAll(rest).error);
      assert rest[i] == fields[i + 1];
    }
  }

  /** The builder succeeds exactly when every field renders. */
  lemma {:induction false} RenderAllOk(fields: seq<Field>)
    ensures RenderAll(fields).Ok? <==> forall i :: 0 <= i < |fields| ==> Render(fields[i]).Ok?
  {
    if fields != [] {
      RenderAllOk(fields[1..]);
      assert forall i :: 1 <= i < |fields| ==> fields[1..][i - 1] == fields[i];
    }
  }

  function Combine(a: Result<string, EMVOError>, b: Result<string, EMVOError>): Result<string, EMVOError> {
    match a
    case Err(e) => Err(e)
    case Ok(x) => match b case Err(e) => Err(e) case Ok(y) => Ok(x + y)
  }

  /** Building two lists one after the other is building their concatenation. */
  lemma {:induction false} RenderAllAppend(a: seq<Field>, b: seq<Field>)
    ensures RenderAll(a + b) == Combine(RenderAll(a), RenderAll(b))
  {
    if a == [] {
      assert a + b == b;
      match RenderAll(b)
      case Err(e) =>
      case Ok(y) => assert "" + y == y;
    } else {
      var ab := a + b;
      assert ab[0] == a[0];
      assert ab[1..] == a[1..] + b;
      RenderAllAppend(a[1..], b);
      match Render(a[0])
      case Err(e) =>
      case Ok(d) =>
        match RenderAll(a[1..])
        case Err(e) =>
        case Ok(x) =>
          match RenderAll(b)
          case Err(e) =>
          case Ok(y) =>
            assert d + (x + y) == (d + x) + y;
    }
  }

  lemma RenderAllSnoc(a: seq<Field>, f: Field)
    ensures RenderAll(a + [f]) == Combine(RenderAll(a), Render(f))
  {
    RenderAllAppend(a, [f]);
    assert [f][1..] == [];
    match Render(f)
    case Err(e) =>
    case Ok(d) =>
      assert d + "" == d;
  }

  lemma RenderAllErrPrefix(a: seq<Field>, b: seq<Field>)
    requires RenderAll(a).Err?
    ensures RenderAll(a + b) == RenderAll(a)
  {
    RenderAllAppend(a, b);
  }

  /** One more field that renders extends the text of the fields before it. */
  lemma RenderAllStep(a: seq<Field>, f: Field, data: string, d: string)
    requires RenderAll(a) == Ok(data) && Render(f) == Ok(d)
    ensures RenderAll(a + [f]) == Ok(data + d)
  {
    RenderAllSnoc(a, f);
  }

  /** A field that fails after fields that render makes the whole list fail with its error. */
  lemma RenderAllStopsAt(fields: seq<Field>, i: nat)
    requires i < |fields| && RenderAll(fields[..i]).Ok? && Render(fields[i]).Err?
    ensures RenderAll(fields) == Err(Render(fields[i]).error)
  {
    var a, b := fields[..i], fields[i..];
    assert a + b == fields;
    assert b[0] == fields[i];
    assert RenderAll(b) == Err(Render(fields[i]).error);
    RenderAllAppend(a, b);
  }

  /** The builder's error is the error of the first field that fails, and no text. */
  lemma {:induction false} RenderAllFirstError(fields: seq<Field>, i: nat)
    requires i < |fields| && Render(fields[i]).Err?
    requires forall j :: 0 <= j < i ==> Render(fields[j]).Ok?
    ensures RenderAll(fields) == Err(Render(fields[i]).error)
  {
    if i > 0 {
      assert forall j :: 0 <= j < i - 1 ==> fields[1..][j] == fields[j + 1];
      RenderAllFirstError(fields[1..], i - 1);
    }
  }

  /** The builder: the fields it was given, by reference, in insertion order. */
  class FieldListBuilder {
    var fields: seq<Field>

    constructor ()
      ensures fields == [] && RenderAll(fields) == Ok("")
    {
      fields := [];
    }

    method AddFieldObject(fieldObject: Field)
      modifies this
      ensures fields == old(fields) + [fieldObject]
    {
      fields := fields + [fieldObject];
    }

    method ToString() returns (r: Result<string, EMVOError>)
      ensures r == RenderAll(fields)
    {
      var data := "";
      var i := 0;
      while i < |fields|
        invariant 0 <= i <= |fields|
        invariant RenderAll(fields[..i]) == Ok(data)
      {
        var result := Render(fields[i]);
        match result {
          case Ok(d) =>
            assert fields[..i + 1] == fields[..i] + [fields[i]];
            RenderAllStep(fields[..i], fields[i], data, d);
            if |d| > 0 {
              data := data + d;
            }
          case Err(er) =>
            RenderAllStopsAt(fields, i);
            return Err(er);
        }
        i := i + 1;
      }
      assert fields[..i] == fields;
      return Ok(data);
    }
  }

  // ---------------------------------------------------------------------------
  // Reading the text back
  // ---------------------------------------------------------------------------

  /** One TLV element as a scanner reads it: two tag characters, two length digits, that many characters. */
  function DecodeOne(s: string): (r: Option<(TagID, string, string)>)
    ensures r.Some? ==> |r.value.0| == 2 && s == r.value.0 + Pad2(|r.value.1|) + r.value.1 + r.value.2
  {
    if |s| < 4 || !NumericValid(s[2..4]) then
      None
    else
      var n := DecimalValue(s[2..4]);
      if |s| < 4 + n then
        None
      else
        Pad2OfDigits(s[2..4]);
        assert s == s[..2] + s[2..4] + s[4..4 + n] + s[4 + n..];
        Some((s[..2], s[4..4 + n], s[4 + n..]))
  }

  /** A whole segment read back as (tag, value) pairs. */
  function DecodeAll(s: string): Option<seq<(TagID, string)>>
    decreases |s|
  {
    if s == [] then
      Some([])
    else
      match DecodeOne(s)
      case None => None
      case Some((t, v, rest)) =>
        match DecodeAll(rest)
        case None => None
        case Some(es) => Some([(t, v)] + es)
  }

  /** A field whose length digits count characters (true of numeric and ASCII values) and fit two digits. */
  predicate Decodable(f: Field) {
    |f.tagId| == 2 && f.length <= 99 && (IsNumericField(f) || f.data.Len() == |f.data.Value()|)
  }

  function Wire(f: Field): (TagID, string) {
    (f.tagId, WireValue(f))
  }

  function Wires(fields: seq<Field>): (ws: seq<(TagID, string)>)
    ensures |ws| == |fields|
    ensures forall i :: 0 <= i < |fields| ==> ws[i] == Wire(fields[i])
  {
    if fields == [] then [] else [Wire(fields[0])] + Wires(fields[1..])
  }

  lemma WiresSnoc(fields: seq<Field>, f: Field)
    ensures Wires(fields + [f]) == Wires(fields) + [Wire(f)]
  {
    var a, b := Wires(fields + [f]), Wires(fields) + [Wire(f)];
    forall i | 0 <= i < |a|
      ensures a[i] == b[i]
    {
      if i < |fields| {
        assert (fields + [f])[i] == fields[i];
      }
    }
  }

  /** A scanner reads a rendered field back as its tag and its value on the wire, and stops there. */
  lemma RenderDecodes(f: Field, rest: string)
    requires Render(f).Ok? && Decodable(f)
    ensures DecodeOne(Render(f).value + rest) == Some((f.tagId, WireValue(f), rest))
  {
    var v := f.data.Value();
    var s := Render(f).value + rest;
    var n := if IsNumericField(f) then f.length else f.data.Len();
    assert |WireValue(f)| == n;
    assert Render(f).value == f.tagId + Pad2(n) + WireValue(f);
    assert s[2..4] == Pad2(n);
    assert s[..2] == f.tagId;
    assert s[4..4 + n] == WireValue(f);
    assert s[4 + n..] == rest;
  }

  /** A rendered segment reads back as the fields' tags and values, in insertion order. */
  lemma {:induction false} RenderAllDecodes(fields: seq<Field>)
    requires RenderAll(fields).Ok?
    requires forall i :: 0 <= i < |fields| ==> Decodable(fields[i])
    ensures DecodeAll(RenderAll(fields).value) == Some(Wires(fields))
  {
    if fields != [] {
      var d := Render(fields[0]).value;
      var rest := RenderAll(fields[1..]).value;
      assert forall i :: 0 <= i < |fields| - 1 ==> fields[1..][i] == fields[i + 1];
      RenderAllDecodes(fields[1..]);
      RenderDecodes(fields[0], rest);
      assert d + rest != [] by {
        assert |d| >= 4;
      }
    }
  }

  // ---------------------------------------------------------------------------
  // The rendering as written, against the intended one
  // ---------------------------------------------------------------------------

  /** On numeric fields the two renderings agree. */
  lemma AsWrittenAgreesOnNumeric(f: Field)
    requires IsNumericField(f)
    ensures RenderAsWritten(f) == Render(f)
  {
  }

  /** As written, every field carries its declared width as length digits. */
  lemma AsWrittenHeaderIsDeclaredWidth(f: Field)
    requires RenderAsWritten(f).Ok? && f.length <= 99
    ensures var r, t := RenderAsWritten(f).value, |f.tagId|;
      |r| == t + 2 + f.length && DecimalValue(r[t..t + 2]) == f.length
  {
    var r, t := RenderAsWritten(f).value, |f.tagId|;
    assert r[t..t + 2] == Pad2(f.length);
  }

  /** Whenever a non-numeric value is shorter than its declared length the two renderings differ. */
  lemma AsWrittenDiffersOnShortText(f: Field)
    requires !IsNumericField(f) && Render(f).Ok? && f.length <= 99
    requires |f.data.Value()| < f.length
    ensures RenderAsWritten(f) != Render(f)
  {
    RenderVariable(f);
    AsWrittenHeaderIsDeclaredWidth(f);
  }

  /** The merchant name "test" in its 25-character field: padded as written, "5904test" as intended. */
  lemma AsWrittenMerchantNameExample()
    ensures Render(Field("59", EMVAlphanumericSpecial("test"), 25)) == Ok("5904test")
    ensures RenderAsWritten(Field("59", EMVAlphanumericSpecial("test"), 25))
            == Ok("5925" + Zeros(21) + "test")
  {
    assert "59" + "04" + "test" == "5904test";
    assert "59" + "25" + (Zeros(21) + "test") == "5925" + Zeros(21) + "test";
    var f := Field("59", EMVAlphanumericSpecial("test"), 25);
    TestText();
    assert !IsNumericField(f) by {
      assert |TypeNameAlphaNumeric| != |TypeNameNumeric|;
    }
    Pad2Digits(4);
    Pad2Digits(25);
    assert DigitChar(0) == '0' && DigitChar(4) == '4' && DigitChar(2) == '2' && DigitChar(5) == '5';
    assert LeftPadZeros("test", 25) == Zeros(21) + "test";
  }

  /** "test" is valid alphanumeric-special text of four bytes. */
  lemma TestText()
    ensures AlphanumericSpecialValid("test") && Utf8.ByteLength("test") == 4
  {
    assert "test"[1..] == "est" && "est"[1..] == "st" && "st"[1..] == "t" && "t"[1..] == [];
  }
}
