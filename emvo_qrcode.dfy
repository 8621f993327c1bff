/**
  The merchant-presented payload: the `EMVQR` object whose setters fill the
  payload's slots, and `generate_pay_load`, which renders the set slots in a
  fixed order, appends the checksum data object "63" and returns the text.
 */
module EmvoQrcode {
  import opened Wrappers
  import opened EmvoTypes
  import opened TlvField
  import Utf8
  import Crc16
  import PromptPay

  const IdPayloadFormatIndicator: TagID := "00"
  const IdPointOfInitiationMethod: TagID := "01"
  const IdMerchantAccountInformationRangeStart: TagID := "02"
  const IdMerchantAccountInformationRangeEnd: TagID := "51"
  const IdMerchantCategoryCode: TagID := "52"
  const IdTransactionCurrency: TagID := "53"
  const IdTransactionAmount: TagID := "54"
  const IdTipOrConvenienceIndicator: TagID := "55"
  const IdValueOfConvenienceFeeFixed: TagID := "56"
  const IdValueOfConvenienceFeePercentage: TagID := "57"
  const IdCountryCode: TagID := "58"
  const IdMerchantName: TagID := "59"
  const IdMerchantCity: TagID := "60"
  const IdPostalCode: TagID := "61"
  const IdAdditionalDataFieldTemplate: TagID := "62"
  const IdCrc: TagID := "63"
  const IdMerchantInformationLanguageTemplate: TagID := "64"
  const IdRfuForEmvcoRangeStart: TagID := "65"
  const IdRfuForEmvcoRangeEnd: TagID := "79"
  const IdUnreservedTemplatesRangeStart: TagID := "80"
  const IdUnreservedTemplatesRangeEnd: TagID := "99"

  const StaticPoint: nat := 0
  const DynamicPoint: nat := 1

  /** `Box<dyn EMVOData>` as the merchant account information holds it: a scalar or a PromptPay template. */
  datatype EMVOData = Scalar(s: ScalarData) | PromptPayCreditTransfer(t: PromptPay.CreditTransferTemplate)
  {
    /** `value` returns rather than panics. */
    predicate Defined() {
      Scalar? || t.Renders()
    }

    function Value(): string
      requires Defined()
    {
      if Scalar? then s.Value() else t.Value()
    }

    function TypeName(): (name: string)
      ensures name == TypeNameNumeric || name == TypeNameAlphaNumeric || name == TypeNameStr
      ensures PromptPayCreditTransfer? ==> name == TypeNameAlphaNumeric
    {
      if Scalar? then s.TypeName() else t.TypeName()
    }
  }

  // ---------------------------------------------------------------------------
  // Merchant account information entries
  // ---------------------------------------------------------------------------

  /**
    What `generate_pay_load` needs of the map and of the order its iteration
    follows: the order lists every key once, and every value converts to an
    alphanumeric-special value.
   */
  predicate MaiReady(m: map<TagID, EMVOData>, order: seq<TagID>) {
    && (forall i :: 0 <= i < |order| ==> order[i] in m)
    && (forall k :: k in m ==> k in order)
    && (forall i, j :: 0 <= i < j < |order| ==> order[i] != order[j])
    && (forall k :: k in m ==> Convertible(m, k))
  }

  /** The entry under `k` exists and converts to an alphanumeric-special value. */
  predicate Convertible(m: map<TagID, EMVOData>, k: TagID) {
    k in m && m[k].Defined() && AlphanumericSpecialValid(m[k].Value())
  }

  /** Every key of the order names a convertible entry. */
  predicate AllConvertible(m: map<TagID, EMVOData>, order: seq<TagID>) {
    forall i :: 0 <= i < |order| ==> Convertible(m, order[i])
  }

  /** One entry as a field: the value wrapped as alphanumeric-special, width 99. */
  function MaiField(k: TagID, v: EMVOData): Field
    requires v.Defined() && AlphanumericSpecialValid(v.Value())
  {
    Field(k, EMVAlphanumericSpecial(v.Value()), 99)
  }

  /** The entry's field sits under the entry's own tag, is 99 wide and holds the entry's text as valid alphanumeric data. */
  lemma MaiFieldShape(k: TagID, v: EMVOData)
    requires v.Defined() && AlphanumericSpecialValid(v.Value())
    ensures var f := MaiField(k, v);
      && f.tagId == k && f.length == 99 && f.data.Valid() && f.data.Value() == v.Value()
      && !IsNumericField(f)
  {
  }

  /** The entries' fields in the given order of the keys: field i is key i's entry, converted. */
  function MaiFields(m: map<TagID, EMVOData>, order: seq<TagID>): (fs: seq<Field>)
    requires AllConvertible(m, order)
    ensures |fs| == |order|
    ensures forall i :: 0 <= i < |order| ==> fs[i] == Field(order[i], EMVAlphanumericSpecial(m[order[i]].Value()), 99)
    decreases |order|
  {
    if order == [] then []
    else
      var n := |order| - 1;
      MaiFields(m, order[..n]) + [MaiField(order[n], m[order[n]])]
  }

  /** One more key of the order adds its entry's field at the end. */
  lemma MaiFieldsStep(m: map<TagID, EMVOData>, order: seq<TagID>, i: nat)
    requires AllConvertible(m, order) && i < |order|
    ensures AllConvertible(m, order[..i]) && AllConvertible(m, order[..i + 1]) && Convertible(m, order[i])
    ensures MaiFields(m, order[..i + 1]) == MaiFields(m, order[..i]) + [MaiField(order[i], m[order[i]])]
  {
    var p := order[..i + 1];
    assert p[..|p| - 1] == order[..i];
    assert forall j :: 0 <= j < |p| ==> p[j] == order[j];
    assert forall j :: 0 <= j < i ==> order[..i][j] == order[j];
  }

  /** A map with one convertible entry, enumerated by its one key, becomes one field. */
  lemma SingleEntry(k: TagID, v: EMVOData)
    requires v.Defined() && AlphanumericSpecialValid(v.Value())
    ensures MaiReady(map[k := v], [k])
    ensures MaiFields(map[k := v], [k]) == [MaiField(k, v)]
  {
    assert [k][..0] == [];
  }

  // ---------------------------------------------------------------------------
  // The payload text and the scanner's check of it
  // ---------------------------------------------------------------------------

  /** The checksum's four upper-case hexadecimal digits for a body: taken over the body, "63" and "04". */
  function CrcHex(body: string): (h: string)
    ensures |h| == 4
  {
    Crc16.HexUpper4(Crc16.Checksum(Utf8.Encode(body + IdCrc + "04")))
  }

  /** The checksum data object "63" for a body. */
  function CrcField(body: string): Field {
    Field(IdCrc, EMVAlphanumericSpecial(CrcHex(body)), 4)
  }

  /** The body, the checksum's tag and length, and the checksum of everything before it. */
  function PayloadText(body: string): (s: string)
    ensures |s| == |body| + 8
  {
    body + IdCrc + "04" + CrcHex(body)
  }

  /**
    The scanner's check: the text ends with the data object "63" of length 4 whose
    value is the checksum of the text in front of the value.
   */
  predicate ChecksumValid(s: string) {
    && |s| >= 8
    && s[|s| - 8..|s| - 4] == IdCrc + "04"
    && (forall i :: |s| - 4 <= i < |s| ==> Crc16.IsUpperHexDigit(s[i]))
    && Crc16.ParseHex4(s[|s| - 4..]) == Crc16.Checksum(Utf8.Encode(s[..|s| - 4])) as int
  }

  /** The checksum digits are upper-case hexadecimal, ASCII, and read back as the checksum. */
  lemma CrcHexShape(body: string)
    ensures forall i :: 0 <= i < 4 ==> Crc16.IsUpperHexDigit(CrcHex(body)[i])
    ensures AlphanumericSpecialValid(CrcHex(body)) && Utf8.AllAscii(CrcHex(body))
    ensures Crc16.ParseHex4(CrcHex(body)) == Crc16.Checksum(Utf8.Encode(body + IdCrc + "04")) as int
  {
    Crc16.HexUpper4RoundTrip(Crc16.Checksum(Utf8.Encode(body + IdCrc + "04")));
  }

  /** The checksum field renders as "6304" and the four digits, and a scanner can decode it. */
  lemma CrcFieldRenders(body: string)
    ensures Render(CrcField(body)) == Ok(IdCrc + "04" + CrcHex(body))
    ensures Decodable(CrcField(body))
  {
    var f := CrcField(body);
    CrcHexShape(body);
    assert f.data.Len() == 4;
    assert !IsNumericField(f);
    Pad2Digits(4);
    assert DigitChar(0) == '0' && DigitChar(4) == '4';
  }

  /** Rendering a body's fields followed by its checksum field gives the payload. */
  lemma PayloadRenders(fields: seq<Field>, body: string)
    requires RenderAll(fields) == Ok(body)
    ensures RenderAll(fields + [CrcField(body)]) == Ok(PayloadText(body))
  {
    CrcFieldRenders(body);
    RenderAllStep(fields, CrcField(body), body, IdCrc + "04" + CrcHex(body));
    Regroup(body, IdCrc, "04", CrcHex(body));
  }

  lemma Regroup(a: string, b: string, c: string, d: string)
    ensures a + (b + c + d) == a + b + c + d
  {
  }

  /**
    A scanner splits a payload into the body's tags and values, in order, followed
    by the checksum data object, when every body field is decodable.
   */
  lemma PayloadDecodes(fields: seq<Field>, body: string)
    requires RenderAll(fields) == Ok(body)
    requires forall i :: 0 <= i < |fields| ==> Decodable(fields[i])
    ensures DecodeAll(PayloadText(body)) == Some(Wires(fields) + [(IdCrc, CrcHex(body))])
  {
    var c := CrcField(body);
    var all := fields + [c];
    CrcFieldRenders(body);
    assert Wire(c) == (IdCrc, CrcHex(body));
    forall i | 0 <= i < |all|
      ensures Decodable(all[i])
    {
      if i < |fields| {
        assert all[i] == fields[i];
      }
    }
    PayloadRenders(fields, body);
    RenderAllDecodes(all);
    WiresSnoc(fields, c);
  }

  /** Every payload passes the scanner's check. */
  lemma PayloadPassesChecksum(body: string)
    ensures ChecksumValid(PayloadText(body))
  {
    CrcHexShape(body);
    ChecksumValidOf(body + IdCrc + "04", CrcHex(body));
  }

  /** A text ending in "6304" followed by four digits that read back as the checksum of the text before them passes. */
  lemma ChecksumValidOf(p: string, h: string)
    requires |p| >= 4 && p[|p| - 4..] == IdCrc + "04"
    requires |h| == 4 && forall i :: 0 <= i < 4 ==> Crc16.IsUpperHexDigit(h[i])
    requires Crc16.ParseHex4(h) == Crc16.Checksum(Utf8.Encode(p)) as int
    ensures ChecksumValid(p + h)
  {
    var s := p + h;
    var n := |s|;
    assert s[..n - 4] == p;
    assert s[n - 8..n - 4] == p[|p| - 4..];
    assert s[n - 4..] == h;
  }

  /** Replacing one ASCII character replaces exactly one byte of the encoding. */
  lemma EncodeSplice(a: string, c: char, b: string)
    requires Utf8.IsAscii(c)
    ensures |Utf8.EncodeChar(c)| == 1
    ensures Utf8.Encode(a + [c] + b) == Utf8.Encode(a) + [Utf8.EncodeChar(c)[0]] + Utf8.Encode(b)
  {
    Utf8.EncodeAppend(a + [c], b);
    Utf8.EncodeAppend(a, [c]);
    Utf8.EncodeOne(c);
  }

  /** Two byte strings that differ in one byte have different checksums. */
  lemma ChecksumDetectsSplice(a: seq<bv8>, x1: bv8, x2: bv8, b: seq<bv8>)
    requires x1 != x2
    ensures Crc16.Checksum(a + [x1] + b) != Crc16.Checksum(a + [x2] + b)
  {
    var m1, m2 := a + [x1] + b, a + [x2] + b;
    forall i | 0 <= i < |m1| && i != |a|
      ensures m1[i] == m2[i]
    {
      if i < |a| {
        assert m1[i] == a[i] == m2[i];
      } else {
        assert m1[i] == b[i - |a| - 1] == m2[i];
      }
    }
    Crc16.SingleByteChangeDetected(m1, m2, |a|);
  }

  /** Two texts of one length that differ only at `k` share everything around `k`. */
  lemma OneCharApart(p: string, s: string, k: nat, n: nat)
    requires |p| == |s| == n && k < n
    requires forall i :: 0 <= i < n && i != k ==> s[i] == p[i]
    ensures forall m :: k < m <= n ==> p[..m] == p[..k] + [p[k]] + p[k + 1..m] && s[..m] == p[..k] + [s[k]] + p[k + 1..m]
    ensures forall m :: k < m <= n ==> s[m..] == p[m..]
  {
    forall m | k < m <= n
      ensures p[..m] == p[..k] + [p[k]] + p[k + 1..m] && s[..m] == p[..k] + [s[k]] + p[k + 1..m]
    {
      assert s[..k] == p[..k];
      assert s[k + 1..m] == p[k + 1..m];
    }
  }

  /** Texts that differ in one ASCII character have different checksums. */
  lemma SpliceChecksums(a: string, c1: char, c2: char, b: string)
    requires Utf8.IsAscii(c1) && Utf8.IsAscii(c2) && c1 != c2
    ensures Crc16.Checksum(Utf8.Encode(a + [c1] + b)) != Crc16.Checksum(Utf8.Encode(a + [c2] + b))
  {
    EncodeSplice(a, c1, b);
    EncodeSplice(a, c2, b);
    var x1, x2 := Utf8.EncodeChar(c1)[0], Utf8.EncodeChar(c2)[0];
    assert x1 as int == c1 as int && x2 as int == c2 as int;
    ChecksumDetectsSplice(Utf8.Encode(a), x1, x2, Utf8.Encode(b));
  }

  lemma ValuesDistinct(x: bv16, y: bv16)
    requires x != y
    ensures x as int != y as int
  {
    Crc16.ValueConvertsBack(x);
    Crc16.ValueConvertsBack(y);
  }

  /**
    Changing one ASCII character of a text that passes the scanner's check, anywhere
    in front of the checksum digits, into another ASCII character makes the check fail.
   */
  lemma TamperedTextFails(p: string, s: string, k: nat)
    requires ChecksumValid(p)
    requires |s| == |p| && k < |s| - 4
    requires s[k] != p[k] && Utf8.IsAscii(s[k]) && Utf8.IsAscii(p[k])
    requires forall i :: 0 <= i < |s| && i != k ==> s[i] == p[i]
    ensures !ChecksumValid(s)
  {
    var n := |p|;
    OneCharApart(p, s, k, n);
    var a, b := p[..k], p[k + 1..n - 4];
    var u, v := p[..n - 4], s[..n - 4];
    assert u == a + [p[k]] + b;
    assert v == a + [s[k]] + b;
    SpliceChecksums(a, p[k], s[k], b);
    var cu, cv := Crc16.Checksum(Utf8.Encode(u)), Crc16.Checksum(Utf8.Encode(v));
    ValuesDistinct(cu, cv);
    assert s[n - 4..] == p[n - 4..];
  }

  /** A payload with one ASCII character in front of the checksum changed fails the scanner's check. */
  lemma TamperedPayloadFails(body: string, s: string, k: nat)
    requires |s| == |PayloadText(body)| && k < |s| - 4
    requires s[k] != PayloadText(body)[k] && Utf8.IsAscii(s[k]) && Utf8.IsAscii(PayloadText(body)[k])
    requires forall i :: 0 <= i < |s| && i != k ==> s[i] == PayloadText(body)[i]
    ensures !ChecksumValid(s)
  {
    PayloadPassesChecksum(body);
    TamperedTextFails(PayloadText(body), s, k);
  }

  // ---------------------------------------------------------------------------
  // The payload object
  // ---------------------------------------------------------------------------

  function Present(slot: Option<Field>): seq<Field> {
    if slot.Some? then [slot.value] else []
  }

  /** The fields of the set slots, in the slots' order. */
  function SetFields(slots: seq<Option<Field>>): (fs: seq<Field>)
    ensures |fs| <= |slots|
    decreases |slots|
  {
    if slots == [] then [] else SetFields(slots[..|slots| - 1]) + Present(slots[|slots| - 1])
  }

  /** A slot that is empty or holds what its setter puts there: its tag, width and kind, and a valid value. */
  predicate SlotHolds(slot: Option<Field>, tag: TagID, width: nat, numeric: bool) {
    slot.Some? ==>
      && slot.value.tagId == tag && slot.value.length == width
      && (if numeric then slot.value.data.EMVNumeric? else slot.value.data.EMVAlphanumericSpecial?)
      && slot.value.data.Valid()
  }

  /** `set_point_types`' value: "11" for a static code and "12" for any other point type. */
  function GetPointTypes(pointType: nat): (d: ScalarData)
    ensures d.EMVNumeric? && d.Valid() && |d.Value()| == 2
    ensures d.Value() == "11" <==> pointType == StaticPoint
    ensures d.Value() == "12" <==> pointType != StaticPoint
  {
    if pointType == StaticPoint then EMVNumeric("11") else EMVNumeric("12")
  }

  /** One `if let Some(..) = &self.slot { builder.add_field_object(..) }` step. */
  method AddIfPresent(builder: FieldListBuilder, slot: Option<Field>)
    modifies builder
    ensures builder.fields == old(builder.fields) + Present(slot)
  {
    if slot.Some? {
      builder.AddFieldObject(slot.value);
    }
  }

  lemma SetFieldsStep(slots: seq<Option<Field>>, k: nat)
    requires k < |slots|
    ensures SetFields(slots[..k + 1]) == SetFields(slots[..k]) + Present(slots[k])
  {
    assert slots[..k + 1][..k] == slots[..k];
  }

  /** Every field of the set slots comes from a slot, and every set slot's field is among them. */
  lemma {:induction false} SetFieldsMembers(slots: seq<Option<Field>>)
    ensures forall f :: f in SetFields(slots) ==> Some(f) in slots
    ensures forall k :: 0 <= k < |slots| && slots[k].Some? ==> slots[k].value in SetFields(slots)
  {
    if slots != [] {
      var n := |slots|;
      var init := slots[..n - 1];
      SetFieldsMembers(init);
      assert SetFields(slots) == SetFields(init) + Present(slots[n - 1]);
      forall f | f in SetFields(slots)
        ensures Some(f) in slots
      {
        if f in SetFields(init) {
          var k :| 0 <= k < |init| && init[k] == Some(f);
          assert slots[k] == Some(f);
        } else {
          assert slots[n - 1] == Some(f);
        }
      }
      forall k | 0 <= k < n && slots[k].Some?
        ensures slots[k].value in SetFields(slots)
      {
        if k < n - 1 {
          assert init[k] == slots[k];
        }
      }
    }
  }

  /** Fields whose tags are two-digit tags in strictly ascending order. */
  predicate TagsAscending(fs: seq<Field>) {
    && (forall i :: 0 <= i < |fs| ==> IsTwoDigitTag(fs[i].tagId))
    && (forall i :: 0 < i < |fs| ==> TagNumber(fs[i - 1].tagId) < TagNumber(fs[i].tagId))
  }

  /** Slots whose tags count up from `base` give their fields in ascending tag order. */
  lemma {:induction false} SetFieldsAscending(slots: seq<Option<Field>>, base: nat)
    requires forall k :: 0 <= k < |slots| && slots[k].Some? ==>
               IsTwoDigitTag(slots[k].value.tagId) && TagNumber(slots[k].value.tagId) == base + k
    ensures TagsAscending(SetFields(slots))
    ensures forall i :: 0 <= i < |SetFields(slots)| ==>
              base <= TagNumber(SetFields(slots)[i].tagId) < base + |slots|
  {
    if slots != [] {
      var n := |slots|;
      var init := slots[..n - 1];
      assert forall k :: 0 <= k < |init| ==> init[k] == slots[k];
      SetFieldsAscending(init, base);
      var fs0 := SetFields(init);
      assert SetFields(slots) == fs0 + Present(slots[n - 1]);
      if slots[n - 1].Some? {
        var x := slots[n - 1].value;
        var fs := fs0 + [x];
        assert TagNumber(x.tagId) == base + n - 1;
        forall i | 0 <= i < |fs|
          ensures IsTwoDigitTag(fs[i].tagId) && base <= TagNumber(fs[i].tagId) < base + n
        {
          if i < |fs0| {
            assert fs[i] == fs0[i];
          }
        }
        forall i | 0 < i < |fs|
          ensures TagNumber(fs[i - 1].tagId) < TagNumber(fs[i].tagId)
        {
          assert fs[i - 1] == fs0[i - 1];
          if i < |fs0| {
            assert fs[i] == fs0[i];
          }
        }
      } else {
        assert SetFields(slots) == fs0;
      }
    }
  }

  /** Fields that all hold valid data. */
  predicate AllDataValid(fs: seq<Field>) {
    forall i :: 0 <= i < |fs| ==> fs[i].data.Valid()
  }

  lemma AllDataValidAppend(a: seq<Field>, b: seq<Field>)
    requires AllDataValid(a) && AllDataValid(b)
    ensures AllDataValid(a + b)
  {
    forall i | 0 <= i < |a + b|
      ensures (a + b)[i].data.Valid()
    {
      if i >= |a| {
        assert (a + b)[i] == b[i - |a|];
      }
    }
  }

  /** Slots whose set fields hold valid data give fields with valid data. */
  lemma SetFieldsDataValid(slots: seq<Option<Field>>)
    requires forall k :: 0 <= k < |slots| && slots[k].Some? ==> slots[k].value.data.Valid()
    ensures AllDataValid(SetFields(slots))
  {
    SetFieldsMembers(slots);
    var fs := SetFields(slots);
    forall i | 0 <= i < |fs|
      ensures fs[i].data.Valid()
    {
      assert Some(fs[i]) in slots;
      var k :| 0 <= k < |slots| && slots[k] == Some(fs[i]);
    }
  }

  /** The entries' fields hold valid alphanumeric data. */
  lemma MaiFieldsDataValid(m: map<TagID, EMVOData>, order: seq<TagID>)
    requires AllConvertible(m, order)
    ensures AllDataValid(MaiFields(m, order))
  {
    var fs := MaiFields(m, order);
    forall i | 0 <= i < |fs|
      ensures fs[i].data.Valid()
    {
      assert Convertible(m, order[i]);
    }
  }

  /** A list of fields with valid data can fail to render only by an empty or an overlong value. */
  lemma ValidDataRenderErrors(fs: seq<Field>)
    requires AllDataValid(fs) && RenderAll(fs).Err?
    ensures RenderAll(fs).error.DataIsEmpty? || RenderAll(fs).error.DataLengthInvalid?
  {
    RenderAllErrFromField(fs);
  }

  /** A run of `if let Some(..) = &self.slot { builder.add_field_object(..) }` steps. */
  method AddSetFields(builder: FieldListBuilder, slots: seq<Option<Field>>)
    modifies builder
    ensures builder.fields == old(builder.fields) + SetFields(slots)
  {
    var i := 0;
    while i < |slots|
      invariant 0 <= i <= |slots|
      invariant builder.fields == old(builder.fields) + SetFields(slots[..i])
    {
      assert slots[..i + 1][..i] == slots[..i];
      AddIfPresent(builder, slots[i]);
      i := i + 1;
    }
    assert slots[..i] == slots;
  }

  method AddAll(builder: FieldListBuilder, fs: seq<Field>)
    modifies builder
    ensures builder.fields == old(builder.fields) + fs
  {
    var j := 0;
    while j < |fs|
      invariant 0 <= j <= |fs|
      invariant builder.fields == old(builder.fields) + fs[..j]
    {
      builder.AddFieldObject(fs[j]);
      assert fs[..j + 1] == fs[..j] + [fs[j]];
      j := j + 1;
    }
    assert fs[..j] == fs;
  }

  /** The loop over the map that converts every value to an alphanumeric-special field of width 99. */
  method CollectMerchantAccountInformation(m: map<TagID, EMVOData>, order: seq<TagID>) returns (merchantList: seq<Field>)
    requires MaiReady(m, order)
    ensures merchantList == MaiFields(m, order)
  {
    merchantList := [];
    var i := 0;
    while i < |order|
      invariant 0 <= i <= |order|
      invariant merchantList == MaiFields(m, order[..i])
    {
      var k := order[i];
      assert Convertible(m, k);
      var data := AlphanumericSpecialTryFrom(m[k].Value());
      MaiFieldsStep(m, order, i);
      merchantList := merchantList + [Field(k, data.value, 99)];
      i := i + 1;
    }
    assert order[..i] == order;
  }

  /** `is_between(tag, "02", "51")` on a tag that parses. */
  function InMerchantAccountInformationRange(tagId: TagID): (r: bool)
    requires ParseUsize(tagId).Some?
    ensures r <==> 2 <= ParseUsize(tagId).value <= 51
  {
    TwoDigitValue(IdMerchantAccountInformationRangeStart);
    TwoDigitValue(IdMerchantAccountInformationRangeEnd);
    IsBetween(tagId, IdMerchantAccountInformationRangeStart, IdMerchantAccountInformationRangeEnd)
  }

  /** `is_between(tag, "65", "79")` on a tag that parses. */
  function InRfuRange(tagId: TagID): (r: bool)
    requires ParseUsize(tagId).Some?
    ensures r <==> 65 <= ParseUsize(tagId).value <= 79
  {
    TwoDigitValue(IdRfuForEmvcoRangeStart);
    TwoDigitValue(IdRfuForEmvcoRangeEnd);
    IsBetween(tagId, IdRfuForEmvcoRangeStart, IdRfuForEmvcoRangeEnd)
  }

  /**
    The range test parses its tags as numbers, so tags with no leading zero or
    with a sign pass it too; on two-digit tags it is the order of the tag text.
   */
  lemma MerchantAccountInformationTags(t: TagID)
    ensures ParseUsize("5").Some? && InMerchantAccountInformationRange("5")
    ensures ParseUsize("+29").Some? && InMerchantAccountInformationRange("+29")
    ensures ParseUsize("029").Some? && InMerchantAccountInformationRange("029")
    ensures IsTwoDigitTag(t) ==> ParseUsize(t).Some?
    ensures IsTwoDigitTag(t) ==> (InMerchantAccountInformationRange(t) <==> TagLe("02", t) && TagLe(t, "51"))
  {
    assert "5"[..0] == [] && "5"[..1] == "5";
    TwoDigitValue("29");
    assert "+29"[1..] == "29";
    assert "029"[..2] == "02" && "02"[..1] == "0" && "0"[..0] == [];
    if IsTwoDigitTag(t) {
      IsBetweenIsTagOrder(t, IdMerchantAccountInformationRangeStart, IdMerchantAccountInformationRangeEnd);
    }
  }

  /**
    The checksum data object of `generate_pay_load`: the CRC of the body's bytes
    followed by "6304", as four upper-case hexadecimal digits.
   */
  method CrcObject(body: string) returns (f: Field)
    ensures f == CrcField(body)
  {
    var crcValue := body + IdCrc + "04";
    var checksum := Crc16.Compute(Utf8.Encode(crcValue));
    var hex := Crc16.HexUpper4(checksum);
    CrcHexShape(body);
    var crcData := AlphanumericSpecialTryFrom(hex);
    f := Field(IdCrc, crcData.value, 4);
  }

  /** `EMVQR`: optional slots, the merchant account information map and the RFU list. */
  class EMVQR {
    var payloadFormatIndicator: Option<Field>
    var pointOfInitiationMethod: Option<Field>
    var merchantAccountInformation: Option<map<TagID, EMVOData>>
    var merchantCategoryCode: Option<Field>
    var transactionCurrency: Option<Field>
    var transactionAmount: Option<Field>
    var tipOrConvenienceIndicator: Option<Field>
    var valueOfConvenienceFeeFixed: Option<Field>
    var valueOfConvenienceFeePercentage: Option<Field>
    var countryCode: Option<Field>
    var merchantName: Option<Field>
    var merchantCity: Option<Field>
    var postalCode: Option<Field>
    var crc: Option<Field>
    var rfuForEmvcos: Option<seq<Field>>

    /** Every slot holds what its own setter puts there. */
    predicate Valid()
      reads this
    {
      && SlotHolds(payloadFormatIndicator, IdPayloadFormatIndicator, 2, true)
      && SlotHolds(pointOfInitiationMethod, IdPointOfInitiationMethod, 2, true)
      && (merchantAccountInformation.Some? ==> forall k :: k in merchantAccountInformation.value ==>
            ParseUsize(k).Some? && 2 <= ParseUsize(k).value <= 51)
      && SlotHolds(merchantCategoryCode, IdMerchantCategoryCode, 4, true)
      && SlotHolds(transactionCurrency, IdTransactionCurrency, 3, true)
      && SlotHolds(transactionAmount, IdTransactionAmount, 14, false)
      && SlotHolds(tipOrConvenienceIndicator, IdTipOrConvenienceIndicator, 2, true)
      && SlotHolds(valueOfConvenienceFeeFixed, IdValueOfConvenienceFeeFixed, 13, false)
      && SlotHolds(valueOfConvenienceFeePercentage, IdValueOfConvenienceFeePercentage, 5, false)
      && SlotHolds(countryCode, IdCountryCode, 2, false)
      && SlotHolds(merchantName, IdMerchantName, 25, false)
      && SlotHolds(merchantCity, IdMerchantCity, 15, false)
      && SlotHolds(postalCode, IdPostalCode, 10, false)
      && (rfuForEmvcos.Some? ==> forall i :: 0 <= i < |rfuForEmvcos.value| ==>
            var f := rfuForEmvcos.value[i];
            ParseUsize(f.tagId).Some? && 65 <= ParseUsize(f.tagId).value <= 79 && f.data.EMVString? && f.length == 99)
    }

    /** `default`: every slot empty. */
    constructor ()
      ensures payloadFormatIndicator.None? && pointOfInitiationMethod.None? && merchantAccountInformation.None?
      ensures merchantCategoryCode.None? && transactionCurrency.None? && transactionAmount.None?
      ensures tipOrConvenienceIndicator.None? && valueOfConvenienceFeeFixed.None? && valueOfConvenienceFeePercentage.None?
      ensures countryCode.None? && merchantName.None? && merchantCity.None? && postalCode.None?
      ensures crc.None? && rfuForEmvcos.None?
      ensures Valid()
    {
      payloadFormatIndicator, pointOfInitiationMethod, merchantAccountInformation := None, None, None;
      merchantCategoryCode, transactionCurrency, transactionAmount := None, None, None;
      tipOrConvenienceIndicator, valueOfConvenienceFeeFixed, valueOfConvenienceFeePercentage := None, None, None;
      countryCode, merchantName, merchantCity, postalCode := None, None, None, None;
      crc, rfuForEmvcos := None, None;
    }

    /**
      Rejects the empty text and "01" and leaves the slot alone; anything else
      must be digits (the numeric conversion panics otherwise).
     */
    method SetPayloadFormatIndicator(data: string) returns (r: Result<(), EMVOError>)
      requires data != "" && data != "01" ==> NumericValid(data)
      modifies this`payloadFormatIndicator
      ensures data == "" ==> r == Err(PayloadFormatEmpty) && payloadFormatIndicator == old(payloadFormatIndicator)
      ensures data == "01" ==> r == Err(PayloadFormatInvalid) && payloadFormatIndicator == old(payloadFormatIndicator)
      ensures data != "" && data != "01" ==>
        r == Ok(()) && payloadFormatIndicator == Some(Field(IdPayloadFormatIndicator, EMVNumeric(data), 2))
      ensures old(Valid()) ==> Valid()
    {
      if data == "" {
        return Err(PayloadFormatEmpty);
      }
      if data == "01" {
        return Err(PayloadFormatInvalid);
      }
      var numeric := NumericTryFrom(data);
      payloadFormatIndicator := Some(Field(IdPayloadFormatIndicator, numeric.value, 2));
      return Ok(());
    }

    method SetPointTypes(pointType: nat) returns (r: Result<(), EMVOError>)
      modifies this`pointOfInitiationMethod
      ensures r == Ok(())
      ensures pointOfInitiationMethod == Some(Field(IdPointOfInitiationMethod, GetPointTypes(pointType), 2))
      ensures old(Valid()) ==> Valid()
    {
      pointOfInitiationMethod := Some(Field(IdPointOfInitiationMethod, GetPointTypes(pointType), 2));
      return Ok(());
    }

    /** Inserts or replaces the entry when the tag is in 02..51 and changes nothing otherwise. */
    method SetMerchantAccountInformation(tagId: TagID, data: EMVOData)
      requires ParseUsize(tagId).Some?
      modifies this`merchantAccountInformation
      ensures InMerchantAccountInformationRange(tagId) ==>
        merchantAccountInformation ==
          Some((if old(merchantAccountInformation).Some? then old(merchantAccountInformation).value else map[])[tagId := data])
      ensures !InMerchantAccountInformationRange(tagId) ==>
        merchantAccountInformation == old(merchantAccountInformation)
      ensures old(Valid()) ==> Valid()
    {
      if InMerchantAccountInformationRange(tagId) {
        if merchantAccountInformation.None? {
          merchantAccountInformation := Some(map[]);
        }
        merchantAccountInformation := Some(merchantAccountInformation.value[tagId := data]);
      }
    }

    method SetMerchantCategoryCode(merchantCategoryCodeValue: string)
      requires NumericValid(merchantCategoryCodeValue)
      modifies this`merchantCategoryCode
      ensures merchantCategoryCode == Some(Field(IdMerchantCategoryCode, EMVNumeric(merchantCategoryCodeValue), 4))
      ensures old(Valid()) ==> Valid()
    {
      var data := NumericTryFrom(merchantCategoryCodeValue);
      merchantCategoryCode := Some(Field(IdMerchantCategoryCode, data.value, 4));
    }

    method SetTransactionCurrency(currency: string)
      requires NumericValid(currency)
      modifies this`transactionCurrency
      ensures transactionCurrency == Some(Field(IdTransactionCurrency, EMVNumeric(currency), 3))
      ensures old(Valid()) ==> Valid()
    {
      var data := NumericTryFrom(currency);
      transactionCurrency := Some(Field(IdTransactionCurrency, data.value, 3));
    }

    method SetTransactionAmount(amount: string)
      requires AlphanumericSpecialValid(amount)
      modifies this`transactionAmount
      ensures transactionAmount == Some(Field(IdTransactionAmount, EMVAlphanumericSpecial(amount), 14))
      ensures old(Valid()) ==> Valid()
    {
      var data := AlphanumericSpecialTryFrom(amount);
      transactionAmount := Some(Field(IdTransactionAmount, data.value, 14));
    }

    /**
      `set_tip_convenience_indicator` as written: the tip field, tag "55", is stored
      in the transaction amount's slot, replacing any amount, and the tip slot is
      left alone. The object no longer keeps its invariant: from a valid object, the
      fields rendered after the merchant account information hold the tip and no
      transaction amount at all.
     */
    method SetTipConvenienceIndicatorAsWritten(tip: string)
      requires NumericValid(tip)
      modifies this`transactionAmount
      ensures transactionAmount == Some(Field(IdTipOrConvenienceIndicator, EMVNumeric(tip), 2))
      ensures !Valid()
      ensures old(Valid()) ==> Field(IdTipOrConvenienceIndicator, EMVNumeric(tip), 2) in SetFields(TailSlots())
      ensures old(Valid()) ==> forall f :: f in SetFields(TailSlots()) ==> f.tagId != IdTransactionAmount
    {
      var data := NumericTryFrom(tip);
      transactionAmount := Some(Field(IdTipOrConvenienceIndicator, data.value, 2));
      var slots := TailSlots();
      SetFieldsMembers(slots);
      assert slots[2] == transactionAmount;
      if old(Valid()) {
        forall f | f in SetFields(slots)
          ensures f.tagId != IdTransactionAmount
        {
          var k :| 0 <= k < |slots| && slots[k] == Some(f);
        }
      }
    }

    /** The tip setter as evidently intended: the tip goes into its own slot. */
    method SetTipConvenienceIndicator(tip: string)
      requires NumericValid(tip)
      modifies this`tipOrConvenienceIndicator
      ensures tipOrConvenienceIndicator == Some(Field(IdTipOrConvenienceIndicator, EMVNumeric(tip), 2))
      ensures old(Valid()) ==> Valid()
    {
      var data := NumericTryFrom(tip);
      tipOrConvenienceIndicator := Some(Field(IdTipOrConvenienceIndicator, data.value, 2));
    }

    method SetValueOfConvenienceFeeFixed(fee: string)
      requires AlphanumericSpecialValid(fee)
      modifies this`valueOfConvenienceFeeFixed
      ensures valueOfConvenienceFeeFixed == Some(Field(IdValueOfConvenienceFeeFixed, EMVAlphanumericSpecial(fee), 13))
      ensures old(Valid()) ==> Valid()
    {
      var data := AlphanumericSpecialTryFrom(fee);
      valueOfConvenienceFeeFixed := Some(Field(IdValueOfConvenienceFeeFixed, data.value, 13));
    }

    method SetValueOfConvenienceFeePercentage(fee: string)
      requires AlphanumericSpecialValid(fee)
      modifies this`valueOfConvenienceFeePercentage
      ensures valueOfConvenienceFeePercentage ==
        Some(Field(IdValueOfConvenienceFeePercentage, EMVAlphanumericSpecial(fee), 5))
      ensures old(Valid()) ==> Valid()
    {
      var data := AlphanumericSpecialTryFrom(fee);
      valueOfConvenienceFeePercentage := Some(Field(IdValueOfConvenienceFeePercentage, data.value, 5));
    }

    method SetCountryCode(country: string)
      requires AlphanumericSpecialValid(country)
      modifies this`countryCode
      ensures countryCode == Some(Field(IdCountryCode, EMVAlphanumericSpecial(country), 2))
      ensures old(Valid()) ==> Valid()
    {
      var data := AlphanumericSpecialTryFrom(country);
      countryCode := Some(Field(IdCountryCode, data.value, 2));
    }

    method SetMerchantName(name: string)
      requires AlphanumericSpecialValid(name)
      modifies this`merchantName
      ensures merchantName == Some(Field(IdMerchantName, EMVAlphanumericSpecial(name), 25))
      ensures old(Valid()) ==> Valid()
    {
      var data := AlphanumericSpecialTryFrom(name);
      merchantName := Some(Field(IdMerchantName, data.value, 25));
    }

    method SetMerchantCity(city: string)
      requires AlphanumericSpecialValid(city)
      modifies this`merchantCity
      ensures merchantCity == Some(Field(IdMerchantCity, EMVAlphanumericSpecial(city), 15))
      ensures old(Valid()) ==> Valid()
    {
      var data := AlphanumericSpecialTryFrom(city);
      merchantCity := Some(Field(IdMerchantCity, data.value, 15));
    }

    method SetPostalCode(code: string)
      requires AlphanumericSpecialValid(code)
      modifies this`postalCode
      ensures postalCode == Some(Field(IdPostalCode, EMVAlphanumericSpecial(code), 10))
      ensures old(Valid()) ==> Valid()
    {
      var data := AlphanumericSpecialTryFrom(code);
      postalCode := Some(Field(IdPostalCode, data.value, 10));
    }

    /** Appends a text field when the tag is in 65..79 and changes nothing otherwise. */
    method SetRfu(tagId: TagID, rfuForEmvco: string)
      requires ParseUsize(tagId).Some?
      modifies this`rfuForEmvcos
      ensures InRfuRange(tagId) ==>
        rfuForEmvcos == Some((if old(rfuForEmvcos).Some? then old(rfuForEmvcos).value else [])
                             + [Field(tagId, EMVString(rfuForEmvco), 99)])
      ensures !InRfuRange(tagId) ==> rfuForEmvcos == old(rfuForEmvcos)
      ensures old(Valid()) ==> Valid()
    {
      if InRfuRange(tagId) {
        if rfuForEmvcos.None? {
          rfuForEmvcos := Some([]);
        }
        var data := StringTryFrom(rfuForEmvco);
        rfuForEmvcos := Some(rfuForEmvcos.value + [Field(tagId, data.value, 99)]);
      }
    }

    /** What `generate_pay_load` needs: the order enumerates the map, whose values convert. */
    predicate PayloadReady(maiOrder: seq<TagID>)
      reads this`merchantAccountInformation
    {
      merchantAccountInformation.Some? ==> MaiReady(merchantAccountInformation.value, maiOrder)
    }

    function MaiBlock(maiOrder: seq<TagID>): seq<Field>
      reads this`merchantAccountInformation
      requires PayloadReady(maiOrder)
    {
      if merchantAccountInformation.Some? then MaiFields(merchantAccountInformation.value, maiOrder) else []
    }

    /**
      The fields `generate_pay_load` renders in front of the checksum, in its order:
      00, 01, the merchant account information entries in the map's iteration
      order, then 52 to 61. The RFU list and the two templates are not rendered.
     */
    function BodyFields(maiOrder: seq<TagID>): seq<Field>
      reads this`payloadFormatIndicator, this`pointOfInitiationMethod, this`merchantAccountInformation
      reads this`merchantCategoryCode, this`transactionCurrency, this`transactionAmount
      reads this`tipOrConvenienceIndicator, this`valueOfConvenienceFeeFixed, this`valueOfConvenienceFeePercentage
      reads this`countryCode, this`merchantName, this`merchantCity, this`postalCode
      requires PayloadReady(maiOrder)
    {
      Head(maiOrder) + SetFields(TailSlots())
    }

    /** 00, 01 and the merchant account information entries. */
    function Head(maiOrder: seq<TagID>): seq<Field>
      reads this`payloadFormatIndicator, this`pointOfInitiationMethod, this`merchantAccountInformation
      requires PayloadReady(maiOrder)
    {
      SetFields([payloadFormatIndicator, pointOfInitiationMethod]) + MaiBlock(maiOrder)
    }

    /** The slots 52 to 61 in the order `generate_pay_load` visits them. */
    function TailSlots(): seq<Option<Field>>
      reads this`merchantCategoryCode, this`transactionCurrency, this`transactionAmount
      reads this`tipOrConvenienceIndicator, this`valueOfConvenienceFeeFixed, this`valueOfConvenienceFeePercentage
      reads this`countryCode, this`merchantName, this`merchantCity, this`postalCode
    {
      [merchantCategoryCode, transactionCurrency, transactionAmount, tipOrConvenienceIndicator,
       valueOfConvenienceFeeFixed, valueOfConvenienceFeePercentage, countryCode, merchantName,
       merchantCity, postalCode]
    }

    /** Under the invariant the fields of the slots 52 to 61 hold valid data and come in ascending tag order. */
    lemma TailAscending()
      requires Valid()
      ensures TagsAscending(SetFields(TailSlots()))
      ensures AllDataValid(SetFields(TailSlots()))
      ensures forall f :: f in SetFields(TailSlots()) ==> 52 <= TagNumber(f.tagId) <= 61
    {
      var slots := TailSlots();
      assert forall k :: 0 <= k < |slots| && slots[k].Some? ==>
        IsTwoDigitTag(slots[k].value.tagId) && TagNumber(slots[k].value.tagId) == 52 + k;
      SetFieldsAscending(slots, 52);
      SetFieldsMembers(slots);
      SetFieldsDataValid(slots);
    }

    /**
      Under the invariant every field in front of the checksum holds valid data, so
      the body can fail to render only by an empty or an overlong value.
     */
    lemma BodyDataValid(maiOrder: seq<TagID>)
      requires Valid() && PayloadReady(maiOrder)
      ensures AllDataValid(BodyFields(maiOrder))
      ensures RenderAll(BodyFields(maiOrder)).Err? ==>
        RenderAll(BodyFields(maiOrder)).error.DataIsEmpty? || RenderAll(BodyFields(maiOrder)).error.DataLengthInvalid?
    {
      var head := SetFields([payloadFormatIndicator, pointOfInitiationMethod]);
      var mai := MaiBlock(maiOrder);
      var tail := SetFields(TailSlots());
      SetFieldsDataValid([payloadFormatIndicator, pointOfInitiationMethod]);
      if merchantAccountInformation.Some? {
        MaiFieldsDataValid(merchantAccountInformation.value, maiOrder);
      } else {
        assert mai == [];
      }
      TailAscending();
      var body := BodyFields(maiOrder);
      assert body == head + mai + tail;
      AllDataValidAppend(head, mai);
      AllDataValidAppend(head + mai, tail);
      if RenderAll(body).Err? {
        ValidDataRenderErrors(body);
      }
    }

    /** The first part of `generate_pay_load`: an empty builder receives the set slots in order. */
    method AddBodyFields(builder: FieldListBuilder, maiOrder: seq<TagID>)
      requires PayloadReady(maiOrder) && builder.fields == []
      modifies builder
      ensures builder.fields == BodyFields(maiOrder)
    {
      ghost var s := SetFields([payloadFormatIndicator, pointOfInitiationMethod]);
      ghost var m := MaiBlock(maiOrder);
      AddSetFields(builder, [payloadFormatIndicator, pointOfInitiationMethod]);
      assert builder.fields == s;
      AddMerchantAccountInformation(builder, maiOrder);
      assert builder.fields == s + m;
      AddSetFields(builder, TailSlots());
    }

    /** The converted merchant account information entries, when the map is set. */
    method AddMerchantAccountInformation(builder: FieldListBuilder, maiOrder: seq<TagID>)
      requires PayloadReady(maiOrder)
      modifies builder
      ensures builder.fields == old(builder.fields) + MaiBlock(maiOrder)
    {
      if merchantAccountInformation.Some? {
        var merchantList := CollectMerchantAccountInformation(merchantAccountInformation.value, maiOrder);
        AddAll(builder, merchantList);
      } else {
        assert MaiBlock(maiOrder) == [];
      }
    }

    /**
      `generate_pay_load`: the body, then the checksum data object computed over the
      body and the checksum's own tag and length. The rendering of the body must
      succeed (its result is unwrapped).
     */
    method GeneratePayLoad(maiOrder: seq<TagID>) returns (r: Result<string, EMVOError>)
      requires PayloadReady(maiOrder)
      requires RenderAll(BodyFields(maiOrder)).Ok?
      modifies this`crc
      ensures r == Ok(PayloadText(RenderAll(BodyFields(maiOrder)).value))
      ensures crc == Some(CrcField(RenderAll(BodyFields(maiOrder)).value))
    {
      var builder := new FieldListBuilder();
      AddBodyFields(builder, maiOrder);
      var result := builder.ToString();
      var crcField := CrcObject(result.value);
      crc := Some(crcField);
      builder.AddFieldObject(crcField);
      r := builder.ToString();
      PayloadRenders(BodyFields(maiOrder), result.value);
    }
  }
}
