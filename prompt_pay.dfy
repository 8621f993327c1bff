/**
  The PromptPay credit-transfer template: up to six sub-fields (application
  identifier, mobile number, national id, e-wallet id, bank account and
  one-time authorisation code) rendered one after the other as the value of a
  merchant-account-information entry.
 */
module PromptPay {
  import opened Wrappers
  import opened EmvoTypes
  import opened TlvField
  import Utf8

  const Baht: string := "764"
  const Thai: string := "TH"
  const LangTh: string := "TH"

  const IdAid: TagID := "00"
  const IdMobileNumber: TagID := "01"
  const IdNationalId: TagID := "02"
  const IdEWalletId: TagID := "03"
  const IdBankAccount: TagID := "04"
  const IdOta: TagID := "05"

  const MerchantPresented: nat := 0
  const CustomerPresented: nat := 1

  const MaxLengthAid: nat := 16
  const MaxLengthMobileNo: nat := 13
  const MaxLengthNationalId: nat := 13
  const MaxLengthEWalletId: nat := 15
  const MaxLengthBankAccount: nat := 43
  const MaxLengthOta: nat := 10

  /** The application identifiers of a merchant-presented and a customer-presented code. */
  const PresentedTypeAids: seq<string> := ["A000000677010111", "A000000677010114"]

  function Present(slot: Option<Field>): seq<Field> {
    if slot.Some? then [slot.value] else []
  }

  /** A slot that is empty or holds a numeric value under its own tag and width, as the setters make it. */
  predicate NumericSlot(slot: Option<Field>, tag: TagID, width: nat) {
    slot.Some? ==>
      && slot.value.tagId == tag && slot.value.length == width
      && slot.value.data.EMVNumeric? && NumericValid(slot.value.data.Value())
  }

  /** Text made only of ASCII digits and letters. */
  predicate DigitsAndLetters(s: string) {
    forall i :: 0 <= i < |s| ==> IsDigit(s[i]) || IsAsciiLetter(s[i])
  }

  lemma DigitsAndLettersAreAlphanumeric(s: string)
    requires DigitsAndLetters(s)
    ensures AlphanumericSpecialValid(s) && Utf8.AllAscii(s)
  {
  }

  lemma DigitsAndLettersAppend(a: string, b: string)
    requires DigitsAndLetters(a) && DigitsAndLetters(b)
    ensures DigitsAndLetters(a + b)
  {
    assert forall i :: |a| <= i < |a + b| ==> (a + b)[i] == b[i - |a|];
  }

  lemma PresentedTypeAidsAreDigitsAndLetters(k: nat)
    requires k < |PresentedTypeAids|
    ensures DigitsAndLetters(PresentedTypeAids[k])
  {
  }

  /**
    `MerchantPromptPayCreditTransfer` as a value: the six optional sub-fields. This is
    what a merchant-account-information entry holds once the template has been
    handed over to the code.
   */
  datatype CreditTransferTemplate = CreditTransferTemplate(
    aid: Option<Field>,
    mobile: Option<Field>,
    nationalId: Option<Field>,
    eWalletId: Option<Field>,
    bankAccount: Option<Field>,
    ota: Option<Field>)
  {
    /** Every slot holds what its setter puts there (or nothing). */
    predicate Shaped() {
      && (aid.Some? ==>
            && aid.value.tagId == IdAid && aid.value.length == MaxLengthAid
            && aid.value.data.EMVAlphanumericSpecial? && aid.value.data.Value() in PresentedTypeAids)
      && NumericSlot(mobile, IdMobileNumber, MaxLengthMobileNo)
      && NumericSlot(nationalId, IdNationalId, MaxLengthNationalId)
      && NumericSlot(eWalletId, IdEWalletId, MaxLengthEWalletId)
      && NumericSlot(bankAccount, IdBankAccount, MaxLengthBankAccount)
      && NumericSlot(ota, IdOta, MaxLengthOta)
    }

    /** The sub-fields written whenever they are set, in tag order. */
    function Identifiers(): seq<Field> {
      Present(aid) + Present(mobile) + Present(nationalId) + Present(eWalletId) + Present(bankAccount)
    }

    /** The guard on the one-time authorisation code, as evidently intended: the aid's data is the customer-presented AID. */
    predicate OtaWritten() {
      aid.Some? && aid.value.data.Value() == PresentedTypeAids[CustomerPresented] && ota.Some?
    }

    /**
      The guard as written: what is compared with the customer-presented AID is the
      aid field's rendering as written, tag and length digits included.
     */
    predicate OtaWrittenAsWritten() {
      && aid.Some? && RenderAsWritten(aid.value).Ok?
      && RenderAsWritten(aid.value).value == PresentedTypeAids[CustomerPresented] && ota.Some?
    }

    function SubFields(): seq<Field> {
      Identifiers() + if OtaWritten() then [ota.value] else []
    }

    function SubFieldsAsWritten(): seq<Field> {
      Identifiers() + if OtaWrittenAsWritten() then [ota.value] else []
    }

    /** `value` does not panic: every sub-field renders. */
    predicate Renders() {
      RenderAll(SubFields()).Ok?
    }

    /** `value`: the renderings of the sub-fields, one after the other. */
    function Value(): (v: string)
      requires Renders()
      ensures Shaped() ==> DigitsAndLetters(v) && AlphanumericSpecialValid(v) && Utf8.AllAscii(v)
    {
      if Shaped() then
        ShapedRendersDigitsAndLetters(this);
        DigitsAndLettersAreAlphanumeric(RenderAll(SubFields()).value);
        RenderAll(SubFields()).value
      else
        RenderAll(SubFields()).value
    }

    /** `value` as written: the alias guard never holds, so a template the setters made renders its identifiers only. */
    function ValueAsWritten(): (v: string)
      requires RenderAll(SubFieldsAsWritten()).Ok?
      ensures Shaped() ==> SubFieldsAsWritten() == Identifiers() && v == RenderAll(Identifiers()).value
    {
      if Shaped() then
        OtaNeverWrittenAsWritten(this);
        RenderAll(SubFieldsAsWritten()).value
      else
        RenderAll(SubFieldsAsWritten()).value
    }

    /** `len`: the UTF-8 length of the value, which the value's characters are when the template is well formed. */
    function Len(): (n: nat)
      requires Renders() && AlphanumericSpecialValid(Value())
      ensures n >= |Value()|
      ensures Shaped() ==> n == |Value()|
    {
      EMVAlphanumericSpecial(Value()).Len()
    }

    /** `valid`: whenever it returns, the value passed the alphanumeric check, so it is true. */
    predicate Valid()
      requires Renders() && AlphanumericSpecialValid(Value())
      ensures Valid()
    {
      EMVAlphanumericSpecial(Value()).Valid()
    }

    function TypeName(): (name: string)
      ensures name == TypeNameAlphaNumeric && name != TypeNameNumeric
    {
      TypeNameAlphaNumeric
    }
  }

  // ---------------------------------------------------------------------------
  // The value of a well formed template
  // ---------------------------------------------------------------------------

  lemma Pad2DigitsAndLetters(n: nat)
    ensures DigitsAndLetters(Pad2(n))
  {
  }

  lemma ZerosDigitsAndLetters(n: nat)
    ensures DigitsAndLetters(Zeros(n))
  {
  }

  /** A field whose tag is digits and whose value is digits and letters renders as digits and letters. */
  lemma RenderDigitsAndLetters(f: Field)
    requires Render(f).Ok? && NumericValid(f.tagId) && DigitsAndLetters(f.data.Value())
    ensures DigitsAndLetters(Render(f).value)
  {
    var v := f.data.Value();
    DigitsAndLettersAppend(f.tagId, Pad2(if IsNumericField(f) then f.length else f.data.Len()));
    if IsNumericField(f) {
      ZerosDigitsAndLetters(f.length - |v|);
      DigitsAndLettersAppend(Zeros(|LeftPadZeros(v, f.length)| - |v|), v);
      DigitsAndLettersAppend(f.tagId + Pad2(f.length), LeftPadZeros(v, f.length));
    } else {
      DigitsAndLettersAppend(f.tagId + Pad2(f.data.Len()), v);
    }
  }

  lemma {:induction false} RenderAllDigitsAndLetters(fields: seq<Field>)
    requires RenderAll(fields).Ok?
    requires forall i :: 0 <= i < |fields| ==> Render(fields[i]).Ok? && DigitsAndLetters(Render(fields[i]).value)
    ensures DigitsAndLetters(RenderAll(fields).value)
  {
    if fields != [] {
      assert forall i :: 1 <= i < |fields| ==> fields[1..][i - 1] == fields[i];
      RenderAllDigitsAndLetters(fields[1..]);
      DigitsAndLettersAppend(Render(fields[0]).value, RenderAll(fields[1..]).value);
    }
  }

  /** Every sub-field of a well formed template is one of its slots, with its tag, width and kind. */
  lemma ShapedSubFields(t: CreditTransferTemplate)
    requires t.Shaped()
    ensures forall i :: 0 <= i < |t.SubFields()| ==> SubFieldShaped(t.SubFields()[i])
  {
    assert |IdAid| == 2 && NumericValid(IdAid) && MaxLengthAid <= 99;
    NumericSlotShaped(t.mobile, IdMobileNumber, MaxLengthMobileNo);
    NumericSlotShaped(t.nationalId, IdNationalId, MaxLengthNationalId);
    NumericSlotShaped(t.eWalletId, IdEWalletId, MaxLengthEWalletId);
    NumericSlotShaped(t.bankAccount, IdBankAccount, MaxLengthBankAccount);
    NumericSlotShaped(t.ota, IdOta, MaxLengthOta);
    var a := Present(t.aid) + Present(t.mobile);
    ShapedAppend(Present(t.aid), Present(t.mobile));
    ShapedAppend(a, Present(t.nationalId));
    ShapedAppend(a + Present(t.nationalId), Present(t.eWalletId));
    ShapedAppend(a + Present(t.nationalId) + Present(t.eWalletId), Present(t.bankAccount));
    ShapedAppend(t.Identifiers(), if t.OtaWritten() then [t.ota.value] else []);
  }

  /** A sub-field with a two-digit tag, a width below 100, and a numeric value or one of the AIDs. */
  predicate SubFieldShaped(f: Field) {
    && |f.tagId| == 2 && NumericValid(f.tagId) && f.length <= 99
    && (IsNumericField(f) || (f.data.EMVAlphanumericSpecial? && f.data.Value() in PresentedTypeAids))
  }

  predicate AllShaped(fs: seq<Field>) {
    forall i :: 0 <= i < |fs| ==> SubFieldShaped(fs[i])
  }

  lemma ShapedAppend(a: seq<Field>, b: seq<Field>)
    requires AllShaped(a) && AllShaped(b)
    ensures AllShaped(a + b)
  {
    assert forall i :: |a| <= i < |a + b| ==> (a + b)[i] == b[i - |a|];
  }

  lemma NumericSlotShaped(slot: Option<Field>, tag: TagID, width: nat)
    requires NumericSlot(slot, tag, width) && |tag| == 2 && NumericValid(tag) && width <= 99
    ensures AllShaped(Present(slot))
  {
  }

  lemma ShapedFieldRendersDigitsAndLetters(f: Field)
    requires Render(f).Ok? && NumericValid(f.tagId)
    requires IsNumericField(f) || (f.data.EMVAlphanumericSpecial? && f.data.Value() in PresentedTypeAids)
    ensures DigitsAndLetters(Render(f).value)
  {
    if !IsNumericField(f) {
      var k :| 0 <= k < |PresentedTypeAids| && PresentedTypeAids[k] == f.data.Value();
      PresentedTypeAidsAreDigitsAndLetters(k);
    }
    RenderDigitsAndLetters(f);
  }

  lemma ShapedRendersDigitsAndLetters(t: CreditTransferTemplate)
    requires t.Shaped() && t.Renders()
    ensures DigitsAndLetters(RenderAll(t.SubFields()).value)
  {
    var fs := t.SubFields();
    ShapedSubFields(t);
    RenderAllOk(fs);
    forall i | 0 <= i < |fs|
      ensures Render(fs[i]).Ok? && DigitsAndLetters(Render(fs[i]).value)
    {
      ShapedFieldRendersDigitsAndLetters(fs[i]);
    }
    RenderAllDigitsAndLetters(fs);
  }

  /**
    The value of a well formed template reads back, sub-field by sub-field, as the
    tags and values of the sub-fields written.
   */
  lemma ValueDecodes(t: CreditTransferTemplate)
    requires t.Shaped() && t.Renders()
    ensures DecodeAll(t.Value()) == Some(Wires(t.SubFields()))
  {
    var fs := t.SubFields();
    ShapedSubFields(t);
    forall i | 0 <= i < |fs|
      ensures Decodable(fs[i])
    {
      ShapedDecodable(fs[i]);
    }
    RenderAllDecodes(fs);
  }

  lemma ShapedDecodable(f: Field)
    requires SubFieldShaped(f)
    ensures Decodable(f)
  {
    if !IsNumericField(f) {
      var k :| 0 <= k < |PresentedTypeAids| && PresentedTypeAids[k] == f.data.Value();
      PresentedTypeAidsAreDigitsAndLetters(k);
      DigitsAndLettersAreAlphanumeric(f.data.Value());
    }
  }

  /**
    The one-time authorisation code is written exactly when the template is
    customer-presented and the code is set; it is then the last sub-field.
   */
  lemma OtaWrittenIff(t: CreditTransferTemplate)
    requires t.Shaped()
    ensures (exists i :: 0 <= i < |t.SubFields()| && t.SubFields()[i].tagId == IdOta)
        <==> t.aid.Some? && t.aid.value.data.Value() == PresentedTypeAids[CustomerPresented] && t.ota.Some?
    ensures t.OtaWritten() ==> t.SubFields()[|t.SubFields()| - 1] == t.ota.value
  {
    var ids := t.Identifiers();
    assert forall i :: 0 <= i < |ids| ==> ids[i].tagId != IdOta;
    if t.OtaWritten() {
      assert t.SubFields()[|ids|].tagId == IdOta;
    } else {
      assert t.SubFields() == ids;
    }
  }

  /** The rendering of an aid field starts with the aid's tag "00", which no AID does. */
  lemma AidRenderingIsNoAid(f: Field)
    requires f.tagId == IdAid
    ensures Render(f).Ok? ==> Render(f).value != PresentedTypeAids[CustomerPresented]
    ensures RenderAsWritten(f).Ok? ==> RenderAsWritten(f).value != PresentedTypeAids[CustomerPresented]
  {
    assert PresentedTypeAids[CustomerPresented][..2] == "A0";
    if Render(f).Ok? {
      assert Render(f).value[..2] == "00";
    }
    if RenderAsWritten(f).Ok? {
      assert RenderAsWritten(f).value[..2] == "00";
    }
  }

  /**
    As written, the guard never holds for a template the setters made, so the
    one-time authorisation code is never written, whatever the presented type.
   */
  lemma OtaNeverWrittenAsWritten(t: CreditTransferTemplate)
    requires t.Shaped()
    ensures !t.OtaWrittenAsWritten()
    ensures t.SubFieldsAsWritten() == t.Identifiers()
    ensures forall i :: 0 <= i < |t.SubFieldsAsWritten()| ==> t.SubFieldsAsWritten()[i].tagId != IdOta
  {
    var ids := t.Identifiers();
    assert forall i :: 0 <= i < |ids| ==> ids[i].tagId != IdOta;
    if t.aid.Some? {
      AidRenderingIsNoAid(t.aid.value);
    }
    assert t.SubFieldsAsWritten() == ids;
  }

  /** The written sub-fields with the alias are the identifiers' renderings followed by the alias object's. */
  lemma SubFieldsRenderWithOta(t: CreditTransferTemplate)
    requires t.Shaped() && t.OtaWritten() && RenderAll(t.SubFields()).Ok?
    ensures RenderAll(t.SubFieldsAsWritten()).Ok? && Render(t.ota.value).Ok?
    ensures RenderAll(t.SubFields()).value
         == RenderAll(t.SubFieldsAsWritten()).value + Render(t.ota.value).value
  {
    OtaNeverWrittenAsWritten(t);
    var ids, o := t.Identifiers(), t.ota.value;
    assert t.SubFields() == ids + [o];
    RenderAllSnoc(ids, o);
  }

  /**
    A customer-presented template with a one-time authorisation code: the intended
    value ends with the code's object, which the value as written lacks.
   */
  lemma ValueAsWrittenDropsOta(t: CreditTransferTemplate)
    requires t.Shaped() && t.Renders() && t.OtaWritten()
    ensures RenderAll(t.SubFieldsAsWritten()).Ok? && Render(t.ota.value).Ok?
    ensures t.Value() == t.ValueAsWritten() + Render(t.ota.value).value
    ensures |t.ValueAsWritten()| < |t.Value()|
  {
    SubFieldsRenderWithOta(t);
    assert t.Value() == RenderAll(t.SubFields()).value;
    assert t.ValueAsWritten() == RenderAll(t.SubFieldsAsWritten()).value;
    RenderNeverTruncates(t.ota.value);
  }

  lemma Pad2Of16And13()
    ensures Pad2(16) == "16" && Pad2(13) == "13"
  {
    Pad2Digits(16);
    Pad2Digits(13);
    assert DigitChar(1) == '1' && DigitChar(3) == '3' && DigitChar(6) == '6';
  }

  lemma CustomerAidData()
    ensures var d := EMVAlphanumericSpecial(PresentedTypeAids[CustomerPresented]);
      d.Valid() && d.Value() != [] && d.Len() == 16 && d.TypeName() != TypeNameNumeric
  {
    PresentedTypeAidsAreDigitsAndLetters(CustomerPresented);
    DigitsAndLettersAreAlphanumeric(PresentedTypeAids[CustomerPresented]);
  }

  lemma CustomerAidRender()
    ensures Render(Field(IdAid, EMVAlphanumericSpecial(PresentedTypeAids[CustomerPresented]), MaxLengthAid))
         == Ok("0016A000000677010114")
  {
    var aid := PresentedTypeAids[CustomerPresented];
    assert IdAid + "16" + aid == "0016A000000677010114";
    PresentedTypeAidsAreDigitsAndLetters(CustomerPresented);
    DigitsAndLettersAreAlphanumeric(aid);
    Pad2Of16And13();
    RenderText(Field(IdAid, EMVAlphanumericSpecial(aid), MaxLengthAid));
  }

  lemma MobileData()
    ensures var d := EMVNumeric("0809729900");
      d.Valid() && d.Value() != [] && d.Len() == 10 && d.TypeName() == TypeNameNumeric
  {
    var s := "0809729900";
    assert |s| == 10 && s != [];
    assert NumericValid(s);
    NumericLenIsCharCount(s);
    assert EMVNumeric(s).Len() == 10;
  }

  lemma MobilePadding()
    ensures LeftPadZeros("0809729900", 13) == "0000809729900"
  {
    assert Zeros(3) == "000";
  }

  lemma MobileRender()
    ensures Render(Field(IdMobileNumber, EMVNumeric("0809729900"), MaxLengthMobileNo)) == Ok("01130000809729900")
  {
    assert IdMobileNumber + "13" + "0000809729900" == "01130000809729900";
    MobileData();
    Pad2Of16And13();
    MobilePadding();
  }

  /** The customer-presented template with a mobile number only, as the payment service builds it. */
  lemma MobileTemplateValue()
    ensures var t := CreditTransferTemplate(
        Some(Field(IdAid, EMVAlphanumericSpecial(PresentedTypeAids[CustomerPresented]), MaxLengthAid)),
        Some(Field(IdMobileNumber, EMVNumeric("0809729900"), MaxLengthMobileNo)),
        None, None, None, None);
      t.Shaped() && t.Renders() && t.Value() == "0016A000000677010114" + "01130000809729900"
  {
    var aid := Field(IdAid, EMVAlphanumericSpecial(PresentedTypeAids[CustomerPresented]), MaxLengthAid);
    var mobile := Field(IdMobileNumber, EMVNumeric("0809729900"), MaxLengthMobileNo);
    var t := CreditTransferTemplate(Some(aid), Some(mobile), None, None, None, None);
    assert t.SubFields() == [aid, mobile];
    CustomerAidRender();
    MobileRender();
    RenderAllPair(aid, mobile);
    MobileData();
    assert PresentedTypeAids[CustomerPresented] in PresentedTypeAids;
  }

  lemma RenderAllPair(a: Field, b: Field)
    requires Render(a).Ok? && Render(b).Ok?
    ensures RenderAll([a, b]) == Ok(Render(a).value + Render(b).value)
  {
    assert RenderAll([b]) == Ok(Render(b).value) by {
      assert [b][1..] == [];
      assert Render(b).value + "" == Render(b).value;
    }
    assert [a, b][0] == a && [a, b][1..] == [b];
  }

  // ---------------------------------------------------------------------------
  // The template under construction
  // ---------------------------------------------------------------------------

  /** `MerchantPromptPayCreditTransfer`: its setters fill one slot each. */
  class MerchantPromptPayCreditTransfer {
    var aid: Option<Field>
    var mobile: Option<Field>
    var nationalId: Option<Field>
    var eWalletId: Option<Field>
    var bankAccount: Option<Field>
    var ota: Option<Field>

    function Template(): CreditTransferTemplate
      reads this
    {
      CreditTransferTemplate(aid, mobile, nationalId, eWalletId, bankAccount, ota)
    }

    /** Every slot holds what its setter put there. */
    predicate Valid()
      reads this
    {
      Template().Shaped()
    }

    /** `default`: every slot empty. */
    constructor ()
      ensures Template() == CreditTransferTemplate(None, None, None, None, None, None)
      ensures Valid()
    {
      aid, mobile, nationalId, eWalletId, bankAccount, ota := None, None, None, None, None, None;
    }

    /** The presented type indexes the AID table; any other index panics. */
    method SetPromptpayPresentedType(presentedType: nat)
      requires presentedType < |PresentedTypeAids|
      modifies this`aid
      ensures aid == Some(Field(IdAid, EMVAlphanumericSpecial(PresentedTypeAids[presentedType]), MaxLengthAid))
      ensures old(Valid()) ==> Valid()
    {
      PresentedTypeAidsAreDigitsAndLetters(presentedType);
      DigitsAndLettersAreAlphanumeric(PresentedTypeAids[presentedType]);
      var data := AlphanumericSpecialTryFrom(PresentedTypeAids[presentedType]);
      aid := Some(Field(IdAid, data.value, MaxLengthAid));
    }

    /** The numeric conversion panics on anything but digits. */
    method SetMobileNumber(mobileNo: string)
      requires NumericValid(mobileNo)
      modifies this`mobile
      ensures mobile == Some(Field(IdMobileNumber, EMVNumeric(mobileNo), MaxLengthMobileNo))
      ensures old(Valid()) ==> Valid()
    {
      var data := NumericTryFrom(mobileNo);
      mobile := Some(Field(IdMobileNumber, data.value, MaxLengthMobileNo));
    }

    method SetNationalId(nationalIdNo: string)
      requires NumericValid(nationalIdNo)
      modifies this`nationalId
      ensures nationalId == Some(Field(IdNationalId, EMVNumeric(nationalIdNo), MaxLengthNationalId))
      ensures old(Valid()) ==> Valid()
    {
      var data := NumericTryFrom(nationalIdNo);
      nationalId := Some(Field(IdNationalId, data.value, MaxLengthNationalId));
    }

    method SetEWalletId(eWalletIdNo: string)
      requires NumericValid(eWalletIdNo)
      modifies this`eWalletId
      ensures eWalletId == Some(Field(IdEWalletId, EMVNumeric(eWalletIdNo), MaxLengthEWalletId))
      ensures old(Valid()) ==> Valid()
    {
      var data := NumericTryFrom(eWalletIdNo);
      eWalletId := Some(Field(IdEWalletId, data.value, MaxLengthEWalletId));
    }

    method SetBankAccount(bankAccountNo: string)
      requires NumericValid(bankAccountNo)
      modifies this`bankAccount
      ensures bankAccount == Some(Field(IdBankAccount, EMVNumeric(bankAccountNo), MaxLengthBankAccount))
      ensures old(Valid()) ==> Valid()
    {
      var data := NumericTryFrom(bankAccountNo);
      bankAccount := Some(Field(IdBankAccount, data.value, MaxLengthBankAccount));
    }

    method SetOta(otaCode: string)
      requires NumericValid(otaCode)
      modifies this`ota
      ensures ota == Some(Field(IdOta, EMVNumeric(otaCode), MaxLengthOta))
      ensures old(Valid()) ==> Valid()
    {
      var data := NumericTryFrom(otaCode);
      ota := Some(Field(IdOta, data.value, MaxLengthOta));
    }
  }
}
