/**
  The request the PromptPay handler builds (src/apis.rs): payload format "02", a
  static code, the PromptPay template for a customer-presented mobile number under
  tag "29", baht, the amount, the merchant name, category "5311", Bangkok, postal
  code "10240" and Thailand. The request's three inputs are fixed here to mobile
  "0809729900", amount "50" and merchant name "test".
 */
module FixedRequest {
  import opened Wrappers
  import opened EmvoTypes
  import opened TlvField
  import Utf8
  import Crc16
  import PromptPay
  import opened EmvoQrcode

  const Mobile: string := "0809729900"
  const Amount: string := "50"
  const MerchantName: string := "test"
  const MerchantCategory: string := "5311"
  const City: string := "Bangkok"
  const PostalCode: string := "10240"

  const TemplateText: string := "0016A000000677010114" + "01130000809729900"

  /** The text in front of the checksum that the handler's payload carries. */
  const Body: string :=
    "000202" + ("010211" + ("2937" + TemplateText + ("52045311" + ("5303764" + ("540250"
    + ("5802TH" + ("5904test" + ("6007Bangkok" + ("610510240" + "")))))))))

  const PayloadFormatField: Field := Field(IdPayloadFormatIndicator, EMVNumeric("02"), 2)
  const PointOfInitiationField: Field := Field(IdPointOfInitiationMethod, EMVNumeric("11"), 2)
  const PromptPayField: Field := Field("29", EMVAlphanumericSpecial(TemplateText), 99)
  const CategoryField: Field := Field(IdMerchantCategoryCode, EMVNumeric(MerchantCategory), 4)
  const CurrencyField: Field := Field(IdTransactionCurrency, EMVNumeric(PromptPay.Baht), 3)
  const AmountField: Field := Field(IdTransactionAmount, EMVAlphanumericSpecial(Amount), 14)
  const CountryField: Field := Field(IdCountryCode, EMVAlphanumericSpecial(PromptPay.Thai), 2)
  const NameField: Field := Field(IdMerchantName, EMVAlphanumericSpecial(MerchantName), 25)
  const CityField: Field := Field(IdMerchantCity, EMVAlphanumericSpecial(City), 15)
  const PostalCodeField: Field := Field(IdPostalCode, EMVAlphanumericSpecial(PostalCode), 10)

  /** The fields the payload renders, in order. */
  function Fields(): seq<Field> {
    [PayloadFormatField, PointOfInitiationField, PromptPayField, CategoryField, CurrencyField,
     AmountField, CountryField, NameField, CityField, PostalCodeField]
  }

  /** A numeric value exactly as wide as its field renders unpadded. */
  lemma RenderFullNumeric(f: Field)
    requires f.data.EMVNumeric? && NumericValid(f.data.Value()) && Utf8.AllAscii(f.data.Value())
    requires f.data.Value() != [] && |f.data.Value()| == f.length
    ensures Render(f) == Ok(f.tagId + Pad2(f.length) + f.data.Value())
  {
    assert IsNumericField(f);
  }

  lemma Field0Renders()
    ensures Render(Fields()[0]) == Ok("000202")
    ensures Decodable(Fields()[0])
  {
    assert "00" + "02" + "02" == "000202";
    var f := Fields()[0];
    assert f == Field(IdPayloadFormatIndicator, EMVNumeric("02"), 2);
    assert f.tagId == "00" && f.data.Value() == "02";
    Pad2Digits(2);
    assert DigitChar(0) == '0' && DigitChar(2) == "02"[1];
    RenderFullNumeric(f);
  }

  lemma Field1Renders()
    ensures Render(Fields()[1]) == Ok("010211")
    ensures Decodable(Fields()[1])
  {
    assert "01" + "02" + "11" == "010211";
    var f := Fields()[1];
    assert f == Field(IdPointOfInitiationMethod, EMVNumeric("11"), 2);
    assert f.tagId == "01" && f.data.Value() == "11";
    Pad2Digits(2);
    assert DigitChar(0) == '0' && DigitChar(2) == "02"[1];
    RenderFullNumeric(f);
  }

  lemma Field3Renders()
    ensures Render(Fields()[3]) == Ok("52045311")
    ensures Decodable(Fields()[3])
  {
    assert "52" + "04" + "5311" == "52045311";
    var f := Fields()[3];
    assert f == Field(IdMerchantCategoryCode, EMVNumeric(MerchantCategory), 4);
    assert f.tagId == "52" && f.data.Value() == "5311";
    Pad2Digits(4);
    assert DigitChar(0) == '0' && DigitChar(4) == "04"[1];
    RenderFullNumeric(f);
  }

  lemma Field4Renders()
    ensures Render(Fields()[4]) == Ok("5303764")
    ensures Decodable(Fields()[4])
  {
    assert "53" + "03" + "764" == "5303764";
    var f := Fields()[4];
    assert f == Field(IdTransactionCurrency, EMVNumeric(PromptPay.Baht), 3);
    assert f.tagId == "53" && f.data.Value() == "764";
    Pad2Digits(3);
    assert DigitChar(0) == '0' && DigitChar(3) == "03"[1];
    RenderFullNumeric(f);
  }

  lemma Field5Renders()
    ensures Render(Fields()[5]) == Ok("540250")
    ensures Decodable(Fields()[5])
  {
    assert "54" + "02" + "50" == "540250";
    var f := Fields()[5];
    assert f == Field(IdTransactionAmount, EMVAlphanumericSpecial(Amount), 14);
    assert f.tagId == "54" && f.data.Value() == "50";
    Pad2Digits(2);
    assert DigitChar(0) == '0' && DigitChar(2) == "02"[1];
    RenderText(f);
  }

  lemma Field6Renders()
    ensures Render(Fields()[6]) == Ok("5802TH")
    ensures Decodable(Fields()[6])
  {
    assert "58" + "02" + "TH" == "5802TH";
    var f := Fields()[6];
    assert f == Field(IdCountryCode, EMVAlphanumericSpecial(PromptPay.Thai), 2);
    assert f.tagId == "58" && f.data.Value() == "TH";
    Pad2Digits(2);
    assert DigitChar(0) == '0' && DigitChar(2) == "02"[1];
    RenderText(f);
  }

  lemma Field7Renders()
    ensures Render(Fields()[7]) == Ok("5904test")
    ensures Decodable(Fields()[7])
  {
    assert "59" + "04" + "test" == "5904test";
    var f := Fields()[7];
    assert f == Field(IdMerchantName, EMVAlphanumericSpecial(MerchantName), 25);
    assert f.tagId == "59" && f.data.Value() == "test";
    Pad2Digits(4);
    assert DigitChar(0) == '0' && DigitChar(4) == "04"[1];
    RenderText(f);
  }

  lemma Field8Renders()
    ensures Render(Fields()[8]) == Ok("6007Bangkok")
    ensures Decodable(Fields()[8])
  {
    assert "60" + "07" + "Bangkok" == "6007Bangkok";
    var f := Fields()[8];
    assert f == Field(IdMerchantCity, EMVAlphanumericSpecial(City), 15);
    assert f.tagId == "60" && f.data.Value() == "Bangkok";
    Pad2Digits(7);
    assert DigitChar(0) == '0' && DigitChar(7) == "07"[1];
    RenderText(f);
  }

  lemma Field9Renders()
    ensures Render(Fields()[9]) == Ok("610510240")
    ensures Decodable(Fields()[9])
  {
    assert "61" + "05" + "10240" == "610510240";
    var f := Fields()[9];
    assert f == Field(IdPostalCode, EMVAlphanumericSpecial(PostalCode), 10);
    assert f.tagId == "61" && f.data.Value() == "10240";
    Pad2Digits(5);
    assert DigitChar(0) == '0' && DigitChar(5) == "05"[1];
    RenderText(f);
  }

  lemma TemplateTextIsAscii()
    ensures AlphanumericSpecialValid(TemplateText) && Utf8.AllAscii(TemplateText) && |TemplateText| == 37
  {
    assert PromptPay.DigitsAndLetters("0016A000000677010114");
    assert PromptPay.DigitsAndLetters("01130000809729900");
    PromptPay.DigitsAndLettersAppend("0016A000000677010114", "01130000809729900");
    PromptPay.DigitsAndLettersAreAlphanumeric(TemplateText);
  }

  lemma Field2Renders()
    ensures Render(Fields()[2]) == Ok("2937" + TemplateText)
    ensures Decodable(Fields()[2])
  {
    assert "29" + "37" + TemplateText == "2937" + TemplateText;
    var f := Fields()[2];
    assert f == Field("29", EMVAlphanumericSpecial(TemplateText), 99);
    TemplateTextIsAscii();
    Pad2Digits(37);
    assert DigitChar(3) == '3' && DigitChar(7) == '7';
    RenderText(f);
  }

  lemma RenderSuffix(fs: seq<Field>, i: nat, d: string, rest: string)
    requires i < |fs| && Render(fs[i]) == Ok(d) && RenderAll(fs[i + 1..]) == Ok(rest)
    ensures RenderAll(fs[i..]) == Ok(d + rest)
  {
    assert fs[i..][0] == fs[i] && fs[i..][1..] == fs[i + 1..];
  }

  /** The handler's payload text from field `i` on. */
  function Suffix(i: nat): string
    decreases 10 - i
  {
    if i >= 10 then "" else FieldText(i) + Suffix(i + 1)
  }

  function FieldText(i: nat): string {
    match i
    case 0 => "000202"
    case 1 => "010211"
    case 2 => "2937" + TemplateText
    case 3 => "52045311"
    case 4 => "5303764"
    case 5 => "540250"
    case 6 => "5802TH"
    case 7 => "5904test"
    case 8 => "6007Bangkok"
    case 9 => "610510240"
    case _ => ""
  }

  lemma FieldRenders(i: nat)
    requires i < 10
    ensures Render(Fields()[i]) == Ok(FieldText(i))
    ensures Decodable(Fields()[i])
  {
    if i == 0 {
      Field0Renders();
    } else if i == 1 {
      Field1Renders();
    } else if i == 2 {
      Field2Renders();
    } else if i == 3 {
      Field3Renders();
    } else if i == 4 {
      Field4Renders();
    } else if i == 5 {
      Field5Renders();
    } else if i == 6 {
      Field6Renders();
    } else if i == 7 {
      Field7Renders();
    } else if i == 8 {
      Field8Renders();
    } else {
      Field9Renders();
    }
  }

  /** As written, a rendered object is its tag, its declared width and its value padded with zeros to that width. */
  lemma AsWrittenPadded(f: Field, pad: nat)
    requires Render(f).Ok? && |f.data.Value()| + pad == f.length
    ensures RenderAsWritten(f) == Ok(f.tagId + Pad2(f.length) + Zeros(pad) + f.data.Value())
  {
    var v := f.data.Value();
    assert f.data.Valid() && v != [] && f.data.Len() <= f.length;
    assert RenderAsWritten(f) == Ok(f.tagId + Pad2(f.length) + LeftPadZeros(v, f.length));
    assert LeftPadZeros(v, f.length) == Zeros(pad) + v;
    assert f.tagId + Pad2(f.length) + (Zeros(pad) + v) == f.tagId + Pad2(f.length) + Zeros(pad) + v;
  }

  lemma AsWrittenPromptPay()
    ensures RenderAsWritten(PromptPayField) == Ok("2999" + Zeros(62) + TemplateText)
  {
    assert "29" + "99" + Zeros(62) + TemplateText == "2999" + Zeros(62) + TemplateText;
    Field2Renders();
    TemplateTextIsAscii();
    Pad2Digits(99);
    assert DigitChar(9) == '9' && DigitChar(9) == '9';
    AsWrittenPadded(PromptPayField, 62);
  }

  lemma AsWrittenAmount()
    ensures RenderAsWritten(AmountField) == Ok("5414" + Zeros(12) + Amount)
  {
    assert "54" + "14" + Zeros(12) + Amount == "5414" + Zeros(12) + Amount;
    Field5Renders();
    Pad2Digits(14);
    assert DigitChar(1) == '1' && DigitChar(4) == '4';
    AsWrittenPadded(AmountField, 12);
  }

  lemma AsWrittenName()
    ensures RenderAsWritten(NameField) == Ok("5925" + Zeros(21) + MerchantName)
  {
    assert "59" + "25" + Zeros(21) + MerchantName == "5925" + Zeros(21) + MerchantName;
    Field7Renders();
    Pad2Digits(25);
    assert DigitChar(2) == '2' && DigitChar(5) == '5';
    AsWrittenPadded(NameField, 21);
  }

  lemma AsWrittenCity()
    ensures RenderAsWritten(CityField) == Ok("6015" + Zeros(8) + City)
  {
    assert "60" + "15" + Zeros(8) + City == "6015" + Zeros(8) + City;
    Field8Renders();
    Pad2Digits(15);
    assert DigitChar(1) == '1' && DigitChar(5) == '5';
    AsWrittenPadded(CityField, 8);
  }

  lemma AsWrittenPostalCode()
    ensures RenderAsWritten(PostalCodeField) == Ok("6110" + Zeros(5) + PostalCode)
  {
    assert "61" + "10" + Zeros(5) + PostalCode == "6110" + Zeros(5) + PostalCode;
    Field9Renders();
    Pad2Digits(10);
    assert DigitChar(1) == '1' && DigitChar(0) == '0';
    AsWrittenPadded(PostalCodeField, 5);
  }

  /** The five objects whose value is exactly as wide as the field render as intended, as written too. */
  /** The five handler objects whose value is exactly as wide as the field: as written they render as intended. */
  lemma AsWrittenExact()
    ensures RenderAsWritten(PayloadFormatField) == Ok("000202")
    ensures RenderAsWritten(PointOfInitiationField) == Ok("010211")
    ensures RenderAsWritten(CategoryField) == Ok("52045311")
    ensures RenderAsWritten(CurrencyField) == Ok("5303764")
    ensures RenderAsWritten(CountryField) == Ok("5802TH")
  {
    Field0Renders();
    Field1Renders();
    Field3Renders();
    Field4Renders();
    Field6Renders();
    AsWrittenPadded(PayloadFormatField, 0);
    AsWrittenPadded(PointOfInitiationField, 0);
    AsWrittenPadded(CategoryField, 0);
    AsWrittenPadded(CurrencyField, 0);
    AsWrittenPadded(CountryField, 0);
  }

  /**
    The handler's objects as the code renders them as written: every object carries
    its declared width and its value is padded with zeros to that width. The five
    objects narrower than their field come out longer than intended (the other
    five are `AsWrittenExact`).
   */
  lemma AsWrittenFieldRenders()
    ensures RenderAsWritten(PromptPayField) == Ok("2999" + Zeros(62) + TemplateText)
    ensures RenderAsWritten(AmountField) == Ok("5414" + Zeros(12) + Amount)
    ensures RenderAsWritten(NameField) == Ok("5925" + Zeros(21) + MerchantName)
    ensures RenderAsWritten(CityField) == Ok("6015" + Zeros(8) + City)
    ensures RenderAsWritten(PostalCodeField) == Ok("6110" + Zeros(5) + PostalCode)
  {
    AsWrittenPromptPay();
    AsWrittenAmount();
    AsWrittenName();
    AsWrittenCity();
    AsWrittenPostalCode();
  }

  lemma {:induction false} SuffixRenders(i: nat)
    requires i <= 10
    ensures RenderAll(Fields()[i..]) == Ok(Suffix(i))
    decreases 10 - i
  {
    if i < 10 {
      FieldRenders(i);
      SuffixRenders(i + 1);
      RenderSuffix(Fields(), i, FieldText(i), Suffix(i + 1));
    } else {
      assert Fields()[i..] == [];
    }
  }

  /** The handler's fields render as the expected body. */
  lemma BodyRenders()
    ensures RenderAll(Fields()) == Ok(Body)
  {
    SuffixRenders(0);
    assert Fields()[0..] == Fields();
  }

  /** The template the handler hands over as the value of tag "29". */
  function Template(): PromptPay.CreditTransferTemplate {
    PromptPay.CreditTransferTemplate(
      Some(Field(PromptPay.IdAid, EMVAlphanumericSpecial(PromptPay.PresentedTypeAids[PromptPay.CustomerPresented]), PromptPay.MaxLengthAid)),
      Some(Field(PromptPay.IdMobileNumber, EMVNumeric(Mobile), PromptPay.MaxLengthMobileNo)),
      None, None, None, None)
  }

  lemma TemplateValue(t: PromptPay.CreditTransferTemplate)
    requires t == Template()
    ensures TemplateEntry(PromptPayCreditTransfer(t))
  {
    PromptPay.MobileTemplateValue();
    TemplateTextIsAscii();
  }

  /** Seven present slots and three empty ones, in the order 52 to 61 of the handler. */
  lemma TailFields(s: seq<Option<Field>>)
    requires |s| == 10 && s[3].None? && s[4].None? && s[5].None?
    requires s[0].Some? && s[1].Some? && s[2].Some? && s[6].Some? && s[7].Some? && s[8].Some? && s[9].Some?
    ensures SetFields(s) == [s[0].value, s[1].value, s[2].value, s[6].value, s[7].value, s[8].value, s[9].value]
  {
    assert s[..0] == [];
    SetFieldsStep(s, 0);
    SetFieldsStep(s, 1);
    SetFieldsStep(s, 2);
    SetFieldsStep(s, 3);
    SetFieldsStep(s, 4);
    SetFieldsStep(s, 5);
    SetFieldsStep(s, 6);
    SetFieldsStep(s, 7);
    SetFieldsStep(s, 8);
    SetFieldsStep(s, 9);
    assert s[..10] == s;
  }

  /** The handler's object once its setters have run, with `v` under tag "29". */
  predicate RequestState(emvo: EMVQR, v: EMVOData)
    reads emvo
  {
    && emvo.payloadFormatIndicator == Some(PayloadFormatField)
    && emvo.pointOfInitiationMethod == Some(PointOfInitiationField)
    && emvo.merchantAccountInformation == Some(map["29" := v])
    && emvo.merchantCategoryCode == Some(CategoryField)
    && emvo.transactionCurrency == Some(CurrencyField)
    && emvo.transactionAmount == Some(AmountField)
    && emvo.tipOrConvenienceIndicator.None?
    && emvo.valueOfConvenienceFeeFixed.None? && emvo.valueOfConvenienceFeePercentage.None?
    && emvo.countryCode == Some(CountryField)
    && emvo.merchantName == Some(NameField)
    && emvo.merchantCity == Some(CityField)
    && emvo.postalCode == Some(PostalCodeField)
  }

  /** What the handler's map holds under tag "29": a value whose text is the template's. */
  predicate TemplateEntry(v: EMVOData) {
    v.Defined() && v.Value() == TemplateText
  }

  /** The map's one entry becomes the handler's third field. */
  lemma RequestMapFields(v: EMVOData)
    requires TemplateEntry(v)
    ensures MaiReady(map["29" := v], ["29"])
    ensures MaiFields(map["29" := v], ["29"]) == [PromptPayField]
  {
    TemplateTextIsAscii();
    SingleEntry("29", v);
  }

  lemma RequestHead(emvo: EMVQR, v: EMVOData)
    requires RequestState(emvo, v) && TemplateEntry(v)
    ensures emvo.PayloadReady(["29"])
    ensures emvo.Head(["29"]) == [PayloadFormatField, PointOfInitiationField, PromptPayField]
  {
    RequestMapFields(v);
    var head := [emvo.payloadFormatIndicator, emvo.pointOfInitiationMethod];
    assert head[..0] == [];
    SetFieldsStep(head, 0);
    SetFieldsStep(head, 1);
    assert head[..2] == head;
  }

  lemma RequestTail(emvo: EMVQR, v: EMVOData)
    requires RequestState(emvo, v)
    ensures SetFields(emvo.TailSlots())
         == [CategoryField, CurrencyField, AmountField, CountryField, NameField, CityField, PostalCodeField]
  {
    TailFields(emvo.TailSlots());
  }

  /** The handler's object, once its setters have run, renders the handler's fields. */
  lemma RequestBodyFields(emvo: EMVQR, v: EMVOData)
    requires RequestState(emvo, v) && TemplateEntry(v)
    ensures emvo.PayloadReady(["29"])
    ensures emvo.BodyFields(["29"]) == Fields()
  {
    RequestHead(emvo, v);
    RequestTail(emvo, v);
    FieldsSplit();
  }

  /** The handler's fields are the three head fields followed by the seven tail fields. */
  lemma FieldsSplit()
    ensures [PayloadFormatField, PointOfInitiationField, PromptPayField]
          + [CategoryField, CurrencyField, AmountField, CountryField, NameField, CityField, PostalCodeField] == Fields()
  {
  }

  /** The handler's PromptPay template: customer-presented, with the mobile number. */
  method BuildTemplate() returns (t: PromptPay.CreditTransferTemplate)
    ensures t == Template()
  {
    var merchantPromptPay := new PromptPay.MerchantPromptPayCreditTransfer();
    merchantPromptPay.SetPromptpayPresentedType(PromptPay.CustomerPresented);
    merchantPromptPay.SetMobileNumber(Mobile);
    t := merchantPromptPay.Template();
  }

  /** The handler's literal inputs meet the setters' demands. */
  lemma RequestInputs()
    ensures NumericValid("02") && NumericValid(PromptPay.Baht) && NumericValid(MerchantCategory)
    ensures AlphanumericSpecialValid(Amount) && AlphanumericSpecialValid(MerchantName)
    ensures AlphanumericSpecialValid(City) && AlphanumericSpecialValid(PostalCode)
    ensures AlphanumericSpecialValid(PromptPay.Thai)
    ensures ParseUsize("29").Some? && InMerchantAccountInformationRange("29")
  {
    TwoDigitValue("29");
  }

  /** The handler's setters, in the handler's order. */
  method BuildRequest() returns (emvo: EMVQR, template: PromptPay.CreditTransferTemplate)
    ensures template == Template()
    ensures fresh(emvo) && RequestState(emvo, PromptPayCreditTransfer(template))
  {
    emvo, template := StartRequest();
    FinishRequest(emvo, template);
  }

  /** The setters up to the merchant category code. */
  method StartRequest() returns (emvo: EMVQR, template: PromptPay.CreditTransferTemplate)
    ensures template == Template()
    ensures fresh(emvo)
    ensures emvo.payloadFormatIndicator == Some(PayloadFormatField)
    ensures emvo.pointOfInitiationMethod == Some(PointOfInitiationField)
    ensures emvo.merchantAccountInformation.None?
    ensures emvo.merchantCategoryCode == Some(CategoryField)
    ensures emvo.transactionCurrency == Some(CurrencyField)
    ensures emvo.transactionAmount == Some(AmountField)
    ensures emvo.tipOrConvenienceIndicator.None?
    ensures emvo.valueOfConvenienceFeeFixed.None? && emvo.valueOfConvenienceFeePercentage.None?
    ensures emvo.merchantName == Some(NameField)
  {
    RequestInputs();
    emvo := new EMVQR();
    var result := emvo.SetPayloadFormatIndicator("02");
    var pointResult := emvo.SetPointTypes(StaticPoint);
    template := BuildTemplate();
    ContinueRequest(emvo);
  }

  /** The setters from the transaction currency to the merchant category code. */
  method ContinueRequest(emvo: EMVQR)
    modifies emvo`transactionCurrency, emvo`transactionAmount, emvo`merchantName, emvo`merchantCategoryCode
    ensures emvo.merchantCategoryCode == Some(CategoryField)
    ensures emvo.transactionCurrency == Some(CurrencyField)
    ensures emvo.transactionAmount == Some(AmountField)
    ensures emvo.merchantName == Some(NameField)
  {
    RequestInputs();
    emvo.SetTransactionCurrency(PromptPay.Baht);
    emvo.SetTransactionAmount(Amount);
    emvo.SetMerchantName(MerchantName);
    emvo.SetMerchantCategoryCode(MerchantCategory);
  }

  /** The setters from the merchant account information on. */
  method FinishRequest(emvo: EMVQR, template: PromptPay.CreditTransferTemplate)
    requires emvo.merchantAccountInformation.None?
    modifies emvo`merchantAccountInformation, emvo`merchantCity, emvo`postalCode, emvo`countryCode
    ensures emvo.merchantAccountInformation == Some(map["29" := PromptPayCreditTransfer(template)])
    ensures emvo.merchantCity == Some(CityField)
    ensures emvo.postalCode == Some(PostalCodeField)
    ensures emvo.countryCode == Some(CountryField)
  {
    RequestInputs();
    emvo.SetMerchantAccountInformation("29", PromptPayCreditTransfer(template));
    emvo.SetMerchantCity(City);
    emvo.SetPostalCode(PostalCode);
    emvo.SetCountryCode(PromptPay.Thai);
    assert map[]["29" := PromptPayCreditTransfer(template)] == map["29" := PromptPayCreditTransfer(template)];
  }

  // ---------------------------------------------------------------------------
  // The handler's checksum, computed a few characters at a time
  // ---------------------------------------------------------------------------

  /** One ASCII character fed into the register. */
  lemma FeedChar(r: bv16, c: char, b: bv8, s: string, next: bv16)
    requires c as int == b as int && b < 0x80 && Crc16.FeedByte(r, b) == next
    ensures Crc16.Register(r, Utf8.Encode([c] + s)) == Crc16.Register(next, Utf8.Encode(s))
  {
    var t := [c] + s;
    assert t[0] == c && t[1..] == s;
    assert Utf8.EncodeChar(c) == [b];
    var e := Utf8.Encode(s);
    assert Utf8.Encode(t) == [b] + e;
    assert ([b] + e)[0] == b && ([b] + e)[1..] == e;
  }

  /** The register over a concatenation of texts is the register over the first, then over the second. */
  lemma RegisterText(r: bv16, a: string, b: string)
    ensures Crc16.Register(r, Utf8.Encode(a + b)) == Crc16.Register(Crc16.Register(r, Utf8.Encode(a)), Utf8.Encode(b))
  {
    Utf8.EncodeAppend(a, b);
    Crc16.RegisterAppend(r, Utf8.Encode(a), Utf8.Encode(b));
  }

  lemma RegisterEmpty(r: bv16)
    ensures Crc16.Register(r, Utf8.Encode("")) == r
  {
  }

  lemma Chunk0Piece0()
    ensures Crc16.Register(0xFFFF, Utf8.Encode("0002")) == 0x7E08
  {
    assert "0002" == ['0'] + "002";
    FeedChar(0xFFFF, '0', 0x30, "002", 0xD7A3);
    assert "002" == ['0'] + "02";
    FeedChar(0xD7A3, '0', 0x30, "02", 0x2EC9);
    assert "02" == ['0'] + "2";
    FeedChar(0x2EC9, '0', 0x30, "2", 0x3AFF);
    assert "2" == ['2'] + "";
    FeedChar(0x3AFF, '2', 0x32, "", 0x7E08);
    RegisterEmpty(0x7E08);
  }

  lemma Chunk0Piece1()
    ensures Crc16.Register(0x7E08, Utf8.Encode("02")) == 0xB9DA
  {
    assert "02" == ['0'] + "2";
    FeedChar(0x7E08, '0', 0x30, "2", 0xA10A);
    assert "2" == ['2'] + "";
    FeedChar(0xA10A, '2', 0x32, "", 0xB9DA);
    RegisterEmpty(0xB9DA);
  }

  lemma Chunk0()
    ensures Crc16.Register(0xFFFF, Utf8.Encode("000202")) == 0xB9DA
  {
    assert "000202" == "0002" + ("02");
    Chunk0Piece1();
    Chunk0Piece0();
    RegisterText(0xFFFF, "0002", "02");
  }

  lemma Chunk1Piece0()
    ensures Crc16.Register(0xB9DA, Utf8.Encode("0102")) == 0x6D0B
  {
    assert "0102" == ['0'] + "102";
    FeedChar(0xB9DA, '0', 0x30, "102", 0xDAA1);
    assert "102" == ['1'] + "02";
    FeedChar(0xDAA1, '1', 0x31, "02", 0xED45);
    assert "02" == ['0'] + "2";
    FeedChar(0xED45, '0', 0x30, "2", 0x5FD0);
    assert "2" == ['2'] + "";
    FeedChar(0x5FD0, '2', 0x32, "", 0x6D0B);
    RegisterEmpty(0x6D0B);
  }

  lemma Chunk1Piece1()
    ensures Crc16.Register(0x6D0B, Utf8.Encode("11")) == 0xDCCB
  {
    assert "11" == ['1'] + "1";
    FeedChar(0x6D0B, '1', 0x31, "1", 0x9079);
    assert "1" == ['1'] + "";
    FeedChar(0x9079, '1', 0x31, "", 0xDCCB);
    RegisterEmpty(0xDCCB);
  }

  lemma Chunk1()
    ensures Crc16.Register(0xB9DA, Utf8.Encode("010211")) == 0xDCCB
  {
    assert "010211" == "0102" + ("11");
    Chunk1Piece1();
    Chunk1Piece0();
    RegisterText(0xB9DA, "0102", "11");
  }

  lemma Chunk2()
    ensures Crc16.Register(0xDCCB, Utf8.Encode("2937")) == 0xBDF0
  {
    assert "2937" == ['2'] + "937";
    FeedChar(0xDCCB, '2', 0x32, "937", 0xD7E0);
    assert "937" == ['9'] + "37";
    FeedChar(0xD7E0, '9', 0x39, "37", 0xFCE0);
    assert "37" == ['3'] + "7";
    FeedChar(0xFCE0, '3', 0x33, "7", 0xC8A3);
    assert "7" == ['7'] + "";
    FeedChar(0xC8A3, '7', 0x37, "", 0xBDF0);
    RegisterEmpty(0xBDF0);
  }

  lemma Chunk3Piece0()
    ensures Crc16.Register(0xBDF0, Utf8.Encode("0016")) == 0xA278
  {
    assert "0016" == ['0'] + "016";
    FeedChar(0xBDF0, '0', 0x30, "016", 0xB025);
    assert "016" == ['0'] + "16";
    FeedChar(0xB025, '0', 0x30, "16", 0xB488);
    assert "16" == ['1'] + "6";
    FeedChar(0xB488, '1', 0x31, "6", 0x492D);
    assert "6" == ['6'] + "";
    FeedChar(0x492D, '6', 0x36, "", 0xA278);
    RegisterEmpty(0xA278);
  }

  lemma Chunk3Piece1()
    ensures Crc16.Register(0xA278, Utf8.Encode("A000")) == 0x98FC
  {
    assert "A000" == ['A'] + "000";
    FeedChar(0xA278, 'A', 0x41, "000", 0xB54D);
    assert "000" == ['0'] + "00";
    FeedChar(0xB54D, '0', 0x30, "00", 0x8C2D);
    assert "00" == ['0'] + "0";
    FeedChar(0x8C2D, '0', 0x30, "0", 0x4B57);
    assert "0" == ['0'] + "";
    FeedChar(0x4B57, '0', 0x30, "", 0x98FC);
    RegisterEmpty(0x98FC);
  }

  lemma Chunk3Piece2()
    ensures Crc16.Register(0x98FC, Utf8.Encode("0006")) == 0x6F23
  {
    assert "0006" == ['0'] + "006";
    FeedChar(0x98FC, '0', 0x30, "006", 0xC8E2);
    assert "006" == ['0'] + "06";
    FeedChar(0xC8E2, '0', 0x30, "06", 0x8C17);
    assert "06" == ['0'] + "6";
    FeedChar(0x8C17, '0', 0x30, "6", 0x7157);
    assert "6" == ['6'] + "";
    FeedChar(0x7157, '6', 0x36, "", 0x6F23);
    RegisterEmpty(0x6F23);
  }

  lemma Chunk3Piece3()
    ensures Crc16.Register(0x6F23, Utf8.Encode("7701")) == 0x4CBC
  {
    assert "7701" == ['7'] + "701";
    FeedChar(0x6F23, '7', 0x37, "701", 0xF8FD);
    assert "701" == ['7'] + "01";
    FeedChar(0xF8FD, '7', 0x37, "01", 0xD5A3);
    assert "01" == ['0'] + "1";
    FeedChar(0xD5A3, '0', 0x30, "1", 0x0E8B);
    assert "1" == ['1'] + "";
    FeedChar(0x0E8B, '1', 0x31, "", 0x4CBC);
    RegisterEmpty(0x4CBC);
  }

  lemma Chunk3Piece4()
    ensures Crc16.Register(0x4CBC, Utf8.Encode("0114")) == 0x343F
  {
    assert "0114" == ['0'] + "114";
    FeedChar(0x4CBC, '0', 0x30, "114", 0x031B);
    assert "114" == ['1'] + "14";
    FeedChar(0x031B, '1', 0x31, "14", 0x0D11);
    assert "14" == ['1'] + "4";
    FeedChar(0x0D11, '1', 0x31, "4", 0xE6DF);
    assert "4" == ['4'] + "";
    FeedChar(0xE6DF, '4', 0x34, "", 0x343F);
    RegisterEmpty(0x343F);
  }

  lemma Chunk3()
    ensures Crc16.Register(0xBDF0, Utf8.Encode("0016A000000677010114")) == 0x343F
  {
    assert "0016A000000677010114" == "0016" + ("A000" + ("0006" + ("7701" + ("0114"))));
    Chunk3Piece4();
    Chunk3Piece3();
    RegisterText(0x6F23, "7701", "0114");
    Chunk3Piece2();
    RegisterText(0x98FC, "0006", "7701" + ("0114"));
    Chunk3Piece1();
    RegisterText(0xA278, "A000", "0006" + ("7701" + ("0114")));
    Chunk3Piece0();
    RegisterText(0xBDF0, "0016", "A000" + ("0006" + ("7701" + ("0114"))));
  }

  lemma Chunk4Piece0()
    ensures Crc16.Register(0x343F, Utf8.Encode("0113")) == 0xE164
  {
    assert "0113" == ['0'] + "113";
    FeedChar(0x343F, '0', 0x30, "113", 0x7F84);
    assert "113" == ['1'] + "13";
    FeedChar(0x7F84, '1', 0x31, "13", 0x2D0A);
    assert "13" == ['1'] + "3";
    FeedChar(0x2D0A, '1', 0x31, "3", 0xD9BD);
    assert "3" == ['3'] + "";
    FeedChar(0xD9BD, '3', 0x33, "", 0xE164);
    RegisterEmpty(0xE164);
  }

  lemma Chunk4Piece1()
    ensures Crc16.Register(0xE164, Utf8.Encode("0000")) == 0x6F7F
  {
    assert "0000" == ['0'] + "000";
    FeedChar(0xE164, '0', 0x30, "000", 0xBF5C);
    assert "000" == ['0'] + "00";
    FeedChar(0xBF5C, '0', 0x30, "00", 0x3C67);
    assert "00" == ['0'] + "0";
    FeedChar(0x3C67, '0', 0x30, "0", 0xA68C);
    assert "0" == ['0'] + "";
    FeedChar(0xA68C, '0', 0x30, "", 0x6F7F);
    RegisterEmpty(0x6F7F);
  }

  lemma Chunk4Piece2()
    ensures Crc16.Register(0x6F7F, Utf8.Encode("8097")) == 0xEC33
  {
    assert "8097" == ['8'] + "097";
    FeedChar(0x6F7F, '8', 0x38, "097", 0x5512);
    assert "097" == ['0'] + "97";
    FeedChar(0x5512, '0', 0x30, "97", 0x2E03);
    assert "97" == ['9'] + "7";
    FeedChar(0x2E03, '9', 0x39, "7", 0x61D6);
    assert "7" == ['7'] + "";
    FeedChar(0x61D6, '7', 0x37, "", 0xEC33);
    RegisterEmpty(0xEC33);
  }

  lemma Chunk4Piece3()
    ensures Crc16.Register(0xEC33, Utf8.Encode("2990")) == 0x44C6
  {
    assert "2990" == ['2'] + "990";
    FeedChar(0xEC33, '2', 0x32, "990", 0x19B3);
    assert "990" == ['9'] + "90";
    FeedChar(0x19B3, '9', 0x39, "90", 0x9762);
    assert "90" == ['9'] + "0";
    FeedChar(0x9762, '9', 0x39, "0", 0x3624);
    assert "0" == ['0'] + "";
    FeedChar(0x3624, '0', 0x30, "", 0x44C6);
    RegisterEmpty(0x44C6);
  }

  lemma Chunk4Piece4()
    ensures Crc16.Register(0x44C6, Utf8.Encode("0")) == 0xF813
  {
    assert "0" == ['0'] + "";
    FeedChar(0x44C6, '0', 0x30, "", 0xF813);
    RegisterEmpty(0xF813);
  }

  lemma Chunk4()
    ensures Crc16.Register(0x343F, Utf8.Encode("01130000809729900")) == 0xF813
  {
    assert "01130000809729900" == "0113" + ("0000" + ("8097" + ("2990" + ("0"))));
    Chunk4Piece4();
    Chunk4Piece3();
    RegisterText(0xEC33, "2990", "0");
    Chunk4Piece2();
    RegisterText(0x6F7F, "8097", "2990" + ("0"));
    Chunk4Piece1();
    RegisterText(0xE164, "0000", "8097" + ("2990" + ("0")));
    Chunk4Piece0();
    RegisterText(0x343F, "0113", "0000" + ("8097" + ("2990" + ("0"))));
  }

  lemma Chunk5Piece0()
    ensures Crc16.Register(0xF813, Utf8.Encode("5204")) == 0x4896
  {
    assert "5204" == ['5'] + "204";
    FeedChar(0xF813, '5', 0x35, "204", 0x1BE1);
    assert "204" == ['2'] + "04";
    FeedChar(0x1BE1, '2', 0x32, "04", 0x544B);
    assert "04" == ['0'] + "4";
    FeedChar(0x544B, '0', 0x30, "4", 0x6722);
    assert "4" == ['4'] + "";
    FeedChar(0x6722, '4', 0x34, "", 0x4896);
    RegisterEmpty(0x4896);
  }

  lemma Chunk5Piece1()
    ensures Crc16.Register(0x4896, Utf8.Encode("5311")) == 0x3D49
  {
    assert "5311" == ['5'] + "311";
    FeedChar(0x4896, '5', 0x35, "311", 0x393A);
    assert "311" == ['3'] + "11";
    FeedChar(0x393A, '3', 0x33, "11", 0x9B4A);
    assert "11" == ['1'] + "1";
    FeedChar(0x9B4A, '1', 0x31, "1", 0x5EA0);
    assert "1" == ['1'] + "";
    FeedChar(0x5EA0, '1', 0x31, "", 0x3D49);
    RegisterEmpty(0x3D49);
  }

  lemma Chunk5()
    ensures Crc16.Register(0xF813, Utf8.Encode("52045311")) == 0x3D49
  {
    assert "52045311" == "5204" + ("5311");
    Chunk5Piece1();
    Chunk5Piece0();
    RegisterText(0xF813, "5204", "5311");
  }

  lemma Chunk6Piece0()
    ensures Crc16.Register(0x3D49, Utf8.Encode("5303")) == 0x99AF
  {
    assert "5303" == ['5'] + "303";
    FeedChar(0x3D49, '5', 0x35, "303", 0xC808);
    assert "303" == ['3'] + "03";
    FeedChar(0xC808, '3', 0x33, "03", 0x5674);
    assert "03" == ['0'] + "3";
    FeedChar(0x5674, '0', 0x30, "3", 0x7860);
    assert "3" == ['3'] + "";
    FeedChar(0x7860, '3', 0x33, "", 0x99AF);
    RegisterEmpty(0x99AF);
  }

  lemma Chunk6Piece1()
    ensures Crc16.Register(0x99AF, Utf8.Encode("764")) == 0x7239
  {
    assert "764" == ['7'] + "64";
    FeedChar(0x99AF, '7', 0x37, "64", 0xFB24);
    assert "64" == ['6'] + "4";
    FeedChar(0xFB24, '6', 0x36, "4", 0x2CE1);
    assert "4" == ['4'] + "";
    FeedChar(0x2CE1, '4', 0x34, "", 0x7239);
    RegisterEmpty(0x7239);
  }

  lemma Chunk6()
    ensures Crc16.Register(0x3D49, Utf8.Encode("5303764")) == 0x7239
  {
    assert "5303764" == "5303" + ("764");
    Chunk6Piece1();
    Chunk6Piece0();
    RegisterText(0x3D49, "5303", "764");
  }

  lemma Chunk7Piece0()
    ensures Crc16.Register(0x7239, Utf8.Encode("5402")) == 0x6E64
  {
    assert "5402" == ['5'] + "402";
    FeedChar(0x7239, '5', 0x35, "402", 0x0123);
    assert "402" == ['4'] + "02";
    FeedChar(0x0123, '4', 0x34, "02", 0x45F6);
    assert "02" == ['0'] + "2";
    FeedChar(0x45F6, '0', 0x30, "2", 0xD832);
    assert "2" == ['2'] + "";
    FeedChar(0xD832, '2', 0x32, "", 0x6E64);
    RegisterEmpty(0x6E64);
  }

  lemma Chunk7Piece1()
    ensures Crc16.Register(0x6E64, Utf8.Encode("50")) == 0xC834
  {
    assert "50" == ['5'] + "0";
    FeedChar(0x6E64, '5', 0x35, "0", 0x8F9E);
    assert "0" == ['0'] + "";
    FeedChar(0x8F9E, '0', 0x30, "", 0xC834);
    RegisterEmpty(0xC834);
  }

  lemma Chunk7()
    ensures Crc16.Register(0x7239, Utf8.Encode("540250")) == 0xC834
  {
    assert "540250" == "5402" + ("50");
    Chunk7Piece1();
    Chunk7Piece0();
    RegisterText(0x7239, "5402", "50");
  }

  lemma Chunk8Piece0()
    ensures Crc16.Register(0xC834, Utf8.Encode("5802")) == 0xC02E
  {
    assert "5802" == ['5'] + "802";
    FeedChar(0xC834, '5', 0x35, "802", 0x0AB2);
    assert "802" == ['8'] + "02";
    FeedChar(0x0AB2, '8', 0x38, "02", 0xA411);
    assert "02" == ['0'] + "2";
    FeedChar(0xA411, '0', 0x30, "2", 0xD23D);
    assert "2" == ['2'] + "";
    FeedChar(0xD23D, '2', 0x32, "", 0xC02E);
    RegisterEmpty(0xC02E);
  }

  lemma Chunk8Piece1()
    ensures Crc16.Register(0xC02E, Utf8.Encode("TH")) == 0xD84F
  {
    assert "TH" == ['T'] + "H";
    FeedChar(0xC02E, 'T', 0x54, "H", 0xED3D);
    assert "H" == ['H'] + "";
    FeedChar(0xED3D, 'H', 0x48, "", 0xD84F);
    RegisterEmpty(0xD84F);
  }

  lemma Chunk8()
    ensures Crc16.Register(0xC834, Utf8.Encode("5802TH")) == 0xD84F
  {
    assert "5802TH" == "5802" + ("TH");
    Chunk8Piece1();
    Chunk8Piece0();
    RegisterText(0xC834, "5802", "TH");
  }

  lemma Chunk9Piece0()
    ensures Crc16.Register(0xD84F, Utf8.Encode("5904")) == 0xA486
  {
    assert "5904" == ['5'] + "904";
    FeedChar(0xD84F, '5', 0x35, "904", 0x6383);
    assert "904" == ['9'] + "04";
    FeedChar(0x6383, '9', 0x39, "04", 0x78BF);
    assert "04" == ['0'] + "4";
    FeedChar(0x78BF, '0', 0x30, "4", 0x76CC);
    assert "4" == ['4'] + "";
    FeedChar(0x76CC, '4', 0x34, "", 0xA486);
    RegisterEmpty(0xA486);
  }

  lemma Chunk9Piece1()
    ensures Crc16.Register(0xA486, Utf8.Encode("test")) == 0x327B
  {
    assert "test" == ['t'] + "est";
    FeedChar(0xA486, 't', 0x74, "est", 0x4D7D);
    assert "est" == ['e'] + "st";
    FeedChar(0x4D7D, 'e', 0x65, "st", 0xD86A);
    assert "st" == ['s'] + "t";
    FeedChar(0xD86A, 's', 0x73, "t", 0x6E81);
    assert "t" == ['t'] + "";
    FeedChar(0x6E81, 't', 0x74, "", 0x327B);
    RegisterEmpty(0x327B);
  }

  lemma Chunk9()
    ensures Crc16.Register(0xD84F, Utf8.Encode("5904test")) == 0x327B
  {
    assert "5904test" == "5904" + ("test");
    Chunk9Piece1();
    Chunk9Piece0();
    RegisterText(0xD84F, "5904", "test");
  }

  lemma Chunk10Piece0()
    ensures Crc16.Register(0x327B, Utf8.Encode("6007")) == 0x648C
  {
    assert "6007" == ['6'] + "007";
    FeedChar(0x327B, '6', 0x36, "007", 0x3B84);
    assert "007" == ['0'] + "07";
    FeedChar(0x3B84, '0', 0x30, "07", 0x356B);
    assert "07" == ['0'] + "7";
    FeedChar(0x356B, '0', 0x30, "7", 0x3BA5);
    assert "7" == ['7'] + "";
    FeedChar(0x3BA5, '7', 0x37, "", 0x648C);
    RegisterEmpty(0x648C);
  }

  lemma Chunk10Piece1()
    ensures Crc16.Register(0x648C, Utf8.Encode("Bang")) == 0xC6D3
  {
    assert "Bang" == ['B'] + "ang";
    FeedChar(0x648C, 'B', 0x42, "ang", 0xC8A4);
    assert "ang" == ['a'] + "ng";
    FeedChar(0xC8A4, 'a', 0x61, "ng", 0x80C3);
    assert "ng" == ['n'] + "g";
    FeedChar(0x80C3, 'n', 0x6E, "g", 0xDFE0);
    assert "g" == ['g'] + "";
    FeedChar(0xDFE0, 'g', 0x67, "", 0xC6D3);
    RegisterEmpty(0xC6D3);
  }

  lemma Chunk10Piece2()
    ensures Crc16.Register(0xC6D3, Utf8.Encode("kok")) == 0x7960
  {
    assert "kok" == ['k'] + "ok";
    FeedChar(0xC6D3, 'k', 0x6B, "ok", 0xB747);
    assert "ok" == ['o'] + "k";
    FeedChar(0xB747, 'o', 0x6F, "k", 0x0D75);
    assert "k" == ['k'] + "";
    FeedChar(0x0D75, 'k', 0x6B, "", 0x7960);
    RegisterEmpty(0x7960);
  }

  lemma Chunk10()
    ensures Crc16.Register(0x327B, Utf8.Encode("6007Bangkok")) == 0x7960
  {
    assert "6007Bangkok" == "6007" + ("Bang" + ("kok"));
    Chunk10Piece2();
    Chunk10Piece1();
    RegisterText(0x648C, "Bang", "kok");
    Chunk10Piece0();
    RegisterText(0x327B, "6007", "Bang" + ("kok"));
  }

  lemma Chunk11Piece0()
    ensures Crc16.Register(0x7960, Utf8.Encode("6105")) == 0xB0EF
  {
    assert "6105" == ['6'] + "105";
    FeedChar(0x7960, '6', 0x36, "105", 0xD92B);
    assert "105" == ['1'] + "05";
    FeedChar(0xD92B, '1', 0x31, "05", 0x5726);
    assert "05" == ['0'] + "5";
    FeedChar(0x5726, '0', 0x30, "5", 0x3A41);
    assert "5" == ['5'] + "";
    FeedChar(0x3A41, '5', 0x35, "", 0xB0EF);
    RegisterEmpty(0xB0EF);
  }

  lemma Chunk11Piece1()
    ensures Crc16.Register(0xB0EF, Utf8.Encode("1024")) == 0xF709
  {
    assert "1024" == ['1'] + "024";
    FeedChar(0xB0EF, '1', 0x31, "024", 0x6EA9);
    assert "024" == ['0'] + "24";
    FeedChar(0x6EA9, '0', 0x30, "24", 0x123B);
    assert "24" == ['2'] + "4";
    FeedChar(0x123B, '2', 0x32, "4", 0x1F62);
    assert "4" == ['4'] + "";
    FeedChar(0x1F62, '4', 0x34, "", 0xF709);
    RegisterEmpty(0xF709);
  }

  lemma Chunk11Piece2()
    ensures Crc16.Register(0xF709, Utf8.Encode("0")) == 0xA0AB
  {
    assert "0" == ['0'] + "";
    FeedChar(0xF709, '0', 0x30, "", 0xA0AB);
    RegisterEmpty(0xA0AB);
  }

  lemma Chunk11()
    ensures Crc16.Register(0x7960, Utf8.Encode("610510240")) == 0xA0AB
  {
    assert "610510240" == "6105" + ("1024" + ("0"));
    Chunk11Piece2();
    Chunk11Piece1();
    RegisterText(0xB0EF, "1024", "0");
    Chunk11Piece0();
    RegisterText(0x7960, "6105", "1024" + ("0"));
  }

  lemma Chunk12()
    ensures Crc16.Register(0xA0AB, Utf8.Encode("63")) == 0xB0FC
  {
    assert "63" == ['6'] + "3";
    FeedChar(0xA0AB, '6', 0x36, "3", 0x487F);
    assert "3" == ['3'] + "";
    FeedChar(0x487F, '3', 0x33, "", 0xB0FC);
    RegisterEmpty(0xB0FC);
  }

  lemma Chunk13()
    ensures Crc16.Register(0xB0FC, Utf8.Encode("04")) == 0x43DC
  {
    assert "04" == ['0'] + "4";
    FeedChar(0xB0FC, '0', 0x30, "4", 0x6D88);
    assert "4" == ['4'] + "";
    FeedChar(0x6D88, '4', 0x34, "", 0x43DC);
    RegisterEmpty(0x43DC);
  }

  lemma Group0()
    ensures Crc16.Register(0xFFFF, Utf8.Encode("000202" + ("010211" + ("2937" + ("0016A000000677010114" + ("01130000809729900")))))) == 0xF813
  {
    Chunk4();
    Chunk3();
    RegisterText(0xBDF0, "0016A000000677010114", "01130000809729900");
    Chunk2();
    RegisterText(0xDCCB, "2937", "0016A000000677010114" + ("01130000809729900"));
    Chunk1();
    RegisterText(0xB9DA, "010211", "2937" + ("0016A000000677010114" + ("01130000809729900")));
    Chunk0();
    RegisterText(0xFFFF, "000202", "010211" + ("2937" + ("0016A000000677010114" + ("01130000809729900"))));
  }

  lemma Group1()
    ensures Crc16.Register(0xF813, Utf8.Encode("52045311" + ("5303764" + ("540250" + ("5802TH" + ("5904test")))))) == 0x327B
  {
    Chunk9();
    Chunk8();
    RegisterText(0xC834, "5802TH", "5904test");
    Chunk7();
    RegisterText(0x7239, "540250", "5802TH" + ("5904test"));
    Chunk6();
    RegisterText(0x3D49, "5303764", "540250" + ("5802TH" + ("5904test")));
    Chunk5();
    RegisterText(0xF813, "52045311", "5303764" + ("540250" + ("5802TH" + ("5904test"))));
  }

  lemma Group2()
    ensures Crc16.Register(0x327B, Utf8.Encode("6007Bangkok" + ("610510240" + ("63" + ("04"))))) == 0x43DC
  {
    Chunk13();
    Chunk12();
    RegisterText(0xA0AB, "63", "04");
    Chunk11();
    RegisterText(0x7960, "610510240", "63" + ("04"));
    Chunk10();
    RegisterText(0x327B, "6007Bangkok", "610510240" + ("63" + ("04")));
  }

  /** The register after the handler's body, "63" and "04". */
  lemma BodyRegister()
    ensures Crc16.Register(Crc16.Init, Utf8.Encode(Body + IdCrc + "04")) == 0x43DC
  {
    assert Body + IdCrc + "04" == ("000202" + ("010211" + ("2937" + ("0016A000000677010114" + ("01130000809729900"))))) + (("52045311" + ("5303764" + ("540250" + ("5802TH" + ("5904test"))))) + ("6007Bangkok" + ("610510240" + ("63" + ("04")))));
    Group0();
    Group1();
    Group2();
    RegisterText(0xF813, "52045311" + ("5303764" + ("540250" + ("5802TH" + ("5904test")))), "6007Bangkok" + ("610510240" + ("63" + ("04"))));
    RegisterText(0xFFFF, "000202" + ("010211" + ("2937" + ("0016A000000677010114" + ("01130000809729900")))), ("52045311" + ("5303764" + ("540250" + ("5802TH" + ("5904test"))))) + ("6007Bangkok" + ("610510240" + ("63" + ("04")))));
  }

  /** The handler's checksum: the CRC of its body, "63" and "04" is 0x43DC, written "43DC". */
  lemma CrcHexValue()
    ensures CrcHex(Body) == "43DC"
  {
    BodyRegister();
    var v: bv16 := 0x43DC;
    assert Crc16.Checksum(Utf8.Encode(Body + IdCrc + "04")) == v;
    var l := Crc16.LowerHex4(v);
    assert v as int == 17372;
    assert l == "43dc";
    Crc16.ToUppercaseAt(l, 0);
    Crc16.ToUppercaseAt(l, 1);
    Crc16.ToUppercaseAt(l, 2);
    Crc16.ToUppercaseAt(l, 3);
  }

  /**
    `qr_code_tag30` up to the payload: the handler's object, then the payload
    with its checksum.
   */
  method QrCodeTag30() returns (r: Result<string, EMVOError>)
    ensures r == Ok(PayloadText(Body))
    ensures r == Ok(Body + "6304" + "43DC")
  {
    var emvo, template := BuildRequest();
    TemplateValue(template);
    RequestBodyFields(emvo, PromptPayCreditTransfer(template));
    BodyRenders();
    r := emvo.GeneratePayLoad(["29"]);
    PayloadLiteral();
  }

  /** The handler's payload written out: the body, "6304" and the checksum "43DC". */
  lemma PayloadLiteral()
    ensures PayloadText(Body) == Body + "6304" + "43DC"
  {
    CrcHexValue();
    assert IdCrc + "04" == "6304";
  }

  /** The handler's payload passes the scanner's check and reads back as its fields and the checksum. */
  lemma RequestPayloadChecks()
    ensures ChecksumValid(PayloadText(Body))
    ensures DecodeAll(PayloadText(Body)) == Some(Wires(Fields()) + [(IdCrc, CrcHex(Body))])
    ensures CrcHex(Body) == "43DC"
  {
    CrcHexValue();
    BodyRenders();
    PayloadPassesChecksum(Body);
    forall i | 0 <= i < |Fields()|
      ensures Decodable(Fields()[i])
    {
      FieldRenders(i);
    }
    PayloadDecodes(Fields(), Body);
  }
}
