# qrtag30 — a Dafny model of the EMVCo merchant-presented QR payload encoder

The repository builds the text of a Thai PromptPay QR code in the EMVCo
merchant-presented format. The text is a run of TLV data objects:
- a payload is a sequence of data objects;
- each data object is a two-digit tag, a two-digit length and a value;
- the payload ends with the checksum object "63", which holds a CRC-16 of
  everything before it, written as four upper-case hexadecimal digits.

This project models the encoder's core:
- the scalar value types and their validation (`src/emvo_types.rs`);
- the data object, its rendering and the list builder;
- the `EMVQR` payload object, its setters and `generate_pay_load` with its
  checksum (`src/emvo_qrcode.rs`);
- the PromptPay credit-transfer sub-template (`src/prompt_pay.rs`);
- the fixed request the HTTP handler builds (`src/apis.rs:85-105`).

The model proves what that code does. Under the corrected rendering (see "## Findings", row 1) it also proves what the encoder guarantees:
- a rendered payload parses back into the fields it was built from;
- every payload passes its own checksum test;
- any change to one ASCII character in front of the checksum makes the test fail;
- the CRC matches the CRC-16/CCITT-FALSE check value 0x29B1.

Modules:
- `Wrappers`: `Option`, `Result`.
- `Utf8`: Rust's `String::len` and `into_bytes`, that is, UTF-8 byte counts and encoding.
- `EmvoTypes`: numeric, alphanumeric-special and string values.
  - The two regular expressions become character predicates.
  - `try_from` becomes functions.
  - `usize` parsing.
  - The inclusive tag-range test `is_between`.
- `TlvField`: `EMVQRFieldDataObject::value` as `Render`, the list builder (as a class) and a decoder that serves as the partner of rendering.
- `Crc16`:
  - the CRC with width 16, polynomial 0x1021, initial value 0xFFFF, no reflection and no final xor, as a bit-serial loop over `bv16`;
  - the `{:04x}` formatting, `to_uppercase`, and a hexadecimal parser as its partner.
- `PromptPay`: the credit-transfer template (a value) and the `MerchantPromptPayCreditTransfer` builder (a class).
- `EmvoQrcode`:
  - the closed set of values a merchant account information entry holds (`EMVOData`);
  - the `EMVQR` class;
  - `generate_pay_load`.
- `FixedRequest`: the `qr_code_tag30` handler's payload.
  - The request's three inputs are fixed to mobile "0809729900", amount 50 and merchant name "test".
  - `50f32.to_string()` is "50".

Every `unwrap` in the core becomes a `requires` that makes it succeed:
- a numeric setter requires digits;
- `generate_pay_load` requires that the body renders.

An `Err` that the source returns is modelled as an `Err` value.

The payload format indicator guard is modelled as written:
- `set_payload_format_indicator` rejects "01" (`src/emvo_qrcode.rs:224-226`), although "01" is well-formed numeric text;
- the handler passes "02".

Three statements in the code do not do what the surrounding code and the design evidently intend (see "## Findings"):
1. The numeric-only padding rule.
2. The one-time-alias guard.
3. The tip setter.

For each one the model states the code as written and proves the discrepancy. It then defines the corrected behaviour, and the rest of the model uses that corrected behaviour. In particular, `FixedRequest` proves the handler's payload under the corrected rendering. `TlvField.AsWrittenMerchantNameExample`, `FixedRequest.AsWrittenExact` and `FixedRequest.AsWrittenFieldRenders` show what the code as written renders for the handler's objects instead. Likewise, a PromptPay template's value, and every payload built from it, includes the one-time alias under the corrected guard; `PromptPay.CreditTransferTemplate.ValueAsWritten` is the value as written, without it.

## Model

| member | source | states |
|---|---|---|
| Utf8.EncodeChar | src/emvo_qrcode.rs:428 | a character encodes to 1 to 4 bytes; exactly the ASCII characters take one byte, and that byte is the character's code |
| Utf8.ByteLength | src/emvo_types.rs:95-97 | `String::len` is at least the character count and equals it exactly when the text is ASCII |
| Utf8.ByteLengthIsEncodedLength | src/emvo_qrcode.rs:428 | the byte count used for lengths is the length of the bytes the checksum is computed over |
| Utf8.EncodeAppend | src/emvo_qrcode.rs:428 | the bytes of a concatenation are the concatenation of the bytes |
| Utf8.EncodeAscii | src/emvo_qrcode.rs:428 | an ASCII text encodes to one byte per character, each the character's code |
| EmvoTypes.ScalarData.Len | src/emvo_types.rs:64-136 | numeric and alphanumeric lengths count bytes, which is the character count exactly for ASCII; string lengths count characters |
| EmvoTypes.NumericTryFrom | src/emvo_types.rs:82-92 | succeeds iff the text is all digits, keeps the text, yields a valid numeric value; otherwise "Numeric invalid" |
| EmvoTypes.AlphanumericSpecialTryFrom | src/emvo_types.rs:111-121 | succeeds iff every character is a digit, letter, whitespace or one of `. ! ? \ -`, keeping the text; otherwise "Alpha Numeric Invalid" |
| EmvoTypes.StringTryFrom | src/emvo_types.rs:137-148 | always succeeds (a Rust `String` is valid UTF-8) and keeps the text |
| EmvoTypes.NumericIsAlphanumericSpecial | src/emvo_types.rs:98-103 | every numeric text is an accepted alphanumeric-special text |
| EmvoTypes.AlphanumericSpecialRejects | src/emvo_types.rs:98-103 | a text containing `@` or `#` is rejected with "Alpha Numeric Invalid" |
| EmvoTypes.NumericLenIsCharCount | src/emvo_types.rs:64-73 | a numeric value is ASCII, so its length is its character count |
| EmvoTypes.TypeNamesDistinct | src/emvo_types.rs:9-11 | the three type names differ |
| EmvoTypes.ParseUsize | src/emvo_types.rs:155-157 | `usize` parsing succeeds iff the text is an optional `+` and at least one digit with value at most 2^64-1, and the result is that value |
| EmvoTypes.ParseUsizeRoundTrip | src/emvo_types.rs:155-157 | `usize` parsing reads a formatted number back, with or without a leading `+` |
| EmvoTypes.NatToDecimal | src/emvo_qrcode.rs:151-153 | decimal formatting gives at least one digit, one digit exactly below 10, at most two below 100 |
| EmvoTypes.NatToDecimalRoundTrip | src/emvo_qrcode.rs:151-153 | reading the formatted digits back gives the number |
| EmvoTypes.IsBetween | src/emvo_types.rs:154-159 | true iff the parsed tag lies in the inclusive range of the parsed bounds |
| EmvoTypes.TwoDigitValue | src/emvo_types.rs:155 | a two-digit tag parses to ten times its first digit plus its second, which is its tag number |
| EmvoTypes.IsBetweenIsTagOrder | src/emvo_types.rs:153-159 | on two-digit tags the range test is the textual order of the tags |
| TlvField.Zeros | src/emvo_qrcode.rs:145 | n zero characters |
| TlvField.LeftPadZeros | src/emvo_qrcode.rs:145 | `{:0>width$}`: the text preceded by just enough zeros to reach the width, never shortened |
| TlvField.Pad2 | src/emvo_qrcode.rs:142-144 | `{:0>2}` of a number: digits whose value is the number, exactly two of them below 100 |
| TlvField.Pad2Digits | src/emvo_qrcode.rs:142-144 | below 100 the two digits are the tens and the units |
| TlvField.Pad2OfDigits | src/emvo_qrcode.rs:142-144 | formatting the value of a two-digit text gives the text back |
| TlvField.Render | src/emvo_qrcode.rs:127-164 | intended rendering: Ok iff the value is valid, non-empty and within the declared length; otherwise "Data Invalid", "Data Is Empty" or "Data Length Invalid", in that order of precedence (the two successful forms are RenderNumeric and RenderVariable) |
| TlvField.RenderAsWritten | src/emvo_qrcode.rs:127-164 | rendering as written: succeeds and fails exactly when the intended rendering does, with the same errors |
| TlvField.RenderNumeric | src/emvo_qrcode.rs:139-147 | a numeric object renders as tag, two-digit declared length, value left-padded with zeros to that length |
| TlvField.RenderVariable | src/emvo_qrcode.rs:148-156 | any other object renders as tag, two-digit actual length and the unpadded value |
| TlvField.RenderNeverTruncates | src/emvo_qrcode.rs:132-136 | a rendering ends with the whole value; a value longer than the declared length is refused with "Data Length Invalid" |
| TlvField.RenderText | src/emvo_qrcode.rs:148-156 | an ASCII alphanumeric value within its length renders as tag, its character count and itself |
| TlvField.RenderAllOk | src/emvo_qrcode.rs:181-197 | the list renders iff every object in it renders |
| TlvField.RenderAllAppend | src/emvo_qrcode.rs:181-197 | rendering two lists one after the other is rendering their concatenation: texts concatenate, the first error wins |
| TlvField.RenderAllSnoc | src/emvo_qrcode.rs:183-195 | adding one object appends its rendering or stops at the first error |
| TlvField.RenderAllErrPrefix | src/emvo_qrcode.rs:191-193 | once a prefix fails, nothing after it changes the error |
| TlvField.RenderAllStep | src/emvo_qrcode.rs:186-190 | a successful prefix followed by a successful object renders as the two texts concatenated |
| TlvField.RenderAllStopsAt | src/emvo_qrcode.rs:191-193 | the list fails with the error of the first object that fails |
| TlvField.RenderAllErrFromField | src/emvo_qrcode.rs:191-193 | a failing list fails with the error of one of its objects |
| TlvField.RenderAllFirstError | src/emvo_qrcode.rs:183-195 | if objects before i all render and object i fails, the whole list fails with object i's error |
| TlvField.FieldListBuilder.constructor | src/emvo_qrcode.rs:167-170 | a new builder holds no objects and renders to the empty text |
| TlvField.FieldListBuilder.AddFieldObject | src/emvo_qrcode.rs:178-180 | appends the object and changes nothing else |
| TlvField.FieldListBuilder.ToString | src/emvo_qrcode.rs:181-197 | the loop returns the list rendering: concatenation of all renderings or the first error |
| TlvField.DecodeOne | src/emvo_qrcode.rs:150-155 | a decoded object is a two-digit tag, its length written in two digits, that many characters of value, then the rest |
| TlvField.RenderDecodes | src/emvo_qrcode.rs:127-164 | decoding a rendered object gives back its tag, its value (padded for numeric) and whatever followed |
| TlvField.RenderAllDecodes | src/emvo_qrcode.rs:181-197 | the rendering of a list of objects decodes to the list's tags and values, in order |
| TlvField.AsWrittenAgreesOnNumeric | src/emvo_qrcode.rs:139-147 | on numeric objects the code as written renders what was intended |
| TlvField.AsWrittenHeaderIsDeclaredWidth | src/emvo_qrcode.rs:139-147 | as written, every rendered object carries its declared length, whatever its type |
| TlvField.AsWrittenDiffersOnShortText | src/emvo_qrcode.rs:138-156 | as written, a non-numeric value shorter than its declared length renders differently from the intended form |
| TlvField.AsWrittenMerchantNameExample | src/emvo_qrcode.rs:138-156 | the merchant name "test" (tag 59, length 25) renders as "5904test" as intended but as "5925", 21 zeros and "test" as written |
| Crc16.ShiftByte | src/emvo_qrcode.rs:415-424 | eight bit-serial steps of polynomial 0x1021 without reflection |
| Crc16.Compute | src/emvo_qrcode.rs:426-429 | the digest loop from 0xFFFF over the bytes returns the checksum with no final xor |
| Crc16.CheckValue | src/emvo_qrcode.rs:422 | the checksum of "123456789" is 0x29B1 |
| Crc16.ShiftNInjective | src/emvo_qrcode.rs:415-424 | distinct registers stay distinct after any number of shift steps |
| Crc16.FeedByteInjectiveInByte | src/emvo_qrcode.rs:415-424 | from one register, distinct bytes give distinct registers |
| Crc16.FeedByteInjectiveInRegister | src/emvo_qrcode.rs:415-424 | one byte from distinct registers gives distinct registers |
| Crc16.RegisterInjective | src/emvo_qrcode.rs:426-428 | distinct registers stay distinct over any byte sequence |
| Crc16.RegisterAppend | src/emvo_qrcode.rs:427-428 | feeding two byte sequences in turn is feeding their concatenation |
| Crc16.SingleByteChangeDetected | src/emvo_qrcode.rs:415-429 | two byte sequences of the same length that differ in exactly one byte have different checksums |
| Crc16.LowerHex4 | src/emvo_qrcode.rs:429 | `{:04x}` of a 16-bit value is four characters |
| Crc16.ToUppercase | src/emvo_qrcode.rs:434 | upper-casing keeps the length |
| Crc16.ToUppercaseAt | src/emvo_qrcode.rs:434 | upper-casing maps each character on its own |
| Crc16.UppercaseHexDigit | src/emvo_qrcode.rs:429-434 | an upper-cased lower-case hexadecimal digit is an upper-case hexadecimal digit with the same value |
| Crc16.HexUpper4RoundTrip | src/emvo_qrcode.rs:429-434 | the upper-cased four hexadecimal digits of a value parse back to that value |
| PromptPay.PresentedTypeAidsAreDigitsAndLetters | src/prompt_pay.rs:42 | both presented-type application ids consist of digits and ASCII letters |
| PromptPay.CreditTransferTemplate.Value | src/prompt_pay.rs:65-92 | a well-formed template's value consists of digits and ASCII letters, so it is valid alphanumeric text |
| PromptPay.CreditTransferTemplate.Len | src/prompt_pay.rs:55-58 | the length is the byte count of the value, equal to its character count for a well-formed template |
| PromptPay.CreditTransferTemplate.Valid | src/prompt_pay.rs:60-63 | when the value converts, it is valid (the conversion's unwrap is the only failure) |
| PromptPay.CreditTransferTemplate.TypeName | src/prompt_pay.rs:94-96 | the template reports itself as alphanumeric, never numeric |
| PromptPay.ShapedSubFields | src/prompt_pay.rs:99-145 | every sub-field a builder's setters store has a two-digit tag, a width below 100 and digits or a presented-type id |
| PromptPay.ShapedRendersDigitsAndLetters | src/prompt_pay.rs:60-63 | the rendered sub-fields consist of digits and ASCII letters only |
| PromptPay.ValueDecodes | src/prompt_pay.rs:65-92 | the template's value decodes back to the tags and values of its written sub-fields, in order |
| PromptPay.OtaWrittenIff | src/prompt_pay.rs:83-90 | intended: the one-time alias appears iff the id is the customer-presented one and the alias is set, and then last |
| PromptPay.AidRenderingIsNoAid | src/prompt_pay.rs:84-85 | the rendered application id object never equals the bare customer-presented id, neither as intended nor as written |
| PromptPay.OtaNeverWrittenAsWritten | src/prompt_pay.rs:83-90 | as written, the one-time alias is never included and the sub-fields are only the identifiers |
| PromptPay.CreditTransferTemplate.ValueAsWritten | src/prompt_pay.rs:65-92 | as written, a template the setters made has as its value the rendering of its identifiers alone, because the alias guard never holds |
| PromptPay.SubFieldsRenderWithOta | src/prompt_pay.rs:65-92 | when the alias is written, the intended rendering is the as-written rendering followed by the alias object's |
| PromptPay.ValueAsWrittenDropsOta | src/prompt_pay.rs:83-90 | a customer-presented template with an alias: the intended value is the as-written value followed by the alias object, so the as-written value is strictly shorter |
| PromptPay.CustomerAidRender | src/prompt_pay.rs:104-109 | the customer-presented id renders as "0016A000000677010114" |
| PromptPay.MobilePadding | src/prompt_pay.rs:111-117 | mobile "0809729900" padded to 13 is "0000809729900" |
| PromptPay.MobileRender | src/prompt_pay.rs:111-117 | mobile "0809729900" renders as "01130000809729900" |
| PromptPay.MobileTemplateValue | src/prompt_pay.rs:65-91 | the customer-presented template with that mobile has the 37-character value "0016A000000677010114" followed by "01130000809729900" |
| PromptPay.MerchantPromptPayCreditTransfer.constructor | src/prompt_pay.rs:44-52 | `default`: every sub-field empty, which is well-formed |
| PromptPay.MerchantPromptPayCreditTransfer.SetPromptpayPresentedType | src/prompt_pay.rs:100-110 | stores tag 00 with the selected id and width 16, keeping the builder well-formed |
| PromptPay.MerchantPromptPayCreditTransfer.SetMobileNumber | src/prompt_pay.rs:111-117 | stores tag 01 with the digits and width 13, keeping the builder well-formed |
| PromptPay.MerchantPromptPayCreditTransfer.SetNationalId | src/prompt_pay.rs:118-124 | stores tag 02 with the digits and width 13, keeping the builder well-formed |
| PromptPay.MerchantPromptPayCreditTransfer.SetEWalletId | src/prompt_pay.rs:125-131 | stores tag 03 with the digits and width 15, keeping the builder well-formed |
| PromptPay.MerchantPromptPayCreditTransfer.SetBankAccount | src/prompt_pay.rs:132-138 | stores tag 04 with the digits and width 43, keeping the builder well-formed |
| PromptPay.MerchantPromptPayCreditTransfer.SetOta | src/prompt_pay.rs:139-145 | stores tag 05 with the digits and width 10, keeping the builder well-formed |
| EmvoQrcode.EMVOData.TypeName | src/prompt_pay.rs:94-96 | an entry's type name is one of the three, alphanumeric for the PromptPay template |
| EmvoQrcode.MaiFieldShape | src/emvo_qrcode.rs:368-373 | an entry becomes an alphanumeric object under its own tag with width 99 holding the entry's value |
| EmvoQrcode.MaiFields | src/emvo_qrcode.rs:366-374 | one object per key of the iteration order; object i is the i-th key's entry as alphanumeric data under that key with width 99 |
| EmvoQrcode.SingleEntry | src/emvo_qrcode.rs:365-377 | a map with one convertible entry yields exactly that entry's object |
| EmvoQrcode.CrcHex | src/emvo_qrcode.rs:426-434 | the checksum text is four characters |
| EmvoQrcode.PayloadText | src/emvo_qrcode.rs:409-438 | the payload is the body plus eight characters: "63", "04" and the checksum |
| EmvoQrcode.CrcHexShape | src/emvo_qrcode.rs:410-434 | the checksum text is four upper-case hexadecimal digits, valid ASCII alphanumeric, whose value is the CRC of the bytes of body, "63" and "04" |
| EmvoQrcode.CrcFieldRenders | src/emvo_qrcode.rs:432-437 | the checksum object renders as "6304" and its four digits |
| EmvoQrcode.PayloadRenders | src/emvo_qrcode.rs:437-438 | appending the checksum object to a body that renders gives the payload text |
| EmvoQrcode.PayloadDecodes | src/emvo_qrcode.rs:356-439 | the payload decodes to the body's tags and values followed by ("63", checksum): the checksum is last |
| EmvoQrcode.PayloadPassesChecksum | src/emvo_qrcode.rs:409-438 | every payload passes the scanner's test: its last four characters are the CRC of all before them |
| EmvoQrcode.ChecksumDetectsSplice | src/emvo_qrcode.rs:426-428 | changing one byte anywhere changes the CRC |
| EmvoQrcode.SpliceChecksums | src/emvo_qrcode.rs:426-428 | changing one ASCII character of the text changes the CRC of its bytes |
| EmvoQrcode.TamperedTextFails | src/emvo_qrcode.rs:409-438 | a text that passes the test fails it after one ASCII character in front of the checksum is changed |
| EmvoQrcode.TamperedPayloadFails | src/emvo_qrcode.rs:409-438 | a generated payload with one ASCII character changed in front of the checksum fails the test |
| EmvoQrcode.GetPointTypes | src/emvo_qrcode.rs:246-252 | "11" exactly for the static point and "12" for any other, a valid two-digit numeric value |
| EmvoQrcode.SetFieldsMembers | src/emvo_qrcode.rs:379-408 | the objects added are exactly the objects of the set slots |
| EmvoQrcode.SetFieldsAscending | src/emvo_qrcode.rs:379-408 | slots holding consecutive tag numbers give objects in strictly ascending tag order, within the slots' range |
| EmvoQrcode.SetFieldsDataValid | src/emvo_qrcode.rs:379-408 | slots whose objects hold valid data add only objects with valid data |
| EmvoQrcode.MaiFieldsDataValid | src/emvo_qrcode.rs:366-374 | the converted entries hold valid alphanumeric data |
| EmvoQrcode.ValidDataRenderErrors | src/emvo_qrcode.rs:127-136 | when every object holds valid data, a list can fail to render only with "Data Is Empty" or "Data Length Invalid" |
| EmvoQrcode.AddIfPresent | src/emvo_qrcode.rs:359-361 | the builder gains the slot's object when set and nothing otherwise |
| EmvoQrcode.AddSetFields | src/emvo_qrcode.rs:379-408 | the builder gains the set slots' objects in slot order |
| EmvoQrcode.AddAll | src/emvo_qrcode.rs:375-377 | the builder gains the converted entries in order |
| EmvoQrcode.CollectMerchantAccountInformation | src/emvo_qrcode.rs:365-374 | the loop builds one converted object per key, in iteration order |
| EmvoQrcode.InMerchantAccountInformationRange | src/emvo_qrcode.rs:254-257 | true iff the parsed tag is between 2 and 51 |
| EmvoQrcode.InRfuRange | src/emvo_qrcode.rs:343 | true iff the parsed tag is between 65 and 79 |
| EmvoQrcode.MerchantAccountInformationTags | src/emvo_qrcode.rs:254-257 | the guard accepts "5", "+29" and "029" because it compares parsed numbers; on two-digit tags it is the range 02 to 51 |
| EmvoQrcode.CrcObject | src/emvo_qrcode.rs:410-436 | computes the checksum object over the body, "63" and "04" |
| EmvoQrcode.EMVQR.constructor | src/emvo_qrcode.rs:95-115 | `default`: every slot empty |
| EmvoQrcode.EMVQR.SetPayloadFormatIndicator | src/emvo_qrcode.rs:220-233 | "" gives "Data is empty", "01" gives "Data Invalid", both leaving the slot alone; any other digits are stored under 00 with width 2 |
| EmvoQrcode.EMVQR.SetPointTypes | src/emvo_qrcode.rs:238-245 | stores under 01 with width 2 the point-type value and returns Ok |
| EmvoQrcode.EMVQR.SetMerchantAccountInformation | src/emvo_qrcode.rs:253-266 | a tag in 02..51 inserts or replaces its entry, creating the map if needed; any other tag changes nothing |
| EmvoQrcode.EMVQR.SetMerchantCategoryCode | src/emvo_qrcode.rs:267-273 | stores the digits under 52 with width 4 |
| EmvoQrcode.EMVQR.SetTransactionCurrency | src/emvo_qrcode.rs:274-280 | stores the digits under 53 with width 3 |
| EmvoQrcode.EMVQR.SetTransactionAmount | src/emvo_qrcode.rs:281-287 | stores the alphanumeric text under 54 with width 14 |
| EmvoQrcode.EMVQR.SetTipConvenienceIndicatorAsWritten | src/emvo_qrcode.rs:288-294 | as written: the tag 55 object lands in the transaction amount slot, breaking the slot invariant; from a valid object the rendered slots then hold 55 and no 54 |
| EmvoQrcode.EMVQR.SetTipConvenienceIndicator | src/emvo_qrcode.rs:288-294 | intended: stores the digits under 55 with width 2 in the tip slot |
| EmvoQrcode.EMVQR.SetValueOfConvenienceFeeFixed | src/emvo_qrcode.rs:295-301 | stores the text under 56 with width 13 |
| EmvoQrcode.EMVQR.SetValueOfConvenienceFeePercentage | src/emvo_qrcode.rs:302-313 | stores the text under 57 with width 5 |
| EmvoQrcode.EMVQR.SetCountryCode | src/emvo_qrcode.rs:314-320 | stores the text under 58 with width 2 |
| EmvoQrcode.EMVQR.SetMerchantName | src/emvo_qrcode.rs:321-327 | stores the text under 59 with width 25 |
| EmvoQrcode.EMVQR.SetMerchantCity | src/emvo_qrcode.rs:328-334 | stores the text under 60 with width 15 |
| EmvoQrcode.EMVQR.SetPostalCode | src/emvo_qrcode.rs:335-341 | stores the text under 61 with width 10 |
| EmvoQrcode.EMVQR.SetRfu | src/emvo_qrcode.rs:342-355 | a tag in 65..79 appends a string object with width 99, creating the list if needed; any other tag changes nothing |
| EmvoQrcode.EMVQR.TailAscending | src/emvo_qrcode.rs:379-408 | under the object's invariant the objects of slots 52 to 61 hold valid data and come in strictly ascending tag order, each tag in 52..61 |
| EmvoQrcode.EMVQR.BodyDataValid | src/emvo_qrcode.rs:356-408 | under the invariant every object in front of the checksum holds valid data, so the body fails to render only with "Data Is Empty" or "Data Length Invalid" |
| EmvoQrcode.EMVQR.AddBodyFields | src/emvo_qrcode.rs:357-408 | an empty builder receives 00, 01, the entries and the set slots 52 to 61, in that order |
| EmvoQrcode.EMVQR.AddMerchantAccountInformation | src/emvo_qrcode.rs:365-378 | the builder gains the converted entries when the map is set, nothing otherwise |
| EmvoQrcode.EMVQR.GeneratePayLoad | src/emvo_qrcode.rs:356-439 | returns the body rendering followed by the checksum object over it, and stores that object in the crc slot |
| FixedRequest.FieldRenders | src/apis.rs:86-105 | each of the ten objects of the handler's payload renders to its expected text |
| FixedRequest.AsWrittenPadded | src/emvo_qrcode.rs:138-147 | as written, an object that renders is its tag, its declared width and its value preceded by the missing zeros |
| FixedRequest.AsWrittenExact | src/apis.rs:86-105 | as written, the handler's objects 00, 01, 52, 53 and 58, whose values fill their widths, render as intended |
| FixedRequest.AsWrittenFieldRenders | src/apis.rs:86-105 | as written, the handler's objects 29, 54, 59, 60 and 61 render zero-padded to their declared widths ("2999", "5414", "5925", "6015", "6110" headers) |
| FixedRequest.BodyRenders | src/apis.rs:85-107 | the handler's objects render to one fixed body text |
| FixedRequest.TemplateValue | src/apis.rs:91-96 | the handler's template is well-formed and its value is the 37-character text |
| FixedRequest.RequestMapFields | src/apis.rs:102 | the map with the template under "29" yields exactly the object 29 holding that text |
| FixedRequest.RequestHead | src/apis.rs:85-102 | the handler's object is ready, and its head is 00, 01 and 29 |
| FixedRequest.RequestTail | src/apis.rs:98-105 | the set slots 52 to 61 are 52, 53, 54, 58, 59, 60 and 61 |
| FixedRequest.RequestBodyFields | src/apis.rs:85-105 | the handler's object has exactly the ten expected objects in front of the checksum |
| FixedRequest.BuildTemplate | src/apis.rs:91-96 | the builder calls produce the customer-presented template with the mobile number |
| FixedRequest.RequestInputs | src/apis.rs:86-105 | every unwrap the handler's setters carry succeeds on its argument |
| FixedRequest.StartRequest | src/apis.rs:85-100 | after the first calls the object holds 00, 01, 52, 53, 54 and 59 and as yet no entries |
| FixedRequest.ContinueRequest | src/apis.rs:98-101 | sets currency, amount, name and category to the handler's values |
| FixedRequest.FinishRequest | src/apis.rs:102-105 | adds the entry under "29" and the city, postal code and country |
| FixedRequest.BuildRequest | src/apis.rs:85-105 | the handler's calls leave the object in the expected state |
| FixedRequest.CrcHexValue | src/emvo_qrcode.rs:426-434 | the handler's checksum, over its body, "63" and "04", is "43DC" |
| FixedRequest.PayloadLiteral | src/emvo_qrcode.rs:409-438 | the handler's payload is its body followed by "6304" and "43DC" |
| FixedRequest.QrCodeTag30 | src/apis.rs:85-107 | the handler's payload is that body followed by its checksum object, literally "6304" and "43DC" |
| FixedRequest.RequestPayloadChecks | src/apis.rs:107 | that payload passes the checksum test, decodes to its ten objects then the checksum, and the checksum is "43DC" |

## Left out

- The HTTP layer of `src/apis.rs` is not modelled: routing, JSON, the QR image (PNG), base64 and the error responses. Only the payload the handler builds is modelled, and its three request inputs are fixed.
- The `f32` formatting of the amount is not modelled; the amount is the text "50".
- `src/main.rs` (the server start-up) and `load_test.js` (a load test) are not part of this model.
- The `println!` of the checksum (`src/emvo_qrcode.rs:430`) is output only.
- The `regex` and `crc` crates are foreign code. Each is modelled by a definition: character predicates for the regexes and a bit-serial CRC loop for the crate.
- `HashMap` iteration order is unspecified, so `generate_pay_load` takes the order as a parameter (any listing of the keys). The properties hold for every order.
- The RFU list, the additional data template and the language template are stored but never rendered by `generate_pay_load`. The model renders them neither. Only `set_rfu` has a setter in the source, and it is modelled.
- Commented-out code is not modelled: `add_field`, `AdditionalDataFieldTemplate` and `add_payload_format_indicator`.
- The bill-payment constants and the unused length constants of `src/prompt_pay.rs` are not modelled.
- The `EMVOError` display and `description` implementations only format text.
- `generate_pay_load` looks at ten slots one after another. The model visits them with one loop over the slot list (`AddSetFields`), in the same order.
- TlvField.FieldListBuilder.ToString, EmvoQrcode.PayloadDecodes, EmvoQrcode.EMVQR.GeneratePayLoad, FixedRequest.BodyRenders, FixedRequest.CrcHexValue, FixedRequest.PayloadLiteral, FixedRequest.QrCodeTag30 and FixedRequest.RequestPayloadChecks: they render with the corrected `Render`, not `RenderAsWritten`. As written, every object is zero-padded to its declared width, so the handler's objects 29, 54, 59, 60 and 61 come out as `FixedRequest.AsWrittenFieldRenders` states, and the checksum changes with them.
- PromptPay.CreditTransferTemplate.Value, EmvoQrcode.MaiFields, EmvoQrcode.EMVQR.GeneratePayLoad: they use the corrected one-time-alias guard (`OtaWritten`), and so does `EmvoQrcode.EMVOData.Value`, which delegates to the template. As written, the guard never holds and the alias never appears (`PromptPay.OtaNeverWrittenAsWritten`); the value as written is `PromptPay.CreditTransferTemplate.ValueAsWritten`, and `PromptPay.ValueAsWrittenDropsOta` states what it lacks.
- Crc16.ToUppercase: models `str::to_uppercase` on ASCII only. It is applied only to the `{:04x}` output, which is ASCII.
- EmvoQrcode.EMVQR.GeneratePayLoad: requires the body to render, because the source unwraps that result. When the body fails to render, the source panics and the model does not go there.
- Every `unwrap` of a conversion is modelled as a requires. A panic in the source is a call the model does not allow.
- PromptPay.CreditTransferTemplate.Valid: `valid` calls `try_from(...).unwrap()`, which panics on an invalid value, so the model requires the value to convert.
- PromptPay.MerchantPromptPayCreditTransfer.SetPromptpayPresentedType: an index past the array panics in Rust. The model requires a valid index.

## Findings

| source | as written | input that shows it | evidently intended | confidence | as-written member | corrected member |
|---|---|---|---|---|---|---|
| src/emvo_qrcode.rs:139 | the arm names `TYPE_NAME_NUMERIC`, but the constant is `TYPE_NAME_NUMBERIC` (src/emvo_types.rs:9). An unknown name in a pattern binds anything, so every object renders with its declared length and zero-padding, and the `_` arm is dead | merchant name "test", tag 59, width 25: "5925" followed by 21 zeros and "test" instead of "5904test" | only numeric values padded to the declared width; others carry their own length | not executed | TlvField.RenderAsWritten | TlvField.Render |
| src/prompt_pay.rs:83-90 | compares the rendered application id object ("0016A000000677010114") with the bare id "A000000677010114" | a customer-presented template with a one-time alias: the alias is never written | the alias is written iff the id is the customer-presented one | not executed | PromptPay.OtaNeverWrittenAsWritten | PromptPay.OtaWrittenIff |
| src/emvo_qrcode.rs:288-294 | `set_tip_convenience_indicator` stores its tag 55 object in `transaction_amount` | setting amount "50" and then tip "01": the amount is lost and 55 is rendered in 54's place | store it in `tip_or_convenience_indicator` | not executed | EmvoQrcode.EMVQR.SetTipConvenienceIndicatorAsWritten | EmvoQrcode.EMVQR.SetTipConvenienceIndicator |
