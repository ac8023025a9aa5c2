# tastytrade-rs order data model in Dafny

This project models the order data model of tastytrade-rs, a typed Rust client
for the tastytrade brokerage API (src/api/order.rs), and proves properties of it.

- **Wire enums** (`enums.dfy`, one module per enum): `PriceEffect`, `Action`,
  `InstrumentType`, `OrderType`, `TimeInForce` and `OrderStatus`. Each has its
  variants, the table of broker display strings (`Encode`, the derived
  Serialize) and the derived Deserialize (`Decode`), a match on the exact string
  that fails with `UnknownVariant` for anything else.
- **Symbol** (`symbol.dfy`): the transparent ticker wrapper, its `From` and
  `AsSymbol` conversions, and its derived ordering, which is lexicographic
  string order.
- **Records** (`records.dfy`, `wire.dfy`): every struct of the file as a
  datatype, its Rust field names and kebab-case wire keys, the derived
  decoders over a JSON value tree and the derived encoders for the structs
  that serialise (`Order`, `OrderLeg`, `FullOrder`). Decoders ignore unknown
  keys and require every declared one; `u64` fields take a non-negative integer
  literal below 2^64; Decimal fields take a JSON number rust_decimal can hold,
  or a string read by the decimal reader, except the leg quantity of `OrderLeg`
  (`rust_decimal::serde::float`), which takes only a JSON number and is what
  the f64 reader makes of it.
- **Builders** (`builders.dfy`): `OrderBuilder` and `OrderLegBuilder`, the
  classes `#[derive(Builder)]` generates. Each has one optional slot per field,
  setters that fill one slot, and `Build`, which leaves the builder unchanged
  and either returns the struct or an `UninitializedField` error naming the
  first empty slot in declaration order.
- **Sample** (`sample.dfy`): the payload of the unit test `test_derp` as a JSON
  value, and the proof that it decodes into an `OrderPlacedResult`.

`Decimal` is a mantissa and a scale, within rust_decimal's range (a 96-bit
mantissa, a scale of at most 28). Decimal strings (`FromStr` and `Display` on
string-valued fields such as `size`) and the f64 conversions of leg
quantities are a parameter (`DecimalCodec`), so facts that depend on them,
such as an f64 carrying a leg quantity exactly, are stated as hypotheses on
that parameter. A `price` written under `rust_decimal::serde::arbitrary_precision`
is modelled as the exact number literal of its mantissa and scale, with no
codec call (see "Left out").

serde's derived Deserialize reports an unknown variant with the offending
string and the list of expected wire names; `UnknownVariant` carries both.

## Model

| member | source | states |
|---|---|---|
| PriceEffectCodec.Position | src/api/order.rs:7-12 | every variant stands at a position of the declared variant list, and the list holds that variant there |
| PriceEffectCodec.Encode | src/api/order.rs:7-12 | the derived Serialize writes the wire-name entry at the variant's position in the declaration |
| PriceEffectCodec.Decode | src/api/order.rs:7-12 | decoding succeeds exactly on the listed wire strings, the decoded variant encodes back to the input, and any other string fails with UnknownVariant carrying the string and the wire-name list (no default variant) |
| PriceEffectCodec.RoundTrip | src/api/order.rs:7-12 | decoding the wire string of any variant gives back that variant |
| PriceEffectCodec.EncodeInjective | src/api/order.rs:7-12 | two variants share a wire string only if they are the same variant |
| PriceEffectCodec.DecodeIffEncode | src/api/order.rs:7-12 | a string decodes to a variant if and only if it is that variant's wire string |
| PriceEffectCodec.WireNamesListEncodings | src/api/order.rs:7-12 | the wire-name list has one entry per variant, each the encoding of the variant at that position |
| PriceEffectCodec.Exhaustive | src/api/order.rs:7-12 | every variant is among the declared variants |
| PriceEffectCodec.VerbatimWireStrings | src/api/order.rs:9-11 | each variant without a rename encodes to its identifier |
| PriceEffectCodec.RejectsNearMisses | src/api/order.rs:7-12 | "none", "debit" and "" are unknown variants: matching is exact in case |
| ActionCodec.Position | src/api/order.rs:14-26 | every variant stands at a position of the declared variant list, and the list holds that variant there |
| ActionCodec.Encode | src/api/order.rs:14-26 | the derived Serialize writes the wire-name entry at the variant's position in the declaration |
| ActionCodec.Decode | src/api/order.rs:14-26 | decoding succeeds exactly on the listed wire strings, the decoded variant encodes back to the input, and any other string fails with UnknownVariant carrying the string and the wire-name list (no default variant) |
| ActionCodec.RoundTrip | src/api/order.rs:14-26 | decoding the wire string of any variant gives back that variant |
| ActionCodec.EncodeInjective | src/api/order.rs:14-26 | two variants share a wire string only if they are the same variant |
| ActionCodec.DecodeIffEncode | src/api/order.rs:14-26 | a string decodes to a variant if and only if it is that variant's wire string |
| ActionCodec.WireNamesListEncodings | src/api/order.rs:14-26 | the wire-name list has one entry per variant, each the encoding of the variant at that position |
| ActionCodec.Exhaustive | src/api/order.rs:14-26 | every variant is among the declared variants |
| ActionCodec.RenamedWireStrings | src/api/order.rs:16-23 | each renamed variant encodes to its exact spaced string |
| ActionCodec.VerbatimWireStrings | src/api/order.rs:24-25 | each variant without a rename encodes to its identifier |
| ActionCodec.RejectsIdentifier | src/api/order.rs:14-26 | "BuyToOpen" and "SellToClose" (identifiers of renamed variants) are unknown variants |
| ActionCodec.RejectsOtherCase | src/api/order.rs:14-26 | "buy to open" and "Buy To Open" are unknown variants |
| ActionCodec.RejectsOtherSpacing | src/api/order.rs:14-26 | "Buy  to Open" and "Buy to Open " are unknown variants |
| InstrumentTypeCodec.Position | src/api/order.rs:28-39 | every variant stands at a position of the declared variant list, and the list holds that variant there |
| InstrumentTypeCodec.Encode | src/api/order.rs:28-39 | the derived Serialize writes the wire-name entry at the variant's position in the declaration |
| InstrumentTypeCodec.Decode | src/api/order.rs:28-39 | decoding succeeds exactly on the listed wire strings, the decoded variant encodes back to the input, and any other string fails with UnknownVariant carrying the string and the wire-name list (no default variant) |
| InstrumentTypeCodec.RoundTrip | src/api/order.rs:28-39 | decoding the wire string of any variant gives back that variant |
| InstrumentTypeCodec.EncodeInjective | src/api/order.rs:28-39 | two variants share a wire string only if they are the same variant |
| InstrumentTypeCodec.DecodeIffEncode | src/api/order.rs:28-39 | a string decodes to a variant if and only if it is that variant's wire string |
| InstrumentTypeCodec.WireNamesListEncodings | src/api/order.rs:28-39 | the wire-name list has one entry per variant, each the encoding of the variant at that position |
| InstrumentTypeCodec.Exhaustive | src/api/order.rs:28-39 | every variant is among the declared variants |
| InstrumentTypeCodec.RenamedWireStrings | src/api/order.rs:31-37 | each renamed variant encodes to its exact spaced string |
| InstrumentTypeCodec.VerbatimWireStrings | src/api/order.rs:29-38 | each variant without a rename encodes to its identifier |
| InstrumentTypeCodec.RejectsIdentifier | src/api/order.rs:28-39 | "EquityOption" and "FutureOption" are unknown variants |
| InstrumentTypeCodec.RejectsNearMisses | src/api/order.rs:28-39 | "equity option" and "Equity_Option" are unknown variants |
| OrderTypeCodec.Position | src/api/order.rs:41-52 | every variant stands at a position of the declared variant list, and the list holds that variant there |
| OrderTypeCodec.Encode | src/api/order.rs:41-52 | the derived Serialize writes the wire-name entry at the variant's position in the declaration |
| OrderTypeCodec.Decode | src/api/order.rs:41-52 | decoding succeeds exactly on the listed wire strings, the decoded variant encodes back to the input, and any other string fails with UnknownVariant carrying the string and the wire-name list (no default variant) |
| OrderTypeCodec.RoundTrip | src/api/order.rs:41-52 | decoding the wire string of any variant gives back that variant |
| OrderTypeCodec.EncodeInjective | src/api/order.rs:41-52 | two variants share a wire string only if they are the same variant |
| OrderTypeCodec.DecodeIffEncode | src/api/order.rs:41-52 | a string decodes to a variant if and only if it is that variant's wire string |
| OrderTypeCodec.WireNamesListEncodings | src/api/order.rs:41-52 | the wire-name list has one entry per variant, each the encoding of the variant at that position |
| OrderTypeCodec.Exhaustive | src/api/order.rs:41-52 | every variant is among the declared variants |
| OrderTypeCodec.RenamedWireStrings | src/api/order.rs:45-51 | each renamed variant encodes to its exact spaced string |
| OrderTypeCodec.VerbatimWireStrings | src/api/order.rs:43-47 | each variant without a rename encodes to its identifier |
| OrderTypeCodec.RejectsNearMisses | src/api/order.rs:41-52 | "StopLimit", "stop limit" and "LIMIT" are unknown variants |
| TimeInForceCodec.Position | src/api/order.rs:54-63 | every variant stands at a position of the declared variant list, and the list holds that variant there |
| TimeInForceCodec.Encode | src/api/order.rs:54-63 | the derived Serialize writes the wire-name entry at the variant's position in the declaration |
| TimeInForceCodec.Decode | src/api/order.rs:54-63 | decoding succeeds exactly on the listed wire strings, the decoded variant encodes back to the input, and any other string fails with UnknownVariant carrying the string and the wire-name list (no default variant) |
| TimeInForceCodec.RoundTrip | src/api/order.rs:54-63 | decoding the wire string of any variant gives back that variant |
| TimeInForceCodec.EncodeInjective | src/api/order.rs:54-63 | two variants share a wire string only if they are the same variant |
| TimeInForceCodec.DecodeIffEncode | src/api/order.rs:54-63 | a string decodes to a variant if and only if it is that variant's wire string |
| TimeInForceCodec.WireNamesListEncodings | src/api/order.rs:54-63 | the wire-name list has one entry per variant, each the encoding of the variant at that position |
| TimeInForceCodec.Exhaustive | src/api/order.rs:54-63 | every variant is among the declared variants |
| TimeInForceCodec.RenamedWireStrings | src/api/order.rs:60-61 | each renamed variant encodes to its exact spaced string |
| TimeInForceCodec.VerbatimWireStrings | src/api/order.rs:56-62 | each variant without a rename encodes to its identifier |
| TimeInForceCodec.RejectsNearMisses | src/api/order.rs:54-63 | "GTCExt", "gtc" and "GTC EXT" are unknown variants |
| OrderStatusCodec.Position | src/api/order.rs:65-84 | every variant stands at a position of the declared variant list, and the list holds that variant there |
| OrderStatusCodec.Encode | src/api/order.rs:65-84 | the derived Serialize writes the wire-name entry at the variant's position in the declaration |
| OrderStatusCodec.Decode | src/api/order.rs:65-84 | decoding succeeds exactly on the listed wire strings, the decoded variant encodes back to the input, and any other string fails with UnknownVariant carrying the string and the wire-name list (no default variant) |
| OrderStatusCodec.RoundTrip | src/api/order.rs:65-84 | decoding the wire string of any variant gives back that variant |
| OrderStatusCodec.EncodeInjective | src/api/order.rs:65-84 | two variants share a wire string only if they are the same variant |
| OrderStatusCodec.DecodeIffEncode | src/api/order.rs:65-84 | a string decodes to a variant if and only if it is that variant's wire string |
| OrderStatusCodec.WireNamesListEncodings | src/api/order.rs:65-84 | the wire-name list has one entry per variant, each the encoding of the variant at that position |
| OrderStatusCodec.Exhaustive | src/api/order.rs:65-84 | every variant is among the declared variants |
| OrderStatusCodec.RenamedWireStrings | src/api/order.rs:69-83 | each renamed variant encodes to its exact spaced string |
| OrderStatusCodec.VerbatimWireStrings | src/api/order.rs:66-81 | each variant without a rename encodes to its identifier |
| OrderStatusCodec.RejectsIdentifier | src/api/order.rs:65-84 | "InFlight" and "PartiallyRemoved" are unknown variants |
| OrderStatusCodec.RejectsOtherCase | src/api/order.rs:65-84 | "received" and "Partially removed" are unknown variants |
| OrderStatusCodec.ThirteenDistinctStates | src/api/order.rs:65-84 | there are exactly thirteen states, pairwise distinct, with pairwise distinct wire strings |
| Symbols.CompareStrings | src/api/order.rs:86-88 | string comparison reports Equal exactly for equal strings |
| Symbols.CompareStringsAntisymmetric | src/api/order.rs:86-88 | swapping the arguments reverses the comparison |
| Symbols.CompareStringsTransitive | src/api/order.rs:86-88 | Less is transitive |
| Symbols.PrefixIsLess | src/api/order.rs:86-88 | a proper prefix sorts before the longer string |
| Symbols.From | src/api/order.rs:90-104 | Symbol::from, and as_symbol on a string, keep the text they are given |
| Symbols.AsSymbol | src/api/order.rs:106-116 | as_symbol on a Symbol (or a reference to one) gives a Symbol with the same text |
| Symbols.Compare | src/api/order.rs:86-88 | the derived Ord on Symbol reports Equal exactly for equal Symbols |
| Symbols.ConversionsPreserveText | src/api/order.rs:90-116 | converting a string keeps its text; as_symbol on a Symbol returns an equal Symbol; From(s) equals a Symbol exactly when s is its text |
| Symbols.CompareIsTotalOrder | src/api/order.rs:86-88 | Symbol ordering is a total order whose Equal case is Symbol equality |
| Symbols.FromPreservesOrder | src/api/order.rs:86-94 | converting strings to Symbols keeps their order and neither merges nor splits them |
| Wire.KebabCaseIsKebab | src/api/order.rs:123 | the derived key equals a string exactly when that string is the name with every _ replaced by - |
| Wire.KebabCase | src/api/order.rs:123 | a derived key has the name's length, contains no _, and keeps every character that is not _ |
| Wire.KebabCaseIdempotent | src/api/order.rs:123 | deriving the key of a key changes nothing |
| Wire.KebabCaseInjective | src/api/order.rs:123 | names without - never share a derived key |
| Wire.KebabKeysOf | src/api/order.rs:123 | a key list that is the per-name kebab form of a field list is the derived key list |
| Wire.AsU64 | src/api/order.rs:129 | a u64 field accepts exactly an integer literal in [0, 2^64) and yields its value; a failure is an invalid value exactly for a negative integer literal that fits in i64, and an invalid type otherwise |
| Wire.AsDecimal | src/api/order.rs:125 | a Decimal field accepts a JSON number exactly when rust_decimal can hold it (96-bit mantissa, scale at most 28), as that value, or a string exactly when the decimal reader parses it, as the parsed value; anything else fails |
| Wire.AsFloatDecimal | src/api/order.rs:175-176 | a float-policy Decimal is accepted exactly when it is a JSON number the f64 reader accepts, and is the value that reader gives |
| Wire.DecodeSeq | src/api/order.rs:153 | a Vec decodes exactly when every element decodes, element-wise, and a failure is the failure of some element |
| Wire.SeqRoundTrip | src/api/order.rs:153 | if decoding undoes encoding on every element it undoes it on the whole Vec |
| Wire.AsSeq | src/api/order.rs:142 | a Vec field accepts exactly a JSON array every item of which decodes, giving one value per item, item by item |
| Wire.EncodeSeq | src/api/order.rs:166 | a serialised Vec is an array with one item per element, the i-th the encoding of the i-th element |
| Wire.AsObject | src/api/order.rs:122-281 | a struct decodes only from a JSON object, whose fields it reads |
| Wire.AsString | src/api/order.rs:139 | a String field accepts exactly a JSON string |
| Wire.AsBool | src/api/order.rs:136-138 | a bool field accepts exactly a JSON boolean |
| Wire.Field | src/api/order.rs:122-143 | a field is found exactly when its key is present; otherwise MissingField names the key |
| Records.SchemaKeysAreKebab | src/api/order.rs:122-281 | every record's wire keys are the kebab-case forms of its Rust field names |
| Records.LiveOrderRecordKeysAreKebab | src/api/order.rs:122-143 | the wire keys of LiveOrderRecord are the kebab-case forms of its Rust field names, in order |
| Records.LiveOrderLegKeysAreKebab | src/api/order.rs:145-154 | the wire keys of LiveOrderLeg are the kebab-case forms of its Rust field names, in order |
| Records.OrderKeysAreKebab | src/api/order.rs:156-167 | the wire keys of Order (the request body) are the kebab-case forms of its Rust field names, in order |
| Records.OrderLegKeysAreKebab | src/api/order.rs:169-178 | the wire keys of OrderLeg are the kebab-case forms of its Rust field names, in order |
| Records.ResultKeysAreKebab | src/api/order.rs:180-196 | the wire keys of OrderPlacedResult and DryRunResult are the kebab-case forms of its Rust field names, in order |
| Records.DryRunRecordKeysAreKebab | src/api/order.rs:198-214 | the wire keys of DryRunRecord are the kebab-case forms of its Rust field names, in order |
| Records.FullOrderKeysAreKebab | src/api/order.rs:216-234 | the wire keys of FullOrder are the kebab-case forms of its Rust field names, in order |
| Records.BuyingPowerEffectKeysAreKebab | src/api/order.rs:236-258 | the wire keys of BuyingPowerEffect are the kebab-case forms of its Rust field names, in order |
| Records.FeeCalculationKeysAreKebab | src/api/order.rs:260-274 | the wire keys of FeeCalculation are the kebab-case forms of its Rust field names, in order |
| Records.WarningKeysAreKebab | src/api/order.rs:276-281 | the wire keys of Warning are the kebab-case forms of its Rust field names, in order |
| Records.StringAt | src/api/order.rs:139 | a String field decodes exactly when its key holds a JSON string, to that string; an absent key is MissingField |
| Records.BoolAt | src/api/order.rs:136-138 | a bool field decodes exactly when its key holds a JSON boolean, to that boolean; an absent key is MissingField |
| Records.U64At | src/api/order.rs:129 | a u64 field decodes exactly when its key holds a u64 literal, the integer literal of the decoded value; an absent key is MissingField |
| Records.DecimalAt | src/api/order.rs:125 | a Decimal field decodes exactly when its key is present and its value decodes as a Decimal, to that Decimal; an absent key is MissingField |
| Records.FloatAt | src/api/order.rs:175-176 | a float-policy field decodes exactly when its key holds a JSON number the f64 reader accepts, to what the reader gives; an absent key is MissingField |
| Records.SymbolAt | src/api/order.rs:86-88 | a transparent Symbol field decodes exactly when its key holds a JSON string, to the Symbol of that text; an absent key is MissingField |
| Records.AccountNumberAt | src/api/order.rs:126 | an account-number field decodes exactly when its key holds a JSON string, to that text; an absent key is MissingField |
| Records.OrderIdAt | src/api/order.rs:118-120 | a transparent OrderId field decodes exactly when its key holds a JSON string, to that text; an absent key is MissingField |
| Records.EnumAt | src/api/order.rs:127 | an enum field decodes exactly when its key holds a JSON string that the enum decoder accepts, to that variant; an absent key is MissingField |
| Records.SeqAt | src/api/order.rs:142 | a Vec field decodes exactly when its key is present and holds an array every item of which decodes, to the decoded items; an absent key is MissingField |
| Records.DecodeWarning | src/api/order.rs:276-281 | a decoded Warning came from an object whose two fields each sit under the key of their position in the key table and decode to the field's value |
| Records.DecodeWarningIff | src/api/order.rs:276-281 | a JSON value decodes to a given Warning if and only if it is an object whose two keys hold that value's fields, field by field; extra keys do not matter |
| Records.DecodeOrderLeg | src/api/order.rs:169-178 | a decoded OrderLeg came from an object whose four fields each sit under the key of their position in the key table and decode to the field's value |
| Records.DecodeOrderLegIff | src/api/order.rs:169-178 | a JSON value decodes to a given OrderLeg if and only if it is an object whose four keys hold that value's fields, field by field; extra keys do not matter |
| Records.DecodeLiveOrderLeg | src/api/order.rs:145-154 | a decoded LiveOrderLeg came from an object whose six fields each sit under the key of their position in the key table and decode to the field's value |
| Records.DecodeLiveOrderLegIff | src/api/order.rs:145-154 | a JSON value decodes to a given LiveOrderLeg if and only if it is an object whose six keys hold that value's fields, field by field; extra keys do not matter |
| Records.DecodeLiveOrderRecord | src/api/order.rs:122-143 | a decoded LiveOrderRecord came from an object whose seventeen fields each sit under the key of their position in the key table and decode to the field's value |
| Records.DecodeLiveOrderRecordIff | src/api/order.rs:122-143 | a JSON value decodes to a given LiveOrderRecord if and only if it is an object whose seventeen keys hold that value's fields, field by field; extra keys do not matter |
| Records.DecodeDryRunRecord | src/api/order.rs:198-214 | a decoded DryRunRecord came from an object whose twelve fields each sit under the key of their position in the key table and decode to the field's value |
| Records.DecodeDryRunRecordIff | src/api/order.rs:198-214 | a JSON value decodes to a given DryRunRecord if and only if it is an object whose twelve keys hold that value's fields, field by field; extra keys do not matter |
| Records.DecodeFullOrder | src/api/order.rs:216-234 | a decoded FullOrder came from an object whose thirteen fields each sit under the key of their position in the key table and decode to the field's value |
| Records.DecodeFullOrderIff | src/api/order.rs:216-234 | a JSON value decodes to a given FullOrder if and only if it is an object whose thirteen keys hold that value's fields, field by field; extra keys do not matter |
| Records.DecodeBuyingPowerEffect | src/api/order.rs:236-258 | a decoded BuyingPowerEffect came from an object whose thirteen fields each sit under the key of their position in the key table and decode to the field's value |
| Records.DecodeBuyingPowerEffectIff | src/api/order.rs:236-258 | a JSON value decodes to a given BuyingPowerEffect if and only if it is an object whose thirteen keys hold that value's fields, field by field; extra keys do not matter |
| Records.DecodeFeeCalculation | src/api/order.rs:260-274 | a decoded FeeCalculation came from an object whose ten fields each sit under the key of their position in the key table and decode to the field's value |
| Records.DecodeFeeCalculationIff | src/api/order.rs:260-274 | a JSON value decodes to a given FeeCalculation if and only if it is an object whose ten keys hold that value's fields, field by field; extra keys do not matter |
| Records.DecodeOrderPlacedResult | src/api/order.rs:180-187 | a decoded OrderPlacedResult came from an object whose order key decodes as a LiveOrderRecord to its order, whose warnings key holds its warnings, and whose buying-power-effect and fee-calculation keys decode to its effect and fees |
| Records.DecodeOrderPlacedResultIff | src/api/order.rs:180-187 | a JSON value decodes to a given OrderPlacedResult if and only if it is an object whose four keys decode to that value's four parts |
| Records.DecodeDryRunResult | src/api/order.rs:189-196 | a decoded DryRunResult came from an object whose order key decodes as a DryRunRecord to its order, whose warnings key holds its warnings, and whose buying-power-effect and fee-calculation keys decode to its effect and fees |
| Records.DecodeDryRunResultIff | src/api/order.rs:189-196 | a JSON value decodes to a given DryRunResult if and only if it is an object whose four keys decode to that value's four parts |
| Records.EncodeOrderLeg | src/api/order.rs:169-178 | a serialised leg has exactly the four OrderLeg keys |
| Records.EncodeOrder | src/api/order.rs:156-167 | a serialised Order has exactly the five keys time-in-force, order-type, price, price-effect and legs, with one array item per leg |
| Records.EncodeFullOrder | src/api/order.rs:216-234 | a serialised FullOrder has exactly its thirteen keys |
| Records.OrderLegRoundTrip | src/api/order.rs:169-178 | decoding a serialised OrderLeg gives back the leg, provided its quantity comes back unchanged through the f64 written for it |
| Records.OrderLegsRoundTrip | src/api/order.rs:169-178 | decoding a serialised Vec<OrderLeg> gives back the legs, provided every quantity comes back unchanged through its f64 |
| Records.RoundedQuantitiesCollide | src/api/order.rs:175-176 | two legs whose quantities are written as the same f64 number serialise to the same JSON, so the round trip needs the f64 hypothesis |
| Records.FullOrderRoundTrip | src/api/order.rs:216-234 | decoding a serialised FullOrder gives it back, provided the decimal reader reads back the text the writer gave for its size and every leg quantity comes back unchanged through its f64 |
| Records.OrderReadBack | src/api/order.rs:156-167 | in a serialised Order each field sits under the key of its position in the key table (time-in-force, order-type, price, price-effect, legs) and reads back to the field, provided every leg quantity survives its f64 |
| Records.EncodeOrderInjective | src/api/order.rs:156-167 | distinct orders serialise to distinct request bodies, provided every leg quantity of both comes back unchanged through its f64 |
| Records.PlacedResultIgnoresUnknownKey | src/api/order.rs:180-187 | adding a key outside the four declared keys does not change the decoded OrderPlacedResult (unknown fields are not denied) |
| Records.DryRunResultIgnoresUnknownKey | src/api/order.rs:189-196 | adding an undeclared key does not change the decoded DryRunResult |
| Records.LiveOrderRecordIgnoresUnknownKey | src/api/order.rs:122-143 | adding an undeclared key does not change the decoded LiveOrderRecord |
| Builders.OrderBuilder.constructor | src/api/order.rs:156-167 | the default builder has every slot empty |
| Builders.OrderBuilder.Missing | src/api/order.rs:156-167 | lists the Rust names of the empty slots in declaration order; it is empty exactly when all five slots are set |
| Builders.OrderBuilder.Build | src/api/order.rs:156-167 | succeeds exactly when every slot is set, with the slot values; otherwise fails with UninitializedField naming the first empty slot; the builder is not changed |
| Builders.OrderLegBuilder.constructor | src/api/order.rs:169-178 | the default builder has every slot empty |
| Builders.OrderLegBuilder.Missing | src/api/order.rs:169-178 | lists the Rust names of the empty slots in declaration order; it is empty exactly when all four slots are set |
| Builders.OrderLegBuilder.Build | src/api/order.rs:169-178 | succeeds exactly when every slot is set, with the slot values; otherwise fails with UninitializedField naming the first empty slot; the builder is not changed |
| Builders.OrderBuilder.SetTimeInForce | src/api/order.rs:156-167 | the setter fills its own slot and leaves the other four unchanged |
| Builders.OrderBuilder.SetOrderType | src/api/order.rs:156-167 | the setter fills its own slot and leaves the other four unchanged |
| Builders.OrderBuilder.SetPrice | src/api/order.rs:156-167 | the setter fills its own slot and leaves the other four unchanged |
| Builders.OrderBuilder.SetPriceEffect | src/api/order.rs:156-167 | the setter fills its own slot and leaves the other four unchanged |
| Builders.OrderBuilder.SetLegs | src/api/order.rs:156-167 | the setter fills its own slot and leaves the other four unchanged |
| Builders.OrderLegBuilder.SetInstrumentType | src/api/order.rs:169-178 | the setter fills its own slot and leaves the other three unchanged |
| Builders.OrderLegBuilder.SetSymbol | src/api/order.rs:169-178 | the setter fills its own slot and leaves the other three unchanged |
| Builders.OrderLegBuilder.SetQuantity | src/api/order.rs:169-178 | the setter fills its own slot and leaves the other three unchanged |
| Builders.OrderLegBuilder.SetAction | src/api/order.rs:169-178 | the setter fills its own slot and leaves the other three unchanged |
| Builders.OrderLegBuilder.SetSymbolFrom | src/api/order.rs:171 | the into-setter stores Symbol::from of the string and leaves the other slots unchanged |
| Builders.BuildWithEveryField | src/api/order.rs:156-167 | setting all five fields (legs, price effect, price, order type, then time in force) builds exactly the Order with those values |
| Builders.BuildWithoutPrice | src/api/order.rs:156-167 | a builder without a price fails with UninitializedField("price") |
| Builders.BuildEmptyOrder | src/api/order.rs:156-167 | an empty builder fails naming time_in_force, the first declared field |
| Builders.LastPriceWins | src/api/order.rs:156-167 | after two price setter calls the built Order carries the second price |
| Builders.BuildIsRepeatable | src/api/order.rs:156-167 | build borrows the builder: a failed build can be followed by more setters and a successful build |
| Builders.BuildLegFromText | src/api/order.rs:169-178 | a leg built from a ticker string carries the Symbol of that string |
| Builders.BuildLegWithoutSymbol | src/api/order.rs:169-178 | a leg builder without a symbol fails with UninitializedField("symbol") |
| PlacedSample.SampleOrderDecodesTo | src/api/order.rs:290-295 | the payload's order decodes to exactly the LiveOrderRecord its fields spell out, with the leg in place |
| PlacedSample.SampleDecodes | src/api/order.rs:290-295 | given a decimal reader that reads the payload's decimal strings, the test payload decodes into an OrderPlacedResult with status Received, one warning with code tif_next_valid_sesssion, is-spread false |
| PlacedSample.SampleOrderDecodes | src/api/order.rs:290-295 | the payload's order decodes: Received, size 100, Day, Limit, price 181.01 Debit, one Buy to Open leg without fills |
| PlacedSample.SampleWarningDecodes | src/api/order.rs:290-295 | the payload's warnings decode to the one warning given |
| PlacedSample.SampleBuyingPowerEffectDecodes | src/api/order.rs:290-295 | the payload's buying-power effect decodes, is-spread false, effect Debit |
| PlacedSample.SampleFeeCalculationDecodes | src/api/order.rs:290-295 | the payload's fee calculation decodes: regulatory and commission effects None, total fees the value read from 0.08, effect Debit |

The lemmas `SampleLegDecodes`, `SampleOrderFields1`-`9`,
`SampleBuyingPowerEffectFields1`-`7` and `SampleFeeCalculationFields1`-`5` in
`sample.dfy` are steps of the sample proofs above: each decodes a few named
fields of the `test_derp` payload (src/api/order.rs:290-295).

## Left out

- src/client.rs is not part of this model: login, HTTP GET/POST, header construction, printing of response bodies and the response envelope are network I/O or depend on types defined outside the visible source.
- Decimal text parsing and formatting belong to rust_decimal, which is not visible; they are the `DecimalCodec` parameter. That formatting a parsed decimal string gives back its text, trailing zeros included, therefore is not proved.
- Records.EncodeOrderLeg: the quantity is written as `writeFloat` of the decimal and read back by `readFloat`; which decimals an f64 carries exactly (IEEE 754 rounding) is not derived, it is the hypothesis QuantitySurvivesFloat of the round-trip lemmas.
- Wire.AsFloatDecimal: only a JSON number is taken to supply the f64; whether the float policy also accepts other JSON forms is not modelled.
- Wire.AsDecimal: a JSON number is read as its exact literal and refused outside rust_decimal's range; how serde_json and rust_decimal actually convert a number literal (through an integer or an f64 unless arbitrary precision is enabled, rounding excess digits) is not modelled.
- Records.EncodeOrder / Records.EncodeFullOrder: `price` is written by `rust_decimal::serde::arbitrary_precision`, which prints the decimal's `Display` text as a JSON number; the model writes the exact literal of the mantissa and scale. That assumes `Display` prints every scale digit, so the price halves of FullOrderRoundTrip and EncodeOrderInjective hold without a codec hypothesis. The reader side is the same: a price number literal is read exactly (see Wire.AsDecimal).
- Wire.AsU64: a JSON number keeps only its mantissa and scale, not the form of the literal. serde_json reads `-0` and literals with an exponent such as `1e2` as f64, so a u64 field refuses them as an invalid type; the model cannot tell them from `0` and `100` and accepts them.
- Records.EnumAt: serde also accepts a unit variant written as a one-entry map with a null value, such as `{"Debit": null}`; only the string form is modelled.
- JSON text is not modelled: objects are maps, so key order and duplicate keys are out of scope, and no JSON parser or printer is modelled.
- Wire.AsObject: serde also accepts a struct written as a JSON array of its fields in declaration order (sequence form); only the object form is modelled.
- Error precedence: serde reports a present field of the wrong type as soon as it reaches it, in the order of the input text, and reports a missing field only after the whole object, in declaration order. The model checks the fields in declaration order and reports the first that is missing or wrong, so with several faults its error can differ. The accepted inputs and their values are the same.
- Decimal equality: the model compares mantissa and scale, so 1.50 and 1.5 are different values; rust_decimal's `PartialEq` compares them numerically. No property here depends on that difference.
- `Hash` on Symbol and the `Debug`/`Clone` derives are not modelled: they do not change behaviour on the wire.
- `AccountNumber` is defined in a module outside this source; it is modelled as a transparent string.
- Timestamps (`received_at`, `updated_at`) are opaque: a string and a u64.
- Order-status transitions are not modelled: the code only decodes the status string.
- Builders.OrderBuilder.SetPrice (and the other setters besides SetSymbolFrom): the `into` conversion is modelled only for the symbol setter; the other setters take the target type itself.
- Builders.OrderBuilder.Build: the model's error carries only the field name; derive_builder's `ValidationError` variant has no source here because no validator is declared.
