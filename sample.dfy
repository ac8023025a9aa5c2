/** The placed-order response used by the unit test `test_derp` in
    src/api/order.rs, as a JSON value, and the facts its decoding establishes.
    Decimal text is read by the `DecimalCodec` parameter; the lemmas ask only
    that it accepts the decimal strings the payload contains. */
module PlacedSample {
  import opened Wrappers
  import opened Wire
  import opened Records
  import PE = PriceEffectCodec
  import A = ActionCodec
  import IT = InstrumentTypeCodec
  import OT = OrderTypeCodec
  import TIF = TimeInForceCodec
  import OS = OrderStatusCodec

  function Int(n: int): (j: Json) {
    JNumber(Number(n, 0))
  }

  const SampleLeg: Json := JObject(map[
    "instrument-type" := JString("Equity"),
    "symbol" := JString("AAPL"),
    "quantity" := Int(100),
    "remaining-quantity" := Int(100),
    "action" := JString("Buy to Open"),
    "fills" := JArray([])])

  const SampleOrder: Json := JObject(map[
    "id" := Int(129359),
    "account-number" := JString("5WU44237"),
    "time-in-force" := JString("Day"),
    "order-type" := JString("Limit"),
    "size" := Int(100),
    "underlying-symbol" := JString("AAPL"),
    "underlying-instrument-type" := JString("Equity"),
    "price" := JString("181.01"),
    "price-effect" := JString("Debit"),
    "status" := JString("Received"),
    "cancellable" := JBool(true),
    "editable" := JBool(true),
    "edited" := JBool(false),
    "received-at" := JString("2024-02-11T21:59:57.143+00:00"),
    "updated-at" := Int(1234),
    "global-request-id" := JString("153cc8811e19d5aba6c9bfa083251e56"),
    "legs" := JArray([SampleLeg])])

  const SampleWarning: Json := JObject(map[
    "code" := JString("tif_next_valid_sesssion"),
    "message" := JString("Your order will begin working during next valid session.")])

  const SampleBuyingPowerEffect: Json := JObject(map[
    "change-in-margin-requirement" := JString("9050.5"),
    "change-in-margin-requirement-effect" := JString("Debit"),
    "change-in-buying-power" := JString("9050.58"),
    "change-in-buying-power-effect" := JString("Debit"),
    "current-buying-power" := JString("10056.31"),
    "current-buying-power-effect" := JString("Credit"),
    "new-buying-power" := JString("1005.73"),
    "new-buying-power-effect" := JString("Credit"),
    "isolated-order-margin-requirement" := JString("9050.5"),
    "isolated-order-margin-requirement-effect" := JString("Debit"),
    "is-spread" := JBool(false),
    "impact" := JString("9050.58"),
    "effect" := JString("Debit")])

  const SampleFeeCalculation: Json := JObject(map[
    "regulatory-fees" := JString("0.0"),
    "regulatory-fees-effect" := JString("None"),
    "clearing-fees" := JString("0.08"),
    "clearing-fees-effect" := JString("Debit"),
    "commission" := JString("0.0"),
    "commission-effect" := JString("None"),
    "proprietary-index-option-fees" := JString("0.0"),
    "proprietary-index-option-fees-effect" := JString("None"),
    "total-fees" := JString("0.08"),
    "total-fees-effect" := JString("Debit")])

  const Sample: Json := JObject(map[
    "order" := SampleOrder,
    "warnings" := JArray([SampleWarning]),
    "buying-power-effect" := SampleBuyingPowerEffect,
    "fee-calculation" := SampleFeeCalculation])

  /** The decimal strings of the payload are ones the decimal reader accepts. */
  ghost predicate ReadsSampleDecimals(codec: DecimalCodec) {
    codec.parse("181.01").Some? && codec.parse("9050.5").Some? && codec.parse("9050.58").Some?
    && codec.parse("10056.31").Some? && codec.parse("1005.73").Some?
    && codec.parse("0.0").Some? && codec.parse("0.08").Some?
  }

  lemma SampleLegDecodes(codec: DecimalCodec)
    ensures DecodeLiveOrderLeg(SampleLeg, codec)
      == Success(LiveOrderLeg(IT.Equity, Symbols.Symbol("AAPL"), Number(100, 0), Number(100, 0), A.BuyToOpen, []))
  {
    assert AsSeq(JArray([]), AsString) == Success([]);
  }

  /** The fields of the sample order, two at a time in declaration order, so
      that each proof looks up only a few keys of the literal map. */
  lemma SampleOrderFields1(codec: DecimalCodec)
    ensures var m := SampleOrder.fields;
      DecimalAt(m, "id", codec) == Success(Number(129359, 0))
      && AccountNumberAt(m, "account-number") == Success(AccountNumber("5WU44237"))
  {
  }

  lemma SampleOrderFields2(codec: DecimalCodec)
    ensures var m := SampleOrder.fields;
      EnumAt(m, "time-in-force", TIF.Decode) == Success(TIF.Day)
      && EnumAt(m, "order-type", OT.Decode) == Success(OT.Limit)
  {
  }

  lemma SampleOrderFields3(codec: DecimalCodec)
    ensures var m := SampleOrder.fields;
      U64At(m, "size") == Success(100)
      && SymbolAt(m, "underlying-symbol") == Success(Symbols.Symbol("AAPL"))
  {
  }

  lemma SampleOrderFields4(codec: DecimalCodec)
    requires ReadsSampleDecimals(codec)
    ensures var m := SampleOrder.fields;
      EnumAt(m, "underlying-instrument-type", IT.Decode) == Success(IT.Equity)
      && DecimalAt(m, "price", codec) == Success(codec.parse("181.01").value)
  {
  }

  lemma SampleOrderFields5(codec: DecimalCodec)
    ensures var m := SampleOrder.fields;
      EnumAt(m, "price-effect", PE.Decode) == Success(PE.Debit)
      && EnumAt(m, "status", OS.Decode) == Success(OS.Received)
  {
  }

  lemma SampleOrderFields6(codec: DecimalCodec)
    ensures var m := SampleOrder.fields;
      BoolAt(m, "cancellable") == Success(true)
      && BoolAt(m, "editable") == Success(true)
  {
  }

  lemma SampleOrderFields7(codec: DecimalCodec)
    ensures var m := SampleOrder.fields;
      BoolAt(m, "edited") == Success(false)
      && StringAt(m, "received-at") == Success("2024-02-11T21:59:57.143+00:00")
  {
  }

  lemma SampleOrderFields8(codec: DecimalCodec)
    ensures var m := SampleOrder.fields;
      U64At(m, "updated-at") == Success(1234)
      && StringAt(m, "global-request-id") == Success("153cc8811e19d5aba6c9bfa083251e56")
  {
  }

  lemma SampleOrderFields9(codec: DecimalCodec)
    ensures var m := SampleOrder.fields;
      Field(m, "legs") == Success(JArray([SampleLeg]))
  {
  }

  const SampleLegValue: LiveOrderLeg :=
    LiveOrderLeg(IT.Equity, Symbols.Symbol("AAPL"), Number(100, 0), Number(100, 0), A.BuyToOpen, [])

  lemma SampleLegsDecode(codec: DecimalCodec)
    ensures AsSeq(JArray([SampleLeg]), LiveOrderLegDecoder(codec)) == Success([SampleLegValue])
  {
    SampleLegDecodes(codec);
    assert LiveOrderLegDecoder(codec)([SampleLeg][0]) == Success(SampleLegValue);
    var r := DecodeSeq([SampleLeg], LiveOrderLegDecoder(codec));
    assert r.Success? && |r.value| == 1 && r.value[0] == SampleLegValue;
    assert r.value == [SampleLegValue];
  }

  lemma SampleOrderDecodesTo(codec: DecimalCodec)
    requires ReadsSampleDecimals(codec)
    ensures DecodeLiveOrderRecord(SampleOrder, codec) == Success(LiveOrderRecord(
      Number(129359, 0), AccountNumber("5WU44237"), TIF.Day, OT.Limit, 100, Symbols.Symbol("AAPL"),
      IT.Equity, codec.parse("181.01").value, PE.Debit, OS.Received, true, true, false,
      "2024-02-11T21:59:57.143+00:00", 1234, "153cc8811e19d5aba6c9bfa083251e56", [SampleLegValue]))
  {
    SampleOrderFields1(codec);
    SampleOrderFields2(codec);
    SampleOrderFields3(codec);
    SampleOrderFields4(codec);
    SampleOrderFields5(codec);
    SampleOrderFields6(codec);
    SampleOrderFields7(codec);
    SampleOrderFields8(codec);
    SampleOrderFields9(codec);
    SampleLegsDecode(codec);
  }

  /** The live order of the sample: a received day limit order to buy 100 AAPL
      at 181.01, debit. */
  lemma SampleOrderDecodes(codec: DecimalCodec)
    requires ReadsSampleDecimals(codec)
    ensures var r := DecodeLiveOrderRecord(SampleOrder, codec);
      r.Success? && r.value.status == OS.Received && r.value.size == 100 && r.value.updatedAt == 1234
      && r.value.timeInForce == TIF.Day && r.value.orderType == OT.Limit
      && r.value.price == codec.parse("181.01").value && r.value.priceEffect == PE.Debit
      && |r.value.legs| == 1 && r.value.legs[0].action == A.BuyToOpen && r.value.legs[0].fills == []
  {
    SampleOrderDecodesTo(codec);
  }

  lemma SampleWarningDecodes()
    ensures AsSeq(JArray([SampleWarning]), DecodeWarning)
      == Success([Warning("tif_next_valid_sesssion", "Your order will begin working during next valid session.")])
  {
    var w := Warning("tif_next_valid_sesssion", "Your order will begin working during next valid session.");
    assert DecodeWarning([SampleWarning][0]) == Success(w);
    var r := DecodeSeq([SampleWarning], DecodeWarning);
    assert r.Success? && |r.value| == 1 && r.value[0] == w;
    assert r.value == [w];
  }

  /** The fields of the sample buying-power effect, two at a time. */
  lemma SampleBuyingPowerEffectFields1(codec: DecimalCodec)
    requires ReadsSampleDecimals(codec)
    ensures var m := SampleBuyingPowerEffect.fields;
      DecimalAt(m, "change-in-margin-requirement", codec) == Success(codec.parse("9050.5").value)
      && EnumAt(m, "change-in-margin-requirement-effect", PE.Decode) == Success(PE.Debit)
  {
  }

  lemma SampleBuyingPowerEffectFields2(codec: DecimalCodec)
    requires ReadsSampleDecimals(codec)
    ensures var m := SampleBuyingPowerEffect.fields;
      DecimalAt(m, "change-in-buying-power", codec) == Success(codec.parse("9050.58").value)
      && EnumAt(m, "change-in-buying-power-effect", PE.Decode) == Success(PE.Debit)
  {
  }

  lemma SampleBuyingPowerEffectFields3(codec: DecimalCodec)
    requires ReadsSampleDecimals(codec)
    ensures var m := SampleBuyingPowerEffect.fields;
      DecimalAt(m, "current-buying-power", codec) == Success(codec.parse("10056.31").value)
      && EnumAt(m, "current-buying-power-effect", PE.Decode) == Success(PE.Credit)
  {
  }

  lemma SampleBuyingPowerEffectFields4(codec: DecimalCodec)
    requires ReadsSampleDecimals(codec)
    ensures var m := SampleBuyingPowerEffect.fields;
      DecimalAt(m, "new-buying-power", codec) == Success(codec.parse("1005.73").value)
      && EnumAt(m, "new-buying-power-effect", PE.Decode) == Success(PE.Credit)
  {
  }

  lemma SampleBuyingPowerEffectFields5(codec: DecimalCodec)
    requires ReadsSampleDecimals(codec)
    ensures var m := SampleBuyingPowerEffect.fields;
      DecimalAt(m, "isolated-order-margin-requirement", codec) == Success(codec.parse("9050.5").value)
      && EnumAt(m, "isolated-order-margin-requirement-effect", PE.Decode) == Success(PE.Debit)
  {
  }

  lemma SampleBuyingPowerEffectFields6(codec: DecimalCodec)
    requires ReadsSampleDecimals(codec)
    ensures var m := SampleBuyingPowerEffect.fields;
      BoolAt(m, "is-spread") == Success(false)
      && DecimalAt(m, "impact", codec) == Success(codec.parse("9050.58").value)
  {
  }

  lemma SampleBuyingPowerEffectFields7(codec: DecimalCodec)
    ensures var m := SampleBuyingPowerEffect.fields;
      EnumAt(m, "effect", PE.Decode) == Success(PE.Debit)
  {
  }

  lemma SampleBuyingPowerEffectDecodes(codec: DecimalCodec)
    requires ReadsSampleDecimals(codec)
    ensures var r := DecodeBuyingPowerEffect(SampleBuyingPowerEffect, codec);
      r.Success? && !r.value.isSpread && r.value.effect == PE.Debit
      && r.value.currentBuyingPowerEffect == PE.Credit && r.value.newBuyingPowerEffect == PE.Credit
  {
    SampleBuyingPowerEffectFields1(codec);
    SampleBuyingPowerEffectFields2(codec);
    SampleBuyingPowerEffectFields3(codec);
    SampleBuyingPowerEffectFields4(codec);
    SampleBuyingPowerEffectFields5(codec);
    SampleBuyingPowerEffectFields6(codec);
    SampleBuyingPowerEffectFields7(codec);
  }

  /** The fields of the sample fee calculation, two at a time. */
  lemma SampleFeeCalculationFields1(codec: DecimalCodec)
    requires ReadsSampleDecimals(codec)
    ensures var m := SampleFeeCalculation.fields;
      DecimalAt(m, "regulatory-fees", codec) == Success(codec.parse("0.0").value)
      && EnumAt(m, "regulatory-fees-effect", PE.Decode) == Success(PE.None)
  {
  }

  lemma SampleFeeCalculationFields2(codec: DecimalCodec)
    requires ReadsSampleDecimals(codec)
    ensures var m := SampleFeeCalculation.fields;
      DecimalAt(m, "clearing-fees", codec) == Success(codec.parse("0.08").value)
      && EnumAt(m, "clearing-fees-effect", PE.Decode) == Success(PE.Debit)
  {
  }

  lemma SampleFeeCalculationFields3(codec: DecimalCodec)
    requires ReadsSampleDecimals(codec)
    ensures var m := SampleFeeCalculation.fields;
      DecimalAt(m, "commission", codec) == Success(codec.parse("0.0").value)
      && EnumAt(m, "commission-effect", PE.Decode) == Success(PE.None)
  {
  }

  lemma SampleFeeCalculationFields4(codec: DecimalCodec)
    requires ReadsSampleDecimals(codec)
    ensures var m := SampleFeeCalculation.fields;
      DecimalAt(m, "proprietary-index-option-fees", codec) == Success(codec.parse("0.0").value)
      && EnumAt(m, "proprietary-index-option-fees-effect", PE.Decode) == Success(PE.None)
  {
  }

  lemma SampleFeeCalculationFields5(codec: DecimalCodec)
    requires ReadsSampleDecimals(codec)
    ensures var m := SampleFeeCalculation.fields;
      DecimalAt(m, "total-fees", codec) == Success(codec.parse("0.08").value)
      && EnumAt(m, "total-fees-effect", PE.Decode) == Success(PE.Debit)
  {
  }

  lemma SampleFeeCalculationDecodes(codec: DecimalCodec)
    requires ReadsSampleDecimals(codec)
    ensures var r := DecodeFeeCalculation(SampleFeeCalculation, codec);
      r.Success? && r.value.regulatoryFeesEffect == PE.None && r.value.commissionEffect == PE.None
      && r.value.totalFeesEffect == PE.Debit && r.value.totalFees == codec.parse("0.08").value
  {
    SampleFeeCalculationFields1(codec);
    SampleFeeCalculationFields2(codec);
    SampleFeeCalculationFields3(codec);
    SampleFeeCalculationFields4(codec);
    SampleFeeCalculationFields5(codec);
  }

  lemma SampleTopLevelFields()
    ensures Field(Sample.fields, "order") == Success(SampleOrder)
    ensures Field(Sample.fields, "warnings") == Success(JArray([SampleWarning]))
    ensures Field(Sample.fields, "buying-power-effect") == Success(SampleBuyingPowerEffect)
    ensures Field(Sample.fields, "fee-calculation") == Success(SampleFeeCalculation)
  {
  }

  /** `test_derp`: the payload deserialises into an OrderPlacedResult. */
  lemma SampleDecodes(codec: DecimalCodec)
    requires ReadsSampleDecimals(codec)
    ensures var r := DecodeOrderPlacedResult(Sample, codec);
      r.Success? && r.value.order.status == OS.Received && |r.value.warnings| == 1
      && r.value.warnings[0].code == "tif_next_valid_sesssion" && !r.value.buyingPowerEffect.isSpread
      && r.value.feeCalculation.totalFeesEffect == PE.Debit
  {
    SampleTopLevelFields();
    SampleOrderDecodes(codec);
    SampleWarningDecodes();
    SampleBuyingPowerEffectDecodes(codec);
    SampleFeeCalculationDecodes(codec);
  }
}
