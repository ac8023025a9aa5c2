/** The order records of src/api/order.rs and their JSON forms. Every struct is
    `#[serde(rename_all = "kebab-case")]`: a field's wire key is its Rust name
    with '_' replaced by '-'. Each struct has its Rust field names (`...Fields`)
    and wire keys (`...Keys`) in declaration order, a decoder where the struct
    derives Deserialize and an encoder where it derives Serialize. */
module Records {
  import opened Wrappers
  import opened Wire
  import opened Symbols
  import PE = PriceEffectCodec
  import A = ActionCodec
  import IT = InstrumentTypeCodec
  import OT = OrderTypeCodec
  import TIF = TimeInForceCodec
  import OS = OrderStatusCodec

  /** `#[serde(transparent)] pub struct OrderId(pub String)`. */
  datatype OrderId = OrderId(value: string)

  /** The account number is defined outside this model; it travels as a string. */
  datatype AccountNumber = AccountNumber(value: string)

  datatype LiveOrderLeg = LiveOrderLeg(
    instrumentType: IT.InstrumentType,
    symbol: Symbol,
    quantity: Decimal,
    remainingQuantity: Decimal,
    action: A.Action,
    fills: seq<string>)

  datatype LiveOrderRecord = LiveOrderRecord(
    id: Decimal,
    accountNumber: AccountNumber,
    timeInForce: TIF.TimeInForce,
    orderType: OT.OrderType,
    size: U64,
    underlyingSymbol: Symbol,
    underlyingInstrumentType: IT.InstrumentType,
    price: Decimal,
    priceEffect: PE.PriceEffect,
    status: OS.OrderStatus,
    cancellable: bool,
    editable: bool,
    edited: bool,
    receivedAt: string,
    updatedAt: U64,
    globalRequestId: string,
    legs: seq<LiveOrderLeg>)

  /** The outbound order; built by Builders.OrderBuilder. */
  datatype Order = Order(
    timeInForce: TIF.TimeInForce,
    orderType: OT.OrderType,
    price: Decimal,
    priceEffect: PE.PriceEffect,
    legs: seq<OrderLeg>)

  datatype OrderLeg = OrderLeg(
    instrumentType: IT.InstrumentType,
    symbol: Symbol,
    quantity: Decimal,
    action: A.Action)

  datatype OrderPlacedResult = OrderPlacedResult(
    order: LiveOrderRecord,
    warnings: seq<Warning>,
    buyingPowerEffect: BuyingPowerEffect,
    feeCalculation: FeeCalculation)

  datatype DryRunResult = DryRunResult(
    order: DryRunRecord,
    warnings: seq<Warning>,
    buyingPowerEffect: BuyingPowerEffect,
    feeCalculation: FeeCalculation)

  datatype DryRunRecord = DryRunRecord(
    accountNumber: AccountNumber,
    timeInForce: TIF.TimeInForce,
    orderType: OT.OrderType,
    size: U64,
    underlyingSymbol: Symbol,
    price: Decimal,
    priceEffect: PE.PriceEffect,
    status: OS.OrderStatus,
    cancellable: bool,
    editable: bool,
    edited: bool,
    legs: seq<OrderLeg>)

  datatype FullOrder = FullOrder(
    id: OrderId,
    accountNumber: AccountNumber,
    timeInForce: TIF.TimeInForce,
    orderType: OT.OrderType,
    size: Decimal,
    underlyingSymbol: Symbol,
    price: Decimal,
    priceEffect: PE.PriceEffect,
    status: OS.OrderStatus,
    cancellable: bool,
    editable: bool,
    edited: bool,
    legs: seq<OrderLeg>)

  /** Every amount is paired with the PriceEffect that gives its sign. */
  datatype BuyingPowerEffect = BuyingPowerEffect(
    changeInMarginRequirement: Decimal,
    changeInMarginRequirementEffect: PE.PriceEffect,
    changeInBuyingPower: Decimal,
    changeInBuyingPowerEffect: PE.PriceEffect,
    currentBuyingPower: Decimal,
    currentBuyingPowerEffect: PE.PriceEffect,
    newBuyingPower: Decimal,
    newBuyingPowerEffect: PE.PriceEffect,
    isolatedOrderMarginRequirement: Decimal,
    isolatedOrderMarginRequirementEffect: PE.PriceEffect,
    isSpread: bool,
    impact: Decimal,
    effect: PE.PriceEffect)

  datatype FeeCalculation = FeeCalculation(
    regulatoryFees: Decimal,
    regulatoryFeesEffect: PE.PriceEffect,
    clearingFees: Decimal,
    clearingFeesEffect: PE.PriceEffect,
    commission: Decimal,
    commissionEffect: PE.PriceEffect,
    proprietaryIndexOptionFees: Decimal,
    proprietaryIndexOptionFeesEffect: PE.PriceEffect,
    totalFees: Decimal,
    totalFeesEffect: PE.PriceEffect)

  datatype Warning = Warning(code: string, message: string)

  // ---------------------------------------------------------------------------
  // Schemas: Rust field names and wire keys, in declaration order

  const LiveOrderRecordFields: seq<string> :=
    ["id", "account_number", "time_in_force", "order_type", "size", "underlying_symbol",
     "underlying_instrument_type", "price", "price_effect", "status", "cancellable", "editable",
     "edited", "received_at", "updated_at", "global_request_id", "legs"]
  const LiveOrderRecordKeys: seq<string> :=
    ["id", "account-number", "time-in-force", "order-type", "size", "underlying-symbol",
     "underlying-instrument-type", "price", "price-effect", "status", "cancellable", "editable",
     "edited", "received-at", "updated-at", "global-request-id", "legs"]

  const LiveOrderLegFields: seq<string> :=
    ["instrument_type", "symbol", "quantity", "remaining_quantity", "action", "fills"]
  const LiveOrderLegKeys: seq<string> :=
    ["instrument-type", "symbol", "quantity", "remaining-quantity", "action", "fills"]

  const OrderFields: seq<string> := ["time_in_force", "order_type", "price", "price_effect", "legs"]
  const OrderKeys: seq<string> := ["time-in-force", "order-type", "price", "price-effect", "legs"]

  const OrderLegFields: seq<string> := ["instrument_type", "symbol", "quantity", "action"]
  const OrderLegKeys: seq<string> := ["instrument-type", "symbol", "quantity", "action"]

  const ResultFields: seq<string> := ["order", "warnings", "buying_power_effect", "fee_calculation"]
  const ResultKeys: seq<string> := ["order", "warnings", "buying-power-effect", "fee-calculation"]

  const DryRunRecordFields: seq<string> :=
    ["account_number", "time_in_force", "order_type", "size", "underlying_symbol", "price",
     "price_effect", "status", "cancellable", "editable", "edited", "legs"]
  const DryRunRecordKeys: seq<string> :=
    ["account-number", "time-in-force", "order-type", "size", "underlying-symbol", "price",
     "price-effect", "status", "cancellable", "editable", "edited", "legs"]

  const FullOrderFields: seq<string> :=
    ["id", "account_number", "time_in_force", "order_type", "size", "underlying_symbol", "price",
     "price_effect", "status", "cancellable", "editable", "edited", "legs"]
  const FullOrderKeys: seq<string> :=
    ["id", "account-number", "time-in-force", "order-type", "size", "underlying-symbol", "price",
     "price-effect", "status", "cancellable", "editable", "edited", "legs"]

  const BuyingPowerEffectFields: seq<string> :=
    ["change_in_margin_requirement", "change_in_margin_requirement_effect",
     "change_in_buying_power", "change_in_buying_power_effect",
     "current_buying_power", "current_buying_power_effect",
     "new_buying_power", "new_buying_power_effect",
     "isolated_order_margin_requirement", "isolated_order_margin_requirement_effect",
     "is_spread", "impact", "effect"]
  const BuyingPowerEffectKeys: seq<string> :=
    ["change-in-margin-requirement", "change-in-margin-requirement-effect",
     "change-in-buying-power", "change-in-buying-power-effect",
     "current-buying-power", "current-buying-power-effect",
     "new-buying-power", "new-buying-power-effect",
     "isolated-order-margin-requirement", "isolated-order-margin-requirement-effect",
     "is-spread", "impact", "effect"]

  const FeeCalculationFields: seq<string> :=
    ["regulatory_fees", "regulatory_fees_effect", "clearing_fees", "clearing_fees_effect",
     "commission", "commission_effect", "proprietary_index_option_fees",
     "proprietary_index_option_fees_effect", "total_fees", "total_fees_effect"]
  const FeeCalculationKeys: seq<string> :=
    ["regulatory-fees", "regulatory-fees-effect", "clearing-fees", "clearing-fees-effect",
     "commission", "commission-effect", "proprietary-index-option-fees",
     "proprietary-index-option-fees-effect", "total-fees", "total-fees-effect"]

  const WarningFields: seq<string> := ["code", "message"]
  const WarningKeys: seq<string> := ["code", "message"]

  /** Each struct's wire keys are the kebab-case forms of its field names. */
  lemma SchemaKeysAreKebab()
    ensures KebabKeys(LiveOrderRecordFields) == LiveOrderRecordKeys
    ensures KebabKeys(LiveOrderLegFields) == LiveOrderLegKeys
    ensures KebabKeys(OrderFields) == OrderKeys
    ensures KebabKeys(OrderLegFields) == OrderLegKeys
    ensures KebabKeys(ResultFields) == ResultKeys
    ensures KebabKeys(DryRunRecordFields) == DryRunRecordKeys
    ensures KebabKeys(FullOrderFields) == FullOrderKeys
    ensures KebabKeys(BuyingPowerEffectFields) == BuyingPowerEffectKeys
    ensures KebabKeys(FeeCalculationFields) == FeeCalculationKeys
    ensures KebabKeys(WarningFields) == WarningKeys
  {
    LiveOrderRecordKeysAreKebab();
    LiveOrderLegKeysAreKebab();
    OrderKeysAreKebab();
    OrderLegKeysAreKebab();
    ResultKeysAreKebab();
    DryRunRecordKeysAreKebab();
    BuyingPowerEffectKeysAreKebab();
    FeeCalculationKeysAreKebab();
    WarningKeysAreKebab();
    FullOrderKeysAreKebab();
  }

  lemma LiveOrderRecordKeysAreKebab()
    ensures KebabKeys(LiveOrderRecordFields) == LiveOrderRecordKeys
  {
    LiveOrderRecordLeadingKeysAreKebab();
    LiveOrderRecordTrailingKeysAreKebab();
    KebabKeysOf(LiveOrderRecordFields, LiveOrderRecordKeys);
  }

  lemma LiveOrderRecordLeadingKeysAreKebab()
    ensures IsKebabOf("account_number", "account-number")
    ensures IsKebabOf("time_in_force", "time-in-force")
    ensures IsKebabOf("order_type", "order-type")
    ensures IsKebabOf("underlying_symbol", "underlying-symbol")
    ensures IsKebabOf("underlying_instrument_type", "underlying-instrument-type")
  {
  }

  lemma LiveOrderRecordTrailingKeysAreKebab()
    ensures IsKebabOf("price_effect", "price-effect")
    ensures IsKebabOf("received_at", "received-at")
    ensures IsKebabOf("updated_at", "updated-at")
    ensures IsKebabOf("global_request_id", "global-request-id")
  {
  }

  lemma LiveOrderLegKeysAreKebab()
    ensures KebabKeys(LiveOrderLegFields) == LiveOrderLegKeys
  {
    assert IsKebabOf("instrument_type", "instrument-type");
    assert IsKebabOf("remaining_quantity", "remaining-quantity");
    KebabKeysOf(LiveOrderLegFields, LiveOrderLegKeys);
  }

  lemma OrderKeysAreKebab()
    ensures KebabKeys(OrderFields) == OrderKeys
  {
    assert IsKebabOf("time_in_force", "time-in-force");
    assert IsKebabOf("order_type", "order-type");
    assert IsKebabOf("price_effect", "price-effect");
    KebabKeysOf(OrderFields, OrderKeys);
  }

  lemma OrderLegKeysAreKebab()
    ensures KebabKeys(OrderLegFields) == OrderLegKeys
  {
    assert IsKebabOf("instrument_type", "instrument-type");
    KebabKeysOf(OrderLegFields, OrderLegKeys);
  }

  lemma ResultKeysAreKebab()
    ensures KebabKeys(ResultFields) == ResultKeys
  {
    assert IsKebabOf("buying_power_effect", "buying-power-effect");
    assert IsKebabOf("fee_calculation", "fee-calculation");
    KebabKeysOf(ResultFields, ResultKeys);
  }

  lemma DryRunRecordKeysAreKebab()
    ensures KebabKeys(DryRunRecordFields) == DryRunRecordKeys
  {
    assert IsKebabOf("account_number", "account-number");
    assert IsKebabOf("time_in_force", "time-in-force");
    assert IsKebabOf("order_type", "order-type");
    assert IsKebabOf("underlying_symbol", "underlying-symbol");
    assert IsKebabOf("price_effect", "price-effect");
    KebabKeysOf(DryRunRecordFields, DryRunRecordKeys);
  }

  lemma FullOrderKeysAreKebab()
    ensures KebabKeys(FullOrderFields) == FullOrderKeys
  {
    assert IsKebabOf("account_number", "account-number");
    assert IsKebabOf("time_in_force", "time-in-force");
    assert IsKebabOf("order_type", "order-type");
    assert IsKebabOf("underlying_symbol", "underlying-symbol");
    assert IsKebabOf("price_effect", "price-effect");
    KebabKeysOf(FullOrderFields, FullOrderKeys);
  }

  lemma BuyingPowerEffectKeysAreKebab()
    ensures KebabKeys(BuyingPowerEffectFields) == BuyingPowerEffectKeys
  {
    BuyingPowerEffectChangeKeysAreKebab();
    BuyingPowerEffectLevelKeysAreKebab();
    BuyingPowerEffectIsolatedKeysAreKebab();
    assert IsKebabOf("is_spread", "is-spread");
    KebabKeysOf(BuyingPowerEffectFields, BuyingPowerEffectKeys);
  }

  lemma BuyingPowerEffectChangeKeysAreKebab()
    ensures IsKebabOf("change_in_margin_requirement", "change-in-margin-requirement")
    ensures IsKebabOf("change_in_margin_requirement_effect", "change-in-margin-requirement-effect")
    ensures IsKebabOf("change_in_buying_power", "change-in-buying-power")
    ensures IsKebabOf("change_in_buying_power_effect", "change-in-buying-power-effect")
  {
  }

  lemma BuyingPowerEffectLevelKeysAreKebab()
    ensures IsKebabOf("current_buying_power", "current-buying-power")
    ensures IsKebabOf("current_buying_power_effect", "current-buying-power-effect")
    ensures IsKebabOf("new_buying_power", "new-buying-power")
    ensures IsKebabOf("new_buying_power_effect", "new-buying-power-effect")
  {
  }

  lemma BuyingPowerEffectIsolatedKeysAreKebab()
    ensures IsKebabOf("isolated_order_margin_requirement", "isolated-order-margin-requirement")
    ensures IsKebabOf("isolated_order_margin_requirement_effect", "isolated-order-margin-requirement-effect")
  {
  }

  lemma FeeCalculationKeysAreKebab()
    ensures KebabKeys(FeeCalculationFields) == FeeCalculationKeys
  {
    FeeCalculationFeeKeysAreKebab();
    assert IsKebabOf("commission_effect", "commission-effect");
    assert IsKebabOf("total_fees", "total-fees");
    assert IsKebabOf("total_fees_effect", "total-fees-effect");
    KebabKeysOf(FeeCalculationFields, FeeCalculationKeys);
  }

  lemma FeeCalculationFeeKeysAreKebab()
    ensures IsKebabOf("regulatory_fees", "regulatory-fees")
    ensures IsKebabOf("regulatory_fees_effect", "regulatory-fees-effect")
    ensures IsKebabOf("clearing_fees", "clearing-fees")
    ensures IsKebabOf("clearing_fees_effect", "clearing-fees-effect")
    ensures IsKebabOf("proprietary_index_option_fees", "proprietary-index-option-fees")
    ensures IsKebabOf("proprietary_index_option_fees_effect", "proprietary-index-option-fees-effect")
  {
  }

  lemma WarningKeysAreKebab()
    ensures KebabKeys(WarningFields) == WarningKeys
  {
    KebabKeysOf(WarningFields, WarningKeys);
  }

  // ---------------------------------------------------------------------------
  // Field decoders: look a key up and decode its value

  function StringAt(m: map<string, Json>, key: string): (r: Result<string, DecodeError>)
    ensures r.Success? <==> key in m && m[key].JString?
    ensures r.Success? ==> m[key] == JString(r.value)
    ensures key !in m ==> r == Failure(MissingField(key))
  {
    var j :- Field(m, key);
    AsString(j)
  }

  function BoolAt(m: map<string, Json>, key: string): (r: Result<bool, DecodeError>)
    ensures r.Success? <==> key in m && m[key].JBool?
    ensures r.Success? ==> m[key] == JBool(r.value)
    ensures key !in m ==> r == Failure(MissingField(key))
  {
    var j :- Field(m, key);
    AsBool(j)
  }

  function U64At(m: map<string, Json>, key: string): (r: Result<U64, DecodeError>)
    ensures r.Success? <==> key in m && AsU64(m[key]).Success?
    ensures r.Success? ==> m[key] == JNumber(Number(r.value as int, 0))
    ensures key !in m ==> r == Failure(MissingField(key))
  {
    var j :- Field(m, key);
    AsU64(j)
  }

  function DecimalAt(m: map<string, Json>, key: string, codec: DecimalCodec): (r: Result<Decimal, DecodeError>)
    ensures r.Success? <==> key in m && AsDecimal(m[key], codec).Success?
    ensures r.Success? ==> AsDecimal(m[key], codec) == r
    ensures key !in m ==> r == Failure(MissingField(key))
  {
    var j :- Field(m, key);
    AsDecimal(j, codec)
  }

  /** A field under `#[serde(with = "rust_decimal::serde::float")]`. */
  function FloatAt(m: map<string, Json>, key: string, codec: DecimalCodec): (r: Result<Decimal, DecodeError>)
    ensures r.Success? <==> key in m && m[key].JNumber? && codec.readFloat(m[key].n).Some?
    ensures r.Success? ==> r.value == codec.readFloat(m[key].n).value
    ensures key !in m ==> r == Failure(MissingField(key))
  {
    var j :- Field(m, key);
    AsFloatDecimal(j, codec)
  }

  /** `#[serde(transparent)]` newtypes over String travel as the bare string:
      a Symbol field holds exactly a JSON string, its text. */
  function SymbolAt(m: map<string, Json>, key: string): (r: Result<Symbol, DecodeError>)
    ensures r.Success? <==> key in m && m[key].JString?
    ensures r.Success? ==> m[key] == JString(r.value.value)
    ensures key !in m ==> r == Failure(MissingField(key))
  {
    var s :- StringAt(m, key);
    Success(From(s))
  }

  function AccountNumberAt(m: map<string, Json>, key: string): (r: Result<AccountNumber, DecodeError>)
    ensures r.Success? <==> key in m && m[key].JString?
    ensures r.Success? ==> m[key] == JString(r.value.value)
    ensures key !in m ==> r == Failure(MissingField(key))
  {
    var s :- StringAt(m, key);
    Success(AccountNumber(s))
  }

  /** OrderId is transparent too: exactly a JSON string, its text. */
  function OrderIdAt(m: map<string, Json>, key: string): (r: Result<OrderId, DecodeError>)
    ensures r.Success? <==> key in m && m[key].JString?
    ensures r.Success? ==> m[key] == JString(r.value.value)
    ensures key !in m ==> r == Failure(MissingField(key))
  {
    var s :- StringAt(m, key);
    Success(OrderId(s))
  }

  /** An enum field: a JSON string that the enum's own decoder accepts. */
  function EnumAt<T>(m: map<string, Json>, key: string, decode: string -> Result<T, DecodeError>): (r: Result<T, DecodeError>)
    ensures r.Success? <==> key in m && m[key].JString? && decode(m[key].s).Success?
    ensures r.Success? ==> decode(m[key].s) == r
    ensures key !in m ==> r == Failure(MissingField(key))
  {
    var j :- Field(m, key);
    if j.JString? then decode(j.s) else Failure(InvalidType("a string"))
  }

  /** A `Vec<T>` field. */
  function SeqAt<T>(m: map<string, Json>, key: string, f: Json -> Result<T, DecodeError>): (r: Result<seq<T>, DecodeError>)
    ensures r.Success? <==> key in m && AsSeq(m[key], f).Success?
    ensures r.Success? ==> AsSeq(m[key], f) == r
    ensures key !in m ==> r == Failure(MissingField(key))
  {
    var j :- Field(m, key);
    AsSeq(j, f)
  }

  // ---------------------------------------------------------------------------
  // What an object holds: `Holds<Struct>(m, .., v)` says that the object `m`
  // carries every field of `v`, the field declared i-th under the i-th key of
  // the struct's key table.

  ghost predicate HoldsWarning(m: map<string, Json>, v: Warning) {
    var k := WarningKeys;
    StringAt(m, k[0]) == Success(v.code) && StringAt(m, k[1]) == Success(v.message)
  }

  ghost predicate HoldsOrderLeg(m: map<string, Json>, codec: DecimalCodec, v: OrderLeg) {
    var k := OrderLegKeys;
    EnumAt(m, k[0], IT.Decode) == Success(v.instrumentType)
    && SymbolAt(m, k[1]) == Success(v.symbol)
    && FloatAt(m, k[2], codec) == Success(v.quantity)
    && EnumAt(m, k[3], A.Decode) == Success(v.action)
  }

  ghost predicate HoldsLiveOrderLeg(m: map<string, Json>, codec: DecimalCodec, v: LiveOrderLeg) {
    var k := LiveOrderLegKeys;
    EnumAt(m, k[0], IT.Decode) == Success(v.instrumentType)
    && SymbolAt(m, k[1]) == Success(v.symbol)
    && DecimalAt(m, k[2], codec) == Success(v.quantity)
    && DecimalAt(m, k[3], codec) == Success(v.remainingQuantity)
    && EnumAt(m, k[4], A.Decode) == Success(v.action)
    && SeqAt(m, k[5], AsString) == Success(v.fills)
  }

  ghost predicate HoldsLiveOrderRecord(m: map<string, Json>, codec: DecimalCodec, v: LiveOrderRecord) {
    var k := LiveOrderRecordKeys;
    DecimalAt(m, k[0], codec) == Success(v.id)
    && AccountNumberAt(m, k[1]) == Success(v.accountNumber)
    && EnumAt(m, k[2], TIF.Decode) == Success(v.timeInForce)
    && EnumAt(m, k[3], OT.Decode) == Success(v.orderType)
    && U64At(m, k[4]) == Success(v.size)
    && SymbolAt(m, k[5]) == Success(v.underlyingSymbol)
    && EnumAt(m, k[6], IT.Decode) == Success(v.underlyingInstrumentType)
    && DecimalAt(m, k[7], codec) == Success(v.price)
    && EnumAt(m, k[8], PE.Decode) == Success(v.priceEffect)
    && EnumAt(m, k[9], OS.Decode) == Success(v.status)
    && BoolAt(m, k[10]) == Success(v.cancellable)
    && BoolAt(m, k[11]) == Success(v.editable)
    && BoolAt(m, k[12]) == Success(v.edited)
    && StringAt(m, k[13]) == Success(v.receivedAt)
    && U64At(m, k[14]) == Success(v.updatedAt)
    && StringAt(m, k[15]) == Success(v.globalRequestId)
    && SeqAt(m, k[16], LiveOrderLegDecoder(codec)) == Success(v.legs)
  }

  ghost predicate HoldsDryRunRecord(m: map<string, Json>, codec: DecimalCodec, v: DryRunRecord) {
    var k := DryRunRecordKeys;
    AccountNumberAt(m, k[0]) == Success(v.accountNumber)
    && EnumAt(m, k[1], TIF.Decode) == Success(v.timeInForce)
    && EnumAt(m, k[2], OT.Decode) == Success(v.orderType)
    && U64At(m, k[3]) == Success(v.size)
    && SymbolAt(m, k[4]) == Success(v.underlyingSymbol)
    && DecimalAt(m, k[5], codec) == Success(v.price)
    && EnumAt(m, k[6], PE.Decode) == Success(v.priceEffect)
    && EnumAt(m, k[7], OS.Decode) == Success(v.status)
    && BoolAt(m, k[8]) == Success(v.cancellable)
    && BoolAt(m, k[9]) == Success(v.editable)
    && BoolAt(m, k[10]) == Success(v.edited)
    && SeqAt(m, k[11], OrderLegDecoder(codec)) == Success(v.legs)
  }

  ghost predicate HoldsFullOrder(m: map<string, Json>, codec: DecimalCodec, v: FullOrder) {
    var k := FullOrderKeys;
    OrderIdAt(m, k[0]) == Success(v.id)
    && AccountNumberAt(m, k[1]) == Success(v.accountNumber)
    && EnumAt(m, k[2], TIF.Decode) == Success(v.timeInForce)
    && EnumAt(m, k[3], OT.Decode) == Success(v.orderType)
    && DecimalAt(m, k[4], codec) == Success(v.size)
    && SymbolAt(m, k[5]) == Success(v.underlyingSymbol)
    && DecimalAt(m, k[6], codec) == Success(v.price)
    && EnumAt(m, k[7], PE.Decode) == Success(v.priceEffect)
    && EnumAt(m, k[8], OS.Decode) == Success(v.status)
    && BoolAt(m, k[9]) == Success(v.cancellable)
    && BoolAt(m, k[10]) == Success(v.editable)
    && BoolAt(m, k[11]) == Success(v.edited)
    && SeqAt(m, k[12], OrderLegDecoder(codec)) == Success(v.legs)
  }

  ghost predicate HoldsBuyingPowerEffect(m: map<string, Json>, codec: DecimalCodec, v: BuyingPowerEffect) {
    var k := BuyingPowerEffectKeys;
    DecimalAt(m, k[0], codec) == Success(v.changeInMarginRequirement)
    && EnumAt(m, k[1], PE.Decode) == Success(v.changeInMarginRequirementEffect)
    && DecimalAt(m, k[2], codec) == Success(v.changeInBuyingPower)
    && EnumAt(m, k[3], PE.Decode) == Success(v.changeInBuyingPowerEffect)
    && DecimalAt(m, k[4], codec) == Success(v.currentBuyingPower)
    && EnumAt(m, k[5], PE.Decode) == Success(v.currentBuyingPowerEffect)
    && DecimalAt(m, k[6], codec) == Success(v.newBuyingPower)
    && EnumAt(m, k[7], PE.Decode) == Success(v.newBuyingPowerEffect)
    && DecimalAt(m, k[8], codec) == Success(v.isolatedOrderMarginRequirement)
    && EnumAt(m, k[9], PE.Decode) == Success(v.isolatedOrderMarginRequirementEffect)
    && BoolAt(m, k[10]) == Success(v.isSpread)
    && DecimalAt(m, k[11], codec) == Success(v.impact)
    && EnumAt(m, k[12], PE.Decode) == Success(v.effect)
  }

  ghost predicate HoldsFeeCalculation(m: map<string, Json>, codec: DecimalCodec, v: FeeCalculation) {
    var k := FeeCalculationKeys;
    DecimalAt(m, k[0], codec) == Success(v.regulatoryFees)
    && EnumAt(m, k[1], PE.Decode) == Success(v.regulatoryFeesEffect)
    && DecimalAt(m, k[2], codec) == Success(v.clearingFees)
    && EnumAt(m, k[3], PE.Decode) == Success(v.clearingFeesEffect)
    && DecimalAt(m, k[4], codec) == Success(v.commission)
    && EnumAt(m, k[5], PE.Decode) == Success(v.commissionEffect)
    && DecimalAt(m, k[6], codec) == Success(v.proprietaryIndexOptionFees)
    && EnumAt(m, k[7], PE.Decode) == Success(v.proprietaryIndexOptionFeesEffect)
    && DecimalAt(m, k[8], codec) == Success(v.totalFees)
    && EnumAt(m, k[9], PE.Decode) == Success(v.totalFeesEffect)
  }

  ghost predicate HoldsOrderPlacedResult(m: map<string, Json>, codec: DecimalCodec, v: OrderPlacedResult) {
    var k := ResultKeys;
    k[0] in m && DecodeLiveOrderRecord(m[k[0]], codec) == Success(v.order)
    && SeqAt(m, k[1], DecodeWarning) == Success(v.warnings)
    && k[2] in m && DecodeBuyingPowerEffect(m[k[2]], codec) == Success(v.buyingPowerEffect)
    && k[3] in m && DecodeFeeCalculation(m[k[3]], codec) == Success(v.feeCalculation)
  }

  ghost predicate HoldsDryRunResult(m: map<string, Json>, codec: DecimalCodec, v: DryRunResult) {
    var k := ResultKeys;
    k[0] in m && DecodeDryRunRecord(m[k[0]], codec) == Success(v.order)
    && SeqAt(m, k[1], DecodeWarning) == Success(v.warnings)
    && k[2] in m && DecodeBuyingPowerEffect(m[k[2]], codec) == Success(v.buyingPowerEffect)
    && k[3] in m && DecodeFeeCalculation(m[k[3]], codec) == Success(v.feeCalculation)
  }

  // ---------------------------------------------------------------------------
  // Record decoders (the derived Deserialize). Unknown keys are ignored and
  // every declared field is required. Each decoder's result is what the
  // object holds; the `...Iff` lemmas below give the converse.

  function DecodeWarning(j: Json): (r: Result<Warning, DecodeError>)
    ensures r.Success? ==> j.JObject? && HoldsWarning(j.fields, r.value)
  {
    var m :- AsObject(j);
    var code :- StringAt(m, "code");
    var message :- StringAt(m, "message");
    Success(Warning(code, message))
  }

  function DecodeOrderLeg(j: Json, codec: DecimalCodec): (r: Result<OrderLeg, DecodeError>)
    ensures r.Success? ==> j.JObject? && HoldsOrderLeg(j.fields, codec, r.value)
  {
    var m :- AsObject(j);
    var instrumentType :- EnumAt(m, "instrument-type", IT.Decode);
    var symbol :- SymbolAt(m, "symbol");
    var quantity :- FloatAt(m, "quantity", codec);
    var action :- EnumAt(m, "action", A.Decode);
    Success(OrderLeg(instrumentType, symbol, quantity, action))
  }

  function OrderLegDecoder(codec: DecimalCodec): (f: Json -> Result<OrderLeg, DecodeError>)
    ensures forall j :: f(j) == DecodeOrderLeg(j, codec)
  {
    j => DecodeOrderLeg(j, codec)
  }

  function DecodeLiveOrderLeg(j: Json, codec: DecimalCodec): (r: Result<LiveOrderLeg, DecodeError>)
    ensures r.Success? ==> j.JObject? && HoldsLiveOrderLeg(j.fields, codec, r.value)
  {
    var m :- AsObject(j);
    var instrumentType :- EnumAt(m, "instrument-type", IT.Decode);
    var symbol :- SymbolAt(m, "symbol");
    var quantity :- DecimalAt(m, "quantity", codec);
    var remainingQuantity :- DecimalAt(m, "remaining-quantity", codec);
    var action :- EnumAt(m, "action", A.Decode);
    var fills :- SeqAt(m, "fills", AsString);
    Success(LiveOrderLeg(instrumentType, symbol, quantity, remainingQuantity, action, fills))
  }

  function LiveOrderLegDecoder(codec: DecimalCodec): (f: Json -> Result<LiveOrderLeg, DecodeError>)
    ensures forall j :: f(j) == DecodeLiveOrderLeg(j, codec)
  {
    j => DecodeLiveOrderLeg(j, codec)
  }

  /** The entries of the LiveOrderRecord key table, one by one. */
  lemma LiveOrderRecordKeysSpelled()
    ensures LiveOrderRecordKeys[0] == "id"
    ensures LiveOrderRecordKeys[1] == "account-number"
    ensures LiveOrderRecordKeys[2] == "time-in-force"
    ensures LiveOrderRecordKeys[3] == "order-type"
    ensures LiveOrderRecordKeys[4] == "size"
    ensures LiveOrderRecordKeys[5] == "underlying-symbol"
    ensures LiveOrderRecordKeys[6] == "underlying-instrument-type"
    ensures LiveOrderRecordKeys[7] == "price"
    ensures LiveOrderRecordKeys[8] == "price-effect"
    ensures LiveOrderRecordKeys[9] == "status"
    ensures LiveOrderRecordKeys[10] == "cancellable"
    ensures LiveOrderRecordKeys[11] == "editable"
    ensures LiveOrderRecordKeys[12] == "edited"
    ensures LiveOrderRecordKeys[13] == "received-at"
    ensures LiveOrderRecordKeys[14] == "updated-at"
    ensures LiveOrderRecordKeys[15] == "global-request-id"
    ensures LiveOrderRecordKeys[16] == "legs"
  {
  }

  function DecodeLiveOrderRecord(j: Json, codec: DecimalCodec): (r: Result<LiveOrderRecord, DecodeError>)
    ensures r.Success? ==> j.JObject? && HoldsLiveOrderRecord(j.fields, codec, r.value)
  {
    LiveOrderRecordKeysSpelled();
    var m :- AsObject(j);
    var id :- DecimalAt(m, "id", codec);
    var accountNumber :- AccountNumberAt(m, "account-number");
    var timeInForce :- EnumAt(m, "time-in-force", TIF.Decode);
    var orderType :- EnumAt(m, "order-type", OT.Decode);
    var size :- U64At(m, "size");
    var underlyingSymbol :- SymbolAt(m, "underlying-symbol");
    var underlyingInstrumentType :- EnumAt(m, "underlying-instrument-type", IT.Decode);
    var price :- DecimalAt(m, "price", codec);
    var priceEffect :- EnumAt(m, "price-effect", PE.Decode);
    var status :- EnumAt(m, "status", OS.Decode);
    var cancellable :- BoolAt(m, "cancellable");
    var editable :- BoolAt(m, "editable");
    var edited :- BoolAt(m, "edited");
    var receivedAt :- StringAt(m, "received-at");
    var updatedAt :- U64At(m, "updated-at");
    var globalRequestId :- StringAt(m, "global-request-id");
    var legs :- SeqAt(m, "legs", LiveOrderLegDecoder(codec));
    Success(LiveOrderRecord(id, accountNumber, timeInForce, orderType, size, underlyingSymbol,
      underlyingInstrumentType, price, priceEffect, status, cancellable, editable, edited,
      receivedAt, updatedAt, globalRequestId, legs))
  }

  /** The entries of the DryRunRecord key table, one by one. */
  lemma DryRunRecordKeysSpelled()
    ensures DryRunRecordKeys[0] == "account-number"
    ensures DryRunRecordKeys[1] == "time-in-force"
    ensures DryRunRecordKeys[2] == "order-type"
    ensures DryRunRecordKeys[3] == "size"
    ensures DryRunRecordKeys[4] == "underlying-symbol"
    ensures DryRunRecordKeys[5] == "price"
    ensures DryRunRecordKeys[6] == "price-effect"
    ensures DryRunRecordKeys[7] == "status"
    ensures DryRunRecordKeys[8] == "cancellable"
    ensures DryRunRecordKeys[9] == "editable"
    ensures DryRunRecordKeys[10] == "edited"
    ensures DryRunRecordKeys[11] == "legs"
  {
  }

  function DecodeDryRunRecord(j: Json, codec: DecimalCodec): (r: Result<DryRunRecord, DecodeError>)
    ensures r.Success? ==> j.JObject? && HoldsDryRunRecord(j.fields, codec, r.value)
  {
    DryRunRecordKeysSpelled();
    var m :- AsObject(j);
    var accountNumber :- AccountNumberAt(m, "account-number");
    var timeInForce :- EnumAt(m, "time-in-force", TIF.Decode);
    var orderType :- EnumAt(m, "order-type", OT.Decode);
    var size :- U64At(m, "size");
    var underlyingSymbol :- SymbolAt(m, "underlying-symbol");
    var price :- DecimalAt(m, "price", codec);
    var priceEffect :- EnumAt(m, "price-effect", PE.Decode);
    var status :- EnumAt(m, "status", OS.Decode);
    var cancellable :- BoolAt(m, "cancellable");
    var editable :- BoolAt(m, "editable");
    var edited :- BoolAt(m, "edited");
    var legs :- SeqAt(m, "legs", OrderLegDecoder(codec));
    Success(DryRunRecord(accountNumber, timeInForce, orderType, size, underlyingSymbol, price,
      priceEffect, status, cancellable, editable, edited, legs))
  }

  /** The entries of the FullOrder key table, one by one. */
  lemma FullOrderKeysSpelled()
    ensures FullOrderKeys[0] == "id"
    ensures FullOrderKeys[1] == "account-number"
    ensures FullOrderKeys[2] == "time-in-force"
    ensures FullOrderKeys[3] == "order-type"
    ensures FullOrderKeys[4] == "size"
    ensures FullOrderKeys[5] == "underlying-symbol"
    ensures FullOrderKeys[6] == "price"
    ensures FullOrderKeys[7] == "price-effect"
    ensures FullOrderKeys[8] == "status"
    ensures FullOrderKeys[9] == "cancellable"
    ensures FullOrderKeys[10] == "editable"
    ensures FullOrderKeys[11] == "edited"
    ensures FullOrderKeys[12] == "legs"
  {
  }

  function DecodeFullOrder(j: Json, codec: DecimalCodec): (r: Result<FullOrder, DecodeError>)
    ensures r.Success? ==> j.JObject? && HoldsFullOrder(j.fields, codec, r.value)
  {
    FullOrderKeysSpelled();
    var m :- AsObject(j);
    var id :- OrderIdAt(m, "id");
    var accountNumber :- AccountNumberAt(m, "account-number");
    var timeInForce :- EnumAt(m, "time-in-force", TIF.Decode);
    var orderType :- EnumAt(m, "order-type", OT.Decode);
    var size :- DecimalAt(m, "size", codec);
    var underlyingSymbol :- SymbolAt(m, "underlying-symbol");
    var price :- DecimalAt(m, "price", codec);
    var priceEffect :- EnumAt(m, "price-effect", PE.Decode);
    var status :- EnumAt(m, "status", OS.Decode);
    var cancellable :- BoolAt(m, "cancellable");
    var editable :- BoolAt(m, "editable");
    var edited :- BoolAt(m, "edited");
    var legs :- SeqAt(m, "legs", OrderLegDecoder(codec));
    Success(FullOrder(id, accountNumber, timeInForce, orderType, size, underlyingSymbol, price,
      priceEffect, status, cancellable, editable, edited, legs))
  }

  /** The entries of the BuyingPowerEffect key table, one by one. */
  lemma BuyingPowerEffectKeysSpelled()
    ensures BuyingPowerEffectKeys[0] == "change-in-margin-requirement"
    ensures BuyingPowerEffectKeys[1] == "change-in-margin-requirement-effect"
    ensures BuyingPowerEffectKeys[2] == "change-in-buying-power"
    ensures BuyingPowerEffectKeys[3] == "change-in-buying-power-effect"
    ensures BuyingPowerEffectKeys[4] == "current-buying-power"
    ensures BuyingPowerEffectKeys[5] == "current-buying-power-effect"
    ensures BuyingPowerEffectKeys[6] == "new-buying-power"
    ensures BuyingPowerEffectKeys[7] == "new-buying-power-effect"
    ensures BuyingPowerEffectKeys[8] == "isolated-order-margin-requirement"
    ensures BuyingPowerEffectKeys[9] == "isolated-order-margin-requirement-effect"
    ensures BuyingPowerEffectKeys[10] == "is-spread"
    ensures BuyingPowerEffectKeys[11] == "impact"
    ensures BuyingPowerEffectKeys[12] == "effect"
  {
  }

  function DecodeBuyingPowerEffect(j: Json, codec: DecimalCodec): (r: Result<BuyingPowerEffect, DecodeError>)
    ensures r.Success? ==> j.JObject? && HoldsBuyingPowerEffect(j.fields, codec, r.value)
  {
    BuyingPowerEffectKeysSpelled();
    var m :- AsObject(j);
    var changeInMarginRequirement :- DecimalAt(m, "change-in-margin-requirement", codec);
    var changeInMarginRequirementEffect :- EnumAt(m, "change-in-margin-requirement-effect", PE.Decode);
    var changeInBuyingPower :- DecimalAt(m, "change-in-buying-power", codec);
    var changeInBuyingPowerEffect :- EnumAt(m, "change-in-buying-power-effect", PE.Decode);
    var currentBuyingPower :- DecimalAt(m, "current-buying-power", codec);
    var currentBuyingPowerEffect :- EnumAt(m, "current-buying-power-effect", PE.Decode);
    var newBuyingPower :- DecimalAt(m, "new-buying-power", codec);
    var newBuyingPowerEffect :- EnumAt(m, "new-buying-power-effect", PE.Decode);
    var isolatedOrderMarginRequirement :- DecimalAt(m, "isolated-order-margin-requirement", codec);
    var isolatedOrderMarginRequirementEffect :- EnumAt(m, "isolated-order-margin-requirement-effect", PE.Decode);
    var isSpread :- BoolAt(m, "is-spread");
    var impact :- DecimalAt(m, "impact", codec);
    var effect :- EnumAt(m, "effect", PE.Decode);
    Success(BuyingPowerEffect(changeInMarginRequirement, changeInMarginRequirementEffect,
      changeInBuyingPower, changeInBuyingPowerEffect, currentBuyingPower, currentBuyingPowerEffect,
      newBuyingPower, newBuyingPowerEffect, isolatedOrderMarginRequirement,
      isolatedOrderMarginRequirementEffect, isSpread, impact, effect))
  }

  /** The entries of the FeeCalculation key table, one by one. */
  lemma FeeCalculationKeysSpelled()
    ensures FeeCalculationKeys[0] == "regulatory-fees"
    ensures FeeCalculationKeys[1] == "regulatory-fees-effect"
    ensures FeeCalculationKeys[2] == "clearing-fees"
    ensures FeeCalculationKeys[3] == "clearing-fees-effect"
    ensures FeeCalculationKeys[4] == "commission"
    ensures FeeCalculationKeys[5] == "commission-effect"
    ensures FeeCalculationKeys[6] == "proprietary-index-option-fees"
    ensures FeeCalculationKeys[7] == "proprietary-index-option-fees-effect"
    ensures FeeCalculationKeys[8] == "total-fees"
    ensures FeeCalculationKeys[9] == "total-fees-effect"
  {
  }

  function DecodeFeeCalculation(j: Json, codec: DecimalCodec): (r: Result<FeeCalculation, DecodeError>)
    ensures r.Success? ==> j.JObject? && HoldsFeeCalculation(j.fields, codec, r.value)
  {
    FeeCalculationKeysSpelled();
    var m :- AsObject(j);
    var regulatoryFees :- DecimalAt(m, "regulatory-fees", codec);
    var regulatoryFeesEffect :- EnumAt(m, "regulatory-fees-effect", PE.Decode);
    var clearingFees :- DecimalAt(m, "clearing-fees", codec);
    var clearingFeesEffect :- EnumAt(m, "clearing-fees-effect", PE.Decode);
    var commission :- DecimalAt(m, "commission", codec);
    var commissionEffect :- EnumAt(m, "commission-effect", PE.Decode);
    var proprietaryIndexOptionFees :- DecimalAt(m, "proprietary-index-option-fees", codec);
    var proprietaryIndexOptionFeesEffect :- EnumAt(m, "proprietary-index-option-fees-effect", PE.Decode);
    var totalFees :- DecimalAt(m, "total-fees", codec);
    var totalFeesEffect :- EnumAt(m, "total-fees-effect", PE.Decode);
    Success(FeeCalculation(regulatoryFees, regulatoryFeesEffect, clearingFees, clearingFeesEffect,
      commission, commissionEffect, proprietaryIndexOptionFees, proprietaryIndexOptionFeesEffect,
      totalFees, totalFeesEffect))
  }

  function DecodeOrderPlacedResult(j: Json, codec: DecimalCodec): (r: Result<OrderPlacedResult, DecodeError>)
    ensures r.Success? ==> j.JObject? && HoldsOrderPlacedResult(j.fields, codec, r.value)
  {
    var m :- AsObject(j);
    var orderJson :- Field(m, "order");
    var order :- DecodeLiveOrderRecord(orderJson, codec);
    var warnings :- SeqAt(m, "warnings", DecodeWarning);
    var bpeJson :- Field(m, "buying-power-effect");
    var buyingPowerEffect :- DecodeBuyingPowerEffect(bpeJson, codec);
    var feeJson :- Field(m, "fee-calculation");
    var feeCalculation :- DecodeFeeCalculation(feeJson, codec);
    Success(OrderPlacedResult(order, warnings, buyingPowerEffect, feeCalculation))
  }

  function DecodeDryRunResult(j: Json, codec: DecimalCodec): (r: Result<DryRunResult, DecodeError>)
    ensures r.Success? ==> j.JObject? && HoldsDryRunResult(j.fields, codec, r.value)
  {
    var m :- AsObject(j);
    var orderJson :- Field(m, "order");
    var order :- DecodeDryRunRecord(orderJson, codec);
    var warnings :- SeqAt(m, "warnings", DecodeWarning);
    var bpeJson :- Field(m, "buying-power-effect");
    var buyingPowerEffect :- DecodeBuyingPowerEffect(bpeJson, codec);
    var feeJson :- Field(m, "fee-calculation");
    var feeCalculation :- DecodeFeeCalculation(feeJson, codec);
    Success(DryRunResult(order, warnings, buyingPowerEffect, feeCalculation))
  }

  // ---------------------------------------------------------------------------
  // The decoders accept exactly the objects that hold a value: `j` decodes to
  // `v` if and only if `j` is an object holding every field of `v` under its
  // kebab-case key.

  lemma DecodeWarningIff(j: Json, v: Warning)
    ensures DecodeWarning(j) == Success(v) <==> j.JObject? && HoldsWarning(j.fields, v)
  {
  }

  lemma DecodeOrderLegIff(j: Json, codec: DecimalCodec, v: OrderLeg)
    ensures DecodeOrderLeg(j, codec) == Success(v) <==> j.JObject? && HoldsOrderLeg(j.fields, codec, v)
  {
  }

  lemma DecodeLiveOrderLegIff(j: Json, codec: DecimalCodec, v: LiveOrderLeg)
    ensures DecodeLiveOrderLeg(j, codec) == Success(v) <==> j.JObject? && HoldsLiveOrderLeg(j.fields, codec, v)
  {
  }

  lemma DecodeLiveOrderRecordIff(j: Json, codec: DecimalCodec, v: LiveOrderRecord)
    ensures DecodeLiveOrderRecord(j, codec) == Success(v) <==> j.JObject? && HoldsLiveOrderRecord(j.fields, codec, v)
  {
    LiveOrderRecordKeysSpelled();
  }

  lemma DecodeDryRunRecordIff(j: Json, codec: DecimalCodec, v: DryRunRecord)
    ensures DecodeDryRunRecord(j, codec) == Success(v) <==> j.JObject? && HoldsDryRunRecord(j.fields, codec, v)
  {
    DryRunRecordKeysSpelled();
  }

  lemma DecodeFullOrderIff(j: Json, codec: DecimalCodec, v: FullOrder)
    ensures DecodeFullOrder(j, codec) == Success(v) <==> j.JObject? && HoldsFullOrder(j.fields, codec, v)
  {
    FullOrderKeysSpelled();
  }

  lemma DecodeBuyingPowerEffectIff(j: Json, codec: DecimalCodec, v: BuyingPowerEffect)
    ensures DecodeBuyingPowerEffect(j, codec) == Success(v) <==> j.JObject? && HoldsBuyingPowerEffect(j.fields, codec, v)
  {
    BuyingPowerEffectKeysSpelled();
  }

  lemma DecodeFeeCalculationIff(j: Json, codec: DecimalCodec, v: FeeCalculation)
    ensures DecodeFeeCalculation(j, codec) == Success(v) <==> j.JObject? && HoldsFeeCalculation(j.fields, codec, v)
  {
    FeeCalculationKeysSpelled();
  }

  lemma DecodeOrderPlacedResultIff(j: Json, codec: DecimalCodec, v: OrderPlacedResult)
    ensures DecodeOrderPlacedResult(j, codec) == Success(v) <==> j.JObject? && HoldsOrderPlacedResult(j.fields, codec, v)
  {
  }

  lemma DecodeDryRunResultIff(j: Json, codec: DecimalCodec, v: DryRunResult)
    ensures DecodeDryRunResult(j, codec) == Success(v) <==> j.JObject? && HoldsDryRunResult(j.fields, codec, v)
  {
  }

  // ---------------------------------------------------------------------------
  // Record encoders (the derived Serialize)

  /** The leg quantity goes out through `rust_decimal::serde::float`: the
      number written is `codec.writeFloat` of the quantity. */
  function EncodeOrderLeg(l: OrderLeg, codec: DecimalCodec): (j: Json)
    ensures j.JObject? && forall k :: k in j.fields <==> k in OrderLegKeys
  {
    JObject(map[
      "instrument-type" := JString(IT.Encode(l.instrumentType)),
      "symbol" := JString(l.symbol.value),
      "quantity" := JNumber(codec.writeFloat(l.quantity)),
      "action" := JString(A.Encode(l.action))])
  }

  function OrderLegEncoder(codec: DecimalCodec): (g: OrderLeg -> Json)
    ensures forall l :: g(l) == EncodeOrderLeg(l, codec)
  {
    l => EncodeOrderLeg(l, codec)
  }

  /** The request body of an order: exactly the five keys of the struct. */
  function EncodeOrder(o: Order, codec: DecimalCodec): (j: Json)
    ensures j.JObject? && forall k :: k in j.fields <==> k in OrderKeys
    ensures j.fields["legs"].JArray? && |j.fields["legs"].items| == |o.legs|
  {
    JObject(map[
      "time-in-force" := JString(TIF.Encode(o.timeInForce)),
      "order-type" := JString(OT.Encode(o.orderType)),
      "price" := JNumber(o.price),
      "price-effect" := JString(PE.Encode(o.priceEffect)),
      "legs" := EncodeSeq(o.legs, OrderLegEncoder(codec))])
  }

  /** `size` uses rust_decimal's default Serialize, which writes the text. */
  function EncodeFullOrder(f: FullOrder, codec: DecimalCodec): (j: Json)
    ensures j.JObject? && forall k :: k in j.fields <==> k in FullOrderKeys
  {
    JObject(map[
      "id" := JString(f.id.value),
      "account-number" := JString(f.accountNumber.value),
      "time-in-force" := JString(TIF.Encode(f.timeInForce)),
      "order-type" := JString(OT.Encode(f.orderType)),
      "size" := JString(codec.format(f.size)),
      "underlying-symbol" := JString(f.underlyingSymbol.value),
      "price" := JNumber(f.price),
      "price-effect" := JString(PE.Encode(f.priceEffect)),
      "status" := JString(OS.Encode(f.status)),
      "cancellable" := JBool(f.cancellable),
      "editable" := JBool(f.editable),
      "edited" := JBool(f.edited),
      "legs" := EncodeSeq(f.legs, OrderLegEncoder(codec))])
  }

  // ---------------------------------------------------------------------------
  // Properties of the schemas

  /** The quantity comes back unchanged from its trip through an f64. */
  ghost predicate QuantitySurvivesFloat(l: OrderLeg, codec: DecimalCodec) {
    codec.readFloat(codec.writeFloat(l.quantity)) == Some(l.quantity)
  }

  ghost predicate QuantitiesSurviveFloat(legs: seq<OrderLeg>, codec: DecimalCodec) {
    forall l :: l in legs ==> QuantitySurvivesFloat(l, codec)
  }

  /** OrderLeg derives both Serialize and Deserialize, and they are inverse
      as long as the f64 carries the quantity exactly. */
  lemma OrderLegRoundTrip(l: OrderLeg, codec: DecimalCodec)
    requires QuantitySurvivesFloat(l, codec)
    ensures DecodeOrderLeg(EncodeOrderLeg(l, codec), codec) == Success(l)
  {
    IT.RoundTrip(l.instrumentType);
    A.RoundTrip(l.action);
  }

  lemma OrderLegsRoundTrip(legs: seq<OrderLeg>, codec: DecimalCodec)
    requires QuantitiesSurviveFloat(legs, codec)
    ensures AsSeq(EncodeSeq(legs, OrderLegEncoder(codec)), OrderLegDecoder(codec)) == Success(legs)
  {
    var g, f := OrderLegEncoder(codec), OrderLegDecoder(codec);
    forall l | l in legs ensures f(g(l)) == Success(l) {
      OrderLegRoundTrip(l, codec);
    }
    SeqRoundTrip(legs, g, f);
  }

  /** Two legs whose quantities round to the same f64 are written alike: the
      f64 hypothesis above cannot be dropped. */
  lemma RoundedQuantitiesCollide(l: OrderLeg, q: Decimal, codec: DecimalCodec)
    requires codec.writeFloat(q) == codec.writeFloat(l.quantity)
    ensures EncodeOrderLeg(l.(quantity := q), codec) == EncodeOrderLeg(l, codec)
  {
  }

  /** FullOrder round-trips as long as the decimal text of its size parses
      back to the same decimal and every leg's quantity survives the f64. */
  lemma FullOrderRoundTrip(f: FullOrder, codec: DecimalCodec)
    requires codec.parse(codec.format(f.size)) == Some(f.size)
    requires QuantitiesSurviveFloat(f.legs, codec)
    ensures DecodeFullOrder(EncodeFullOrder(f, codec), codec) == Success(f)
  {
    FullOrderTimeInForce(f, codec);
    FullOrderOrderType(f, codec);
    FullOrderPriceEffect(f, codec);
    FullOrderStatus(f, codec);
    FullOrderLegs(f, codec);
    FullOrderIdentityFields(f, codec);
    FullOrderSizeAndSymbol(f, codec);
    FullOrderScalarFields(f, codec);
  }

  lemma FullOrderIdentityFields(f: FullOrder, codec: DecimalCodec)
    ensures var m := EncodeFullOrder(f, codec).fields;
      OrderIdAt(m, "id") == Success(f.id) && AccountNumberAt(m, "account-number") == Success(f.accountNumber)
  {
  }

  lemma FullOrderSizeAndSymbol(f: FullOrder, codec: DecimalCodec)
    requires codec.parse(codec.format(f.size)) == Some(f.size)
    ensures var m := EncodeFullOrder(f, codec).fields;
      DecimalAt(m, "size", codec) == Success(f.size) && SymbolAt(m, "underlying-symbol") == Success(f.underlyingSymbol)
  {
  }

  lemma FullOrderScalarFields(f: FullOrder, codec: DecimalCodec)
    ensures var m := EncodeFullOrder(f, codec).fields;
      DecimalAt(m, "price", codec) == Success(f.price) && BoolAt(m, "cancellable") == Success(f.cancellable)
      && BoolAt(m, "editable") == Success(f.editable) && BoolAt(m, "edited") == Success(f.edited)
  {
  }

  lemma FullOrderTimeInForce(f: FullOrder, codec: DecimalCodec)
    ensures EnumAt(EncodeFullOrder(f, codec).fields, "time-in-force", TIF.Decode) == Success(f.timeInForce)
  {
    TIF.RoundTrip(f.timeInForce);
  }

  lemma FullOrderOrderType(f: FullOrder, codec: DecimalCodec)
    ensures EnumAt(EncodeFullOrder(f, codec).fields, "order-type", OT.Decode) == Success(f.orderType)
  {
    OT.RoundTrip(f.orderType);
  }

  lemma FullOrderPriceEffect(f: FullOrder, codec: DecimalCodec)
    ensures EnumAt(EncodeFullOrder(f, codec).fields, "price-effect", PE.Decode) == Success(f.priceEffect)
  {
    PE.RoundTrip(f.priceEffect);
  }

  lemma FullOrderStatus(f: FullOrder, codec: DecimalCodec)
    ensures EnumAt(EncodeFullOrder(f, codec).fields, "status", OS.Decode) == Success(f.status)
  {
    OS.RoundTrip(f.status);
  }

  lemma FullOrderLegs(f: FullOrder, codec: DecimalCodec)
    requires QuantitiesSurviveFloat(f.legs, codec)
    ensures SeqAt(EncodeFullOrder(f, codec).fields, "legs", OrderLegDecoder(codec)) == Success(f.legs)
  {
    OrderLegsRoundTrip(f.legs, codec);
  }

  /** The request body carries each field of the order under the key of its
      position in the key table, and reading it back gives the field. */
  lemma OrderReadBack(o: Order, codec: DecimalCodec)
    requires QuantitiesSurviveFloat(o.legs, codec)
    ensures var m := EncodeOrder(o, codec).fields;
      EnumAt(m, OrderKeys[0], TIF.Decode) == Success(o.timeInForce)
      && EnumAt(m, OrderKeys[1], OT.Decode) == Success(o.orderType)
      && DecimalAt(m, OrderKeys[2], codec) == Success(o.price)
      && EnumAt(m, OrderKeys[3], PE.Decode) == Success(o.priceEffect)
      && SeqAt(m, OrderKeys[4], OrderLegDecoder(codec)) == Success(o.legs)
  {
    var m := EncodeOrder(o, codec).fields;
    assert OrderKeys[0] == "time-in-force" && OrderKeys[1] == "order-type" && OrderKeys[2] == "price";
    assert OrderKeys[3] == "price-effect" && OrderKeys[4] == "legs";
    TIF.RoundTrip(o.timeInForce);
    assert EnumAt(m, OrderKeys[0], TIF.Decode) == Success(o.timeInForce);
    OT.RoundTrip(o.orderType);
    assert EnumAt(m, OrderKeys[1], OT.Decode) == Success(o.orderType);
    assert DecimalAt(m, OrderKeys[2], codec) == Success(o.price);
    PE.RoundTrip(o.priceEffect);
    assert EnumAt(m, OrderKeys[3], PE.Decode) == Success(o.priceEffect);
    OrderLegsRoundTrip(o.legs, codec);
    assert SeqAt(m, OrderKeys[4], OrderLegDecoder(codec)) == Success(o.legs);
  }

  /** Serialising an order loses nothing when every leg quantity survives the
      f64: distinct orders then have distinct request bodies. */
  lemma EncodeOrderInjective(a: Order, b: Order, codec: DecimalCodec)
    requires QuantitiesSurviveFloat(a.legs, codec) && QuantitiesSurviveFloat(b.legs, codec)
    requires EncodeOrder(a, codec) == EncodeOrder(b, codec)
    ensures a == b
  {
    OrderReadBack(a, codec);
    OrderReadBack(b, codec);
  }

  /** The derived Deserialize does not deny unknown fields: an extra key in
      the placed-order payload changes nothing. */
  lemma PlacedResultIgnoresUnknownKey(m: map<string, Json>, k: string, v: Json, codec: DecimalCodec)
    requires k !in ResultKeys
    ensures DecodeOrderPlacedResult(JObject(m[k := v]), codec) == DecodeOrderPlacedResult(JObject(m), codec)
  {
    var m' := m[k := v];
    assert Field(m', "order") == Field(m, "order");
    assert SeqAt(m', "warnings", DecodeWarning) == SeqAt(m, "warnings", DecodeWarning);
    assert Field(m', "buying-power-effect") == Field(m, "buying-power-effect");
    assert Field(m', "fee-calculation") == Field(m, "fee-calculation");
  }

  lemma DryRunResultIgnoresUnknownKey(m: map<string, Json>, k: string, v: Json, codec: DecimalCodec)
    requires k !in ResultKeys
    ensures DecodeDryRunResult(JObject(m[k := v]), codec) == DecodeDryRunResult(JObject(m), codec)
  {
    var m' := m[k := v];
    assert Field(m', "order") == Field(m, "order");
    assert SeqAt(m', "warnings", DecodeWarning) == SeqAt(m, "warnings", DecodeWarning);
    assert Field(m', "buying-power-effect") == Field(m, "buying-power-effect");
    assert Field(m', "fee-calculation") == Field(m, "fee-calculation");
  }

  lemma LiveOrderRecordIgnoresUnknownKey(m: map<string, Json>, k: string, v: Json, codec: DecimalCodec)
    requires k !in LiveOrderRecordKeys
    ensures DecodeLiveOrderRecord(JObject(m[k := v]), codec) == DecodeLiveOrderRecord(JObject(m), codec)
  {
    LiveOrderRecordLeadingFieldsAgree(m, k, v, codec);
    LiveOrderRecordTrailingFieldsAgree(m, k, v, codec);
  }

  lemma LiveOrderRecordLeadingFieldsAgree(m: map<string, Json>, k: string, v: Json, codec: DecimalCodec)
    requires k !in LiveOrderRecordKeys
    ensures DecimalAt(m[k := v], "id", codec) == DecimalAt(m, "id", codec)
    ensures AccountNumberAt(m[k := v], "account-number") == AccountNumberAt(m, "account-number")
    ensures EnumAt(m[k := v], "time-in-force", TIF.Decode) == EnumAt(m, "time-in-force", TIF.Decode)
    ensures EnumAt(m[k := v], "order-type", OT.Decode) == EnumAt(m, "order-type", OT.Decode)
    ensures U64At(m[k := v], "size") == U64At(m, "size")
    ensures SymbolAt(m[k := v], "underlying-symbol") == SymbolAt(m, "underlying-symbol")
    ensures EnumAt(m[k := v], "underlying-instrument-type", IT.Decode) == EnumAt(m, "underlying-instrument-type", IT.Decode)
    ensures DecimalAt(m[k := v], "price", codec) == DecimalAt(m, "price", codec)
    ensures EnumAt(m[k := v], "price-effect", PE.Decode) == EnumAt(m, "price-effect", PE.Decode)
  {
  }

  lemma LiveOrderRecordTrailingFieldsAgree(m: map<string, Json>, k: string, v: Json, codec: DecimalCodec)
    requires k !in LiveOrderRecordKeys
    ensures EnumAt(m[k := v], "status", OS.Decode) == EnumAt(m, "status", OS.Decode)
    ensures BoolAt(m[k := v], "cancellable") == BoolAt(m, "cancellable")
    ensures BoolAt(m[k := v], "editable") == BoolAt(m, "editable")
    ensures BoolAt(m[k := v], "edited") == BoolAt(m, "edited")
    ensures StringAt(m[k := v], "received-at") == StringAt(m, "received-at")
    ensures U64At(m[k := v], "updated-at") == U64At(m, "updated-at")
    ensures StringAt(m[k := v], "global-request-id") == StringAt(m, "global-request-id")
    ensures SeqAt(m[k := v], "legs", LiveOrderLegDecoder(codec)) == SeqAt(m, "legs", LiveOrderLegDecoder(codec))
  {
  }
}
