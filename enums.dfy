/** The six broker vocabularies of src/api/order.rs. Each enum travels as a
    JSON string: a variant with `#[serde(rename = "...")]` uses that exact
    string, every other variant its own identifier. One module per enum gives
    the datatype, its declared variants, the wire table (Encode), the serde
    decoder (Decode) and the facts about the pair. */

module PriceEffectCodec {
  import W = Wrappers
  import opened Wire

  /** Sign convention of a monetary amount: no variant is renamed. */
  datatype PriceEffect = Debit | Credit | None

  /** The variants in declaration order. */
  const Variants: seq<PriceEffect> := [Debit, Credit, None]

  /** The wire strings in declaration order: the list serde names in its
      "unknown variant" error. */
  const WireNames: seq<string> := ["Debit", "Credit", "None"]

  /** Where a variant stands in the declaration. */
  function Position(e: PriceEffect): (i: nat)
    ensures i < |Variants| && Variants[i] == e
  {
    match e
    case Debit => 0
    case Credit => 1
    case None => 2
  }

  /** The derived Serialize: the wire string listed at the variant\'s
      position. */
  function Encode(e: PriceEffect): (s: string)
    ensures s == WireNames[Position(e)]
  {
    match e
    case Debit => "Debit"
    case Credit => "Credit"
    case None => "None"
  }

  /** The derived Deserialize: the string must equal one wire string
      exactly; anything else is an unknown variant, never a default. */
  function Decode(s: string): (r: W.Result<PriceEffect, DecodeError>)
    ensures r.Success? <==> s in WireNames
    ensures r.Success? ==> Encode(r.value) == s
    ensures r.Failure? ==> r.error == UnknownVariant(s, WireNames)
  {
    match s
    case "Debit" => W.Success(Debit)
    case "Credit" => W.Success(Credit)
    case "None" => W.Success(None)
    case _ => W.Failure(UnknownVariant(s, WireNames))
  }

  lemma Exhaustive(e: PriceEffect)
    ensures e in Variants
  {
  }

  /** The table lists each variant's wire string at the variant's position. */
  lemma WireNamesListEncodings()
    ensures |WireNames| == |Variants| == 3
    ensures forall i :: 0 <= i < |Variants| ==> WireNames[i] == Encode(Variants[i])
  {
  }

  /** No two variants share a wire string. */
  lemma EncodeInjective(a: PriceEffect, b: PriceEffect)
    ensures Encode(a) == Encode(b) <==> a == b
  {
  }

  lemma RoundTrip(e: PriceEffect)
    ensures Decode(Encode(e)) == W.Success(e)
  {
  }

  /** Decoding and encoding are inverse: `s` decodes to `e` exactly when `s`
      is the wire string of `e`. */
  lemma DecodeIffEncode(s: string, e: PriceEffect)
    ensures Decode(s) == W.Success(e) <==> Encode(e) == s
  {
    RoundTrip(e);
  }

  /** Every other variant travels as its identifier. */
  lemma VerbatimWireStrings()
    ensures Encode(Debit) == "Debit" && Encode(Credit) == "Credit"
    ensures Encode(None) == "None"
  {
  }

  /** Matching is exact in case; the empty string is no variant either. */
  lemma RejectsNearMisses()
    ensures Decode("none") == W.Failure(UnknownVariant("none", WireNames))
    ensures Decode("debit") == W.Failure(UnknownVariant("debit", WireNames))
    ensures Decode("") == W.Failure(UnknownVariant("", WireNames))
  {
  }
}

module ActionCodec {
  import opened Wrappers
  import opened Wire

  /** What a leg does: buys or sells, to open or to close a position. */
  datatype Action = BuyToOpen | SellToOpen | BuyToClose | SellToClose | Sell | Buy

  /** The variants in declaration order. */
  const Variants: seq<Action> := [BuyToOpen, SellToOpen, BuyToClose, SellToClose, Sell, Buy]

  /** The wire strings in declaration order: the list serde names in its
      "unknown variant" error. */
  const WireNames: seq<string> := ["Buy to Open", "Sell to Open", "Buy to Close", "Sell to Close", "Sell", "Buy"]

  /** Where a variant stands in the declaration. */
  function Position(a: Action): (i: nat)
    ensures i < |Variants| && Variants[i] == a
  {
    match a
    case BuyToOpen => 0
    case SellToOpen => 1
    case BuyToClose => 2
    case SellToClose => 3
    case Sell => 4
    case Buy => 5
  }

  /** The derived Serialize: the wire string listed at the variant\'s
      position. */
  function Encode(a: Action): (s: string)
    ensures s == WireNames[Position(a)]
  {
    match a
    case BuyToOpen => "Buy to Open"
    case SellToOpen => "Sell to Open"
    case BuyToClose => "Buy to Close"
    case SellToClose => "Sell to Close"
    case Sell => "Sell"
    case Buy => "Buy"
  }

  /** The derived Deserialize: the string must equal one wire string
      exactly; anything else is an unknown variant, never a default. */
  function Decode(s: string): (r: Result<Action, DecodeError>)
    ensures r.Success? <==> s in WireNames
    ensures r.Success? ==> Encode(r.value) == s
    ensures r.Failure? ==> r.error == UnknownVariant(s, WireNames)
  {
    match s
    case "Buy to Open" => Success(BuyToOpen)
    case "Sell to Open" => Success(SellToOpen)
    case "Buy to Close" => Success(BuyToClose)
    case "Sell to Close" => Success(SellToClose)
    case "Sell" => Success(Sell)
    case "Buy" => Success(Buy)
    case _ => Failure(UnknownVariant(s, WireNames))
  }

  lemma Exhaustive(a: Action)
    ensures a in Variants
  {
  }

  /** The table lists each variant's wire string at the variant's position. */
  lemma WireNamesListEncodings()
    ensures |WireNames| == |Variants| == 6
    ensures forall i :: 0 <= i < |Variants| ==> WireNames[i] == Encode(Variants[i])
  {
  }

  /** No two variants share a wire string. */
  lemma EncodeInjective(a: Action, b: Action)
    ensures Encode(a) == Encode(b) <==> a == b
  {
  }

  lemma RoundTrip(a: Action)
    ensures Decode(Encode(a)) == Success(a)
  {
  }

  /** Decoding and encoding are inverse: `s` decodes to `a` exactly when `s`
      is the wire string of `a`. */
  lemma DecodeIffEncode(s: string, a: Action)
    ensures Decode(s) == Success(a) <==> Encode(a) == s
  {
    RoundTrip(a);
  }

  /** The variants carrying `#[serde(rename)]` travel as spaced phrases. */
  lemma RenamedWireStrings()
    ensures Encode(BuyToOpen) == "Buy to Open" && Encode(SellToOpen) == "Sell to Open"
    ensures Encode(BuyToClose) == "Buy to Close" && Encode(SellToClose) == "Sell to Close"
  {
  }

  /** Every other variant travels as its identifier. */
  lemma VerbatimWireStrings()
    ensures Encode(Sell) == "Sell" && Encode(Buy) == "Buy"
  {
  }

  /** A renamed variant is not accepted under its Rust identifier. */
  lemma RejectsIdentifier()
    ensures Decode("BuyToOpen") == Failure(UnknownVariant("BuyToOpen", WireNames))
    ensures Decode("SellToClose") == Failure(UnknownVariant("SellToClose", WireNames))
  {
  }

  /** Matching is exact in case ... */
  lemma RejectsOtherCase()
    ensures Decode("buy to open") == Failure(UnknownVariant("buy to open", WireNames))
    ensures Decode("Buy To Open") == Failure(UnknownVariant("Buy To Open", WireNames))
  {
  }

  /** ... and in spacing. */
  lemma RejectsOtherSpacing()
    ensures Decode("Buy  to Open") == Failure(UnknownVariant("Buy  to Open", WireNames))
    ensures Decode("Buy to Open ") == Failure(UnknownVariant("Buy to Open ", WireNames))
  {
  }
}

module InstrumentTypeCodec {
  import opened Wrappers
  import opened Wire

  /** The kind of instrument a leg trades. */
  datatype InstrumentType = Equity | EquityOption | EquityOffering | Future | FutureOption | Cryptocurrency

  /** The variants in declaration order. */
  const Variants: seq<InstrumentType> := [Equity, EquityOption, EquityOffering, Future, FutureOption, Cryptocurrency]

  /** The wire strings in declaration order: the list serde names in its
      "unknown variant" error. */
  const WireNames: seq<string> := ["Equity", "Equity Option", "Equity Offering", "Future", "Future Option", "Cryptocurrency"]

  /** Where a variant stands in the declaration. */
  function Position(t: InstrumentType): (i: nat)
    ensures i < |Variants| && Variants[i] == t
  {
    match t
    case Equity => 0
    case EquityOption => 1
    case EquityOffering => 2
    case Future => 3
    case FutureOption => 4
    case Cryptocurrency => 5
  }

  /** The derived Serialize: the wire string listed at the variant\'s
      position. */
  function Encode(t: InstrumentType): (s: string)
    ensures s == WireNames[Position(t)]
  {
    match t
    case Equity => "Equity"
    case EquityOption => "Equity Option"
    case EquityOffering => "Equity Offering"
    case Future => "Future"
    case FutureOption => "Future Option"
    case Cryptocurrency => "Cryptocurrency"
  }

  /** The derived Deserialize: the string must equal one wire string
      exactly; anything else is an unknown variant, never a default. */
  function Decode(s: string): (r: Result<InstrumentType, DecodeError>)
    ensures r.Success? <==> s in WireNames
    ensures r.Success? ==> Encode(r.value) == s
    ensures r.Failure? ==> r.error == UnknownVariant(s, WireNames)
  {
    match s
    case "Equity" => Success(Equity)
    case "Equity Option" => Success(EquityOption)
    case "Equity Offering" => Success(EquityOffering)
    case "Future" => Success(Future)
    case "Future Option" => Success(FutureOption)
    case "Cryptocurrency" => Success(Cryptocurrency)
    case _ => Failure(UnknownVariant(s, WireNames))
  }

  lemma Exhaustive(t: InstrumentType)
    ensures t in Variants
  {
  }

  /** The table lists each variant's wire string at the variant's position. */
  lemma WireNamesListEncodings()
    ensures |WireNames| == |Variants| == 6
    ensures forall i :: 0 <= i < |Variants| ==> WireNames[i] == Encode(Variants[i])
  {
  }

  /** No two variants share a wire string. */
  lemma EncodeInjective(a: InstrumentType, b: InstrumentType)
    ensures Encode(a) == Encode(b) <==> a == b
  {
  }

  lemma RoundTrip(t: InstrumentType)
    ensures Decode(Encode(t)) == Success(t)
  {
  }

  /** Decoding and encoding are inverse: `s` decodes to `t` exactly when `s`
      is the wire string of `t`. */
  lemma DecodeIffEncode(s: string, t: InstrumentType)
    ensures Decode(s) == Success(t) <==> Encode(t) == s
  {
    RoundTrip(t);
  }

  /** The variants carrying `#[serde(rename)]` travel as spaced phrases. */
  lemma RenamedWireStrings()
    ensures Encode(EquityOption) == "Equity Option" && Encode(EquityOffering) == "Equity Offering"
    ensures Encode(FutureOption) == "Future Option"
  {
  }

  /** Every other variant travels as its identifier. */
  lemma VerbatimWireStrings()
    ensures Encode(Equity) == "Equity" && Encode(Future) == "Future"
    ensures Encode(Cryptocurrency) == "Cryptocurrency"
  {
  }

  /** A renamed variant is not accepted under its Rust identifier. */
  lemma RejectsIdentifier()
    ensures Decode("EquityOption") == Failure(UnknownVariant("EquityOption", WireNames))
    ensures Decode("FutureOption") == Failure(UnknownVariant("FutureOption", WireNames))
  {
  }

  /** Case and separator must match exactly. */
  lemma RejectsNearMisses()
    ensures Decode("equity option") == Failure(UnknownVariant("equity option", WireNames))
    ensures Decode("Equity_Option") == Failure(UnknownVariant("Equity_Option", WireNames))
  {
  }
}

module OrderTypeCodec {
  import opened Wrappers
  import opened Wire

  /** How the order is priced. */
  datatype OrderType = Limit | Market | MarketableLimit | Stop | StopLimit | NotionalMarket

  /** The variants in declaration order. */
  const Variants: seq<OrderType> := [Limit, Market, MarketableLimit, Stop, StopLimit, NotionalMarket]

  /** The wire strings in declaration order: the list serde names in its
      "unknown variant" error. */
  const WireNames: seq<string> := ["Limit", "Market", "Marketable Limit", "Stop", "Stop Limit", "Notional Market"]

  /** Where a variant stands in the declaration. */
  function Position(t: OrderType): (i: nat)
    ensures i < |Variants| && Variants[i] == t
  {
    match t
    case Limit => 0
    case Market => 1
    case MarketableLimit => 2
    case Stop => 3
    case StopLimit => 4
    case NotionalMarket => 5
  }

  /** The derived Serialize: the wire string listed at the variant\'s
      position. */
  function Encode(t: OrderType): (s: string)
    ensures s == WireNames[Position(t)]
  {
    match t
    case Limit => "Limit"
    case Market => "Market"
    case MarketableLimit => "Marketable Limit"
    case Stop => "Stop"
    case StopLimit => "Stop Limit"
    case NotionalMarket => "Notional Market"
  }

  /** The derived Deserialize: the string must equal one wire string
      exactly; anything else is an unknown variant, never a default. */
  function Decode(s: string): (r: Result<OrderType, DecodeError>)
    ensures r.Success? <==> s in WireNames
    ensures r.Success? ==> Encode(r.value) == s
    ensures r.Failure? ==> r.error == UnknownVariant(s, WireNames)
  {
    match s
    case "Limit" => Success(Limit)
    case "Market" => Success(Market)
    case "Marketable Limit" => Success(MarketableLimit)
    case "Stop" => Success(Stop)
    case "Stop Limit" => Success(StopLimit)
    case "Notional Market" => Success(NotionalMarket)
    case _ => Failure(UnknownVariant(s, WireNames))
  }

  lemma Exhaustive(t: OrderType)
    ensures t in Variants
  {
  }

  /** The table lists each variant's wire string at the variant's position. */
  lemma WireNamesListEncodings()
    ensures |WireNames| == |Variants| == 6
    ensures forall i :: 0 <= i < |Variants| ==> WireNames[i] == Encode(Variants[i])
  {
  }

  /** No two variants share a wire string. */
  lemma EncodeInjective(a: OrderType, b: OrderType)
    ensures Encode(a) == Encode(b) <==> a == b
  {
  }

  lemma RoundTrip(t: OrderType)
    ensures Decode(Encode(t)) == Success(t)
  {
  }

  /** Decoding and encoding are inverse: `s` decodes to `t` exactly when `s`
      is the wire string of `t`. */
  lemma DecodeIffEncode(s: string, t: OrderType)
    ensures Decode(s) == Success(t) <==> Encode(t) == s
  {
    RoundTrip(t);
  }

  /** The variants carrying `#[serde(rename)]` travel as spaced phrases. */
  lemma RenamedWireStrings()
    ensures Encode(MarketableLimit) == "Marketable Limit" && Encode(StopLimit) == "Stop Limit"
    ensures Encode(NotionalMarket) == "Notional Market"
  {
  }

  /** Every other variant travels as its identifier. */
  lemma VerbatimWireStrings()
    ensures Encode(Limit) == "Limit" && Encode(Market) == "Market"
    ensures Encode(Stop) == "Stop"
  {
  }

  /** The identifier of a renamed variant, another case or another spacing is unknown. */
  lemma RejectsNearMisses()
    ensures Decode("StopLimit") == Failure(UnknownVariant("StopLimit", WireNames))
    ensures Decode("stop limit") == Failure(UnknownVariant("stop limit", WireNames))
    ensures Decode("LIMIT") == Failure(UnknownVariant("LIMIT", WireNames))
  {
  }
}

module TimeInForceCodec {
  import opened Wrappers
  import opened Wire

  /** How long the order stays working. */
  datatype TimeInForce = Day | GTC | GTD | Ext | GTCExt | IOC

  /** The variants in declaration order. */
  const Variants: seq<TimeInForce> := [Day, GTC, GTD, Ext, GTCExt, IOC]

  /** The wire strings in declaration order: the list serde names in its
      "unknown variant" error. */
  const WireNames: seq<string> := ["Day", "GTC", "GTD", "Ext", "GTC Ext", "IOC"]

  /** Where a variant stands in the declaration. */
  function Position(t: TimeInForce): (i: nat)
    ensures i < |Variants| && Variants[i] == t
  {
    match t
    case Day => 0
    case GTC => 1
    case GTD => 2
    case Ext => 3
    case GTCExt => 4
    case IOC => 5
  }

  /** The derived Serialize: the wire string listed at the variant\'s
      position. */
  function Encode(t: TimeInForce): (s: string)
    ensures s == WireNames[Position(t)]
  {
    match t
    case Day => "Day"
    case GTC => "GTC"
    case GTD => "GTD"
    case Ext => "Ext"
    case GTCExt => "GTC Ext"
    case IOC => "IOC"
  }

  /** The derived Deserialize: the string must equal one wire string
      exactly; anything else is an unknown variant, never a default. */
  function Decode(s: string): (r: Result<TimeInForce, DecodeError>)
    ensures r.Success? <==> s in WireNames
    ensures r.Success? ==> Encode(r.value) == s
    ensures r.Failure? ==> r.error == UnknownVariant(s, WireNames)
  {
    match s
    case "Day" => Success(Day)
    case "GTC" => Success(GTC)
    case "GTD" => Success(GTD)
    case "Ext" => Success(Ext)
    case "GTC Ext" => Success(GTCExt)
    case "IOC" => Success(IOC)
    case _ => Failure(UnknownVariant(s, WireNames))
  }

  lemma Exhaustive(t: TimeInForce)
    ensures t in Variants
  {
  }

  /** The table lists each variant's wire string at the variant's position. */
  lemma WireNamesListEncodings()
    ensures |WireNames| == |Variants| == 6
    ensures forall i :: 0 <= i < |Variants| ==> WireNames[i] == Encode(Variants[i])
  {
  }

  /** No two variants share a wire string. */
  lemma EncodeInjective(a: TimeInForce, b: TimeInForce)
    ensures Encode(a) == Encode(b) <==> a == b
  {
  }

  lemma RoundTrip(t: TimeInForce)
    ensures Decode(Encode(t)) == Success(t)
  {
  }

  /** Decoding and encoding are inverse: `s` decodes to `t` exactly when `s`
      is the wire string of `t`. */
  lemma DecodeIffEncode(s: string, t: TimeInForce)
    ensures Decode(s) == Success(t) <==> Encode(t) == s
  {
    RoundTrip(t);
  }

  /** The variants carrying `#[serde(rename)]` travel as spaced phrases. */
  lemma RenamedWireStrings()
    ensures Encode(GTCExt) == "GTC Ext"
  {
  }

  /** Every other variant travels as its identifier. */
  lemma VerbatimWireStrings()
    ensures Encode(Day) == "Day" && Encode(GTC) == "GTC"
    ensures Encode(GTD) == "GTD" && Encode(Ext) == "Ext"
    ensures Encode(IOC) == "IOC"
  {
  }

  /** The identifier of the renamed variant, another case or another spacing is unknown. */
  lemma RejectsNearMisses()
    ensures Decode("GTCExt") == Failure(UnknownVariant("GTCExt", WireNames))
    ensures Decode("gtc") == Failure(UnknownVariant("gtc", WireNames))
    ensures Decode("GTC EXT") == Failure(UnknownVariant("GTC EXT", WireNames))
  {
  }
}

module OrderStatusCodec {
  import opened Wrappers
  import opened Wire

  /** The broker-reported lifecycle state; the model only decodes it. */
  datatype OrderStatus =
    | Received | Routed | InFlight | Live | CancelRequested | ReplaceRequested | Contingent
    | Filled | Cancelled | Expired | Rejected | Removed | PartiallyRemoved

  /** The variants in declaration order. */
  const Variants: seq<OrderStatus> :=
    [Received, Routed, InFlight, Live, CancelRequested, ReplaceRequested, Contingent,
     Filled, Cancelled, Expired, Rejected, Removed, PartiallyRemoved]

  /** The wire strings in declaration order: the list serde names in its
      "unknown variant" error. */
  const WireNames: seq<string> :=
    ["Received", "Routed", "In Flight", "Live", "Cancel Requested", "Replace Requested", "Contingent",
     "Filled", "Cancelled", "Expired", "Rejected", "Removed", "Partially Removed"]

  /** Where a variant stands in the declaration. */
  function Position(st: OrderStatus): (i: nat)
    ensures i < |Variants| && Variants[i] == st
  {
    match st
    case Received => 0
    case Routed => 1
    case InFlight => 2
    case Live => 3
    case CancelRequested => 4
    case ReplaceRequested => 5
    case Contingent => 6
    case Filled => 7
    case Cancelled => 8
    case Expired => 9
    case Rejected => 10
    case Removed => 11
    case PartiallyRemoved => 12
  }

  /** The derived Serialize: the wire string listed at the variant\'s
      position. */
  function Encode(st: OrderStatus): (s: string)
    ensures s == WireNames[Position(st)]
  {
    match st
    case Received => "Received"
    case Routed => "Routed"
    case InFlight => "In Flight"
    case Live => "Live"
    case CancelRequested => "Cancel Requested"
    case ReplaceRequested => "Replace Requested"
    case Contingent => "Contingent"
    case Filled => "Filled"
    case Cancelled => "Cancelled"
    case Expired => "Expired"
    case Rejected => "Rejected"
    case Removed => "Removed"
    case PartiallyRemoved => "Partially Removed"
  }

  /** The derived Deserialize: the string must equal one wire string
      exactly; anything else is an unknown variant, never a default. */
  function Decode(s: string): (r: Result<OrderStatus, DecodeError>)
    ensures r.Success? <==> s in WireNames
    ensures r.Success? ==> Encode(r.value) == s
    ensures r.Failure? ==> r.error == UnknownVariant(s, WireNames)
  {
    match s
    case "Received" => Success(Received)
    case "Routed" => Success(Routed)
    case "In Flight" => Success(InFlight)
    case "Live" => Success(Live)
    case "Cancel Requested" => Success(CancelRequested)
    case "Replace Requested" => Success(ReplaceRequested)
    case "Contingent" => Success(Contingent)
    case "Filled" => Success(Filled)
    case "Cancelled" => Success(Cancelled)
    case "Expired" => Success(Expired)
    case "Rejected" => Success(Rejected)
    case "Removed" => Success(Removed)
    case "Partially Removed" => Success(PartiallyRemoved)
    case _ => Failure(UnknownVariant(s, WireNames))
  }

  lemma Exhaustive(st: OrderStatus)
    ensures st in Variants
  {
  }

  /** The table lists each variant's wire string at the variant's position. */
  lemma WireNamesListEncodings()
    ensures |WireNames| == |Variants| == 13
    ensures forall i :: 0 <= i < |Variants| ==> WireNames[i] == Encode(Variants[i])
  {
  }

  /** No two variants share a wire string. */
  lemma EncodeInjective(a: OrderStatus, b: OrderStatus)
    ensures Encode(a) == Encode(b) <==> a == b
  {
  }

  lemma RoundTrip(st: OrderStatus)
    ensures Decode(Encode(st)) == Success(st)
  {
  }

  /** Decoding and encoding are inverse: `s` decodes to `st` exactly when `s`
      is the wire string of `st`. */
  lemma DecodeIffEncode(s: string, st: OrderStatus)
    ensures Decode(s) == Success(st) <==> Encode(st) == s
  {
    RoundTrip(st);
  }

  /** The variants carrying `#[serde(rename)]` travel as spaced phrases. */
  lemma RenamedWireStrings()
    ensures Encode(InFlight) == "In Flight" && Encode(CancelRequested) == "Cancel Requested"
    ensures Encode(ReplaceRequested) == "Replace Requested" && Encode(PartiallyRemoved) == "Partially Removed"
  {
  }

  /** Every other variant travels as its identifier. */
  lemma VerbatimWireStrings()
    ensures Encode(Received) == "Received" && Encode(Routed) == "Routed"
    ensures Encode(Live) == "Live" && Encode(Contingent) == "Contingent"
    ensures Encode(Filled) == "Filled" && Encode(Cancelled) == "Cancelled"
    ensures Encode(Expired) == "Expired" && Encode(Rejected) == "Rejected"
    ensures Encode(Removed) == "Removed"
  {
  }

  /** A renamed state is not accepted under its Rust identifier. */
  lemma RejectsIdentifier()
    ensures Decode("InFlight") == Failure(UnknownVariant("InFlight", WireNames))
    ensures Decode("PartiallyRemoved") == Failure(UnknownVariant("PartiallyRemoved", WireNames))
  {
  }

  /** Matching is exact in case. */
  lemma RejectsOtherCase()
    ensures Decode("received") == Failure(UnknownVariant("received", WireNames))
    ensures Decode("Partially removed") == Failure(UnknownVariant("Partially removed", WireNames))
  {
    assert "received"[0] != "Received"[0];
    assert "Partially removed"[10] != "Partially Removed"[10];
  }

  /** Exactly thirteen states, pairwise distinct, and so are their wire
      strings. */
  lemma ThirteenDistinctStates()
    ensures |Variants| == 13 && |WireNames| == 13
    ensures forall i, j :: 0 <= i < j < 13 ==> Variants[i] != Variants[j] && WireNames[i] != WireNames[j]
  {
    WireNamesListEncodings();
    forall i, j | 0 <= i < j < 13 ensures Variants[i] != Variants[j] && WireNames[i] != WireNames[j] {
      EncodeInjective(Variants[i], Variants[j]);
    }
  }

}
