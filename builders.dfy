/** The builders `#[derive(Builder)]` generates for `Order` and `OrderLeg` in
    src/api/order.rs. A builder holds one optional slot per struct field; each
    setter fills its slot (a later call overwrites an earlier one). The Rust
    setters return `&mut Self` for chaining; the model's setters return
    nothing and only change their slot. `build(&self)` copies the slots into
    the struct without changing the builder, or reports the first unset
    field, in declaration order, by its Rust field name. */
module Builders {
  import opened Wrappers
  import opened Wire
  import opened Symbols
  import opened Records
  import PE = PriceEffectCodec
  import A = ActionCodec
  import IT = InstrumentTypeCodec
  import OT = OrderTypeCodec
  import TIF = TimeInForceCodec

  /** derive_builder's `UninitializedFieldError`, carrying the field name. */
  datatype BuilderError = UninitializedField(field: string)

  /** The name `name` if its slot is empty, nothing otherwise. */
  function IfUnset<T>(slot: Option<T>, name: string): (names: seq<string>)
    ensures names == [] <==> slot.Some?
    ensures names != [] ==> names == [name]
    ensures forall n :: n in names <==> slot.None? && n == name
  {
    if slot.None? then [name] else []
  }

  class OrderBuilder {
    var timeInForce: Option<TIF.TimeInForce>
    var orderType: Option<OT.OrderType>
    var price: Option<Decimal>
    var priceEffect: Option<PE.PriceEffect>
    var legs: Option<seq<OrderLeg>>

    /** `OrderBuilder::default()`: every slot empty. */
    constructor ()
      ensures timeInForce == Wrappers.None && orderType == Wrappers.None && price == Wrappers.None
      ensures priceEffect == Wrappers.None && legs == Wrappers.None
    {
      timeInForce := Wrappers.None;
      orderType := Wrappers.None;
      price := Wrappers.None;
      priceEffect := Wrappers.None;
      legs := Wrappers.None;
    }

    /** The Rust names of the empty slots, in field declaration order. */
    function Missing(): (names: seq<string>)
      reads this
      ensures names == [] <==> timeInForce.Some? && orderType.Some? && price.Some? && priceEffect.Some? && legs.Some?
      ensures forall n :: n in names ==> n in OrderFields
      ensures "time_in_force" in names <==> timeInForce.None?
      ensures "order_type" in names <==> orderType.None?
      ensures "price" in names <==> price.None?
      ensures "price_effect" in names <==> priceEffect.None?
      ensures "legs" in names <==> legs.None?
    {
      IfUnset(timeInForce, "time_in_force") + IfUnset(orderType, "order_type") + IfUnset(price, "price")
        + IfUnset(priceEffect, "price_effect") + IfUnset(legs, "legs")
    }

    method SetTimeInForce(value: TIF.TimeInForce)
      modifies this
      ensures timeInForce == Some(value)
      ensures orderType == old(orderType) && price == old(price) && priceEffect == old(priceEffect) && legs == old(legs)
    {
      timeInForce := Some(value);
    }

    method SetOrderType(value: OT.OrderType)
      modifies this
      ensures orderType == Some(value)
      ensures timeInForce == old(timeInForce) && price == old(price) && priceEffect == old(priceEffect) && legs == old(legs)
    {
      orderType := Some(value);
    }

    method SetPrice(value: Decimal)
      modifies this
      ensures price == Some(value)
      ensures timeInForce == old(timeInForce) && orderType == old(orderType) && priceEffect == old(priceEffect) && legs == old(legs)
    {
      price := Some(value);
    }

    method SetPriceEffect(value: PE.PriceEffect)
      modifies this
      ensures priceEffect == Some(value)
      ensures timeInForce == old(timeInForce) && orderType == old(orderType) && price == old(price) && legs == old(legs)
    {
      priceEffect := Some(value);
    }

    method SetLegs(value: seq<OrderLeg>)
      modifies this
      ensures legs == Some(value)
      ensures timeInForce == old(timeInForce) && orderType == old(orderType) && price == old(price) && priceEffect == old(priceEffect)
    {
      legs := Some(value);
    }

    /** `build(&self)`: succeeds exactly when every slot is filled, with the
        slots' values; otherwise names the first empty slot. The builder is
        left as it was. */
    method Build() returns (r: Result<Order, BuilderError>)
      ensures r.Success? <==> Missing() == []
      ensures r.Success? ==> r.value == Order(timeInForce.value, orderType.value, price.value, priceEffect.value, legs.value)
      ensures r.Failure? ==> r.error == UninitializedField(Missing()[0])
    {
      if timeInForce.None? {
        return Failure(UninitializedField("time_in_force"));
      }
      if orderType.None? {
        return Failure(UninitializedField("order_type"));
      }
      if price.None? {
        return Failure(UninitializedField("price"));
      }
      if priceEffect.None? {
        return Failure(UninitializedField("price_effect"));
      }
      if legs.None? {
        return Failure(UninitializedField("legs"));
      }
      r := Success(Order(timeInForce.value, orderType.value, price.value, priceEffect.value, legs.value));
    }
  }

  class OrderLegBuilder {
    var instrumentType: Option<IT.InstrumentType>
    var symbol: Option<Symbol>
    var quantity: Option<Decimal>
    var action: Option<A.Action>

    /** `OrderLegBuilder::default()`: every slot empty. */
    constructor ()
      ensures instrumentType == None && symbol == None && quantity == None && action == None
    {
      instrumentType := None;
      symbol := None;
      quantity := None;
      action := None;
    }

    /** The Rust names of the empty slots, in field declaration order. */
    function Missing(): (names: seq<string>)
      reads this
      ensures names == [] <==> instrumentType.Some? && symbol.Some? && quantity.Some? && action.Some?
      ensures forall n :: n in names ==> n in OrderLegFields
      ensures "instrument_type" in names <==> instrumentType.None?
      ensures "symbol" in names <==> symbol.None?
      ensures "quantity" in names <==> quantity.None?
      ensures "action" in names <==> action.None?
    {
      IfUnset(instrumentType, "instrument_type") + IfUnset(symbol, "symbol") + IfUnset(quantity, "quantity")
        + IfUnset(action, "action")
    }

    method SetInstrumentType(value: IT.InstrumentType)
      modifies this
      ensures instrumentType == Some(value)
      ensures symbol == old(symbol) && quantity == old(quantity) && action == old(action)
    {
      instrumentType := Some(value);
    }

    method SetSymbol(value: Symbol)
      modifies this
      ensures symbol == Some(value)
      ensures instrumentType == old(instrumentType) && quantity == old(quantity) && action == old(action)
    {
      symbol := Some(value);
    }

    /** `#[builder(setter(into))]`: the symbol setter also takes a string and
        converts it with `Symbol::from`. */
    method SetSymbolFrom(text: string)
      modifies this
      ensures symbol == Some(From(text))
      ensures instrumentType == old(instrumentType) && quantity == old(quantity) && action == old(action)
    {
      symbol := Some(From(text));
    }

    method SetQuantity(value: Decimal)
      modifies this
      ensures quantity == Some(value)
      ensures instrumentType == old(instrumentType) && symbol == old(symbol) && action == old(action)
    {
      quantity := Some(value);
    }

    method SetAction(value: A.Action)
      modifies this
      ensures action == Some(value)
      ensures instrumentType == old(instrumentType) && symbol == old(symbol) && quantity == old(quantity)
    {
      action := Some(value);
    }

    /** `build(&self)`, as for OrderBuilder. */
    method Build() returns (r: Result<OrderLeg, BuilderError>)
      ensures r.Success? <==> Missing() == []
      ensures r.Success? ==> r.value == OrderLeg(instrumentType.value, symbol.value, quantity.value, action.value)
      ensures r.Failure? ==> r.error == UninitializedField(Missing()[0])
    {
      if instrumentType.None? {
        return Failure(UninitializedField("instrument_type"));
      }
      if symbol.None? {
        return Failure(UninitializedField("symbol"));
      }
      if quantity.None? {
        return Failure(UninitializedField("quantity"));
      }
      if action.None? {
        return Failure(UninitializedField("action"));
      }
      r := Success(OrderLeg(instrumentType.value, symbol.value, quantity.value, action.value));
    }
  }

  // ---------------------------------------------------------------------------
  // How callers use the builders

  /** Setting every field, in the reverse of declaration order (legs first,
      time in force last), builds exactly the order set. */
  method BuildWithEveryField(tif: TIF.TimeInForce, ot: OT.OrderType, price: Decimal,
                             pe: PE.PriceEffect, legs: seq<OrderLeg>)
    returns (r: Result<Order, BuilderError>)
    ensures r == Success(Order(tif, ot, price, pe, legs))
  {
    var b := new OrderBuilder();
    b.SetLegs(legs);
    b.SetPriceEffect(pe);
    b.SetPrice(price);
    b.SetOrderType(ot);
    b.SetTimeInForce(tif);
    r := b.Build();
  }

  /** A builder with no price set reports the price as uninitialised. */
  method BuildWithoutPrice(tif: TIF.TimeInForce, ot: OT.OrderType, pe: PE.PriceEffect, legs: seq<OrderLeg>)
    returns (r: Result<Order, BuilderError>)
    ensures r == Failure(UninitializedField("price"))
  {
    var b := new OrderBuilder();
    b.SetTimeInForce(tif);
    b.SetOrderType(ot);
    b.SetPriceEffect(pe);
    b.SetLegs(legs);
    r := b.Build();
  }

  /** An empty builder names the first declared field. */
  method BuildEmptyOrder() returns (r: Result<Order, BuilderError>)
    ensures r == Failure(UninitializedField("time_in_force"))
  {
    var b := new OrderBuilder();
    r := b.Build();
  }

  /** A second call to a setter replaces the first value. */
  method LastPriceWins(tif: TIF.TimeInForce, ot: OT.OrderType, first: Decimal, second: Decimal,
                       pe: PE.PriceEffect, legs: seq<OrderLeg>)
    returns (r: Result<Order, BuilderError>)
    ensures r.Success? && r.value.price == second
  {
    var b := new OrderBuilder();
    b.SetTimeInForce(tif);
    b.SetOrderType(ot);
    b.SetPrice(first);
    b.SetPriceEffect(pe);
    b.SetLegs(legs);
    b.SetPrice(second);
    r := b.Build();
  }

  /** Building borrows the builder: a second build gives the same result,
      and a builder can be completed after a failed build. */
  method BuildIsRepeatable(tif: TIF.TimeInForce, ot: OT.OrderType, price: Decimal,
                           pe: PE.PriceEffect, legs: seq<OrderLeg>)
    returns (first: Result<Order, BuilderError>, second: Result<Order, BuilderError>)
    ensures first == Failure(UninitializedField("legs"))
    ensures second == Success(Order(tif, ot, price, pe, legs))
  {
    var b := new OrderBuilder();
    b.SetTimeInForce(tif);
    b.SetOrderType(ot);
    b.SetPrice(price);
    b.SetPriceEffect(pe);
    first := b.Build();
    var again := b.Build();
    assert again == first;
    b.SetLegs(legs);
    second := b.Build();
  }

  /** A leg built from a ticker string carries the Symbol of that string. */
  method BuildLegFromText(it: IT.InstrumentType, text: string, quantity: Decimal, action: A.Action)
    returns (r: Result<OrderLeg, BuilderError>)
    ensures r == Success(OrderLeg(it, Symbol(text), quantity, action))
  {
    var b := new OrderLegBuilder();
    b.SetAction(action);
    b.SetSymbolFrom(text);
    b.SetQuantity(quantity);
    b.SetInstrumentType(it);
    r := b.Build();
  }

  /** A leg without a symbol reports the symbol as uninitialised. */
  method BuildLegWithoutSymbol(it: IT.InstrumentType, quantity: Decimal, action: A.Action)
    returns (r: Result<OrderLeg, BuilderError>)
    ensures r == Failure(UninitializedField("symbol"))
  {
    var b := new OrderLegBuilder();
    b.SetInstrumentType(it);
    b.SetQuantity(quantity);
    b.SetAction(action);
    r := b.Build();
  }
}
