/** The wire vocabulary shared by every record: the JSON value tree that serde
    maps Rust values to, the decimal and u64 number kinds, the kebab-case rule
    for object keys, and the primitive and sequence decoders. */
module Wire {
  import opened Wrappers

  /** An exact decimal number, mantissa / 10^scale, as a JSON number literal
      spells it. Equality keeps the representation: 9050.50 = Number(905050, 2)
      and 9050.5 = Number(90505, 1) are different values here. */
  datatype Number = Number(mantissa: int, scale: nat)

  /** The largest mantissa magnitude rust_decimal stores (96 bits). */
  const MaxMantissa: int := 0xFFFF_FFFF_FFFF_FFFF_FFFF_FFFF

  /** The numbers rust_decimal can hold: a 96-bit mantissa and a scale of at
      most 28. */
  predicate Representable(n: Number) {
    -MaxMantissa <= n.mantissa <= MaxMantissa && n.scale <= 28
  }

  /** `rust_decimal::Decimal`. It keeps its scale (the scale shows in its
      text), but its `==` is numeric, so equality here is stricter than
      Decimal's PartialEq. */
  type Decimal = n: Number | Representable(n) witness Number(0, 0)

  /** Rust's u64. */
  newtype U64 = x: int | 0 <= x < 0x1_0000_0000_0000_0000

  /** The conversions of rust_decimal that the model takes as given:
      - `parse` and `format`: its text forms (`FromStr` and `Display`);
      - `readFloat`: what the `rust_decimal::serde::float` policy makes of a
        JSON number, read through an f64 (None where it refuses the number);
      - `writeFloat`: the JSON number that policy writes for a decimal, which
        goes through the nearest f64 and so may round. */
  datatype DecimalCodec = DecimalCodec(
    parse: string -> Option<Decimal>,
    format: Decimal -> string,
    readFloat: Number -> Option<Decimal>,
    writeFloat: Decimal -> Number)

  /** A JSON number carries its literal (digits and scale). */
  datatype Json =
    | JNull
    | JBool(b: bool)
    | JNumber(n: Number)
    | JString(s: string)
    | JArray(items: seq<Json>)
    | JObject(fields: map<string, Json>)

  /** The serde errors that decoding a record can raise. */
  datatype DecodeError =
    | UnknownVariant(found: string, variants: seq<string>)
    | InvalidType(expected: string)
    | InvalidValue(expected: string)
    | InvalidDecimal(text: string)
    | DecimalOutOfRange(n: Number)
    | MissingField(key: string)

  // ---------------------------------------------------------------------------
  // `#[serde(rename_all = "kebab-case")]` on a struct's fields

  function KebabChar(c: char): (k: char)
    ensures k != '_'
  {
    if c == '_' then '-' else c
  }

  /** `key` is `name` with every '_' replaced by '-'. */
  ghost predicate IsKebabOf(name: string, key: string) {
    |key| == |name| && forall i :: 0 <= i < |name| ==> key[i] == KebabChar(name[i])
  }

  /** The wire key serde derives from a snake_case field name: it has the
      name's length, no '_' left, and every other character of the name in
      place. */
  function KebabCase(name: string): (key: string)
    ensures |key| == |name|
    ensures '_' !in key
    ensures forall i :: 0 <= i < |name| && name[i] != '_' ==> key[i] == name[i]
  {
    seq(|name|, i requires 0 <= i < |name| => KebabChar(name[i]))
  }

  lemma KebabCaseIsKebab(name: string, key: string)
    ensures KebabCase(name) == key <==> IsKebabOf(name, key)
  {
    if IsKebabOf(name, key) {
      assert KebabCase(name) == key;
    }
  }

  /** Renaming again changes nothing. */
  lemma KebabCaseIdempotent(name: string)
    ensures KebabCase(KebabCase(name)) == KebabCase(name)
  {
    var k := KebabCase(name);
    assert forall i :: 0 <= i < |k| ==> k[i] != '_';
  }

  /** Rust field names contain no '-', so two distinct field names never share
      a wire key. */
  lemma KebabCaseInjective(a: string, b: string)
    requires '-' !in a && '-' !in b
    requires KebabCase(a) == KebabCase(b)
    ensures a == b
  {
    assert |a| == |KebabCase(a)| == |KebabCase(b)| == |b|;
    forall i | 0 <= i < |a|
      ensures a[i] == b[i]
    {
      assert KebabCase(a)[i] == KebabChar(a[i]) && KebabCase(b)[i] == KebabChar(b[i]);
      assert a[i] != '-' && b[i] != '-';
    }
  }

  /** The keys of a struct, in declaration order. */
  function KebabKeys(names: seq<string>): (keys: seq<string>)
    ensures |keys| == |names|
  {
    seq(|names|, i requires 0 <= i < |names| => KebabCase(names[i]))
  }

  ghost predicate AllKebab(names: seq<string>, keys: seq<string>) {
    |keys| == |names| && forall i :: 0 <= i < |names| ==> IsKebabOf(names[i], keys[i])
  }

  lemma KebabKeysOf(names: seq<string>, keys: seq<string>)
    requires AllKebab(names, keys)
    ensures KebabKeys(names) == keys
  {
    forall i | 0 <= i < |names|
      ensures KebabKeys(names)[i] == keys[i]
    {
      KebabCaseIsKebab(names[i], keys[i]);
    }
  }

  // ---------------------------------------------------------------------------
  // Primitive decoders (serde_json's Deserialize for the leaf types)

  function Field(m: map<string, Json>, key: string): (r: Result<Json, DecodeError>)
    ensures r.Success? <==> key in m
    ensures r.Success? ==> r.value == m[key]
    ensures r.Failure? ==> r.error == MissingField(key)
  {
    if key in m then Success(m[key]) else Failure(MissingField(key))
  }

  function AsObject(j: Json): (r: Result<map<string, Json>, DecodeError>)
    ensures r.Success? <==> j.JObject?
    ensures r.Success? ==> r.value == j.fields
  {
    if j.JObject? then Success(j.fields) else Failure(InvalidType("a map"))
  }

  function AsString(j: Json): (r: Result<string, DecodeError>)
    ensures r.Success? <==> j.JString?
    ensures r.Success? ==> r.value == j.s
  {
    if j.JString? then Success(j.s) else Failure(InvalidType("a string"))
  }

  function AsBool(j: Json): (r: Result<bool, DecodeError>)
    ensures r.Success? <==> j.JBool?
    ensures r.Success? ==> r.value == j.b
  {
    if j.JBool? then Success(j.b) else Failure(InvalidType("a boolean"))
  }

  /** serde_json reads an integer literal as u64 when it is non-negative and
      fits, and as i64 when it is negative and fits, which u64 refuses as an
      invalid value. A literal with a fraction, or one outside both ranges, is
      read as an f64, which u64 refuses as an invalid type. */
  function AsU64(j: Json): (r: Result<U64, DecodeError>)
    ensures r.Success? <==> j.JNumber? && j.n.scale == 0 && 0 <= j.n.mantissa < 0x1_0000_0000_0000_0000
    ensures r.Success? ==> r.value as int == j.n.mantissa
    ensures r.Failure? ==> (r.error == InvalidValue("u64")
      <==> j.JNumber? && j.n.scale == 0 && -0x8000_0000_0000_0000 <= j.n.mantissa < 0)
  {
    match j
    case JNumber(Number(m, s)) =>
      if s != 0 then Failure(InvalidType("u64"))
      else if m < -0x8000_0000_0000_0000 then Failure(InvalidType("u64"))
      else if m < 0 then Failure(InvalidValue("u64"))
      else if m >= 0x1_0000_0000_0000_0000 then Failure(InvalidType("u64"))
      else Success(m as U64)
    case _ => Failure(InvalidType("u64"))
  }

  /** rust_decimal accepts a decimal either as a JSON number or as a string
      holding its text. A number it cannot hold is refused. */
  function AsDecimal(j: Json, codec: DecimalCodec): (r: Result<Decimal, DecodeError>)
    ensures j.JNumber? ==> (r.Success? <==> Representable(j.n))
    ensures j.JNumber? && r.Success? ==> r.value == j.n
    ensures j.JString? ==> (r.Success? <==> codec.parse(j.s).Some?)
    ensures j.JString? && r.Success? ==> r.value == codec.parse(j.s).value
    ensures !j.JNumber? && !j.JString? ==> r.Failure?
  {
    match j
    case JNumber(n) =>
      if Representable(n) then var d: Decimal := n; Success(d) else Failure(DecimalOutOfRange(n))
    case JString(s) =>
      (match codec.parse(s)
       case Some(d) => Success(d)
       case None => Failure(InvalidDecimal(s)))
    case _ => Failure(InvalidType("a Decimal type representing a fixed-point number"))
  }

  /** `rust_decimal::serde::float`: the field is read as an f64, which the
      model assumes only a JSON number supplies; the decimal is what
      `codec.readFloat` makes of the number. */
  function AsFloatDecimal(j: Json, codec: DecimalCodec): (r: Result<Decimal, DecodeError>)
    ensures r.Success? <==> j.JNumber? && codec.readFloat(j.n).Some?
    ensures r.Success? ==> r.value == codec.readFloat(j.n).value
  {
    match j
    case JNumber(n) =>
      (match codec.readFloat(n)
       case Some(d) => Success(d)
       case None => Failure(DecimalOutOfRange(n)))
    case _ => Failure(InvalidType("f64"))
  }

  /** A `Vec<T>`: every element must decode; the first failure is reported. */
  function DecodeSeq<T>(items: seq<Json>, f: Json -> Result<T, DecodeError>): (r: Result<seq<T>, DecodeError>)
    ensures r.Success? <==> forall i :: 0 <= i < |items| ==> f(items[i]).Success?
    ensures r.Success? ==> |r.value| == |items| && forall i :: 0 <= i < |items| ==> f(items[i]) == Success(r.value[i])
    ensures r.Failure? ==> exists i :: 0 <= i < |items| && f(items[i]) == Failure(r.error)
  {
    if items == [] then Success([])
    else
      match f(items[0])
      case Failure(e) => Failure(e)
      case Success(x) =>
        match DecodeSeq(items[1..], f)
        case Failure(e) =>
          assert forall i :: 1 <= i < |items| ==> items[1..][i - 1] == items[i];
          Failure(e)
        case Success(xs) =>
          assert forall i :: 1 <= i < |items| ==> items[1..][i - 1] == items[i];
          Success([x] + xs)
  }

  /** A `Vec<T>` accepts only a JSON array, decoded element by element. */
  function AsSeq<T>(j: Json, f: Json -> Result<T, DecodeError>): (r: Result<seq<T>, DecodeError>)
    ensures r.Success? <==> j.JArray? && forall i :: 0 <= i < |j.items| ==> f(j.items[i]).Success?
    ensures r.Success? ==> |r.value| == |j.items| && forall i :: 0 <= i < |j.items| ==> f(j.items[i]) == Success(r.value[i])
  {
    if j.JArray? then DecodeSeq(j.items, f) else Failure(InvalidType("a sequence"))
  }

  /** Serialising a `Vec<T>` element by element. */
  function EncodeSeq<T>(xs: seq<T>, g: T -> Json): (j: Json)
    ensures j.JArray? && |j.items| == |xs|
    ensures forall i :: 0 <= i < |xs| ==> j.items[i] == g(xs[i])
  {
    JArray(seq(|xs|, i requires 0 <= i < |xs| => g(xs[i])))
  }

  /** Decoding undoes encoding element-wise, so it undoes it on the whole Vec. */
  lemma SeqRoundTrip<T>(xs: seq<T>, g: T -> Json, f: Json -> Result<T, DecodeError>)
    requires forall x :: x in xs ==> f(g(x)) == Success(x)
    ensures AsSeq(EncodeSeq(xs, g), f) == Success(xs)
  {
    var items := EncodeSeq(xs, g).items;
    assert forall i :: 0 <= i < |items| ==> f(items[i]) == Success(xs[i]);
    var r := DecodeSeq(items, f);
    assert r.Success?;
    assert r.value == xs;
  }
}
