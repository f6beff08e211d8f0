/** The JSON token level the core is written against: the fixed-width numbers of .NET,
    the tokens System.Text.Json's reader produces and its writer consumes, and the
    number conversions the reader offers (TryGetUInt64, TryGetInt64, TryGetDouble,
    GetUInt32, GetSingle). The token-level reader and writer themselves are not part of
    this model; JsonWriter below only records the tokens it is asked to write. */
module Json {
  import opened Wrappers

  const Int64Min: int := -0x8000_0000_0000_0000
  const Int64Max: int := 0x7FFF_FFFF_FFFF_FFFF
  const UInt64Max: int := 0xFFFF_FFFF_FFFF_FFFF
  const UInt32Max: int := 0xFFFF_FFFF

  type Int64 = x: int | Int64Min <= x <= Int64Max
  type UInt64 = x: int | 0 <= x <= UInt64Max
  type UInt32 = x: int | 0 <= x <= UInt32Max

  /** The largest finite binary64 and binary32 values. */
  const MaxDouble: real := 179769313486231570814527423731704356798070567525844996598917476803157260780028538760589558632766878171540458953514382464234321326889464182768467546703537516986049910576551282076245490090389328944075868508455133942304583236903222948165808559332123348274797826204144723168738177180919299881250404026184124858368.0
  const MaxSingle: real := 340282346638528859811704183484516925440.0

  /** A finite double / float, by its value (rounding is not modelled). */
  type Double = r: real | -MaxDouble <= r <= MaxDouble
  type Single = r: real | -MaxSingle <= r <= MaxSingle

  /** A JSON number literal: one written with neither a fraction nor an exponent part
      (the only kind the integer conversions accept), or any other. */
  datatype NumberLiteral =
    | IntegerText(integer: int)
    | RealText(number: real)

  function LiteralValue(n: NumberLiteral): real
  {
    match n
    case IntegerText(i) => i as real
    case RealText(r) => r
  }

  /** Utf8JsonReader.TryGetUInt64. */
  function TryGetUInt64(n: NumberLiteral): (r: Option<UInt64>)
    ensures r.Some? <==> n.IntegerText? && 0 <= n.integer <= UInt64Max
    ensures r.Some? ==> r.value as real == LiteralValue(n)
  {
    if n.IntegerText? && 0 <= n.integer <= UInt64Max then Some(n.integer) else None
  }

  /** Utf8JsonReader.TryGetInt64. */
  function TryGetInt64(n: NumberLiteral): (r: Option<Int64>)
    ensures r.Some? <==> n.IntegerText? && Int64Min <= n.integer <= Int64Max
    ensures r.Some? ==> r.value as real == LiteralValue(n)
  {
    if n.IntegerText? && Int64Min <= n.integer <= Int64Max then Some(n.integer) else None
  }

  /** Utf8JsonReader.TryGetDouble: fails where the literal overflows to infinity. */
  function TryGetDouble(n: NumberLiteral): (r: Option<Double>)
    ensures r.Some? <==> -MaxDouble <= LiteralValue(n) <= MaxDouble
    ensures r.Some? ==> r.value == LiteralValue(n)
  {
    var v := LiteralValue(n);
    if -MaxDouble <= v <= MaxDouble then Some(v) else None
  }

  /** Utf8JsonReader.GetUInt32; `None` where it throws FormatException. */
  function GetUInt32(n: NumberLiteral): (r: Option<UInt32>)
    ensures r.Some? <==> n.IntegerText? && 0 <= n.integer <= UInt32Max
  {
    if n.IntegerText? && 0 <= n.integer <= UInt32Max then Some(n.integer) else None
  }

  /** Utf8JsonReader.GetSingle; `None` where it throws FormatException. */
  function GetSingle(n: NumberLiteral): (r: Option<Single>)
    ensures r.Some? <==> -MaxSingle <= LiteralValue(n) <= MaxSingle
    ensures r.Some? ==> r.value == LiteralValue(n)
  {
    var v := LiteralValue(n);
    if -MaxSingle <= v <= MaxSingle then Some(v) else None
  }

  /** The JSON token kinds (JsonTokenType); True and False are one kind with a payload. */
  datatype Token =
    | StartObject
    | EndObject
    | StartArray
    | EndArray
    | PropertyName(name: string)
    | StringValue(text: string)
    | NumberValue(literal: NumberLiteral)
    | BooleanValue(boolean: bool)
    | NullValue
    | Comment(comment: string)

  /** Utf8JsonWriter, as the sequence of tokens written so far. */
  class JsonWriter {
    var tokens: seq<Token>

    constructor ()
      ensures tokens == []
    {
      tokens := [];
    }

    method WriteStartObject()
      modifies this
      ensures tokens == old(tokens) + [StartObject]
    {
      tokens := tokens + [StartObject];
    }

    /** WriteStartObject(propertyName). */
    method WriteStartObjectProperty(name: string)
      modifies this
      ensures tokens == old(tokens) + [PropertyName(name), StartObject]
    {
      tokens := tokens + [PropertyName(name), StartObject];
    }

    method WriteEndObject()
      modifies this
      ensures tokens == old(tokens) + [EndObject]
    {
      tokens := tokens + [EndObject];
    }

    method WriteStartArray()
      modifies this
      ensures tokens == old(tokens) + [StartArray]
    {
      tokens := tokens + [StartArray];
    }

    /** WriteStartArray(propertyName). */
    method WriteStartArrayProperty(name: string)
      modifies this
      ensures tokens == old(tokens) + [PropertyName(name), StartArray]
    {
      tokens := tokens + [PropertyName(name), StartArray];
    }

    method WriteEndArray()
      modifies this
      ensures tokens == old(tokens) + [EndArray]
    {
      tokens := tokens + [EndArray];
    }

    method WritePropertyName(name: string)
      modifies this
      ensures tokens == old(tokens) + [PropertyName(name)]
    {
      tokens := tokens + [PropertyName(name)];
    }

    method WriteStringValue(text: string)
      modifies this
      ensures tokens == old(tokens) + [StringValue(text)]
    {
      tokens := tokens + [StringValue(text)];
    }

    /** WriteString(propertyName, value). */
    method WriteString(name: string, text: string)
      modifies this
      ensures tokens == old(tokens) + [PropertyName(name), StringValue(text)]
    {
      tokens := tokens + [PropertyName(name), StringValue(text)];
    }

    method WriteNumberValue(literal: NumberLiteral)
      modifies this
      ensures tokens == old(tokens) + [NumberValue(literal)]
    {
      tokens := tokens + [NumberValue(literal)];
    }

    /** WriteNumber(propertyName, value). */
    method WriteNumber(name: string, literal: NumberLiteral)
      modifies this
      ensures tokens == old(tokens) + [PropertyName(name), NumberValue(literal)]
    {
      tokens := tokens + [PropertyName(name), NumberValue(literal)];
    }

    method WriteBooleanValue(b: bool)
      modifies this
      ensures tokens == old(tokens) + [BooleanValue(b)]
    {
      tokens := tokens + [BooleanValue(b)];
    }

    /** WriteBoolean(propertyName, value). */
    method WriteBoolean(name: string, b: bool)
      modifies this
      ensures tokens == old(tokens) + [PropertyName(name), BooleanValue(b)]
    {
      tokens := tokens + [PropertyName(name), BooleanValue(b)];
    }
  }
}
