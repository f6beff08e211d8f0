/** Parameter.WriteValue and ParameterCollection.WriteAll, which call each other: the
    tokens each writes, and the methods that append them to a JsonWriter. */
module ParameterWriter {
  import opened Json
  import opened Externals
  import opened Parameters

  /** The tokens Parameter.WriteValue writes: one JSON value for the tag; an array as
      its elements in order between brackets, an object as its entries in order
      between braces. */
  function ValueTokens(host: Host, p: Parameter): seq<Token>
  {
    match p
    case Boolean(b) => [BooleanValue(b)]
    case SignedInteger(s) => [NumberValue(IntegerText(s))]
    case UnsignedInteger(u) => [NumberValue(IntegerText(u))]
    case FloatingPoint(f) => [NumberValue(host.doubleLiteral(f))]
    case String(t) => [StringValue(t)]
    case Array(elements) => [StartArray] + ElementsTokens(host, elements) + [EndArray]
    case Object(c) => [StartObject] + EntriesTokens(host, c.entries) + [EndObject]
  }

  function ElementsTokens(host: Host, elements: seq<Parameter>): seq<Token>
  {
    if |elements| == 0 then []
    else ValueTokens(host, elements[0]) + ElementsTokens(host, elements[1..])
  }

  /** The tokens ParameterCollection.WriteAll writes: each entry's key as a property
      name followed by its value, in enumeration order. */
  function EntriesTokens(host: Host, entries: seq<Member>): seq<Token>
  {
    if |entries| == 0 then []
    else [PropertyName(entries[0].key)] + ValueTokens(host, entries[0].value) + EntriesTokens(host, entries[1..])
  }

  lemma {:induction false} ElementsTokensAppend(host: Host, a: seq<Parameter>, b: seq<Parameter>)
    ensures ElementsTokens(host, a + b) == ElementsTokens(host, a) + ElementsTokens(host, b)
  {
    if |a| > 0 {
      assert (a + b)[1..] == a[1..] + b;
      ElementsTokensAppend(host, a[1..], b);
    } else {
      assert a + b == b;
    }
  }

  lemma {:induction false} EntriesTokensAppend(host: Host, a: seq<Member>, b: seq<Member>)
    ensures EntriesTokens(host, a + b) == EntriesTokens(host, a) + EntriesTokens(host, b)
  {
    if |a| > 0 {
      assert (a + b)[1..] == a[1..] + b;
      EntriesTokensAppend(host, a[1..], b);
    } else {
      assert a + b == b;
    }
  }

  /** Parameter.WriteValue. */
  method WriteValue(writer: JsonWriter, host: Host, p: Parameter)
    modifies writer
    ensures writer.tokens == old(writer.tokens) + ValueTokens(host, p)
    decreases p
  {
    ghost var t0 := writer.tokens;
    match p
    case Boolean(_) =>
      writer.WriteBooleanValue(ValueBoolean(p).value);
    case SignedInteger(_) =>
      writer.WriteNumberValue(IntegerText(ValueSignedInteger(p).value));
    case UnsignedInteger(_) =>
      writer.WriteNumberValue(IntegerText(ValueUnsignedInteger(p).value));
    case FloatingPoint(_) =>
      writer.WriteNumberValue(host.doubleLiteral(ValueFloatingPoint(p).value));
    case String(_) =>
      writer.WriteStringValue(ValueString(p).value);
    case Array(elements) =>
      writer.WriteStartArray();
      WriteElements(writer, host, ValueArray(p).value);
      writer.WriteEndArray();
      assert writer.tokens == t0 + ([StartArray] + ElementsTokens(host, elements) + [EndArray]);
    case Object(c) =>
      writer.WriteStartObject();
      WriteAll(writer, host, ValueObject(p).value);
      writer.WriteEndObject();
      assert writer.tokens == t0 + ([StartObject] + EntriesTokens(host, c.entries) + [EndObject]);
  }

  /** The loop of Parameter.WriteValue over an array's elements. */
  method WriteElements(writer: JsonWriter, host: Host, elements: seq<Parameter>)
    modifies writer
    ensures writer.tokens == old(writer.tokens) + ElementsTokens(host, elements)
    decreases elements
  {
    var i := 0;
    while i < |elements|
      invariant 0 <= i <= |elements|
      invariant writer.tokens == old(writer.tokens) + ElementsTokens(host, elements[..i])
    {
      ElementsTokensAppend(host, elements[..i], [elements[i]]);
      assert elements[..i + 1] == elements[..i] + [elements[i]];
      WriteValue(writer, host, elements[i]);
      i := i + 1;
    }
    assert elements[..i] == elements;
  }

  /** ParameterCollection.WriteAll. */
  method WriteAll(writer: JsonWriter, host: Host, c: ParameterCollection)
    modifies writer
    ensures writer.tokens == old(writer.tokens) + EntriesTokens(host, c.entries)
    decreases c
  {
    var i := 0;
    while i < |c.entries|
      invariant 0 <= i <= |c.entries|
      invariant writer.tokens == old(writer.tokens) + EntriesTokens(host, c.entries[..i])
    {
      var param := c.entries[i];
      ghost var written := old(writer.tokens) + EntriesTokens(host, c.entries[..i]);
      EntriesStep(host, c.entries, i);
      writer.WritePropertyName(param.key);
      WriteValue(writer, host, param.value);
      assert writer.tokens == written + ([PropertyName(param.key)] + ValueTokens(host, param.value));
      i := i + 1;
    }
    assert c.entries[..i] == c.entries;
  }

  /** One more entry adds its key and its value to the output. */
  lemma EntriesStep(host: Host, entries: seq<Member>, i: nat)
    requires i < |entries|
    ensures EntriesTokens(host, entries[..i + 1])
         == EntriesTokens(host, entries[..i]) + ([PropertyName(entries[i].key)] + ValueTokens(host, entries[i].value))
  {
    EntriesTokensAppend(host, entries[..i], [entries[i]]);
    assert entries[..i + 1] == entries[..i] + [entries[i]];
    assert EntriesTokens(host, [entries[i]]) == [PropertyName(entries[i].key)] + ValueTokens(host, entries[i].value) + EntriesTokens(host, []);
  }
}
