/** Parameter values (libHSON/Parameter.cs): a tagged union of a boolean, a signed or
    unsigned 64-bit integer, a double, a string, an array of parameters or a nested
    collection of named parameters. A parameter is modelled as a value: a typed setter
    replaces the whole value, so it is the constructor of that variant. */
module Parameters {
  import opened Wrappers
  import opened Json

  /** ParameterType. */
  datatype ParameterType =
    | BooleanType | SignedIntegerType | UnsignedIntegerType | FloatingPointType
    | StringType | ArrayType | ObjectType

  datatype Parameter =
    | Boolean(boolean: bool)
    | SignedInteger(signed: Int64)
    | UnsignedInteger(unsigned: UInt64)
    | FloatingPoint(floating: Double)
    | String(text: string)
    | Array(elements: seq<Parameter>)
    | Object(collection: ParameterCollection)
  {
    /** The `Type` property (the `_type` tag). */
    function Type(): ParameterType
    {
      match this
      case Boolean(_) => BooleanType
      case SignedInteger(_) => SignedIntegerType
      case UnsignedInteger(_) => UnsignedIntegerType
      case FloatingPoint(_) => FloatingPointType
      case String(_) => StringType
      case Array(_) => ArrayType
      case Object(_) => ObjectType
    }
  }

  /** One key/value pair of a ParameterCollection's dictionary. */
  datatype Member = Member(key: string, value: Parameter)

  /** A ParameterCollection: its dictionary `_data`, as the sequence of its entries in
      enumeration order. */
  datatype ParameterCollection = ParameterCollection(entries: seq<Member>)

  const EmptyCollection: ParameterCollection := ParameterCollection([])

  /** No two entries of a dictionary share a key. */
  ghost predicate UniqueKeys(entries: seq<Member>)
  {
    forall i, j :: 0 <= i < j < |entries| ==> entries[i].key != entries[j].key
  }

  /** Every dictionary inside a parameter has unique keys, as a .NET Dictionary does. */
  ghost predicate WellFormed(p: Parameter)
  {
    match p
    case Array(elements) => forall i :: 0 <= i < |elements| ==> WellFormed(elements[i])
    case Object(c) => WellFormedCollection(c)
    case _ => true
  }

  ghost predicate WellFormedCollection(c: ParameterCollection)
  {
    && UniqueKeys(c.entries)
    && forall i :: 0 <= i < |c.entries| ==> WellFormed(c.entries[i].value)
  }

  /** The error a getter reports: InvalidCastException for a tag it does not convert,
      OverflowException for a value the target type cannot hold. */
  datatype CastError = InvalidCast | Overflow

  /** `new Parameter()`: a floating-point zero. */
  function NewParameter(): (p: Parameter)
    ensures p.Type() == FloatingPointType
    ensures ValueFloatingPoint(p) == Success(0.0)
  {
    FloatingPoint(0.0)
  }

  /** `new Parameter(type)`: the zero value of the given type. */
  function NewParameterOfType(t: ParameterType): (p: Parameter)
    ensures p.Type() == t
    ensures t == BooleanType ==> ValueBoolean(p) == Success(false)
    ensures t == SignedIntegerType ==> ValueSignedInteger(p) == Success(0)
    ensures t == UnsignedIntegerType ==> ValueUnsignedInteger(p) == Success(0)
    ensures t == FloatingPointType ==> ValueFloatingPoint(p) == Success(0.0)
    ensures t == StringType ==> ValueString(p) == Success("")
    ensures t == ArrayType ==> ValueArray(p) == Success([])
    ensures t == ObjectType ==> ValueObject(p) == Success(EmptyCollection)
  {
    match t
    case BooleanType => Boolean(false)
    case SignedIntegerType => SignedInteger(0)
    case UnsignedIntegerType => UnsignedInteger(0)
    case FloatingPointType => FloatingPoint(0.0)
    case StringType => String("")
    case ArrayType => Array([])
    case ObjectType => Object(EmptyCollection)
  }

  /** The number a numeric parameter holds. */
  function NumericValue(p: Parameter): real
    requires p.SignedInteger? || p.UnsignedInteger? || p.FloatingPoint?
  {
    match p
    case SignedInteger(s) => s as real
    case UnsignedInteger(u) => u as real
    case FloatingPoint(f) => f
  }

  /** The ValueBoolean getter: an unboxing cast. */
  function ValueBoolean(p: Parameter): (r: Result<bool, CastError>)
    ensures r.Success? <==> p.Type() == BooleanType
    ensures r.Success? ==> Boolean(r.value) == p
    ensures r.Failure? ==> r.error == InvalidCast
  {
    if p.Boolean? then Success(p.boolean) else Failure(InvalidCast)
  }

  /** The ValueSignedInteger getter as written: C# casts are unchecked unless the
      project asks otherwise, so `(long)(ulong)v` reinterprets the 64 bits of an
      unsigned value above Int64.MaxValue as a negative number. */
  function ValueSignedIntegerUnchecked(p: Parameter): (r: Result<Int64, CastError>)
    ensures r.Success? <==> p.SignedInteger? || p.UnsignedInteger?
    ensures p.UnsignedInteger? ==> r.value == if p.unsigned <= Int64Max then p.unsigned else p.unsigned - 0x1_0000_0000_0000_0000
  {
    match p
    case SignedInteger(s) => Success(s)
    case UnsignedInteger(u) =>
      if u <= Int64Max then Success(u) else Success(u - 0x1_0000_0000_0000_0000)
    case _ => Failure(InvalidCast)
  }

  /** The ValueSignedInteger getter as its comment describes it: an unsigned value
      above Int64.MaxValue makes the conversion fail instead of wrapping. */
  function ValueSignedInteger(p: Parameter): (r: Result<Int64, CastError>)
    ensures r.Success? <==> p.SignedInteger? || (p.UnsignedInteger? && p.unsigned <= Int64Max)
    ensures r.Success? ==> r.value as real == NumericValue(p)
    ensures r.Failure? ==> (r.error == Overflow <==> p.UnsignedInteger?)
  {
    match p
    case SignedInteger(s) => Success(s)
    case UnsignedInteger(u) => if u <= Int64Max then Success(u) else Failure(Overflow)
    case _ => Failure(InvalidCast)
  }

  /** The ValueUnsignedInteger getter as written: `(ulong)(long)v` reinterprets a
      negative signed value as a large unsigned one. */
  function ValueUnsignedIntegerUnchecked(p: Parameter): (r: Result<UInt64, CastError>)
    ensures r.Success? <==> p.SignedInteger? || p.UnsignedInteger?
    ensures p.SignedInteger? ==> r.value == if p.signed >= 0 then p.signed else p.signed + 0x1_0000_0000_0000_0000
  {
    match p
    case UnsignedInteger(u) => Success(u)
    case SignedInteger(s) =>
      if s >= 0 then Success(s) else Success(s + 0x1_0000_0000_0000_0000)
    case _ => Failure(InvalidCast)
  }

  /** The ValueUnsignedInteger getter as its comment describes it: a negative signed
      value makes the conversion fail. */
  function ValueUnsignedInteger(p: Parameter): (r: Result<UInt64, CastError>)
    ensures r.Success? <==> p.UnsignedInteger? || (p.SignedInteger? && p.signed >= 0)
    ensures r.Success? ==> r.value as real == NumericValue(p)
    ensures r.Failure? ==> (r.error == Overflow <==> p.SignedInteger?)
  {
    match p
    case UnsignedInteger(u) => Success(u)
    case SignedInteger(s) => if s >= 0 then Success(s) else Failure(Overflow)
    case _ => Failure(InvalidCast)
  }

  /** The ValueFloatingPoint getter: integers widen, nothing else converts. */
  function ValueFloatingPoint(p: Parameter): (r: Result<Double, CastError>)
    ensures r.Success? <==> p.FloatingPoint? || p.SignedInteger? || p.UnsignedInteger?
    ensures r.Success? ==> r.value == NumericValue(p)
    ensures r.Failure? ==> r.error == InvalidCast
  {
    match p
    case FloatingPoint(f) => Success(f)
    case SignedInteger(s) => Success(s as real)
    case UnsignedInteger(u) => Success(u as real)
    case _ => Failure(InvalidCast)
  }

  /** The ValueString getter. */
  function ValueString(p: Parameter): (r: Result<string, CastError>)
    ensures r.Success? <==> p.Type() == StringType
    ensures r.Success? ==> String(r.value) == p
    ensures r.Failure? ==> r.error == InvalidCast
  {
    if p.String? then Success(p.text) else Failure(InvalidCast)
  }

  /** The ValueArray getter. */
  function ValueArray(p: Parameter): (r: Result<seq<Parameter>, CastError>)
    ensures r.Success? <==> p.Type() == ArrayType
    ensures r.Success? ==> Array(r.value) == p
    ensures r.Failure? ==> r.error == InvalidCast
  {
    if p.Array? then Success(p.elements) else Failure(InvalidCast)
  }

  /** The ValueObject getter. */
  function ValueObject(p: Parameter): (r: Result<ParameterCollection, CastError>)
    ensures r.Success? <==> p.Type() == ObjectType
    ensures r.Success? ==> Object(r.value) == p
    ensures r.Failure? ==> r.error == InvalidCast
  {
    if p.Object? then Success(p.collection) else Failure(InvalidCast)
  }

  /** Each typed setter (and typed constructor) retags the parameter to its type, and
      the matching getter returns exactly the value stored. */
  lemma SetterThenGetter(b: bool, s: Int64, u: UInt64, f: Double, t: string,
                         a: seq<Parameter>, c: ParameterCollection)
    ensures Boolean(b).Type() == BooleanType && ValueBoolean(Boolean(b)) == Success(b)
    ensures SignedInteger(s).Type() == SignedIntegerType
         && ValueSignedInteger(SignedInteger(s)) == Success(s)
    ensures UnsignedInteger(u).Type() == UnsignedIntegerType
         && ValueUnsignedInteger(UnsignedInteger(u)) == Success(u)
    ensures FloatingPoint(f).Type() == FloatingPointType
         && ValueFloatingPoint(FloatingPoint(f)) == Success(f)
    ensures String(t).Type() == StringType && ValueString(String(t)) == Success(t)
    ensures Array(a).Type() == ArrayType && ValueArray(Array(a)) == Success(a)
    ensures Object(c).Type() == ObjectType && ValueObject(Object(c)) == Success(c)
  {
  }

  /** The floating-point getter agrees with the integer getters wherever they succeed.
      This holds because doubles are modelled as reals: the source's conversion of a
      long or ulong to double rounds to 53 bits, so above 2^53 the source's result can
      differ from the integer (SignedInteger(2^53 + 1) reads back as 2^53). */
  lemma FloatingPointAgreesWithIntegers(p: Parameter)
    ensures ValueSignedInteger(p).Success? ==>
      ValueFloatingPoint(p) == Success(ValueSignedInteger(p).value as real)
    ensures ValueUnsignedInteger(p).Success? ==>
      ValueFloatingPoint(p) == Success(ValueUnsignedInteger(p).value as real)
  {
  }

  /** The unchecked signed getter turns 2^63, a valid unsigned value, into -2^63: it
      succeeds with a value other than the one stored. */
  lemma UncheckedSignedGetterWraps()
    ensures ValueSignedIntegerUnchecked(UnsignedInteger(0x8000_0000_0000_0000)) == Success(Int64Min)
    ensures ValueSignedInteger(UnsignedInteger(0x8000_0000_0000_0000)) == Failure(Overflow)
  {
  }

  /** The unchecked unsigned getter turns -1 into 2^64 - 1. */
  lemma UncheckedUnsignedGetterWraps()
    ensures ValueUnsignedIntegerUnchecked(SignedInteger(-1)) == Success(UInt64Max)
    ensures ValueUnsignedInteger(SignedInteger(-1)) == Failure(Overflow)
  {
  }

  /** Where the unchecked getters are value-preserving they agree with the checked ones,
      and they differ on every input the checked ones reject for overflow. */
  lemma UncheckedAgreesWithinRange(p: Parameter)
    ensures ValueSignedInteger(p).Success? ==> ValueSignedIntegerUnchecked(p) == ValueSignedInteger(p)
    ensures ValueSignedInteger(p) == Failure(Overflow) ==>
      ValueSignedIntegerUnchecked(p).Success? && ValueSignedIntegerUnchecked(p).value < 0 <= p.unsigned
    ensures ValueUnsignedInteger(p).Success? ==> ValueUnsignedIntegerUnchecked(p) == ValueUnsignedInteger(p)
    ensures ValueUnsignedInteger(p) == Failure(Overflow) ==>
      ValueUnsignedIntegerUnchecked(p).Success? && ValueUnsignedIntegerUnchecked(p).value > Int64Max
  {
  }
}
