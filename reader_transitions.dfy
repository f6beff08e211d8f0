/** The transition table of libHSON/ProjectReader.cs, stated against the reader's state
    machine: the states each token kind is handled in, the property names each state
    knows, the arity of vectors and the defaults their missing components keep, the
    classification of numbers, the discipline of the parameter stack, and the end of an
    object. */
module ReaderTransitions {
  import opened Wrappers
  import opened Json
  import opened Externals
  import P = Parameters
  import opened ParameterCollections
  import opened ParameterCollectionFacts
  import opened SceneObjects
  import opened ReaderSpec
  import opened ReaderProperties

  // ---------------------------------------------------------------------------
  // The table.
  // ---------------------------------------------------------------------------

  /** The states the switch of each Parse method has a case for. */
  function Handles(t: Token): set<State>
  {
    match t
    case StartObject => {Idle, MetadataSection, Objects, ObjectParametersSection, ObjectParameters}
    case EndObject => {TopLevelObject, Metadata, Object, ObjectParameters}
    case StartArray => {ObjectsSection, ObjectPositionSection, ObjectRotationSection, ObjectScaleSection, ObjectParameters}
    case EndArray => {Objects, ObjectPosition, ObjectRotation, ObjectScale, ObjectParameters}
    case PropertyName(_) => {TopLevelObject, Metadata, Object, ObjectParameters}
    case StringValue(_) =>
      {MetadataName, MetadataAuthor, MetadataDate, MetadataVersion, MetadataDescription,
       ObjectId, ObjectName, ObjectParentId, ObjectInstanceOf, ObjectType, ObjectParameters}
    case NumberValue(_) => {FileVersionNumber, ObjectPosition, ObjectRotation, ObjectScale, ObjectParameters}
    case BooleanValue(_) => {ObjectIsEditorVisible, ObjectIsExcluded, ObjectParameters}
    case NullValue => {}
    case Comment(_) => {}
  }

  /** The token kinds the loop of ReadIntoAssignedProject has no case for. */
  predicate Skipped(t: Token)
  {
    t.NullValue? || t.Comment?
  }

  /** A token read in a state its handler has no case for throws InvalidDataException;
      a skipped token changes nothing. */
  lemma UnhandledFails(host: Host, s: ReaderState, t: Token)
    ensures Skipped(t) ==> Step(host, s, t) == Success(s)
    ensures !Skipped(t) && s.curState !in Handles(t) ==> Step(host, s, t) == Failure(InvalidData)
  {
    if !Skipped(t) && s.curState !in Handles(t) {
      match t
      case StartObject =>
      case EndObject =>
      case StartArray =>
      case EndArray =>
      case PropertyName(key) =>
      case StringValue(text) =>
      case NumberValue(n) =>
      case BooleanValue(b) =>
    }
  }

  /** The opening and closing tokens never fail in a state that handles them outside
      the parameters: each only moves to its next state (an object without an id gets
      a fresh one at its end, which Guid.NewGuid never leaves empty). */
  lemma StructureSucceeds(host: Host, s: ReaderState, t: Token)
    requires ValidHost(host)
    requires t.StartObject? || t.EndObject? || t.StartArray? || t.EndArray?
    requires s.curState in Handles(t) && s.curState != ObjectParameters
    ensures Step(host, s, t).Success?
  {
    if t.EndObject? && s.curState == Object {
      assert host.newGuid(|s.objIdMaps|) != EmptyGuid;
    }
  }

  /** The tokens the loop skips can be dropped from the input. */
  function Unskipped(tokens: seq<Token>): (r: seq<Token>)
    ensures |r| <= |tokens|
    ensures forall k :: 0 <= k < |r| ==> !Skipped(r[k])
  {
    if |tokens| == 0 then []
    else if Skipped(tokens[0]) then Unskipped(tokens[1..])
    else [tokens[0]] + Unskipped(tokens[1..])
  }

  /** Null and comment tokens are read past without changing the state, wherever they
      appear. */
  lemma {:induction false} RunIgnoresSkipped(host: Host, s: ReaderState, tokens: seq<Token>)
    ensures Run(host, s, tokens) == Run(host, s, Unskipped(tokens))
    decreases |tokens|
  {
    if |tokens| > 0 {
      if Skipped(tokens[0]) {
        UnhandledFails(host, s, tokens[0]);
        RunIgnoresSkipped(host, s, tokens[1..]);
      } else {
        var rest := Unskipped(tokens[1..]);
        assert ([tokens[0]] + rest)[0] == tokens[0];
        assert ([tokens[0]] + rest)[1..] == rest;
        match Step(host, s, tokens[0])
        case Failure(_) =>
        case Success(s') => RunIgnoresSkipped(host, s', tokens[1..]);
      }
    }
  }

  /** The loop over a concatenation is the loop over the first part, then, unless that
      threw, the loop over the second from where the first stopped. */
  lemma {:induction false} RunAppend(host: Host, s: ReaderState, a: seq<Token>, b: seq<Token>)
    ensures Run(host, s, a + b) ==
      (var o := Run(host, s, a); if o.error.Some? then o else Run(host, o.state, b))
    decreases |a|
  {
    if |a| == 0 {
      assert a + b == b;
    } else {
      assert (a + b)[0] == a[0];
      assert (a + b)[1..] == a[1..] + b;
      match Step(host, s, a[0])
      case Failure(_) =>
      case Success(s') => RunAppend(host, s', a[1..], b);
    }
  }

  // ---------------------------------------------------------------------------
  // Property names.
  // ---------------------------------------------------------------------------

  /** The property names each state outside the parameters has a case for. */
  function KnownNames(st: State): set<string>
  {
    if st == TopLevelObject then {"version", "metadata", "objects"}
    else if st == Metadata then {"name", "author", "date", "version", "description"}
    else if st == Object then
      {"id", "name", "parentId", "instanceOf", "type", "position", "rotation", "scale",
       "isEditorVisible", "isExcluded", "parameters"}
    else {}
  }

  /** At the top level, in the metadata and in an object, a known property name only
      moves to its state; any other name (a custom property) throws
      NotImplementedException. */
  lemma PropertyNameTable(s: ReaderState, key: string)
    requires s.curState == TopLevelObject || s.curState == Metadata || s.curState == Object
    ensures StepPropertyName(s, key).Success? <==> key in KnownNames(s.curState)
    ensures key !in KnownNames(s.curState) ==> StepPropertyName(s, key) == Failure(NotImplemented)
    ensures StepPropertyName(s, key).Success? ==>
      StepPropertyName(s, key).value == s.(curState := StepPropertyName(s, key).value.curState)
  {
  }

  /** The states the names lead to. */
  lemma PropertyNameStates(s: ReaderState)
    ensures s.curState == TopLevelObject ==>
      && StepPropertyName(s, "version") == Success(s.(curState := FileVersionNumber))
      && StepPropertyName(s, "metadata") == Success(s.(curState := MetadataSection))
      && StepPropertyName(s, "objects") == Success(s.(curState := ObjectsSection))
    ensures s.curState == Object ==>
      && StepPropertyName(s, "position") == Success(s.(curState := ObjectPositionSection))
      && StepPropertyName(s, "rotation") == Success(s.(curState := ObjectRotationSection))
      && StepPropertyName(s, "scale") == Success(s.(curState := ObjectScaleSection))
      && StepPropertyName(s, "parameters") == Success(s.(curState := ObjectParametersSection))
  {
  }

  // ---------------------------------------------------------------------------
  // Vectors.
  // ---------------------------------------------------------------------------

  /** The numbers of a vector array, as tokens. */
  function Numbers(ns: seq<NumberLiteral>): (r: seq<Token>)
    ensures |r| == |ns| && forall k :: 0 <= k < |ns| ==> r[k] == NumberValue(ns[k])
  {
    seq(|ns|, k requires 0 <= k < |ns| => NumberValue(ns[k]))
  }

  /** Every literal reads as a float. */
  predicate AllSingles(ns: seq<NumberLiteral>)
  {
    forall k :: 0 <= k < |ns| ==> GetSingle(ns[k]).Some?
  }

  function Singles(ns: seq<NumberLiteral>): (r: seq<Single>)
    requires AllSingles(ns)
    ensures |r| == |ns| && forall k :: 0 <= k < |ns| ==> r[k] == GetSingle(ns[k]).value
  {
    seq(|ns|, k requires 0 <= k < |ns| => GetSingle(ns[k]).value)
  }

  /** The buffer with the slots from `i` on overwritten by `xs`. */
  function Filled(d: VecData, i: nat, xs: seq<Single>): (r: VecData)
    requires i + |xs| <= 4
    ensures forall j :: 0 <= j < 4 ==> r[j] == if i <= j < i + |xs| then xs[j - i] else d[j]
  {
    [Slot(d, i, xs, 0), Slot(d, i, xs, 1), Slot(d, i, xs, 2), Slot(d, i, xs, 3)]
  }

  function Slot(d: VecData, i: nat, xs: seq<Single>, j: nat): Single
    requires j < 4
  {
    if i <= j < i + |xs| then xs[j - i] else d[j]
  }

  /** Numbers within the arity fill the buffer slot by slot from the current index. */
  lemma {:induction false} ComponentsRead(host: Host, s: ReaderState, ns: seq<NumberLiteral>)
    requires InVector(s.curState) && AllSingles(ns)
    requires s.curVecElemIndex + |ns| <= Arity(s.curState)
    ensures Run(host, s, Numbers(ns)) ==
      Outcome(s.(curVecData := Filled(s.curVecData, s.curVecElemIndex, Singles(ns)),
                 curVecElemIndex := s.curVecElemIndex + |ns|), None)
    decreases |ns|
  {
    var i := s.curVecElemIndex;
    if |ns| == 0 {
      assert Filled(s.curVecData, i, []) == s.curVecData;
    } else {
      var f := GetSingle(ns[0]).value;
      var s1 := s.(curVecData := s.curVecData[i := f], curVecElemIndex := i + 1);
      FirstComponent(host, s, ns);
      AllSinglesTail(ns);
      ComponentsRead(host, s1, ns[1..]);
      FilledStep(s.curVecData, i, f, Singles(ns[1..]));
    }
  }

  /** The first number of a vector within the arity is read into the buffer. */
  lemma FirstComponent(host: Host, s: ReaderState, ns: seq<NumberLiteral>)
    requires InVector(s.curState) && |ns| > 0 && GetSingle(ns[0]).Some?
    requires s.curVecElemIndex < Arity(s.curState)
    ensures var i := s.curVecElemIndex;
      Run(host, s, Numbers(ns)) ==
        Run(host, s.(curVecData := s.curVecData[i := GetSingle(ns[0]).value], curVecElemIndex := i + 1), Numbers(ns[1..]))
  {
    assert Numbers(ns)[0] == NumberValue(ns[0]);
    assert Numbers(ns)[1..] == Numbers(ns[1..]);
  }

  lemma AllSinglesTail(ns: seq<NumberLiteral>)
    requires |ns| > 0 && AllSingles(ns)
    ensures AllSingles(ns[1..]) && Singles(ns) == [GetSingle(ns[0]).value] + Singles(ns[1..])
  {
    forall k | 0 <= k < |ns[1..]| ensures GetSingle(ns[1..][k]).Some? {
      assert ns[1..][k] == ns[k + 1];
    }
    assert Singles(ns) == [GetSingle(ns[0]).value] + Singles(ns[1..]);
  }

  /** Writing slot `i`, then filling from `i + 1`, is filling from `i`. */
  lemma FilledStep(d: VecData, i: nat, f: Single, xs: seq<Single>)
    requires i + 1 + |xs| <= 4
    ensures Filled(d[i := f], i + 1, xs) == Filled(d, i, [f] + xs)
  {
    forall j | 0 <= j < 4 ensures Filled(d[i := f], i + 1, xs)[j] == Filled(d, i, [f] + xs)[j] {
      if i + 1 <= j < i + 1 + |xs| {
        assert ([f] + xs)[j - i] == xs[j - (i + 1)];
      }
    }
  }

  /** One component more than the arity throws InvalidDataException. */
  lemma ExtraComponentFails(s: ReaderState, n: NumberLiteral)
    requires InVector(s.curState) && s.curVecElemIndex == Arity(s.curState)
    ensures StepNumber(s, n) == Failure(InvalidData)
  {
  }

  /** A vector array with more numbers than its arity (3 for position and scale, 4 for
      rotation) fails. */
  lemma TooManyComponents(host: Host, s: ReaderState, ns: seq<NumberLiteral>)
    requires InVector(s.curState) && s.curVecElemIndex == 0 && AllSingles(ns)
    requires |ns| > Arity(s.curState)
    ensures Run(host, s, Numbers(ns)).error == Some(InvalidData)
  {
    var a := Arity(s.curState);
    NumbersSplit(ns, a);
    ComponentsRead(host, s, ns[..a]);
    RunAppend(host, s, Numbers(ns[..a]), Numbers(ns[a..]));
    ExtraRunFails(host, Run(host, s, Numbers(ns[..a])).state, ns[a..]);
  }

  lemma NumbersSplit(ns: seq<NumberLiteral>, a: nat)
    requires a <= |ns| && AllSingles(ns)
    ensures Numbers(ns) == Numbers(ns[..a]) + Numbers(ns[a..])
    ensures AllSingles(ns[..a])
  {
    assert Numbers(ns) == Numbers(ns[..a]) + Numbers(ns[a..]);
    forall k | 0 <= k < a ensures GetSingle(ns[..a][k]).Some? {
      assert ns[..a][k] == ns[k];
    }
  }

  /** Once the vector is full, the next number stops the loop. */
  lemma ExtraRunFails(host: Host, s: ReaderState, ns: seq<NumberLiteral>)
    requires InVector(s.curState) && s.curVecElemIndex == Arity(s.curState) && |ns| > 0
    ensures Run(host, s, Numbers(ns)).error == Some(InvalidData)
  {
    ExtraComponentFails(s, ns[0]);
    assert Numbers(ns)[0] == NumberValue(ns[0]);
  }

  /** The state a vector section's start-array leads to, and the default vector its
      first slots are seeded with. */
  function VectorState(section: State): State
  {
    if section == ObjectPositionSection then ObjectPosition
    else if section == ObjectRotationSection then ObjectRotation
    else ObjectScale
  }

  predicate IsVectorSection(st: State)
  {
    st == ObjectPositionSection || st == ObjectRotationSection || st == ObjectScaleSection
  }

  /** Start-array in a vector section seeds the buffer with the default vector (the
      fourth slot is left as it was for position and scale) and starts the vector. */
  lemma StartVectorSeeds(s: ReaderState)
    requires IsVectorSection(s.curState)
    ensures StepStartArray(s).Success?
    ensures var r := StepStartArray(s).value;
      && r == s.(curVecData := r.curVecData, curState := VectorState(s.curState))
      && (s.curState == ObjectPositionSection ==>
            r.curVecData == [DefaultPosition.x, DefaultPosition.y, DefaultPosition.z, s.curVecData[3]])
      && (s.curState == ObjectScaleSection ==>
            r.curVecData == [DefaultScale.x, DefaultScale.y, DefaultScale.z, s.curVecData[3]])
      && (s.curState == ObjectRotationSection ==>
            r.curVecData == [DefaultRotation.x, DefaultRotation.y, DefaultRotation.z, DefaultRotation.w])
  {
    var r := StepStartArray(s).value;
    if s.curState != ObjectRotationSection {
      assert r.curVecData == [r.curVecData[0], r.curVecData[1], r.curVecData[2], r.curVecData[3]];
    }
  }

  /** Component `i` of a vector read from `xs`: the number read, or the default. */
  function Component(xs: seq<Single>, i: nat, default: Single): Single
  {
    if i < |xs| then xs[i] else default
  }

  /** The start-array and the numbers of a vector within the arity: the buffer holds
      the numbers read, then the defaults. */
  lemma VectorBodyRead(host: Host, s: ReaderState, ns: seq<NumberLiteral>)
    requires IsVectorSection(s.curState) && s.curVecElemIndex == 0 && AllSingles(ns)
    requires |ns| <= Arity(VectorState(s.curState))
    ensures var o := Run(host, s, [StartArray] + Numbers(ns));
      && o.error.None?
      && o.state == s.(curVecData := o.state.curVecData, curVecElemIndex := |ns|, curState := VectorState(s.curState))
      && o.state.curVecData == Filled(StepStartArray(s).value.curVecData, 0, Singles(ns))
  {
    StartVectorSeeds(s);
    var s1 := StepStartArray(s).value;
    assert Run(host, s, [StartArray]) == Outcome(s1, None) by {
      assert [StartArray][1..] == [];
    }
    RunAppend(host, s, [StartArray], Numbers(ns));
    ComponentsRead(host, s1, ns);
  }

  /** End-array closes a vector: the buffer's first components become the object's
      local value, and the index is reset. */
  lemma VectorClosed(host: Host, t: ReaderState)
    requires InVector(t.curState)
    ensures var r := Run(host, t, [EndArray]); var d := t.curVecData; var o := t.curObjMap.obj;
      && r.error.None?
      && r.state.curState == Object && r.state.curVecElemIndex == 0
      && (t.curState == ObjectPosition ==> r.state.curObjMap.obj == o.(position := Some(Vector3(d[0], d[1], d[2]))))
      && (t.curState == ObjectScale ==> r.state.curObjMap.obj == o.(scale := Some(Vector3(d[0], d[1], d[2]))))
      && (t.curState == ObjectRotation ==> r.state.curObjMap.obj == o.(rotation := Some(Quaternion(d[0], d[1], d[2], d[3]))))
  {
    assert [EndArray][0] == EndArray && [EndArray][1..] == [];
  }

  /** A position (or scale) array of at most three numbers sets the object's local
      position (scale): the numbers read, and the default for each missing trailing
      component; the object is otherwise unchanged and the index is reset. */
  lemma PositionRead(host: Host, s: ReaderState, ns: seq<NumberLiteral>)
    requires s.curState == ObjectPositionSection && s.curVecElemIndex == 0 && AllSingles(ns)
    requires |ns| <= 3
    ensures var o := Run(host, s, [StartArray] + Numbers(ns) + [EndArray]);
      var xs := Singles(ns);
      && o.error.None?
      && o.state.curState == Object && o.state.curVecElemIndex == 0
      && o.state.curObjMap.obj == s.curObjMap.obj.(position := Some(Vector3(
           Component(xs, 0, DefaultPosition.x), Component(xs, 1, DefaultPosition.y), Component(xs, 2, DefaultPosition.z))))
  {
    VectorBodyRead(host, s, ns);
    var o1 := Run(host, s, [StartArray] + Numbers(ns));
    RunAppend(host, s, [StartArray] + Numbers(ns), [EndArray]);
    VectorClosed(host, o1.state);
    StartVectorSeeds(s);
    var xs := Singles(ns);
    var d := o1.state.curVecData;
    assert d[0] == Component(xs, 0, DefaultPosition.x) && d[1] == Component(xs, 1, DefaultPosition.y) && d[2] == Component(xs, 2, DefaultPosition.z);
  }

  lemma ScaleRead(host: Host, s: ReaderState, ns: seq<NumberLiteral>)
    requires s.curState == ObjectScaleSection && s.curVecElemIndex == 0 && AllSingles(ns)
    requires |ns| <= 3
    ensures var o := Run(host, s, [StartArray] + Numbers(ns) + [EndArray]);
      var xs := Singles(ns);
      && o.error.None?
      && o.state.curState == Object && o.state.curVecElemIndex == 0
      && o.state.curObjMap.obj == s.curObjMap.obj.(scale := Some(Vector3(
           Component(xs, 0, DefaultScale.x), Component(xs, 1, DefaultScale.y), Component(xs, 2, DefaultScale.z))))
  {
    VectorBodyRead(host, s, ns);
    var o1 := Run(host, s, [StartArray] + Numbers(ns));
    RunAppend(host, s, [StartArray] + Numbers(ns), [EndArray]);
    VectorClosed(host, o1.state);
    StartVectorSeeds(s);
    var xs := Singles(ns);
    var d := o1.state.curVecData;
    assert d[0] == Component(xs, 0, DefaultScale.x) && d[1] == Component(xs, 1, DefaultScale.y) && d[2] == Component(xs, 2, DefaultScale.z);
  }

  /** A rotation array of at most four numbers sets the object's local rotation, the
      missing trailing components taken from the identity quaternion. */
  lemma RotationRead(host: Host, s: ReaderState, ns: seq<NumberLiteral>)
    requires s.curState == ObjectRotationSection && s.curVecElemIndex == 0 && AllSingles(ns)
    requires |ns| <= 4
    ensures var o := Run(host, s, [StartArray] + Numbers(ns) + [EndArray]);
      var xs := Singles(ns);
      var q := DefaultRotation;
      && o.error.None?
      && o.state.curState == Object && o.state.curVecElemIndex == 0
      && o.state.curObjMap.obj == s.curObjMap.obj.(rotation := Some(Quaternion(
           Component(xs, 0, q.x), Component(xs, 1, q.y), Component(xs, 2, q.z), Component(xs, 3, q.w))))
  {
    VectorBodyRead(host, s, ns);
    var o1 := Run(host, s, [StartArray] + Numbers(ns));
    RunAppend(host, s, [StartArray] + Numbers(ns), [EndArray]);
    VectorClosed(host, o1.state);
    StartVectorSeeds(s);
    var xs := Singles(ns);
    var d := o1.state.curVecData;
    assert d[0] == Component(xs, 0, DefaultRotation.x) && d[1] == Component(xs, 1, DefaultRotation.y) && d[2] == Component(xs, 2, DefaultRotation.z) && d[3] == Component(xs, 3, DefaultRotation.w);
  }

  // ---------------------------------------------------------------------------
  // Numbers inside parameters.
  // ---------------------------------------------------------------------------

  /** A number inside parameters becomes an unsigned integer when it is an integer
      literal in the range of UInt64, a signed integer when it is a negative integer
      literal in the range of Int64, and otherwise a double of the literal's value; only
      a literal beyond the range of double is refused. */
  lemma ClassifyRanges(n: NumberLiteral)
    ensures n.IntegerText? && 0 <= n.integer <= UInt64Max ==> Classify(n) == Some(P.UnsignedInteger(n.integer))
    ensures n.IntegerText? && Int64Min <= n.integer < 0 ==> Classify(n) == Some(P.SignedInteger(n.integer))
    ensures (n.RealText? || n.integer < Int64Min || n.integer > UInt64Max) && -MaxDouble <= LiteralValue(n) <= MaxDouble ==>
      Classify(n) == Some(P.FloatingPoint(LiteralValue(n)))
    ensures Classify(n).None? <==> !(-MaxDouble <= LiteralValue(n) <= MaxDouble)
  {
    if n.IntegerText? {
      assert Int64Min as real >= -MaxDouble && UInt64Max as real <= MaxDouble;
    }
  }

  // ---------------------------------------------------------------------------
  // Inside parameters.
  // ---------------------------------------------------------------------------

  /** A scalar read while an array parameter is open is appended to it; the stack
      keeps its height and nothing else changes. */
  lemma ScalarAppends(s: ReaderState, v: P.Parameter)
    requires |s.paramStack| > 0 && Top(s.paramStack).value.Array?
    ensures Scalar(s, v).Success?
    ensures var r := Scalar(s, v).value;
      && r == s.(paramStack := r.paramStack)
      && |r.paramStack| == |s.paramStack|
      && r.paramStack[..|r.paramStack| - 1] == s.paramStack[..|s.paramStack| - 1]
      && Top(r.paramStack) == Frame(Top(s.paramStack).dest, P.Array(Top(s.paramStack).value.elements + [v]))
  {
  }

  /** A scalar read while another parameter is open becomes that parameter's value,
      which is then complete: it is popped and its value is found where it belongs. */
  lemma ScalarCompletes(s: ReaderState, v: P.Parameter)
    requires WellStacked(s) && |s.paramStack| > 0 && !Top(s.paramStack).value.Array?
    ensures Scalar(s, v).Success?
    ensures var r := Scalar(s, v).value; var top := Top(s.paramStack); var n := |s.paramStack|;
      && |r.paramStack| == n - 1
      && r.curState == s.curState && r.objIdMaps == s.objIdMaps && r.metadata == s.metadata
      && (n == 1 ==> TryGetValue(r.curObjMap.obj.localParameters, top.dest.key) == Some(v))
      && (n > 1 && top.dest.Key? ==> TryGetValue(Top(r.paramStack).value.collection, top.dest.key) == Some(v))
      && (n > 1 && top.dest.Element? ==> Top(r.paramStack).value == P.Array(s.paramStack[n - 2].value.elements + [v]))
  {
    var s1 := s.(paramStack := ReplaceTop(s.paramStack, v));
    ReplaceTopKeepsStacked(s, v);
    PopStores(s1);
    if |s.paramStack| > 1 {
      assert s1.paramStack[|s.paramStack| - 2] == s.paramStack[|s.paramStack| - 2];
    }
  }

  /** End-object inside parameters: with nothing open it leaves the parameters; it
      throws InvalidDataException when the open parameter is not an object, and
      otherwise completes it. */
  lemma EndObjectInParameters(host: Host, s: ReaderState)
    requires s.curState == ObjectParameters
    ensures |s.paramStack| == 0 ==> StepEndObject(host, s) == Success(s.(curState := Object))
    ensures |s.paramStack| > 0 && !Top(s.paramStack).value.Object? ==> StepEndObject(host, s) == Failure(InvalidData)
    ensures |s.paramStack| > 0 && Top(s.paramStack).value.Object? ==>
      StepEndObject(host, s).Success? && |StepEndObject(host, s).value.paramStack| == |s.paramStack| - 1
      && StepEndObject(host, s).value.curState == ObjectParameters
  {
  }

  /** End-array inside parameters completes the open parameter exactly when it is an
      array, and throws InvalidDataException otherwise. */
  lemma EndArrayInParameters(s: ReaderState)
    requires s.curState == ObjectParameters
    ensures StepEndArray(s).Success? <==> |s.paramStack| > 0 && Top(s.paramStack).value.Array?
    ensures StepEndArray(s).Failure? ==> StepEndArray(s) == Failure(InvalidData)
    ensures StepEndArray(s).Success? ==>
      |StepEndArray(s).value.paramStack| == |s.paramStack| - 1 && StepEndArray(s).value.curState == ObjectParameters
  {
  }

  /** Add refuses a key that is already there. */
  lemma AddExisting(c: P.ParameterCollection, key: string, v: P.Parameter)
    requires ContainsKey(c, key)
    ensures Add(c, key, v).outcome == Failure(KeyExists)
  {
    FoundPathUnblocked(c, Split(key));
    TryAddOutcome(c, key, v);
  }

  /** A property name inside parameters needs an open object parameter or none. */
  lemma PropertyNameNeedsObject(s: ReaderState, key: string)
    requires s.curState == ObjectParameters
    requires |s.paramStack| > 0 && !Top(s.paramStack).value.Object?
    ensures StepPropertyName(s, key) == Failure(InvalidData)
  {
  }

  /** The name of a local parameter already there throws ArgumentException (from Add). */
  lemma LocalNameExists(s: ReaderState, key: string)
    requires s.curState == ObjectParameters
    requires |s.paramStack| == 0 && ContainsKey(s.curObjMap.obj.localParameters, key)
    ensures StepPropertyName(s, key) == Failure(Argument)
  {
    AddExisting(s.curObjMap.obj.localParameters, key, P.NewParameter());
    RefusedLocalNameFails(s, key);
    ParameterNameStep(s, key);
  }

  /** So does the name of a parameter the open object parameter already holds. */
  lemma NestedNameExists(s: ReaderState, key: string)
    requires s.curState == ObjectParameters
    requires |s.paramStack| > 0 && Top(s.paramStack).value.Object?
    requires ContainsKey(Top(s.paramStack).value.collection, key)
    ensures StepPropertyName(s, key) == Failure(Argument)
  {
    AddExisting(Top(s.paramStack).value.collection, key, P.NewParameter());
    RefusedNestedNameFails(s, key);
    ParameterNameStep(s, key);
  }

  /** Inside parameters a property name is a new parameter name. */
  lemma {:induction false} ParameterNameStep(s: ReaderState, key: string)
    requires s.curState == ObjectParameters
    ensures StepPropertyName(s, key) == NewParameterName(s, key)
  {
  }

  /** A name that Add refuses for the object's local parameters makes the
      property-name step throw ArgumentException. */
  lemma {:induction false} RefusedLocalNameFails(s: ReaderState, key: string)
    requires |s.paramStack| == 0
    requires Add(s.curObjMap.obj.localParameters, key, P.NewParameter()).outcome.Failure?
    ensures NewParameterName(s, key) == Failure(Argument)
  {
  }

  /** So does a name that Add refuses for the open object parameter. */
  lemma {:induction false} RefusedNestedNameFails(s: ReaderState, key: string)
    requires |s.paramStack| > 0 && Top(s.paramStack).value.Object?
    requires Add(Top(s.paramStack).value.collection, key, P.NewParameter()).outcome.Failure?
    ensures NewParameterName(s, key) == Failure(Argument)
  {
  }

  /** A new property name inside parameters opens a parameter for it, with the default
      value: with nothing open it is found in the object's local parameters, and
      otherwise in the open object parameter, which stays just below it. */
  lemma PropertyNameOpens(s: ReaderState, key: string)
    requires s.curState == ObjectParameters && StepPropertyName(s, key).Success?
    ensures var r := StepPropertyName(s, key).value;
      && |r.paramStack| == |s.paramStack| + 1
      && Top(r.paramStack) == Frame(Key(key), P.NewParameter())
      && (|s.paramStack| == 0 ==> TryGetValue(r.curObjMap.obj.localParameters, key) == Some(P.NewParameter()))
      && (|s.paramStack| > 0 ==>
            r.paramStack[|s.paramStack| - 1].value.Object?
            && TryGetValue(r.paramStack[|s.paramStack| - 1].value.collection, key) == Some(P.NewParameter()))
  {
    var r := StepPropertyName(s, key).value;
    if |s.paramStack| == 0 {
      var u := Add(s.curObjMap.obj.localParameters, key, P.NewParameter());
      assert r.curObjMap.obj.localParameters == u.collection;
    } else {
      var u := Add(Top(s.paramStack).value.collection, key, P.NewParameter());
      var below := ReplaceTop(s.paramStack, P.Object(u.collection));
      assert r.paramStack == below + [Frame(Key(key), P.NewParameter())];
      assert r.paramStack[|s.paramStack| - 1] == Top(below);
    }
  }

  // ---------------------------------------------------------------------------
  // The end of an object.
  // ---------------------------------------------------------------------------

  /** End-object in an object: the mapping is appended in parse order, with the fresh
      id Guid.NewGuid gives when the object still has the empty id (and its own id
      otherwise), and a new mapping begins. */
  lemma EndObjectRegisters(host: Host, s: ReaderState)
    requires ValidHost(host) && s.curState == Object
    ensures StepEndObject(host, s).Success?
    ensures var r := StepEndObject(host, s).value; var m := s.curObjMap;
      var id := if m.obj.id == EmptyGuid then host.newGuid(|s.objIdMaps|) else m.obj.id;
      && id != EmptyGuid
      && r.objIdMaps == s.objIdMaps + [m.(obj := m.obj.(id := id))]
      && r.curObjMap == NewMapping && r.curState == Objects
      && r == s.(objIdMaps := r.objIdMaps, curObjMap := NewMapping, curState := Objects)
  {
    assert host.newGuid(|s.objIdMaps|) != EmptyGuid;
  }
}
