/** The token-driven reader of libHSON/ProjectReader.cs, as a pure state machine: the
    reader's fields form a ReaderState, every token is one Step, a read is the steps of
    all its tokens followed by the deferred pass that resolves parent and prototype ids
    against the project's registry.

    The source keeps open parameters on a stack of aliases: a new parameter is first
    added to its parent (with a default value) and then changed through the alias on the
    stack. Here the stack is a zipper: each frame holds the value of an open parameter
    and where it goes, and popping a frame stores its final value into the frame below
    (or into the object's local parameters). Nothing reads a parent while a child is
    open above it, so both give the parent the same final value. */
module ReaderSpec {
  import opened Wrappers
  import opened Json
  import opened Externals
  import P = Parameters
  import opened ParameterCollections
  import opened SceneObjects
  import opened ObjectCollections
  import opened ProjectMeta = Metadata

  /** ProjectReader.State; `Idle` is the source's `State.None`. */
  datatype State =
    | Idle
    | TopLevelObject
    | FileVersionNumber
    | MetadataSection
    | Metadata
    | MetadataName
    | MetadataAuthor
    | MetadataDate
    | MetadataVersion
    | MetadataDescription
    | ObjectsSection
    | Objects
    | Object
    | ObjectId
    | ObjectName
    | ObjectParentId
    | ObjectInstanceOf
    | ObjectType
    | ObjectPositionSection
    | ObjectPosition
    | ObjectRotationSection
    | ObjectRotation
    | ObjectScaleSection
    | ObjectScale
    | ObjectIsEditorVisible
    | ObjectIsExcluded
    | ObjectParametersSection
    | ObjectParameters

  /** The exception a step throws. */
  datatype ReadError =
    | InvalidData       // InvalidDataException
    | NotImplemented    // NotImplementedException: a custom property name
    | InvalidOperation  // Stack.Peek on an empty parameter stack
    | Format            // FormatException: GetUInt32, GetSingle, Guid.ParseExact, DateTime.Parse
    | Argument          // ArgumentException: an empty id, a key ParameterCollection.Add refuses

  /** Where an open parameter goes: under a key of the collection below it, or at the
      end of the array below it. */
  datatype Dest = Key(key: string) | Element

  /** One entry of `_paramStack`. */
  datatype Frame = Frame(dest: Dest, value: P.Parameter)

  /** ObjectIdMapping: an object read so far and the ids it refers to. */
  datatype ObjectIdMapping = ObjectIdMapping(obj: SceneObject, parentId: Option<Guid>, instanceOf: Option<Guid>)

  /** `new ObjectIdMapping()`: an object with the empty id and nothing else set. */
  const NewMapping: ObjectIdMapping := ObjectIdMapping(NewObjectWithId(EmptyGuid), None, None)

  /** `_curVecData`, the four components of the vector being read. */
  type VecData = d: seq<Single> | |d| == 4 witness [0.0, 0.0, 0.0, 0.0]

  /** `new float[4]`. */
  const ZeroVecData: VecData := [0.0, 0.0, 0.0, 0.0]

  /** The reader's fields, and the metadata of the project it reads into (which the
      source changes as soon as a metadata value is read). */
  datatype ReaderState = ReaderState(
    metadata: ProjectMetadata,
    curObjMap: ObjectIdMapping,
    objIdMaps: seq<ObjectIdMapping>,
    paramStack: seq<Frame>,
    fileVersionNumber: UInt32,
    curVecElemIndex: nat,
    curVecData: VecData,
    curState: State)

  /** The state after the reset at the start of ReadIntoAssignedProject; the vector
      buffer is not reset there. */
  function Initial(m: ProjectMetadata, data: VecData): (s: ReaderState)
    ensures s.curState == Idle && s.paramStack == [] && s.objIdMaps == []
    ensures s.curObjMap == NewMapping && s.curVecElemIndex == 0 && s.fileVersionNumber == 0
    ensures s.metadata == m && s.curVecData == data
  {
    ReaderState(m, NewMapping, [], [], 0, 0, data, Idle)
  }

  // ---------------------------------------------------------------------------
  // The parameter stack.
  // ---------------------------------------------------------------------------

  function Top(stack: seq<Frame>): Frame
    requires |stack| > 0
  {
    stack[|stack| - 1]
  }

  /** Changes the value of the top parameter through its alias. */
  function ReplaceTop(stack: seq<Frame>, v: P.Parameter): (r: seq<Frame>)
    requires |stack| > 0
    ensures |r| == |stack| && r[..|r| - 1] == stack[..|stack| - 1]
    ensures Top(r) == Frame(Top(stack).dest, v)
  {
    stack[..|stack| - 1] + [Frame(Top(stack).dest, v)]
  }

  function Push(s: ReaderState, f: Frame): ReaderState
  {
    s.(paramStack := s.paramStack + [f])
  }

  /** The parameter a completed child leaves in its parent. */
  function Attach(parent: P.Parameter, child: Frame): P.Parameter
  {
    match child.dest
    case Key(k) => if parent.Object? then P.Object(Set(parent.collection, k, child.value).collection) else parent
    case Element => if parent.Array? then P.Array(parent.elements + [child.value]) else parent
  }

  function WithObject(s: ReaderState, o: SceneObject): ReaderState
  {
    s.(curObjMap := s.curObjMap.(obj := o))
  }

  /** `_paramStack.Pop()`: the top parameter is complete. */
  function Pop(s: ReaderState): (r: ReaderState)
    requires |s.paramStack| > 0
    ensures |r.paramStack| == |s.paramStack| - 1
    ensures r.curState == s.curState && r.objIdMaps == s.objIdMaps && r.metadata == s.metadata
  {
    var n := |s.paramStack|;
    var top := Top(s.paramStack);
    if n == 1 then
      var o := s.curObjMap.obj;
      match top.dest
      case Key(k) => WithObject(s.(paramStack := []), o.(localParameters := Set(o.localParameters, k, top.value).collection))
      case Element => s.(paramStack := [])
    else
      var below := s.paramStack[n - 2];
      s.(paramStack := s.paramStack[..n - 2] + [Frame(below.dest, Attach(below.value, top))])
  }

  /** A string, number or boolean inside parameters: appended to the top parameter if
      that is an array, otherwise it becomes the top parameter's value, which is then
      complete. Peek throws on an empty stack. */
  function Scalar(s: ReaderState, v: P.Parameter): Result<ReaderState, ReadError>
  {
    if |s.paramStack| == 0 then Failure(InvalidOperation)
    else
      var top := Top(s.paramStack);
      if top.value.Array? then Success(s.(paramStack := ReplaceTop(s.paramStack, P.Array(top.value.elements + [v]))))
      else Success(Pop(s.(paramStack := ReplaceTop(s.paramStack, v))))
  }

  /** A start-object or start-array inside parameters: a new element of the top
      parameter if that is an array, otherwise the top parameter's new value. */
  function OpenNested(s: ReaderState, empty: P.Parameter): Result<ReaderState, ReadError>
  {
    if |s.paramStack| == 0 then Failure(InvalidOperation)
    else if Top(s.paramStack).value.Array? then Success(Push(s, Frame(Element, empty)))
    else Success(s.(paramStack := ReplaceTop(s.paramStack, empty)))
  }

  // ---------------------------------------------------------------------------
  // The property names each state knows.
  // ---------------------------------------------------------------------------

  function TopLevelPropertyState(key: string): Option<State>
  {
    if key == "version" then Some(FileVersionNumber)
    else if key == "metadata" then Some(MetadataSection)
    else if key == "objects" then Some(ObjectsSection)
    else None
  }

  function MetadataPropertyState(key: string): Option<State>
  {
    if key == "name" then Some(MetadataName)
    else if key == "author" then Some(MetadataAuthor)
    else if key == "date" then Some(MetadataDate)
    else if key == "version" then Some(MetadataVersion)
    else if key == "description" then Some(MetadataDescription)
    else None
  }

  function ObjectPropertyState(key: string): Option<State>
  {
    if key == "id" then Some(ObjectId)
    else if key == "name" then Some(ObjectName)
    else if key == "parentId" then Some(ObjectParentId)
    else if key == "instanceOf" then Some(ObjectInstanceOf)
    else if key == "type" then Some(ObjectType)
    else if key == "position" then Some(ObjectPositionSection)
    else if key == "rotation" then Some(ObjectRotationSection)
    else if key == "scale" then Some(ObjectScaleSection)
    else if key == "isEditorVisible" then Some(ObjectIsEditorVisible)
    else if key == "isExcluded" then Some(ObjectIsExcluded)
    else if key == "parameters" then Some(ObjectParametersSection)
    else None
  }

  /** A known property name moves to its state; any other is a custom property, which
      the reader does not support. */
  function Named(s: ReaderState, next: Option<State>): Result<ReaderState, ReadError>
  {
    if next.Some? then Success(s.(curState := next.value)) else Failure(NotImplemented)
  }

  // ---------------------------------------------------------------------------
  // One handler per token kind.
  // ---------------------------------------------------------------------------

  /** ParseStartObject. */
  function StepStartObject(s: ReaderState): Result<ReaderState, ReadError>
  {
    match s.curState
    case Idle => Success(s.(curState := TopLevelObject))
    case MetadataSection => Success(s.(curState := Metadata))
    case Objects => Success(s.(curState := Object))
    case ObjectParametersSection => Success(s.(curState := ObjectParameters))
    case ObjectParameters => OpenNested(s, P.Object(P.EmptyCollection))
    case _ => Failure(InvalidData)
  }

  /** The current object is complete: its mapping joins the list in parse order and a
      new one begins. */
  function FinishObject(s: ReaderState, m: ObjectIdMapping): ReaderState
  {
    s.(objIdMaps := s.objIdMaps + [m], curObjMap := NewMapping, curState := Objects)
  }

  /** ParseEndObject; an object read without an id gets the one Guid.NewGuid() returns
      for it (the `|objIdMaps|`-th object of the read). */
  function StepEndObject(host: Host, s: ReaderState): Result<ReaderState, ReadError>
  {
    match s.curState
    case TopLevelObject => Success(s.(curState := Idle))
    case Metadata => Success(s.(curState := TopLevelObject))
    case Object =>
      var m := s.curObjMap;
      if m.obj.id == EmptyGuid then
        match SetId(m.obj, host.newGuid(|s.objIdMaps|))
        case Failure(_) => Failure(Argument)
        case Success(o) => Success(FinishObject(s, m.(obj := o)))
      else Success(FinishObject(s, m))
    case ObjectParameters =>
      if |s.paramStack| == 0 then Success(s.(curState := Object))
      else if !Top(s.paramStack).value.Object? then Failure(InvalidData)
      else Success(Pop(s))
    case _ => Failure(InvalidData)
  }

  /** The first three slots of the vector buffer set to a default vector. */
  function Seed3(d: VecData, v: Vector3): VecData
  {
    d[0 := v.x][1 := v.y][2 := v.z]
  }

  /** ParseStartArray. */
  function StepStartArray(s: ReaderState): Result<ReaderState, ReadError>
  {
    match s.curState
    case ObjectsSection => Success(s.(curState := Objects))
    case ObjectPositionSection => Success(s.(curVecData := Seed3(s.curVecData, DefaultPosition), curState := ObjectPosition))
    case ObjectRotationSection =>
      var q := DefaultRotation;
      Success(s.(curVecData := [q.x, q.y, q.z, q.w], curState := ObjectRotation))
    case ObjectScaleSection => Success(s.(curVecData := Seed3(s.curVecData, DefaultScale), curState := ObjectScale))
    case ObjectParameters => OpenNested(s, P.Array([]))
    case _ => Failure(InvalidData)
  }

  /** The vector has been read: it becomes the object's local value. */
  function CloseVector(s: ReaderState, o: SceneObject): ReaderState
  {
    WithObject(s, o).(curVecElemIndex := 0, curState := Object)
  }

  /** ParseEndArray. */
  function StepEndArray(s: ReaderState): Result<ReaderState, ReadError>
  {
    var o := s.curObjMap.obj;
    var d := s.curVecData;
    match s.curState
    case Objects => Success(s.(curState := TopLevelObject))
    case ObjectPosition => Success(CloseVector(s, o.(position := Some(Vector3(d[0], d[1], d[2])))))
    case ObjectRotation => Success(CloseVector(s, o.(rotation := Some(Quaternion(d[0], d[1], d[2], d[3])))))
    case ObjectScale => Success(CloseVector(s, o.(scale := Some(Vector3(d[0], d[1], d[2])))))
    case ObjectParameters =>
      if |s.paramStack| == 0 || !Top(s.paramStack).value.Array? then Failure(InvalidData)
      else Success(Pop(s))
    case _ => Failure(InvalidData)
  }

  /** ParsePropertyName; inside parameters the new parameter is added, as `new
      Parameter()`, to the top parameter's collection or, with an empty stack, to the
      object's local parameters, and it is pushed. */
  function StepPropertyName(s: ReaderState, key: string): Result<ReaderState, ReadError>
  {
    if s.curState == ObjectParameters then NewParameterName(s, key)
    else if s.curState == TopLevelObject then Named(s, TopLevelPropertyState(key))
    else if s.curState == Metadata then Named(s, MetadataPropertyState(key))
    else if s.curState == Object then Named(s, ObjectPropertyState(key))
    else Failure(InvalidData)
  }

  /** A property name inside parameters: the key is added, with a default parameter, to
      the collection of the open object parameter (or to the object's local parameters
      when none is open), and a parameter for it is opened. */
  function NewParameterName(s: ReaderState, key: string): Result<ReaderState, ReadError>
  {
    var child := Frame(Key(key), P.NewParameter());
    if |s.paramStack| > 0 then
      var top := Top(s.paramStack);
      if !top.value.Object? then Failure(InvalidData)
      else
        var u := Add(top.value.collection, key, P.NewParameter());
        if u.outcome.Failure? then Failure(Argument)
        else Success(Push(s.(paramStack := ReplaceTop(s.paramStack, P.Object(u.collection))), child))
    else
      var o := s.curObjMap.obj;
      var u := Add(o.localParameters, key, P.NewParameter());
      if u.outcome.Failure? then Failure(Argument)
      else Success(Push(WithObject(s, o.(localParameters := u.collection)), child))
  }

  /** An id read from text: Guid.ParseExact(text, "B"). */
  function ParseGuidText(host: Host, text: string): Result<Guid, ReadError>
  {
    match host.parseGuid(text)
    case None => Failure(Format)
    case Some(g) => Success(g)
  }

  function WithMetadata(s: ReaderState, m: ProjectMetadata): ReaderState
  {
    s.(metadata := m, curState := Metadata)
  }

  /** ParseString. */
  function StepString(host: Host, s: ReaderState, text: string): Result<ReaderState, ReadError>
  {
    var m := s.metadata;
    var o := s.curObjMap.obj;
    match s.curState
    case MetadataName => Success(WithMetadata(s, m.(name := Some(text))))
    case MetadataAuthor => Success(WithMetadata(s, m.(author := Some(text))))
    case MetadataDate =>
      (match host.parseDate(text)
       case None => Failure(Format)
       case Some(d) => Success(WithMetadata(s, m.(date := Some(d)))))
    case MetadataVersion => Success(WithMetadata(s, m.(version := Some(text))))
    case MetadataDescription => Success(WithMetadata(s, m.(description := Some(text))))
    case ObjectId | ObjectParentId | ObjectInstanceOf => GuidString(host, s, text)
    case ObjectName => Success(WithObject(s, o.(name := Some(text))).(curState := Object))
    case ObjectType => Success(WithObject(s, o.(objectType := Some(text))).(curState := Object))
    case ObjectParameters => Scalar(s, P.String(text))
    case _ => Failure(InvalidData)
  }

  /** An id, a parentId or an instanceOf: the text is parsed as a braced Guid; the id
      goes through the Id setter, and the references are kept in the mapping until the
      deferred pass. */
  function GuidString(host: Host, s: ReaderState, text: string): Result<ReaderState, ReadError>
    requires s.curState == ObjectId || s.curState == ObjectParentId || s.curState == ObjectInstanceOf
  {
    var g :- ParseGuidText(host, text);
    if s.curState == ObjectId then
      (match SetId(s.curObjMap.obj, g)
       case Failure(_) => Failure(Argument)
       case Success(o') => Success(WithObject(s, o').(curState := Object)))
    else if s.curState == ObjectParentId then
      Success(s.(curObjMap := s.curObjMap.(parentId := Some(g)), curState := Object))
    else
      Success(s.(curObjMap := s.curObjMap.(instanceOf := Some(g)), curState := Object))
  }

  /** The parameter a number inside parameters becomes: an unsigned integer if it fits
      UInt64, else a signed integer if it fits Int64, else a double. */
  function Classify(n: NumberLiteral): Option<P.Parameter>
  {
    if TryGetUInt64(n).Some? then Some(P.UnsignedInteger(TryGetUInt64(n).value))
    else if TryGetInt64(n).Some? then Some(P.SignedInteger(TryGetInt64(n).value))
    else if TryGetDouble(n).Some? then Some(P.FloatingPoint(TryGetDouble(n).value))
    else None
  }

  /** The number of vector components each vector state accepts. */
  function Arity(st: State): nat
  {
    if st == ObjectRotation then 4 else 3
  }

  /** One vector component: refused once the vector is full, GetSingle otherwise. */
  function VectorComponent(s: ReaderState, n: NumberLiteral): Result<ReaderState, ReadError>
  {
    if s.curVecElemIndex > Arity(s.curState) - 1 then Failure(InvalidData)
    else match GetSingle(n)
      case None => Failure(Format)
      case Some(f) =>
        Success(s.(curVecData := s.curVecData[s.curVecElemIndex := f], curVecElemIndex := s.curVecElemIndex + 1))
  }

  /** ParseNumber. */
  function StepNumber(s: ReaderState, n: NumberLiteral): Result<ReaderState, ReadError>
  {
    if s.curState == ObjectPosition || s.curState == ObjectRotation || s.curState == ObjectScale then
      VectorComponent(s, n)
    else if s.curState == FileVersionNumber then
      (match GetUInt32(n)
       case None => Failure(Format)
       case Some(v) => Success(s.(fileVersionNumber := v, curState := TopLevelObject)))
    else if s.curState == ObjectParameters then
      (match Classify(n)
       case None => Failure(InvalidData)
       case Some(v) => Scalar(s, v))
    else Failure(InvalidData)
  }

  /** Inside parameters a number becomes the scalar Classify gives, if any. */
  lemma ParameterNumberStep(s: ReaderState, n: NumberLiteral)
    requires s.curState == ObjectParameters
    ensures StepNumber(s, n) == if Classify(n).Some? then Scalar(s, Classify(n).value) else Failure(InvalidData)
  {
  }

  /** ParseBool. */
  function StepBool(s: ReaderState, b: bool): Result<ReaderState, ReadError>
  {
    var o := s.curObjMap.obj;
    match s.curState
    case ObjectIsEditorVisible => Success(WithObject(s, o.(isEditorVisible := Some(b))).(curState := Object))
    case ObjectIsExcluded => Success(WithObject(s, o.(isExcluded := Some(b))).(curState := Object))
    case ObjectParameters => Scalar(s, P.Boolean(b))
    case _ => Failure(InvalidData)
  }

  /** The dispatch on the token kind; null and comment tokens are skipped. */
  function Step(host: Host, s: ReaderState, t: Token): Result<ReaderState, ReadError>
  {
    match t
    case StartObject => StepStartObject(s)
    case EndObject => StepEndObject(host, s)
    case StartArray => StepStartArray(s)
    case EndArray => StepEndArray(s)
    case PropertyName(key) => StepPropertyName(s, key)
    case StringValue(text) => StepString(host, s, text)
    case NumberValue(n) => StepNumber(s, n)
    case BooleanValue(b) => StepBool(s, b)
    case NullValue => Success(s)
    case Comment(_) => Success(s)
  }

  // ---------------------------------------------------------------------------
  // The token loop.
  // ---------------------------------------------------------------------------

  /** Where the token loop stopped, and the exception that stopped it. The state is the
      one before the failing token: the read is abandoned there, and nothing of the
      state but the project's metadata is seen again. */
  datatype Outcome = Outcome(state: ReaderState, error: Option<ReadError>)

  /** The outcome of one step taken from `s`. */
  function Advance(s: ReaderState, r: Result<ReaderState, ReadError>): Outcome
  {
    match r
    case Success(s') => Outcome(s', None)
    case Failure(e) => Outcome(s, Some(e))
  }

  /** The `while (reader.Read())` loop. */
  function Run(host: Host, s: ReaderState, tokens: seq<Token>): (r: Outcome)
    decreases |tokens|
  {
    if |tokens| == 0 then Outcome(s, None)
    else
      match Step(host, s, tokens[0])
      case Failure(e) => Outcome(s, Some(e))
      case Success(s') => Run(host, s', tokens[1..])
  }

  // ---------------------------------------------------------------------------
  // The deferred pass.
  // ---------------------------------------------------------------------------

  /** One mapping resolved against the objects registered so far: a referenced parent
      or prototype must be there; the Parent setter marks the parent specified. */
  function ResolveMapping(items: seq<SceneObject>, m: ObjectIdMapping): (r: Result<SceneObject, ReadError>)
    ensures r.Failure? <==>
      (m.parentId.Some? && Find(items, m.parentId.value).None?)
      || (m.instanceOf.Some? && Find(items, m.instanceOf.value).None?)
    ensures r.Failure? ==> r.error == InvalidData
    ensures r.Success? ==> r.value.id == m.obj.id
    ensures r.Success? ==> r.value.parent == (if m.parentId.Some? then m.parentId else m.obj.parent)
    ensures r.Success? ==> r.value.hasSpecifiedParent == (m.parentId.Some? || m.obj.hasSpecifiedParent)
    ensures r.Success? ==> r.value.instanceOf == (if m.instanceOf.Some? then m.instanceOf else m.obj.instanceOf)
    ensures r.Success? ==> r.value.(parent := m.obj.parent, hasSpecifiedParent := m.obj.hasSpecifiedParent,
                                    instanceOf := m.obj.instanceOf) == m.obj
  {
    if m.parentId.Some? && Find(items, m.parentId.value).None? then Failure(InvalidData)
    else if m.instanceOf.Some? && Find(items, m.instanceOf.value).None? then Failure(InvalidData)
    else
      var o1 := if m.parentId.Some? then SetParent(m.obj, Some(Find(items, m.parentId.value).value.id)) else m.obj;
      var o2 := if m.instanceOf.Some? then o1.(instanceOf := Some(Find(items, m.instanceOf.value).value.id)) else o1;
      Success(o2)
  }

  /** The registry after the deferred pass, and the exception that stopped it. */
  datatype Resolution = Resolution(items: seq<SceneObject>, error: Option<ReadError>)

  /** The `foreach` over the mappings in parse order: each object is added once its
      references resolve; a duplicate id makes ObjectCollection.Add throw. Objects added
      before a failure stay in the registry. */
  function Resolve(items: seq<SceneObject>, maps: seq<ObjectIdMapping>): (r: Resolution)
    decreases |maps|
  {
    if |maps| == 0 then Resolution(items, None)
    else
      match ResolveMapping(items, maps[0])
      case Failure(e) => Resolution(items, Some(e))
      case Success(o) =>
        if Find(items, o.id).Some? then Resolution(items, Some(Argument))
        else Resolve(items + [o], maps[1..])
  }

  /** What a read leaves in the project: its metadata and its registry, and the
      exception that ended it. */
  datatype ReadResult = ReadResult(metadata: ProjectMetadata, items: seq<SceneObject>, error: Option<ReadError>)

  /** ReadIntoAssignedProject: the token loop from the reset state, then, if no token
      failed, the deferred pass. */
  function ReadIntoProject(host: Host, m: ProjectMetadata, items: seq<SceneObject>, data: VecData, tokens: seq<Token>): ReadResult
  {
    var out := Run(host, Initial(m, data), tokens);
    if out.error.Some? then ReadResult(out.state.metadata, items, out.error)
    else
      var res := Resolve(items, out.state.objIdMaps);
      ReadResult(out.state.metadata, res.items, res.error)
  }
}
