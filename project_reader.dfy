/** ProjectReader (libHSON/ProjectReader.cs) and Project.Read (libHSON/Project.cs): the
    reader's fields, one handler per token kind, and ReadIntoAssignedProject, which
    resets the reader, feeds it every token and then resolves the ids read against the
    project's registry, adding the objects in parse order. Each handler is proved
    against the step function of ReaderSpec; a handler that throws leaves the reader as
    it was, since the read is abandoned at that point. */
module ProjectReaders {
  import opened Wrappers
  import opened Json
  import opened Externals
  import P = Parameters
  import opened ParameterCollections
  import opened SceneObjects
  import opened ObjectCollections
  import opened ProjectMeta = Metadata
  import opened Projects
  import opened ReaderSpec
  import opened ReaderProperties
  import opened ReaderResolution

  class ProjectReader {
    const project: Project
    var curObjMap: ObjectIdMapping
    var objIdMaps: seq<ObjectIdMapping>
    var paramStack: seq<Frame>
    var fileVersionNumber: UInt32
    var curVecElemIndex: nat
    const curVecData: array<Single>
    var curState: State

    ghost predicate Valid()
      reads this
    {
      curVecData.Length == 4
    }

    /** The reader's fields and the project's metadata, as a ReaderState. */
    function Snapshot(): ReaderState
      reads this, project, curVecData
      requires Valid()
    {
      ReaderState(project.metadata, curObjMap, objIdMaps, paramStack, fileVersionNumber,
                  curVecElemIndex, curVecData[..], curState)
    }

    /** `new ProjectReader(project)`, with the field initializers. */
    constructor (project: Project)
      ensures this.project == project && Valid() && fresh(curVecData)
      ensures Snapshot() == Initial(project.metadata, ZeroVecData)
    {
      this.project := project;
      curObjMap := NewMapping;
      objIdMaps := [];
      paramStack := [];
      fileVersionNumber := 0;
      curVecElemIndex := 0;
      curVecData := new Single[4](_ => 0.0);
      curState := Idle;
      new;
      assert curVecData[..] == ZeroVecData;
    }

    /** `_paramStack.Pop()`, which completes the top parameter. */
    method PopParameter()
      requires Valid() && |paramStack| > 0
      modifies this
      ensures Valid() && Snapshot() == Pop(old(Snapshot()))
    {
      var n := |paramStack|;
      var top := paramStack[n - 1];
      if n == 1 {
        paramStack := [];
        match top.dest
        case Key(k) =>
          var o := curObjMap.obj;
          curObjMap := curObjMap.(obj := o.(localParameters := Set(o.localParameters, k, top.value).collection));
        case Element =>
      } else {
        var below := paramStack[n - 2];
        paramStack := paramStack[..n - 2] + [Frame(below.dest, Attach(below.value, top))];
      }
    }

    /** A string, number or boolean read inside parameters. */
    method AddScalar(v: P.Parameter) returns (error: Option<ReadError>)
      requires Valid()
      modifies this
      ensures Valid()
      ensures Outcome(Snapshot(), error) == Advance(old(Snapshot()), Scalar(old(Snapshot()), v))
    {
      if |paramStack| == 0 {
        return Some(InvalidOperation);
      }
      var curParam := Top(paramStack);
      if curParam.value.Array? {
        paramStack := ReplaceTop(paramStack, P.Array(curParam.value.elements + [v]));
      } else {
        paramStack := ReplaceTop(paramStack, v);
        PopParameter();
      }
      error := None;
    }

    /** A start-object or start-array read inside parameters. */
    method OpenParameter(empty: P.Parameter) returns (error: Option<ReadError>)
      requires Valid()
      modifies this
      ensures Valid()
      ensures Outcome(Snapshot(), error) == Advance(old(Snapshot()), OpenNested(old(Snapshot()), empty))
    {
      if |paramStack| == 0 {
        return Some(InvalidOperation);
      }
      var curParam := Top(paramStack);
      if curParam.value.Array? {
        paramStack := paramStack + [Frame(Element, empty)];
      } else {
        paramStack := ReplaceTop(paramStack, empty);
      }
      error := None;
    }

    method ParseStartObject() returns (error: Option<ReadError>)
      requires Valid()
      modifies this
      ensures Valid()
      ensures Outcome(Snapshot(), error) == Advance(old(Snapshot()), StepStartObject(old(Snapshot())))
    {
      error := None;
      match curState
      case Idle => curState := TopLevelObject;
      case MetadataSection => curState := Metadata;
      case Objects => curState := Object;
      case ObjectParametersSection => curState := ObjectParameters;
      case ObjectParameters => error := OpenParameter(P.Object(P.EmptyCollection));
      case _ => error := Some(InvalidData);
    }

    method ParseEndObject(host: Host) returns (error: Option<ReadError>)
      requires Valid()
      modifies this
      ensures Valid()
      ensures Outcome(Snapshot(), error) == Advance(old(Snapshot()), StepEndObject(host, old(Snapshot())))
    {
      error := None;
      match curState
      case TopLevelObject => curState := Idle;
      case Metadata => curState := TopLevelObject;
      case Object =>
        if curObjMap.obj.id == EmptyGuid {
          var withId := SetId(curObjMap.obj, host.newGuid(|objIdMaps|));
          if withId.Failure? {
            return Some(Argument);
          }
          curObjMap := curObjMap.(obj := withId.value);
        }
        objIdMaps := objIdMaps + [curObjMap];
        curObjMap := NewMapping;
        curState := Objects;
      case ObjectParameters =>
        if |paramStack| == 0 {
          curState := Object;
        } else if !Top(paramStack).value.Object? {
          error := Some(InvalidData);
        } else {
          PopParameter();
        }
      case _ => error := Some(InvalidData);
    }

    method ParseStartArray() returns (error: Option<ReadError>)
      requires Valid()
      modifies this, curVecData
      ensures Valid()
      ensures Outcome(Snapshot(), error) == Advance(old(Snapshot()), StepStartArray(old(Snapshot())))
    {
      error := None;
      match curState
      case ObjectsSection => curState := Objects;
      case ObjectPositionSection =>
        curVecData[0], curVecData[1], curVecData[2] := DefaultPosition.x, DefaultPosition.y, DefaultPosition.z;
        curState := ObjectPosition;
      case ObjectRotationSection =>
        curVecData[0], curVecData[1], curVecData[2], curVecData[3] :=
          DefaultRotation.x, DefaultRotation.y, DefaultRotation.z, DefaultRotation.w;
        curState := ObjectRotation;
      case ObjectScaleSection =>
        curVecData[0], curVecData[1], curVecData[2] := DefaultScale.x, DefaultScale.y, DefaultScale.z;
        curState := ObjectScale;
      case ObjectParameters => error := OpenParameter(P.Array([]));
      case _ => error := Some(InvalidData);
    }

    method ParseEndArray() returns (error: Option<ReadError>)
      requires Valid()
      modifies this
      ensures Valid()
      ensures Outcome(Snapshot(), error) == Advance(old(Snapshot()), StepEndArray(old(Snapshot())))
    {
      error := None;
      var o := curObjMap.obj;
      match curState
      case Objects => curState := TopLevelObject;
      case ObjectPosition =>
        curObjMap := curObjMap.(obj := o.(position := Some(Vector3(curVecData[0], curVecData[1], curVecData[2]))));
        curVecElemIndex := 0;
        curState := Object;
      case ObjectRotation =>
        curObjMap := curObjMap.(obj := o.(rotation := Some(Quaternion(curVecData[0], curVecData[1],
                                                                      curVecData[2], curVecData[3]))));
        curVecElemIndex := 0;
        curState := Object;
      case ObjectScale =>
        curObjMap := curObjMap.(obj := o.(scale := Some(Vector3(curVecData[0], curVecData[1], curVecData[2]))));
        curVecElemIndex := 0;
        curState := Object;
      case ObjectParameters =>
        if |paramStack| == 0 || !Top(paramStack).value.Array? {
          error := Some(InvalidData);
        } else {
          PopParameter();
        }
      case _ => error := Some(InvalidData);
    }

    method ParsePropertyName(key: string) returns (error: Option<ReadError>)
      requires Valid()
      modifies this
      ensures Valid()
      ensures Outcome(Snapshot(), error) == Advance(old(Snapshot()), StepPropertyName(old(Snapshot()), key))
    {
      if curState == TopLevelObject || curState == Metadata || curState == Object {
        error := EnterProperty(key);
      } else if curState == ObjectParameters {
        error := AddParameterName(key);
      } else {
        error := Some(InvalidData);
      }
    }

    /** A property name at the top level, in the metadata or in an object: a known name
        moves to the state its table gives; any other throws NotImplementedException. */
    method EnterProperty(key: string) returns (error: Option<ReadError>)
      requires Valid()
      requires curState == TopLevelObject || curState == Metadata || curState == Object
      modifies this
      ensures Valid()
      ensures Outcome(Snapshot(), error) == Advance(old(Snapshot()), StepPropertyName(old(Snapshot()), key))
    {
      var next: Option<State>;
      if curState == TopLevelObject {
        next := TopLevelPropertyState(key);
      } else if curState == Metadata {
        next := MetadataPropertyState(key);
      } else {
        next := ObjectPropertyState(key);
      }
      if next.None? {
        return Some(NotImplemented);
      }
      curState := next.value;
      error := None;
    }

    /** A property name inside parameters: the key goes to the open object parameter's
        collection, or to the object's local parameters when none is open. */
    method AddParameterName(key: string) returns (error: Option<ReadError>)
      requires Valid()
      requires curState == ObjectParameters
      modifies this
      ensures Valid()
      ensures Outcome(Snapshot(), error) == Advance(old(Snapshot()), StepPropertyName(old(Snapshot()), key))
    {
      if |paramStack| > 0 {
        error := AddToOpenParameter(key);
      } else {
        error := AddToLocalParameters(key);
      }
    }

    /** `curParam.Object.Add(name, new Parameter())`, then the new parameter is pushed. */
    method AddToOpenParameter(key: string) returns (error: Option<ReadError>)
      requires Valid() && |paramStack| > 0
      modifies this
      ensures Valid()
      ensures Outcome(Snapshot(), error) == Advance(old(Snapshot()), NewParameterName(old(Snapshot()), key))
    {
      var curParam := Top(paramStack);
      if !curParam.value.Object? {
        return Some(InvalidData);
      }
      var added := Add(curParam.value.collection, key, P.NewParameter());
      if added.outcome.Failure? {
        return Some(Argument);
      }
      paramStack := ReplaceTop(paramStack, P.Object(added.collection));
      paramStack := paramStack + [Frame(Key(key), P.NewParameter())];
      error := None;
    }

    /** `_curObjMap.Object.LocalParameters.Add(name, new Parameter())`, then the new
        parameter is pushed. */
    method AddToLocalParameters(key: string) returns (error: Option<ReadError>)
      requires Valid() && |paramStack| == 0
      modifies this
      ensures Valid()
      ensures Outcome(Snapshot(), error) == Advance(old(Snapshot()), NewParameterName(old(Snapshot()), key))
    {
      var added := Add(curObjMap.obj.localParameters, key, P.NewParameter());
      if added.outcome.Failure? {
        return Some(Argument);
      }
      curObjMap := curObjMap.(obj := curObjMap.obj.(localParameters := added.collection));
      paramStack := paramStack + [Frame(Key(key), P.NewParameter())];
      error := None;
    }

    method ParseString(host: Host, text: string) returns (error: Option<ReadError>)
      requires Valid()
      modifies this, project
      ensures Valid()
      ensures Outcome(Snapshot(), error) == Advance(old(Snapshot()), StepString(host, old(Snapshot()), text))
    {
      error := None;
      ghost var s0 := Snapshot();
      match curState
      case MetadataName | MetadataAuthor | MetadataDate | MetadataVersion | MetadataDescription =>
        error := ReadMetadataString(host, text);
      case ObjectId | ObjectParentId | ObjectInstanceOf =>
        assert StepString(host, s0, text) == GuidString(host, s0, text);
        error := ReadGuidString(host, text);
      case ObjectName =>
        assert StepString(host, s0, text) == Success(WithObject(s0, s0.curObjMap.obj.(name := Some(text))).(curState := Object));
        curObjMap := curObjMap.(obj := curObjMap.obj.(name := Some(text)));
        curState := Object;
      case ObjectType =>
        assert StepString(host, s0, text) == Success(WithObject(s0, s0.curObjMap.obj.(objectType := Some(text))).(curState := Object));
        curObjMap := curObjMap.(obj := curObjMap.obj.(objectType := Some(text)));
        curState := Object;
      case ObjectParameters =>
        assert StepString(host, s0, text) == Scalar(s0, P.String(text));
        error := AddScalar(P.String(text));
      case _ =>
        assert StepString(host, s0, text) == Failure(InvalidData);
        error := Some(InvalidData);
    }

    /** The string cases of ParseString that set a metadata property. */
    method ReadMetadataString(host: Host, text: string) returns (error: Option<ReadError>)
      requires Valid()
      requires curState in {MetadataName, MetadataAuthor, MetadataDate, MetadataVersion, MetadataDescription}
      modifies this, project
      ensures Valid()
      ensures Outcome(Snapshot(), error) == Advance(old(Snapshot()), StepString(host, old(Snapshot()), text))
    {
      error := None;
      var m := project.metadata;
      match curState {
        case MetadataName => m := m.(name := Some(text));
        case MetadataAuthor => m := m.(author := Some(text));
        case MetadataDate =>
          var date := host.parseDate(text);
          if date.None? {
            return Some(Format);
          }
          m := m.(date := Some(date.value));
        case MetadataVersion => m := m.(version := Some(text));
        case MetadataDescription => m := m.(description := Some(text));
      }
      project.metadata := m;
      curState := Metadata;
    }

    /** The string cases of ParseString that read an id in registry format. */
    method ReadGuidString(host: Host, text: string) returns (error: Option<ReadError>)
      requires Valid() && (curState == ObjectId || curState == ObjectParentId || curState == ObjectInstanceOf)
      modifies this
      ensures Valid()
      ensures Outcome(Snapshot(), error) == Advance(old(Snapshot()), GuidString(host, old(Snapshot()), text))
    {
      var id := host.parseGuid(text);
      if id.None? {
        return Some(Format);
      }
      if curState == ObjectId {
        var withId := SetId(curObjMap.obj, id.value);
        if withId.Failure? {
          return Some(Argument);
        }
        curObjMap := curObjMap.(obj := withId.value);
      } else if curState == ObjectParentId {
        curObjMap := curObjMap.(parentId := Some(id.value));
      } else {
        curObjMap := curObjMap.(instanceOf := Some(id.value));
      }
      curState := Object;
      error := None;
    }

    /** `_curVecData[_curVecElemIndex++] = reader.GetSingle()`, after the arity check
        against `maxIndex`. */
    method ReadComponent(n: NumberLiteral, maxIndex: nat) returns (error: Option<ReadError>)
      requires Valid() && InVector(curState) && maxIndex == Arity(curState) - 1
      modifies this, curVecData
      ensures Valid()
      ensures Outcome(Snapshot(), error) == Advance(old(Snapshot()), VectorComponent(old(Snapshot()), n))
    {
      if curVecElemIndex > maxIndex {
        return Some(InvalidData);
      }
      var f := GetSingle(n);
      if f.None? {
        return Some(Format);
      }
      curVecData[curVecElemIndex] := f.value;
      curVecElemIndex := curVecElemIndex + 1;
      error := None;
    }

    method ParseNumber(n: NumberLiteral) returns (error: Option<ReadError>)
      requires Valid()
      modifies this, curVecData
      ensures Valid()
      ensures Outcome(Snapshot(), error) == Advance(old(Snapshot()), StepNumber(old(Snapshot()), n))
    {
      error := None;
      if curState == ObjectPosition || curState == ObjectScale {
        error := ReadComponent(n, 2);
      } else if curState == ObjectRotation {
        error := ReadComponent(n, 3);
      } else if curState == FileVersionNumber {
        var v := GetUInt32(n);
        if v.None? {
          return Some(Format);
        }
        fileVersionNumber := v.value;
        curState := TopLevelObject;
      } else if curState == ObjectParameters {
        error := ReadParameterNumber(n);
      } else {
        error := Some(InvalidData);
      }
    }

    /** A number inside parameters, tried as UInt64, then Int64, then double. */
    method ReadParameterNumber(n: NumberLiteral) returns (error: Option<ReadError>)
      requires Valid() && curState == ObjectParameters
      modifies this
      ensures Valid()
      ensures Outcome(Snapshot(), error) == Advance(old(Snapshot()), StepNumber(old(Snapshot()), n))
    {
      ParameterNumberStep(Snapshot(), n);
      var valUint := TryGetUInt64(n);
      if valUint.Some? {
        error := AddScalar(P.UnsignedInteger(valUint.value));
        return;
      }
      var valInt := TryGetInt64(n);
      if valInt.Some? {
        error := AddScalar(P.SignedInteger(valInt.value));
        return;
      }
      var valDouble := TryGetDouble(n);
      if valDouble.Some? {
        error := AddScalar(P.FloatingPoint(valDouble.value));
        return;
      }
      error := Some(InvalidData);
    }

    method ParseBool(b: bool) returns (error: Option<ReadError>)
      requires Valid()
      modifies this
      ensures Valid()
      ensures Outcome(Snapshot(), error) == Advance(old(Snapshot()), StepBool(old(Snapshot()), b))
    {
      error := None;
      match curState
      case ObjectIsEditorVisible =>
        curObjMap := curObjMap.(obj := curObjMap.obj.(isEditorVisible := Some(b)));
        curState := Object;
      case ObjectIsExcluded =>
        curObjMap := curObjMap.(obj := curObjMap.obj.(isExcluded := Some(b)));
        curState := Object;
      case ObjectParameters => error := AddScalar(P.Boolean(b));
      case _ => error := Some(InvalidData);
    }

    /** One token of the loop in ReadIntoAssignedProject, dispatched on its kind. */
    method ParseToken(host: Host, t: Token) returns (error: Option<ReadError>)
      requires Valid()
      modifies this, project, curVecData
      ensures Valid()
      ensures Outcome(Snapshot(), error) == Advance(old(Snapshot()), Step(host, old(Snapshot()), t))
    {
      match t
      case StartObject => error := ParseStartObject();
      case EndObject => error := ParseEndObject(host);
      case StartArray => error := ParseStartArray();
      case EndArray => error := ParseEndArray();
      case PropertyName(key) => error := ParsePropertyName(key);
      case StringValue(text) => error := ParseString(host, text);
      case NumberValue(n) => error := ParseNumber(n);
      case BooleanValue(b) => error := ParseBool(b);
      case NullValue => error := None;
      case Comment(_) => error := None;
    }

    /** ReadIntoAssignedProject: reset, the token loop, and the deferred pass. The
        project's metadata and registry end as ReadIntoProject says; the ids stay
        distinct, and the objects stay a valid scene when they were one
        (ReaderResolution.ReadKeepsRegistry). */
    method ReadIntoAssignedProject(host: Host, tokens: seq<Token>) returns (error: Option<ReadError>)
      requires Valid() && project.Valid()
      modifies this, project, project.objects, curVecData
      ensures Valid() && project.Valid()
      ensures var r := ReadIntoProject(host, old(project.metadata), old(project.objects.items), old(curVecData[..]), tokens);
        project.metadata == r.metadata && project.objects.items == r.items && error == r.error
      ensures ValidScene(SceneOf(old(project.objects.items))) ==> ValidScene(SceneOf(project.objects.items))
    {
      ReadKeepsRegistry(host, project.metadata, project.objects.items, curVecData[..], tokens);
      Reset();
      ghost var s0 := Snapshot();
      InitialConsistent(old(project.metadata), old(curVecData[..]));

      // Read tokens and parse them into project data.
      error := ReadTokens(host, tokens);
      ghost var out := Run(host, s0, tokens);
      RunKeepsConsistent(host, s0, tokens);
      assert project.metadata == out.state.metadata && objIdMaps == out.state.objIdMaps && error == out.error;
      assert project.objects.items == old(project.objects.items);
      if error.Some? {
        return;
      }

      // Fix object references and add the objects to the project.
      error := ResolveReferences();
    }

    /** The reset at the start of ReadIntoAssignedProject; the vector buffer is not
        reset. */
    method Reset()
      requires Valid()
      modifies this
      ensures Valid() && Snapshot() == Initial(project.metadata, curVecData[..])
      ensures curVecData[..] == old(curVecData[..])
    {
      curObjMap := NewMapping;
      objIdMaps := [];
      paramStack := [];
      fileVersionNumber := 0;
      curVecElemIndex := 0;
      curState := Idle;
    }

    /** The token loop of ReadIntoAssignedProject, which stops at the first token that
        throws. */
    method ReadTokens(host: Host, tokens: seq<Token>) returns (error: Option<ReadError>)
      requires Valid()
      modifies this, project, curVecData
      ensures Valid()
      ensures Outcome(Snapshot(), error) == Run(host, old(Snapshot()), tokens)
    {
      ghost var s0 := Snapshot();
      var i := 0;
      while i < |tokens|
        invariant 0 <= i <= |tokens|
        invariant Valid()
        invariant Run(host, Snapshot(), tokens[i..]) == Run(host, s0, tokens)
      {
        error := ParseToken(host, tokens[i]);
        assert tokens[i..][1..] == tokens[i + 1..];
        if error.Some? {
          return;
        }
        i := i + 1;
      }
      error := None;
    }

    /** The deferred pass of ReadIntoAssignedProject: each mapping's parent and instance
        ids are looked up in the registry, and the object is added to it, in parse order. */
    method ResolveReferences() returns (error: Option<ReadError>)
      requires Valid() && project.Valid()
      requires forall k :: 0 <= k < |objIdMaps| ==> Unlinked(objIdMaps[k]) && objIdMaps[k].obj.id != EmptyGuid
      modifies project.objects
      ensures project.Valid()
      ensures Resolution(project.objects.items, error) == Resolve(old(project.objects.items), objIdMaps)
    {
      ghost var items0 := project.objects.items;
      var j := 0;
      while j < |objIdMaps|
        invariant 0 <= j <= |objIdMaps|
        invariant project.Valid()
        invariant Resolve(project.objects.items, objIdMaps[j..]) == Resolve(items0, objIdMaps)
      {
        var objIdMap := objIdMaps[j];
        var resolved := LookupReferences(objIdMap);
        if resolved.Failure? {
          return Some(resolved.error);
        }
        var obj := resolved.value;
        assert objIdMaps[j..][1..] == objIdMaps[j + 1..];
        var e := project.objects.Add(obj);
        if e.Some? {
          return Some(Argument);
        }
        j := j + 1;
      }
      error := None;
    }

    /** One mapping of the deferred pass: the parent and the prototype are looked up by
        id in the project's registry, and an id it does not hold throws
        InvalidDataException. */
    method LookupReferences(objIdMap: ObjectIdMapping) returns (r: Result<SceneObject, ReadError>)
      requires project.Valid()
      ensures r == ResolveMapping(project.objects.items, objIdMap)
    {
      var obj := objIdMap.obj;
      if objIdMap.parentId.Some? {
        var parent := project.objects.TryGetValue(objIdMap.parentId.value);
        if parent.None? {
          return Failure(InvalidData);
        }
        obj := SetParent(obj, Some(parent.value.id));
      }
      if objIdMap.instanceOf.Some? {
        var instance := project.objects.TryGetValue(objIdMap.instanceOf.value);
        if instance.None? {
          return Failure(InvalidData);
        }
        obj := obj.(instanceOf := Some(instance.value.id));
      }
      r := Success(obj);
    }
  }

  /** Project.Read: a new reader bound to the project reads into it, so parsed objects
      join the project's existing registry. */
  method Read(project: Project, host: Host, tokens: seq<Token>) returns (error: Option<ReadError>)
    requires project.Valid()
    modifies project, project.objects
    ensures project.Valid()
    ensures var r := ReadIntoProject(host, old(project.metadata), old(project.objects.items), ZeroVecData, tokens);
      project.metadata == r.metadata && project.objects.items == r.items && error == r.error
  {
    var projectReader := new ProjectReader(project);
    error := projectReader.ReadIntoAssignedProject(host, tokens);
  }
}
