/** Object.Write (libHSON/Object.cs) and the vector helpers it uses
    (libHSON/JsonWriterExtensions.cs): which properties an object writes, and the
    tokens it appends to a JsonWriter. */
module ObjectWriter {
  import opened Wrappers
  import opened Json
  import opened Externals
  import opened Parameters
  import opened ParameterCollections
  import opened ParameterWriter
  import opened SceneObjects
  import opened WriteOptions

  /** The InvalidOperationExceptions Object.Write throws. */
  datatype WriteError = MissingType | ReservedCustomProperty

  /** A writer's output: the tokens written before it returned or threw, and what it
      threw, if anything. */
  datatype Written = Written(tokens: seq<Token>, error: Option<WriteError>)

  function IsNullOrEmpty(s: Option<string>): bool
  {
    s.None? || s.value == ""
  }

  /** The necessity rule shared by name, position, rotation, scale, isEditorVisible and
      isExcluded: what is written for a field with local value `local`. An instance
      writes exactly its local value, so it never pins a default it would otherwise
      inherit; any other object writes something whose effective value is its own,
      leaving out a default unless unnecessary properties are requested. */
  function Emitted<T(==)>(local: Option<T>, default: T, isInstance: bool, includeUnnecessary: bool): (r: Option<T>)
    ensures isInstance ==> r == local
    ensures !isInstance ==> r.GetOr(default) == local.GetOr(default)
    ensures !isInstance && includeUnnecessary ==> r.Some?
    ensures !isInstance && !includeUnnecessary ==> (r.Some? <==> local.Some? && local.value != default)
  {
    if local.Some? && (isInstance || local.value != default) then local
    else if includeUnnecessary && !isInstance then Some(default)
    else None
  }

  /** The parentId written, if any: an instance writes it exactly when it specifies a
      parent (the empty id standing for an explicit "no parent"); any other object
      writes its own parent, or the empty id under IncludeUnnecessaryProperties. */
  function ParentEmitted(o: SceneObject, includeUnnecessary: bool): (r: Option<Guid>)
    ensures o.instanceOf.Some? ==> (r.Some? <==> o.hasSpecifiedParent)
    ensures o.hasSpecifiedParent && r.Some? ==> r.value == o.parent.GetOr(DefaultParentId)
    ensures o.instanceOf.None? ==> r.GetOr(DefaultParentId) == SpecifiedLocalParent(o).GetOr(DefaultParentId)
    ensures o.instanceOf.None? && includeUnnecessary ==> r.Some?
  {
    var isInstance := o.instanceOf.Some?;
    if o.hasSpecifiedParent && (isInstance || o.parent.Some?) then Some(o.parent.GetOr(DefaultParentId))
    else if includeUnnecessary && !isInstance then Some(DefaultParentId)
    else None
  }

  /** The parent an object itself specifies (none when it specifies none). */
  function SpecifiedLocalParent(o: SceneObject): Option<Guid>
  {
    if o.hasSpecifiedParent then o.parent else None
  }

  /** The instanceOf written, if any: the prototype's id, or the empty id under
      IncludeUnnecessaryProperties. */
  function InstanceOfEmitted(o: SceneObject, includeUnnecessary: bool): (r: Option<Guid>)
    ensures o.instanceOf.Some? ==> r == o.instanceOf
    ensures o.instanceOf.None? ==> (r.Some? <==> includeUnnecessary)
    ensures o.instanceOf.None? && r.Some? ==> r.value == DefaultInstanceOf
  {
    if o.instanceOf.Some? then o.instanceOf
    else if includeUnnecessary then Some(DefaultInstanceOf)
    else None
  }

  /** The type written, if any: the local type, unless it is null or empty. */
  function TypeEmitted(o: SceneObject): (r: Option<string>)
    ensures r.Some? <==> !IsNullOrEmpty(o.objectType)
    ensures r.Some? ==> r == o.objectType
  {
    if IsNullOrEmpty(o.objectType) then None else o.objectType
  }

  function StringProperty(name: string, v: Option<string>): seq<Token>
  {
    if v.Some? then [PropertyName(name), StringValue(v.value)] else []
  }

  /** A Guid is written in braces ("B" format). */
  function GuidProperty(host: Host, name: string, v: Option<Guid>): seq<Token>
  {
    if v.Some? then [PropertyName(name), StringValue(BracedGuid(host, v.value))] else []
  }

  /** WriteVector: the components as single-precision numbers in an array. */
  function VectorTokens(host: Host, name: string, v: Vector3): seq<Token>
  {
    [PropertyName(name), StartArray, NumberValue(host.singleLiteral(v.x)),
     NumberValue(host.singleLiteral(v.y)), NumberValue(host.singleLiteral(v.z)), EndArray]
  }

  /** WriteQuaternion: x, y, z, w as single-precision numbers in an array. */
  function QuaternionTokens(host: Host, name: string, q: Quaternion): seq<Token>
  {
    [PropertyName(name), StartArray, NumberValue(host.singleLiteral(q.x)),
     NumberValue(host.singleLiteral(q.y)), NumberValue(host.singleLiteral(q.z)),
     NumberValue(host.singleLiteral(q.w)), EndArray]
  }

  function VectorProperty(host: Host, name: string, v: Option<Vector3>): seq<Token>
  {
    if v.Some? then VectorTokens(host, name, v.value) else []
  }

  function QuaternionProperty(host: Host, name: string, q: Option<Quaternion>): seq<Token>
  {
    if q.Some? then QuaternionTokens(host, name, q.value) else []
  }

  function BooleanProperty(name: string, b: Option<bool>): seq<Token>
  {
    if b.Some? then [PropertyName(name), BooleanValue(b.value)] else []
  }

  /** The id, name, parentId and instanceOf properties, after the opening brace. */
  function HeaderTokens(host: Host, o: SceneObject, inc: bool): seq<Token>
  {
    var isInstance := o.instanceOf.Some?;
    [StartObject, PropertyName("id"), StringValue(BracedGuid(host, o.id))]
      + StringProperty("name", Emitted(o.name, DefaultName, isInstance, inc))
      + GuidProperty(host, "parentId", ParentEmitted(o, inc))
      + GuidProperty(host, "instanceOf", InstanceOfEmitted(o, inc))
  }

  /** The type, transform, flag and parameters properties. */
  function BodyTokens(host: Host, o: SceneObject, inc: bool): seq<Token>
  {
    StringProperty("type", TypeEmitted(o)) + TransformTokens(host, o, inc) + FlagsTokens(host, o, inc)
  }

  /** The position, rotation and scale properties. */
  function TransformTokens(host: Host, o: SceneObject, inc: bool): seq<Token>
  {
    var isInstance := o.instanceOf.Some?;
    VectorProperty(host, "position", Emitted(o.position, DefaultPosition, isInstance, inc))
      + QuaternionProperty(host, "rotation", Emitted(o.rotation, DefaultRotation, isInstance, inc))
      + VectorProperty(host, "scale", Emitted(o.scale, DefaultScale, isInstance, inc))
  }

  /** The isEditorVisible, isExcluded and parameters properties. */
  function FlagsTokens(host: Host, o: SceneObject, inc: bool): seq<Token>
  {
    var isInstance := o.instanceOf.Some?;
    BooleanProperty("isEditorVisible", Emitted(o.isEditorVisible, DefaultIsEditorVisible, isInstance, inc))
      + BooleanProperty("isExcluded", Emitted(o.isExcluded, DefaultIsExcluded, isInstance, inc))
      + ParametersTokens(host, o, inc)
  }

  /** The "parameters" object, written when there are local parameters or when
      unnecessary properties are requested. */
  function ParametersTokens(host: Host, o: SceneObject, inc: bool): seq<Token>
  {
    if Count(o.localParameters) > 0 || inc then
      [PropertyName("parameters"), StartObject] + EntriesTokens(host, o.localParameters.entries) + [EndObject]
    else []
  }

  /** Custom properties are written, inline among the standard ones, when there are any
      or when unnecessary properties are requested. */
  predicate WritesCustomProperties(o: SceneObject, inc: bool)
  {
    Count(o.localCustomProperties) > 0 || inc
  }

  /** The type check: the object has no type of its own and none to inherit. A local
      empty type is not inherited through. */
  predicate TypeMissing(scene: Scene, g: Guid)
    requires ValidScene(scene) && g in scene
  {
    IsNullOrEmpty(scene[g].objectType) && IsNullOrEmpty(SpecifiedType(scene, g))
  }

  /** What Object.Write writes for object `g`, and the exception that stops it: the
      header, then what follows it. */
  function ObjectTokens(host: Host, scene: Scene, g: Guid, options: ProjectWriteOptions): Written
    requires ValidScene(scene) && g in scene
  {
    var rest := AfterHeader(host, scene, g, options);
    Written(HeaderTokens(host, scene[g], options.IncludeUnnecessaryProperties()) + rest.tokens, rest.error)
  }

  /** What Object.Write writes after the header: nothing when the type check fails;
      otherwise the body, then the custom properties when they are written and valid,
      then the closing brace. */
  function AfterHeader(host: Host, scene: Scene, g: Guid, options: ProjectWriteOptions): Written
    requires ValidScene(scene) && g in scene
  {
    var o := scene[g];
    var inc := options.IncludeUnnecessaryProperties();
    if TypeMissing(scene, g) then Written([], Some(MissingType))
    else
      var body := BodyTokens(host, o, inc);
      if WritesCustomProperties(o, inc) && HasInvalidCustomProperties(o) then
        Written(body, Some(ReservedCustomProperty))
      else if WritesCustomProperties(o, inc) then
        Written(body + EntriesTokens(host, o.localCustomProperties.entries) + [EndObject], None)
      else
        Written(body + [EndObject], None)
  }

  // ---------------------------------------------------------------------------
  // Properties of what is written.
  // ---------------------------------------------------------------------------

  /** Every object's output opens with its id; a complete one closes its braces. */
  lemma ObjectTokensShape(host: Host, scene: Scene, g: Guid, options: ProjectWriteOptions)
    requires ValidScene(scene) && g in scene
    ensures var w := ObjectTokens(host, scene, g, options);
      |w.tokens| >= 3 && w.tokens[..3] == [StartObject, PropertyName("id"), StringValue(BracedGuid(host, g))]
    ensures var w := ObjectTokens(host, scene, g, options);
      w.error.None? ==> w.tokens[|w.tokens| - 1] == EndObject
  {
    var head := HeaderTokens(host, scene[g], options.IncludeUnnecessaryProperties());
    HeaderStartsWithId(host, scene[g], options.IncludeUnnecessaryProperties());
    var rest := AfterHeader(host, scene, g, options);
    AfterHeaderCloses(host, scene, g, options);
    assert (head + rest.tokens)[..3] == head[..3];
  }

  lemma AfterHeaderCloses(host: Host, scene: Scene, g: Guid, options: ProjectWriteOptions)
    requires ValidScene(scene) && g in scene
    ensures var rest := AfterHeader(host, scene, g, options);
      rest.error.None? ==> |rest.tokens| > 0 && rest.tokens[|rest.tokens| - 1] == EndObject
  {
  }

  lemma HeaderStartsWithId(host: Host, o: SceneObject, inc: bool)
    ensures |HeaderTokens(host, o, inc)| >= 3
    ensures HeaderTokens(host, o, inc)[..3] == [StartObject, PropertyName("id"), StringValue(BracedGuid(host, o.id))]
  {
    var id3 := [StartObject, PropertyName("id"), StringValue(BracedGuid(host, o.id))];
    var rest := StringProperty("name", Emitted(o.name, DefaultName, o.instanceOf.Some?, inc))
      + GuidProperty(host, "parentId", ParentEmitted(o, inc))
      + GuidProperty(host, "instanceOf", InstanceOfEmitted(o, inc));
    assert HeaderTokens(host, o, inc) == id3 + rest;
  }

  /** The write fails on the type check exactly when the object's own type is null or
      empty and it inherits no non-empty type; a local empty type fails even on an
      instance of a typed prototype. */
  lemma TypeCheck(host: Host, scene: Scene, g: Guid, options: ProjectWriteOptions)
    requires ValidScene(scene) && g in scene
    ensures ObjectTokens(host, scene, g, options).error == Some(MissingType) <==>
      IsNullOrEmpty(scene[g].objectType) && IsNullOrEmpty(SpecifiedType(scene, g))
    ensures scene[g].objectType == Some("") ==> ObjectTokens(host, scene, g, options).error == Some(MissingType)
    ensures scene[g].objectType.None? && scene[g].instanceOf.Some? ==>
      SpecifiedType(scene, g) == SpecifiedType(scene, scene[g].instanceOf.value)
  {
    var c := Chain(scene, g);
    if scene[g].objectType.None? && scene[g].instanceOf.Some? {
      var h := scene[g].instanceOf.value;
      assert c == [g] + Chain(scene, h);
      assert c[1..] == Chain(scene, h);
    }
  }

  /** Custom properties make the write fail exactly when they would be written and one
      of them is named like a standard property. */
  lemma CustomPropertyCheck(host: Host, scene: Scene, g: Guid, options: ProjectWriteOptions)
    requires ValidScene(scene) && g in scene
    requires !TypeMissing(scene, g)
    ensures ObjectTokens(host, scene, g, options).error == Some(ReservedCustomProperty) <==>
      (Count(scene[g].localCustomProperties) > 0 || options.IncludeUnnecessaryProperties())
        && exists k :: 0 <= k < |ReservedNames| && ContainsKey(scene[g].localCustomProperties, ReservedNames[k])
  {
  }

  // ---------------------------------------------------------------------------
  // The writer methods.
  // ---------------------------------------------------------------------------

  lemma Assoc(a: seq<Token>, b: seq<Token>, c: seq<Token>)
    ensures a + b + c == a + (b + c)
  {
  }

  method WriteVector(writer: JsonWriter, host: Host, name: string, v: Vector3)
    modifies writer
    ensures writer.tokens == old(writer.tokens) + VectorTokens(host, name, v)
  {
    writer.WriteStartArrayProperty(name);
    writer.WriteNumberValue(host.singleLiteral(v.x));
    writer.WriteNumberValue(host.singleLiteral(v.y));
    writer.WriteNumberValue(host.singleLiteral(v.z));
    writer.WriteEndArray();
  }

  method WriteQuaternion(writer: JsonWriter, host: Host, name: string, q: Quaternion)
    modifies writer
    ensures writer.tokens == old(writer.tokens) + QuaternionTokens(host, name, q)
  {
    writer.WriteStartArrayProperty(name);
    writer.WriteNumberValue(host.singleLiteral(q.x));
    writer.WriteNumberValue(host.singleLiteral(q.y));
    writer.WriteNumberValue(host.singleLiteral(q.z));
    writer.WriteNumberValue(host.singleLiteral(q.w));
    writer.WriteEndArray();
  }

  /** The id, name, parentId and instanceOf part of Object.Write. */
  method WriteHeader(writer: JsonWriter, host: Host, o: SceneObject, inc: bool)
    modifies writer
    ensures writer.tokens == old(writer.tokens) + HeaderTokens(host, o, inc)
  {
    var isInstance := o.instanceOf.Some?;
    ghost var t0 := writer.tokens;
    writer.WriteStartObject();
    writer.WriteString("id", BracedGuid(host, o.id));
    ghost var t1 := writer.tokens;
    ghost var idPart := [StartObject, PropertyName("id"), StringValue(BracedGuid(host, o.id))];
    assert t1 == t0 + idPart;
    if o.name.Some? && (isInstance || |o.name.value| > 0) {
      writer.WriteString("name", o.name.value);
    } else if inc && !isInstance {
      writer.WriteString("name", DefaultName);
    }
    assert writer.tokens == t1 + StringProperty("name", Emitted(o.name, DefaultName, isInstance, inc));
    ghost var t2 := writer.tokens;
    if o.hasSpecifiedParent && (isInstance || o.parent.Some?) {
      writer.WriteString("parentId", BracedGuid(host, if o.parent.Some? then o.parent.value else DefaultParentId));
    } else if inc && !isInstance {
      writer.WriteString("parentId", BracedGuid(host, DefaultParentId));
    }
    assert writer.tokens == t2 + GuidProperty(host, "parentId", ParentEmitted(o, inc));
    ghost var t3 := writer.tokens;
    if o.instanceOf.Some? {
      writer.WriteString("instanceOf", BracedGuid(host, o.instanceOf.value));
    } else if inc {
      writer.WriteString("instanceOf", BracedGuid(host, DefaultInstanceOf));
    }
    assert writer.tokens == t3 + GuidProperty(host, "instanceOf", InstanceOfEmitted(o, inc));
    ghost var namePart := StringProperty("name", Emitted(o.name, DefaultName, isInstance, inc));
    ghost var parentPart := GuidProperty(host, "parentId", ParentEmitted(o, inc));
    ghost var instancePart := GuidProperty(host, "instanceOf", InstanceOfEmitted(o, inc));
    assert HeaderTokens(host, o, inc) == idPart + namePart + parentPart + instancePart;
    Assoc(t0, idPart, namePart);
    Assoc(t0, idPart + namePart, parentPart);
    Assoc(t0, idPart + namePart + parentPart, instancePart);
  }

  /** One vector property of Object.Write, written when Emitted says so. */
  method WriteEmittedVector(writer: JsonWriter, host: Host, name: string, local: Option<Vector3>, default: Vector3, isInstance: bool, inc: bool)
    modifies writer
    ensures writer.tokens == old(writer.tokens) + VectorProperty(host, name, Emitted(local, default, isInstance, inc))
  {
    if local.Some? && (isInstance || local.value != default) {
      WriteVector(writer, host, name, local.value);
    } else if inc && !isInstance {
      WriteVector(writer, host, name, default);
    } else {
      assert old(writer.tokens) + [] == writer.tokens;
    }
  }

  /** The rotation property of Object.Write, written when Emitted says so. */
  method WriteEmittedQuaternion(writer: JsonWriter, host: Host, name: string, local: Option<Quaternion>, default: Quaternion, isInstance: bool, inc: bool)
    modifies writer
    ensures writer.tokens == old(writer.tokens) + QuaternionProperty(host, name, Emitted(local, default, isInstance, inc))
  {
    if local.Some? && (isInstance || local.value != default) {
      WriteQuaternion(writer, host, name, local.value);
    } else if inc && !isInstance {
      WriteQuaternion(writer, host, name, default);
    } else {
      assert old(writer.tokens) + [] == writer.tokens;
    }
  }

  /** The position, rotation, scale and flag part of Object.Write. */
  method WriteTransform(writer: JsonWriter, host: Host, o: SceneObject, inc: bool)
    modifies writer
    ensures writer.tokens == old(writer.tokens) + TransformTokens(host, o, inc)
  {
    var isInstance := o.instanceOf.Some?;
    ghost var t0 := writer.tokens;
    WriteEmittedVector(writer, host, "position", o.position, DefaultPosition, isInstance, inc);
    ghost var positionPart := VectorProperty(host, "position", Emitted(o.position, DefaultPosition, isInstance, inc));
    WriteEmittedQuaternion(writer, host, "rotation", o.rotation, DefaultRotation, isInstance, inc);
    ghost var rotationPart := QuaternionProperty(host, "rotation", Emitted(o.rotation, DefaultRotation, isInstance, inc));
    WriteEmittedVector(writer, host, "scale", o.scale, DefaultScale, isInstance, inc);
    ghost var scalePart := VectorProperty(host, "scale", Emitted(o.scale, DefaultScale, isInstance, inc));
    Assoc(t0, positionPart, rotationPart);
    Assoc(t0, positionPart + rotationPart, scalePart);
  }

  /** The "parameters" part of Object.Write. */
  method WriteParameters(writer: JsonWriter, host: Host, o: SceneObject, inc: bool)
    modifies writer
    ensures writer.tokens == old(writer.tokens) + ParametersTokens(host, o, inc)
  {
    if Count(o.localParameters) > 0 || inc {
      writer.WriteStartObjectProperty("parameters");
      WriteAll(writer, host, o.localParameters);
      writer.WriteEndObject();
    }
  }

  /** The isEditorVisible, isExcluded and parameters part of Object.Write. */
  method WriteFlagsAndParameters(writer: JsonWriter, host: Host, o: SceneObject, inc: bool)
    modifies writer
    ensures writer.tokens == old(writer.tokens) + FlagsTokens(host, o, inc)
  {
    var isInstance := o.instanceOf.Some?;
    ghost var t0 := writer.tokens;
    if o.isEditorVisible.Some? && (isInstance || o.isEditorVisible.value != DefaultIsEditorVisible) {
      writer.WriteBoolean("isEditorVisible", o.isEditorVisible.value);
    } else if inc && !isInstance {
      writer.WriteBoolean("isEditorVisible", DefaultIsEditorVisible);
    }
    ghost var t1 := writer.tokens;
    assert t1 == t0 + BooleanProperty("isEditorVisible", Emitted(o.isEditorVisible, DefaultIsEditorVisible, isInstance, inc));
    if o.isExcluded.Some? && (isInstance || o.isExcluded.value != DefaultIsExcluded) {
      writer.WriteBoolean("isExcluded", o.isExcluded.value);
    } else if inc && !isInstance {
      writer.WriteBoolean("isExcluded", DefaultIsExcluded);
    }
    ghost var t2 := writer.tokens;
    assert t2 == t1 + BooleanProperty("isExcluded", Emitted(o.isExcluded, DefaultIsExcluded, isInstance, inc));
    WriteParameters(writer, host, o, inc);
    ghost var visiblePart := t1[|t0|..];
    ghost var excludedPart := t2[|t1|..];
    assert FlagsTokens(host, o, inc) == visiblePart + excludedPart + ParametersTokens(host, o, inc);
    Assoc(t0, visiblePart, excludedPart);
    Assoc(t0, visiblePart + excludedPart, ParametersTokens(host, o, inc));
  }

  /** Object.Write. */
  method WriteObject(writer: JsonWriter, host: Host, scene: Scene, g: Guid, options: ProjectWriteOptions)
    returns (error: Option<WriteError>)
    requires ValidScene(scene) && g in scene
    modifies writer
    ensures writer.tokens == old(writer.tokens) + ObjectTokens(host, scene, g, options).tokens
    ensures error == ObjectTokens(host, scene, g, options).error
  {
    ghost var t0 := writer.tokens;
    WriteHeader(writer, host, scene[g], options.IncludeUnnecessaryProperties());
    error := WriteAfterHeader(writer, host, scene, g, options);
    Assoc(t0, HeaderTokens(host, scene[g], options.IncludeUnnecessaryProperties()),
          AfterHeader(host, scene, g, options).tokens);
  }

  /** The type, transform, flag and parameters properties of Object.Write. */
  method WriteBody(writer: JsonWriter, host: Host, o: SceneObject, inc: bool)
    modifies writer
    ensures writer.tokens == old(writer.tokens) + BodyTokens(host, o, inc)
  {
    ghost var t0 := writer.tokens;
    if !(o.objectType.None? || o.objectType.value == "") {
      writer.WriteString("type", o.objectType.value);
    }
    ghost var typePart := StringProperty("type", TypeEmitted(o));
    assert writer.tokens == t0 + typePart;
    WriteTransform(writer, host, o, inc);
    ghost var transformPart := TransformTokens(host, o, inc);
    WriteFlagsAndParameters(writer, host, o, inc);
    ghost var flagsPart := FlagsTokens(host, o, inc);
    Assoc(t0, typePart, transformPart);
    Assoc(t0, typePart + transformPart, flagsPart);
  }

  /** Object.Write after the header: the type check, the body, the custom properties
      and the closing brace. */
  method WriteAfterHeader(writer: JsonWriter, host: Host, scene: Scene, g: Guid, options: ProjectWriteOptions)
    returns (error: Option<WriteError>)
    requires ValidScene(scene) && g in scene
    modifies writer
    ensures writer.tokens == old(writer.tokens) + AfterHeader(host, scene, g, options).tokens
    ensures error == AfterHeader(host, scene, g, options).error
  {
    var o := scene[g];
    var inc := options.IncludeUnnecessaryProperties();
    ghost var t0 := writer.tokens;
    if o.objectType.None? || o.objectType.value == "" {
      var specified := SpecifiedType(scene, g);
      if specified.None? || specified.value == "" {
        assert t0 + [] == t0;
        return Some(MissingType);
      }
    }
    assert !TypeMissing(scene, g);
    WriteBody(writer, host, o, inc);
    ghost var body := BodyTokens(host, o, inc);
    if Count(o.localCustomProperties) > 0 || inc {
      if HasInvalidCustomProperties(o) {
        return Some(ReservedCustomProperty);
      }
      WriteAll(writer, host, o.localCustomProperties);
      ghost var custom := EntriesTokens(host, o.localCustomProperties.entries);
      Assoc(t0, body, custom);
      writer.WriteEndObject();
      Assoc(t0, body + custom, [EndObject]);
    } else {
      writer.WriteEndObject();
      Assoc(t0, body, [EndObject]);
    }
    return None;
  }

}
