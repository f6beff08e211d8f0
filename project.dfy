/** Project (libHSON/Project.cs): metadata and objects, and Project.Write, which emits
    the version header, then the sections that are needed or requested. */
module Projects {
  import opened Wrappers
  import opened Json
  import opened Externals
  import opened SceneObjects
  import opened WriteOptions
  import opened ObjectWriter
  import opened ObjectCollections
  import opened Metadata

  /** MaxSupportedVersion, the version every project is written with. */
  const MaxSupportedVersion: UInt32 := 1

  /** The first tokens of every project: the opening brace and the version. */
  const VersionHeader: seq<Token> := [StartObject, PropertyName("version"), NumberValue(IntegerText(MaxSupportedVersion))]

  /** The metadata section is written when requested or when it says anything. */
  function MetadataSectionTokens(host: Host, m: ProjectMetadata, options: ProjectWriteOptions): seq<Token>
  {
    if options.IncludeUnnecessaryProperties() || HasAnySpecifiedValue(m) then MetadataTokens(host, m) else []
  }

  /** What Project.Write writes, and the exception that stops it: the version, the
      metadata section, then what follows it. */
  function ProjectTokens(host: Host, m: ProjectMetadata, scene: Scene, items: seq<SceneObject>, options: ProjectWriteOptions): Written
    requires ValidScene(scene)
    requires forall i :: 0 <= i < |items| ==> items[i].id in scene
  {
    var rest := AfterMetadata(host, scene, items, options);
    Written(VersionHeader + MetadataSectionTokens(host, m, options) + rest.tokens, rest.error)
  }

  /** The objects section when requested or when there are objects, then the closing
      brace unless an object threw. */
  function AfterMetadata(host: Host, scene: Scene, items: seq<SceneObject>, options: ProjectWriteOptions): Written
    requires ValidScene(scene)
    requires forall i :: 0 <= i < |items| ==> items[i].id in scene
  {
    if options.IncludeUnnecessaryProperties() || |items| > 0 then Closed(ObjectsSection(host, scene, items, options))
    else Written([EndObject], None)
  }

  /** A section followed by the closing brace of the project, unless it threw. */
  function Closed(w: Written): Written
  {
    if w.error.Some? then w else Written(w.tokens + [EndObject], None)
  }

  /** Closing keeps the section's first token and, when nothing threw, ends with
      end-object. */
  lemma ClosedShape(w: Written)
    requires |w.tokens| > 0
    ensures |Closed(w).tokens| > 0 && Closed(w).tokens[0] == w.tokens[0]
    ensures Closed(w).error.None? ==> Closed(w).tokens[|Closed(w).tokens| - 1] == EndObject
  {
  }

  class Project {
    var metadata: ProjectMetadata
    const objects: ObjectCollection

    /** The objects are a collection with distinct ids. Their parents and prototypes
        need not belong to it. */
    ghost predicate Valid()
      reads this, objects
    {
      objects.Valid()
    }

    constructor ()
      ensures metadata == EmptyMetadata && objects.items == [] && fresh(objects)
      ensures Valid()
    {
      metadata := EmptyMetadata;
      objects := new ObjectCollection();
    }

    /** Project.Write: the header, the metadata if requested or specified, the objects
        if requested or present, and the closing brace; an object that throws stops
        the output there. `scene` holds the objects the project's objects reach through
        their parent and prototype references, the collection's own among them. */
    method Write(writer: JsonWriter, host: Host, scene: Scene, options: ProjectWriteOptions) returns (error: Option<WriteError>)
      requires Valid() && ValidScene(scene) && HoldsAll(scene, objects.items)
      modifies writer
      ensures writer.tokens == old(writer.tokens) + ProjectTokens(host, metadata, scene, objects.items, options).tokens
      ensures error == ProjectTokens(host, metadata, scene, objects.items, options).error
    {
      ghost var t0 := writer.tokens;
      writer.WriteStartObject();
      writer.WriteNumber("version", IntegerText(MaxSupportedVersion));
      assert writer.tokens == t0 + VersionHeader;
      if options.IncludeUnnecessaryProperties() || HasAnySpecifiedValue(metadata) {
        WriteMetadata(writer, host, metadata);
      }
      ghost var head := VersionHeader + MetadataSectionTokens(host, metadata, options);
      Assoc(t0, VersionHeader, MetadataSectionTokens(host, metadata, options));
      assert writer.tokens == t0 + head;
      ghost var rest := AfterMetadata(host, scene, objects.items, options);
      if options.IncludeUnnecessaryProperties() || objects.Count() > 0 {
        error := objects.WriteAll(writer, host, scene, options);
        ghost var w := ObjectsSection(host, scene, objects.items, options);
        if error.Some? {
          assert rest == w;
          Assoc(t0, head, w.tokens);
          return;
        }
        writer.WriteEndObject();
        assert rest.tokens == w.tokens + [EndObject];
        Assoc(t0 + head, w.tokens, [EndObject]);
      } else {
        error := None;
        writer.WriteEndObject();
        assert rest.tokens == [EndObject];
      }
      Assoc(t0, head, rest.tokens);
    }
  }

  /** Every project written starts with version 1, and a complete one ends with its
      closing brace. */
  lemma ProjectTokensFrame(host: Host, m: ProjectMetadata, scene: Scene, items: seq<SceneObject>, options: ProjectWriteOptions)
    requires ValidScene(scene)
    requires forall i :: 0 <= i < |items| ==> items[i].id in scene
    ensures var w := ProjectTokens(host, m, scene, items, options);
      |w.tokens| >= 3 && w.tokens[..3] == VersionHeader
    ensures var w := ProjectTokens(host, m, scene, items, options);
      w.error.None? ==> w.tokens[|w.tokens| - 1] == EndObject
  {
    var meta := MetadataSectionTokens(host, m, options);
    var rest := AfterMetadata(host, scene, items, options);
    AfterMetadataShape(host, scene, items, options);
    var t := VersionHeader + meta + rest.tokens;
    assert t[..3] == VersionHeader;
  }

  /** After the version, the metadata section appears exactly when requested or when it
      says anything, and the objects section, right after it, exactly when requested or
      when there are objects. */
  lemma ProjectTokensSections(host: Host, m: ProjectMetadata, scene: Scene, items: seq<SceneObject>, options: ProjectWriteOptions)
    requires ValidScene(scene)
    requires forall i :: 0 <= i < |items| ==> items[i].id in scene
    ensures var w := ProjectTokens(host, m, scene, items, options);
      |w.tokens| > 3 && w.tokens[3] == PropertyName("metadata") <==>
        options.IncludeUnnecessaryProperties() || HasAnySpecifiedValue(m)
    ensures var w := ProjectTokens(host, m, scene, items, options); var k := 3 + |MetadataSectionTokens(host, m, options)|;
      |w.tokens| > k && (w.tokens[k] == PropertyName("objects") <==> options.IncludeUnnecessaryProperties() || |items| > 0)
  {
    var meta := MetadataSectionTokens(host, m, options);
    var rest := AfterMetadata(host, scene, items, options);
    MetadataSectionStarts(host, m, options);
    AfterMetadataShape(host, scene, items, options);
    var t := VersionHeader + meta + rest.tokens;
    if |meta| > 0 {
      assert t[3] == meta[0];
    } else {
      assert t[3] == rest.tokens[0];
    }
    assert t[3 + |meta|] == rest.tokens[0];
  }

  /** The metadata section, when written, opens with its property name. */
  lemma MetadataSectionStarts(host: Host, m: ProjectMetadata, options: ProjectWriteOptions)
    ensures var meta := MetadataSectionTokens(host, m, options);
      (|meta| > 0 <==> options.IncludeUnnecessaryProperties() || HasAnySpecifiedValue(m))
      && (|meta| > 0 ==> meta[0] == PropertyName("metadata"))
  {
  }

  /** What follows the metadata opens with the objects section or is the closing brace
      alone, and ends with the closing brace unless an object threw. */
  lemma AfterMetadataShape(host: Host, scene: Scene, items: seq<SceneObject>, options: ProjectWriteOptions)
    requires ValidScene(scene)
    requires forall i :: 0 <= i < |items| ==> items[i].id in scene
    ensures var rest := AfterMetadata(host, scene, items, options);
      && |rest.tokens| > 0
      && (rest.tokens[0] == PropertyName("objects") <==> options.IncludeUnnecessaryProperties() || |items| > 0)
      && (rest.tokens[0] == PropertyName("objects") || rest.tokens[0] == EndObject)
      && (rest.error.None? ==> rest.tokens[|rest.tokens| - 1] == EndObject)
  {
    if options.IncludeUnnecessaryProperties() || |items| > 0 {
      ObjectsSectionShape(host, scene, items, options);
      var w := ObjectsSection(host, scene, items, options);
      assert w.tokens[0] == w.tokens[..2][0];
      ClosedShape(w);
    }
  }
}
