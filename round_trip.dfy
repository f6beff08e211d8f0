/** Where writing and reading meet: the custom properties that Object.Write and
    ProjectMetadata.Write put inline among the standard ones are names the reader has
    no case for, so a written custom property makes the document unreadable. */
module RoundTrip {
  import opened Json
  import opened Externals
  import opened Wrappers
  import P = Parameters
  import opened ParameterCollections
  import opened ParameterWriter
  import opened SceneObjects
  import opened WriteOptions
  import opened ObjectWriter
  import opened Metadata
  import opened Projects
  import opened ReaderSpec
  import opened ReaderTransitions

  /** Every key of a list of entries is written as a property name. */
  lemma {:induction false} EntryKeyWritten(host: Host, entries: seq<P.Member>, i: nat)
    requires i < |entries|
    ensures PropertyName(entries[i].key) in EntriesTokens(host, entries)
    decreases i
  {
    if i > 0 {
      assert entries[1..][i - 1] == entries[i];
      EntryKeyWritten(host, entries[1..], i - 1);
    }
  }

  /** Every name the reader knows inside an object is a reserved name. */
  lemma KnownObjectNamesReserved()
    ensures KnownNames(State.Object) <= set x | x in ReservedNames
  {
    assert ReservedNames == ["id", "name", "parentId", "instanceOf", "type", "position",
                             "rotation", "scale", "isEditorVisible", "isExcluded", "parameters"];
  }

  /** No reserved name is a path. */
  lemma ReservedNamesNotPaths()
    ensures forall j :: 0 <= j < |ReservedNames| ==> '/' !in ReservedNames[j]
  {
  }

  /** A custom property of an object whose custom properties take no reserved name is
      none of the names the reader knows inside an object. */
  lemma CustomKeyNotKnown(o: SceneObject, i: nat)
    requires !HasInvalidCustomProperties(o) && i < |o.localCustomProperties.entries|
    ensures o.localCustomProperties.entries[i].key !in KnownNames(State.Object)
  {
    var c := o.localCustomProperties;
    var k := c.entries[i].key;
    KnownObjectNamesReserved();
    ReservedNamesNotPaths();
    if '/' !in k {
      assert TryGetParameterFromName(c, k).Some?;
      assert ContainsKey(c, k);
    }
    forall j | 0 <= j < |ReservedNames|
      ensures ReservedNames[j] != k
    {
      assert !ContainsKey(c, ReservedNames[j]);
    }
  }

  /** An object written without an exception that has custom properties takes no
      reserved name among them, and after its header come its body, its custom
      properties and the closing brace. */
  lemma CustomPropertiesWritten(host: Host, scene: Scene, g: Guid, options: ProjectWriteOptions)
    requires ValidScene(scene) && g in scene
    requires AfterHeader(host, scene, g, options).error.None?
    requires |scene[g].localCustomProperties.entries| > 0
    ensures !HasInvalidCustomProperties(scene[g])
    ensures var o := scene[g];
      AfterHeader(host, scene, g, options).tokens ==
        BodyTokens(host, o, options.IncludeUnnecessaryProperties())
        + EntriesTokens(host, o.localCustomProperties.entries) + [EndObject]
  {
    assert WritesCustomProperties(scene[g], options.IncludeUnnecessaryProperties());
  }

  /** A token of the middle part is a token of the whole. */
  lemma InMiddle(a: seq<Token>, b: seq<Token>, c: seq<Token>, x: Token)
    requires x in b
    ensures x in a + b + c
  {
    var n :| 0 <= n < |b| && b[n] == x;
    assert (a + b + c)[|a| + n] == x;
  }

  /** Outside the parameters, a name the reader has no case for throws
      NotImplementedException, whatever the rest of the reader's state. */
  lemma UnknownNameFails(st: State, k: string)
    requires st == State.TopLevelObject || st == State.Metadata || st == State.Object
    requires k !in KnownNames(st)
    ensures forall s: ReaderState | s.curState == st :: StepPropertyName(s, k) == Failure(NotImplemented)
  {
    forall s: ReaderState | s.curState == st
      ensures StepPropertyName(s, k) == Failure(NotImplemented)
    {
      PropertyNameTable(s, k);
    }
  }

  /** An object written without an exception carries each of its custom properties as
      a property name of its own, and that name is none of the names the reader knows
      inside an object, so reading it there throws NotImplementedException. */
  lemma WrittenCustomPropertyUnreadable(host: Host, scene: Scene, g: Guid, options: ProjectWriteOptions, i: nat)
    requires ValidScene(scene) && g in scene
    requires ObjectTokens(host, scene, g, options).error.None?
    requires i < |scene[g].localCustomProperties.entries|
    ensures var k := scene[g].localCustomProperties.entries[i].key;
      && PropertyName(k) in ObjectTokens(host, scene, g, options).tokens
      && forall s: ReaderState | s.curState == State.Object :: StepPropertyName(s, k) == Failure(NotImplemented)
  {
    var o := scene[g];
    var entries := o.localCustomProperties.entries;
    var k := entries[i].key;
    var inc := options.IncludeUnnecessaryProperties();
    var rest := AfterHeader(host, scene, g, options);
    var head := HeaderTokens(host, o, inc);
    CustomPropertiesWritten(host, scene, g, options);
    EntryKeyWritten(host, entries, i);
    InMiddle(BodyTokens(host, o, inc), EntriesTokens(host, entries), [EndObject], PropertyName(k));
    InMiddle(head, rest.tokens, [], PropertyName(k));
    assert head + rest.tokens + [] == ObjectTokens(host, scene, g, options).tokens;
    CustomKeyNotKnown(o, i);
    UnknownNameFails(State.Object, k);
  }

  /** A metadata custom property whose key is not one of the metadata's own names is
      written inside the metadata section, and reading it there throws
      NotImplementedException. */
  lemma WrittenMetadataPropertyUnreadable(host: Host, m: ProjectMetadata, options: ProjectWriteOptions, i: nat)
    requires i < |m.customProperties.entries|
    requires m.customProperties.entries[i].key !in KnownNames(State.Metadata)
    ensures var k := m.customProperties.entries[i].key;
      && PropertyName(k) in MetadataSectionTokens(host, m, options)
      && forall s: ReaderState | s.curState == State.Metadata :: StepPropertyName(s, k) == Failure(NotImplemented)
  {
    var k := m.customProperties.entries[i].key;
    var named := NamedFields(host, m);
    var custom := EntriesTokens(host, m.customProperties.entries);
    assert HasAnySpecifiedValue(m);
    EntryKeyWritten(host, m.customProperties.entries, i);
    InMiddle(named, custom, [], PropertyName(k));
    InMiddle([PropertyName("metadata"), StartObject], named + custom + [], [EndObject], PropertyName(k));
    assert [PropertyName("metadata"), StartObject] + (named + custom + []) + [EndObject]
        == MetadataSectionTokens(host, m, options);
    UnknownNameFails(State.Metadata, k);
  }
}
