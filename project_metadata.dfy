/** ProjectMetadata (libHSON/ProjectMetadata.cs): the optional descriptive fields of a
    project and the "metadata" section they are written as. */
module Metadata {
  import opened Wrappers
  import opened Json
  import opened Externals
  import opened Parameters
  import opened ParameterCollections
  import opened ParameterWriter
  import opened ObjectWriter

  datatype ProjectMetadata = ProjectMetadata(
    name: Option<string>,
    author: Option<string>,
    date: Option<DateTime>,
    version: Option<string>,
    description: Option<string>,
    customProperties: ParameterCollection)

  /** A new ProjectMetadata: every field null, no custom properties. */
  const EmptyMetadata: ProjectMetadata := ProjectMetadata(None, None, None, None, None, EmptyCollection)

  /** HasAnySpecifiedValue: some string field is non-empty, the date is set, or there
      are custom properties. */
  function HasAnySpecifiedValue(m: ProjectMetadata): bool
  {
    !IsNullOrEmpty(m.name) || !IsNullOrEmpty(m.author) || m.date.Some?
      || !IsNullOrEmpty(m.version) || !IsNullOrEmpty(m.description)
      || Count(m.customProperties) > 0
  }

  /** A string field is written only when it is neither null nor empty. */
  function NonEmpty(s: Option<string>): (r: Option<string>)
    ensures r.Some? <==> !IsNullOrEmpty(s)
    ensures r.Some? ==> r == s
  {
    if IsNullOrEmpty(s) then None else s
  }

  /** DateString: the date in its fixed text format. */
  function DateProperty(host: Host, d: Option<DateTime>): seq<Token>
  {
    if d.Some? then [PropertyName("date"), StringValue(host.dateText(d.value))] else []
  }

  /** The fields of the metadata section, between its braces. */
  function MetadataFields(host: Host, m: ProjectMetadata): seq<Token>
  {
    NamedFields(host, m) + (if Count(m.customProperties) > 0 then EntriesTokens(host, m.customProperties.entries) else [])
  }

  /** The name, author, date, version and description properties. */
  function NamedFields(host: Host, m: ProjectMetadata): seq<Token>
  {
    StringProperty("name", NonEmpty(m.name))
      + StringProperty("author", NonEmpty(m.author))
      + DateProperty(host, m.date)
      + StringProperty("version", NonEmpty(m.version))
      + StringProperty("description", NonEmpty(m.description))
  }

  /** What ProjectMetadata.Write writes. */
  function MetadataTokens(host: Host, m: ProjectMetadata): seq<Token>
  {
    [PropertyName("metadata"), StartObject] + MetadataFields(host, m) + [EndObject]
  }

  /** HasAnySpecifiedValue holds exactly when the metadata section would hold at least
      one property: it is the test for whether the section says anything. */
  lemma HasAnySpecifiedValueIffFields(host: Host, m: ProjectMetadata)
    ensures HasAnySpecifiedValue(m) <==> MetadataFields(host, m) != []
    ensures HasAnySpecifiedValue(m) <==> MetadataTokens(host, m) != [PropertyName("metadata"), StartObject, EndObject]
  {
    var c := m.customProperties.entries;
    if |c| > 0 {
      assert EntriesTokens(host, c)[0] == PropertyName(c[0].key);
    }
    if MetadataFields(host, m) == [] {
      assert MetadataTokens(host, m) == [PropertyName("metadata"), StartObject, EndObject];
    } else {
      assert |MetadataTokens(host, m)| > 3;
    }
  }

  /** The named-field part of ProjectMetadata.Write. */
  method WriteNamedFields(writer: JsonWriter, host: Host, m: ProjectMetadata)
    modifies writer
    ensures writer.tokens == old(writer.tokens) + NamedFields(host, m)
  {
    ghost var t0 := writer.tokens;
    if !IsNullOrEmpty(m.name) {
      writer.WriteString("name", m.name.value);
    }
    ghost var t1 := writer.tokens;
    ghost var p1 := StringProperty("name", NonEmpty(m.name));
    assert t1 == t0 + p1;
    if !IsNullOrEmpty(m.author) {
      writer.WriteString("author", m.author.value);
    }
    ghost var t2 := writer.tokens;
    ghost var p2 := StringProperty("author", NonEmpty(m.author));
    assert t2 == t1 + p2;
    Assoc(t0, p1, p2);
    if m.date.Some? {
      writer.WriteString("date", host.dateText(m.date.value));
    }
    ghost var t3 := writer.tokens;
    ghost var p3 := DateProperty(host, m.date);
    assert t3 == t2 + p3;
    Assoc(t0, p1 + p2, p3);
    if !IsNullOrEmpty(m.version) {
      writer.WriteString("version", m.version.value);
    }
    ghost var t4 := writer.tokens;
    ghost var p4 := StringProperty("version", NonEmpty(m.version));
    assert t4 == t3 + p4;
    Assoc(t0, p1 + p2 + p3, p4);
    if !IsNullOrEmpty(m.description) {
      writer.WriteString("description", m.description.value);
    }
    ghost var p5 := StringProperty("description", NonEmpty(m.description));
    assert writer.tokens == t4 + p5;
    Assoc(t0, p1 + p2 + p3 + p4, p5);
  }

  /** ProjectMetadata.Write. */
  method WriteMetadata(writer: JsonWriter, host: Host, m: ProjectMetadata)
    modifies writer
    ensures writer.tokens == old(writer.tokens) + MetadataTokens(host, m)
  {
    ghost var t0 := writer.tokens;
    writer.WriteStartObjectProperty("metadata");
    ghost var t1 := writer.tokens;
    WriteNamedFields(writer, host, m);
    ghost var t2 := writer.tokens;
    ghost var custom := if Count(m.customProperties) > 0 then EntriesTokens(host, m.customProperties.entries) else [];
    if Count(m.customProperties) > 0 {
      WriteAll(writer, host, m.customProperties);
    }
    assert writer.tokens == t2 + custom;
    Assoc(t1, NamedFields(host, m), custom);
    writer.WriteEndObject();
    Assoc(t0, [PropertyName("metadata"), StartObject], MetadataFields(host, m));
    Assoc(t0, [PropertyName("metadata"), StartObject] + MetadataFields(host, m), [EndObject]);
  }
}
