/** ObjectCollection (libHSON/ObjectCollection.cs): the project's objects, in insertion
    order, keyed by id. */
module ObjectCollections {
  import opened Wrappers
  import opened Json
  import opened Externals
  import opened SceneObjects
  import opened WriteOptions
  import opened ObjectWriter

  ghost predicate DistinctIds(items: seq<SceneObject>)
  {
    forall i, j :: 0 <= i < j < |items| ==> items[i].id != items[j].id
  }

  /** The keyed lookup: the object stored under `id`, if any. */
  function Find(items: seq<SceneObject>, id: Guid): (r: Option<SceneObject>)
    ensures r.Some? ==> r.value in items && r.value.id == id
    ensures r.None? <==> forall i :: 0 <= i < |items| ==> items[i].id != id
  {
    if |items| == 0 then None
    else if items[0].id == id then Some(items[0])
    else Find(items[1..], id)
  }

  /** The objects as a scene: each id mapped to the object stored under it. */
  function SceneOf(items: seq<SceneObject>): (r: Scene)
    ensures forall g :: g in r <==> Find(items, g).Some?
    ensures forall g :: g in r ==> r[g] == Find(items, g).value
  {
    if |items| == 0 then map[]
    else SceneOf(items[1..])[items[0].id := items[0]]
  }

  /** With distinct ids, each object is what its id finds. */
  lemma {:induction false} FindEach(items: seq<SceneObject>, i: nat)
    requires DistinctIds(items) && i < |items|
    ensures Find(items, items[i].id) == Some(items[i])
  {
    if i > 0 {
      assert items[1..][i - 1] == items[i];
      FindEach(items[1..], i - 1);
    }
  }

  /** The scene holds each object of the list under its id, as it is. */
  ghost predicate HoldsAll(scene: Scene, items: seq<SceneObject>)
  {
    forall i :: 0 <= i < |items| ==> items[i].id in scene && scene[items[i].id] == items[i]
  }

  /** Every object of a collection with distinct ids is in the scene it makes up, under
      its own id. */
  lemma ItemsInScene(items: seq<SceneObject>)
    requires DistinctIds(items)
    ensures HoldsAll(SceneOf(items), items)
  {
    forall i | 0 <= i < |items| ensures items[i].id in SceneOf(items) && SceneOf(items)[items[i].id] == items[i] {
      FindEach(items, i);
    }
  }

  /** An object appended at the end is found only where no earlier one is. */
  lemma {:induction false} FindSnoc(items: seq<SceneObject>, o: SceneObject, id: Guid)
    ensures Find(items + [o], id) ==
      if Find(items, id).Some? then Find(items, id) else if o.id == id then Some(o) else None
  {
    if |items| > 0 && items[0].id != id {
      assert (items + [o])[1..] == items[1..] + [o];
      FindSnoc(items[1..], o, id);
    }
  }

  /** Appending an object with a new id adds it to the scene and changes nothing else. */
  lemma {:induction false} SceneOfSnoc(items: seq<SceneObject>, o: SceneObject)
    requires Find(items, o.id).None?
    ensures SceneOf(items + [o]) == SceneOf(items)[o.id := o]
  {
    var a := SceneOf(items + [o]);
    var b := SceneOf(items)[o.id := o];
    forall id ensures (id in a <==> id in b) && (id in a ==> a[id] == b[id]) {
      FindSnoc(items, o, id);
    }
    assert a.Keys == b.Keys;
  }

  /** Writers run one after another, stopping at the first that throws. */
  function Sequenced(ws: seq<Written>): Written
  {
    if |ws| == 0 then Written([], None)
    else if ws[0].error.Some? then ws[0]
    else
      var rest := Sequenced(ws[1..]);
      Written(ws[0].tokens + rest.tokens, rest.error)
  }

  /** The run completes exactly when no writer throws, and otherwise reports the first
      exception. */
  lemma {:induction false} SequencedError(ws: seq<Written>)
    ensures Sequenced(ws).error.None? <==> forall i :: 0 <= i < |ws| ==> ws[i].error.None?
    ensures Sequenced(ws).error.Some? ==>
      exists i :: 0 <= i < |ws| && Sequenced(ws).error == ws[i].error
        && forall j :: 0 <= j < i ==> ws[j].error.None?
  {
    if |ws| > 0 && ws[0].error.None? {
      SequencedError(ws[1..]);
      assert forall i :: 1 <= i < |ws| ==> ws[1..][i - 1] == ws[i];
      if Sequenced(ws).error.Some? {
        var i :| 0 <= i < |ws[1..]| && Sequenced(ws[1..]).error == ws[1..][i].error
          && forall j :: 0 <= j < i ==> ws[1..][j].error.None?;
        assert Sequenced(ws).error == ws[i + 1].error;
        assert forall j :: 0 <= j < i + 1 ==> ws[j].error.None? by {
          forall j | 0 <= j < i + 1 ensures ws[j].error.None? {
            if j > 0 { assert ws[j] == ws[1..][j - 1]; }
          }
        }
      }
    }
  }

  lemma {:induction false} SequencedSnoc(ws: seq<Written>, w: Written)
    requires Sequenced(ws).error.None?
    ensures Sequenced(ws + [w]) == Written(Sequenced(ws).tokens + w.tokens, w.error)
  {
    if |ws| == 0 {
      assert ws + [w] == [w];
      assert [w][1..] == [];
    } else {
      assert (ws + [w])[1..] == ws[1..] + [w];
      SequencedSnoc(ws[1..], w);
    }
  }

  /** Once a prefix throws, the rest is not run. */
  lemma {:induction false} SequencedPrefixFailure(ws: seq<Written>, n: nat)
    requires n <= |ws| && Sequenced(ws[..n]).error.Some?
    ensures Sequenced(ws) == Sequenced(ws[..n])
  {
    assert ws[..n][0] == ws[0];
    if ws[0].error.None? {
      assert ws[..n][1..] == ws[1..][..n - 1];
      SequencedPrefixFailure(ws[1..], n - 1);
    }
  }

  /** One more writer run after a prefix that completed. */
  lemma {:induction false} SequencedStep(t0: seq<Token>, ws: seq<Written>, i: nat, before: seq<Token>, after: seq<Token>)
    requires i < |ws| && Sequenced(ws[..i]).error.None?
    requires before == t0 + Sequenced(ws[..i]).tokens && after == before + ws[i].tokens
    ensures after == t0 + Sequenced(ws[..i + 1]).tokens
    ensures Sequenced(ws[..i + 1]).error == ws[i].error
    ensures ws[i].error.Some? ==> Sequenced(ws) == Sequenced(ws[..i + 1])
  {
    assert ws[..i + 1] == ws[..i] + [ws[i]];
    SequencedSnoc(ws[..i], ws[i]);
    Assoc(t0, Sequenced(ws[..i]).tokens, ws[i].tokens);
    if ws[i].error.Some? {
      SequencedPrefixFailure(ws, i + 1);
    }
  }

  /** What Object.Write writes for each object of a list. */
  function Outputs(host: Host, scene: Scene, items: seq<SceneObject>, options: ProjectWriteOptions): (r: seq<Written>)
    requires ValidScene(scene)
    requires forall i :: 0 <= i < |items| ==> items[i].id in scene
    ensures |r| == |items|
    ensures forall i :: 0 <= i < |items| ==> r[i] == ObjectTokens(host, scene, items[i].id, options)
  {
    seq(|items|, i requires 0 <= i < |items| => ObjectTokens(host, scene, items[i].id, options))
  }

  /** The objects Object.Write is called on in turn, until one throws. */
  function ItemsTokens(host: Host, scene: Scene, items: seq<SceneObject>, options: ProjectWriteOptions): Written
    requires ValidScene(scene)
    requires forall i :: 0 <= i < |items| ==> items[i].id in scene
  {
    Sequenced(Outputs(host, scene, items, options))
  }

  /** ObjectCollection.WriteAll: the "objects" array. */
  function ObjectsSection(host: Host, scene: Scene, items: seq<SceneObject>, options: ProjectWriteOptions): (r: Written)
    requires ValidScene(scene)
    requires forall i :: 0 <= i < |items| ==> items[i].id in scene
    ensures r.error == ItemsTokens(host, scene, items, options).error
  {
    var w := ItemsTokens(host, scene, items, options);
    Written([PropertyName("objects"), StartArray] + w.tokens + (if w.error.Some? then [] else [EndArray]), w.error)
  }

  /** The "objects" section opens with its name and start-array, and a complete one
      ends with end-array. */
  lemma ObjectsSectionShape(host: Host, scene: Scene, items: seq<SceneObject>, options: ProjectWriteOptions)
    requires ValidScene(scene)
    requires forall i :: 0 <= i < |items| ==> items[i].id in scene
    ensures var w := ObjectsSection(host, scene, items, options);
      && |w.tokens| >= 2 && w.tokens[..2] == [PropertyName("objects"), StartArray]
      && (w.error.None? ==> w.tokens[|w.tokens| - 1] == EndArray)
  {
    var w := ObjectsSection(host, scene, items, options);
    var inner := ItemsTokens(host, scene, items, options).tokens;
    assert w.tokens[..2] == ([PropertyName("objects"), StartArray] + inner + (if w.error.Some? then [] else [EndArray]))[..2];
  }

  /** One turn of the loop of ObjectCollection.WriteAll: Object.Write on the i-th object,
      after the objects before it were written completely. */
  method WriteItem(writer: JsonWriter, host: Host, scene: Scene, items: seq<SceneObject>, options: ProjectWriteOptions,
                   i: nat, ghost t0: seq<Token>, ghost ws: seq<Written>)
    returns (error: Option<WriteError>)
    requires ValidScene(scene)
    requires forall i :: 0 <= i < |items| ==> items[i].id in scene
    requires ws == Outputs(host, scene, items, options) && i < |items|
    requires Sequenced(ws[..i]).error.None? && writer.tokens == t0 + Sequenced(ws[..i]).tokens
    modifies writer
    ensures writer.tokens == t0 + Sequenced(ws[..i + 1]).tokens
    ensures error == Sequenced(ws[..i + 1]).error
    ensures error.Some? ==> Sequenced(ws) == Sequenced(ws[..i + 1])
  {
    ghost var before := writer.tokens;
    error := WriteObject(writer, host, scene, items[i].id, options);
    SequencedStep(t0, ws, i, before, writer.tokens);
  }

  /** What ObjectCollection.WriteAll writes, given the scene its objects make up. */
  method WriteSection(writer: JsonWriter, host: Host, scene: Scene, items: seq<SceneObject>, options: ProjectWriteOptions)
    returns (error: Option<WriteError>)
    requires ValidScene(scene)
    requires forall i :: 0 <= i < |items| ==> items[i].id in scene
    modifies writer
    ensures writer.tokens == old(writer.tokens) + ObjectsSection(host, scene, items, options).tokens
    ensures error == ObjectsSection(host, scene, items, options).error
  {
    ghost var t := writer.tokens;
    writer.WriteStartArrayProperty("objects");
    ghost var w := ItemsTokens(host, scene, items, options);
    error := WriteItems(writer, host, scene, items, options);
    if error.Some? {
      Enclosed(t, [PropertyName("objects"), StartArray], w.tokens, []);
      return;
    }
    writer.WriteEndArray();
    Enclosed(t, [PropertyName("objects"), StartArray], w.tokens, [EndArray]);
  }

  /** The loop of ObjectCollection.WriteAll: Object.Write on each object in turn, until
      one throws. */
  method WriteItems(writer: JsonWriter, host: Host, scene: Scene, items: seq<SceneObject>, options: ProjectWriteOptions)
    returns (error: Option<WriteError>)
    requires ValidScene(scene)
    requires forall i :: 0 <= i < |items| ==> items[i].id in scene
    modifies writer
    ensures writer.tokens == old(writer.tokens) + ItemsTokens(host, scene, items, options).tokens
    ensures error == ItemsTokens(host, scene, items, options).error
  {
    ghost var t0 := writer.tokens;
    ghost var ws := Outputs(host, scene, items, options);
    assert ItemsTokens(host, scene, items, options) == Sequenced(ws);
    var i := 0;
    while i < |items|
      invariant 0 <= i <= |items|
      invariant Sequenced(ws[..i]).error.None?
      invariant writer.tokens == t0 + Sequenced(ws[..i]).tokens
    {
      var e := WriteItem(writer, host, scene, items, options, i, t0, ws);
      if e.Some? {
        return e;
      }
      i := i + 1;
    }
    assert ws[..i] == ws;
    return None;
  }

  lemma Enclosed(t: seq<Token>, head: seq<Token>, body: seq<Token>, tail: seq<Token>)
    ensures t + head + body + tail == t + (head + body + tail)
  {
  }

  /** The exception KeyedCollection.Add throws for a duplicate key (ArgumentException). */
  datatype AddError = DuplicateId

  class ObjectCollection {
    var items: seq<SceneObject>

    ghost predicate Valid()
      reads this
    {
      DistinctIds(items)
    }

    constructor ()
      ensures items == [] && Valid()
    {
      items := [];
    }

    function Count(): (r: nat)
      reads this
      ensures r == |items|
    {
      |items|
    }

    /** TryGetValue: the object with the given id, if the collection holds one. */
    function TryGetValue(id: Guid): (r: Option<SceneObject>)
      reads this
      ensures r.Some? ==> r.value in items && r.value.id == id
      ensures r.None? <==> forall i :: 0 <= i < |items| ==> items[i].id != id
    {
      Find(items, id)
    }

    /** Add: appends, unless an object with the same id is already there. */
    method Add(o: SceneObject) returns (error: Option<AddError>)
      requires Valid()
      modifies this
      ensures Valid()
      ensures error.Some? <==> Find(old(items), o.id).Some?
      ensures error.Some? ==> items == old(items)
      ensures error.None? ==> items == old(items) + [o]
    {
      if TryGetValue(o.id).Some? {
        return Some(DuplicateId);
      }
      items := items + [o];
      return None;
    }

    /** ObjectCollection.WriteAll: the objects in order inside an "objects" array,
        stopping at the first that throws. `scene` holds the objects they reach
        through their parent and prototype references, which need not belong to the
        collection, and holds the collection's own objects as they are. */
    method WriteAll(writer: JsonWriter, host: Host, scene: Scene, options: ProjectWriteOptions) returns (error: Option<WriteError>)
      requires Valid() && ValidScene(scene) && HoldsAll(scene, items)
      modifies writer
      ensures writer.tokens == old(writer.tokens) + ObjectsSection(host, scene, items, options).tokens
      ensures error == ObjectsSection(host, scene, items, options).error
    {
      error := WriteSection(writer, host, scene, items, options);
    }
  }

}
