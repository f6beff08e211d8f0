/** Scene objects (libHSON/Object.cs). Every object sits in a scene, a map from ids to
    objects, and its parent and prototype ("instanceOf") references are the ids of
    objects of that scene. Each inheritable field is an optional local value; the
    specified value is the local one, else the prototype's specified value. */
module SceneObjects {
  import opened Wrappers
  import opened Json
  import opened Externals
  import opened Parameters
  import opened ParameterCollections

  datatype Vector3 = Vector3(x: Single, y: Single, z: Single)
  datatype Quaternion = Quaternion(x: Single, y: Single, z: Single, w: Single)

  const DefaultName: string := ""
  const DefaultParentId: Guid := EmptyGuid
  const DefaultInstanceOf: Guid := EmptyGuid
  /** Vector3.Zero, Quaternion.Identity, Vector3.One. */
  const DefaultPosition: Vector3 := Vector3(0.0, 0.0, 0.0)
  const DefaultRotation: Quaternion := Quaternion(0.0, 0.0, 0.0, 1.0)
  const DefaultScale: Vector3 := Vector3(1.0, 1.0, 1.0)
  const DefaultIsEditorVisible: bool := true
  const DefaultIsExcluded: bool := false

  /** An Object: its id, the local (`_`-prefixed, nullable) fields, where `parent` and
      `instanceOf` hold the id of the object referred to, the flag recording that a
      parent was specified, and the two local collections. */
  datatype SceneObject = SceneObject(
    id: Guid,
    name: Option<string>,
    objectType: Option<string>,
    parent: Option<Guid>,
    instanceOf: Option<Guid>,
    position: Option<Vector3>,
    rotation: Option<Quaternion>,
    scale: Option<Vector3>,
    isEditorVisible: Option<bool>,
    isExcluded: Option<bool>,
    hasSpecifiedParent: bool,
    localParameters: ParameterCollection,
    localCustomProperties: ParameterCollection)

  /** The exception an object's id check throws (ArgumentException). */
  datatype ObjectError = EmptyId

  /** The internal constructor `Object(Guid id)`: every field unset. */
  function NewObjectWithId(id: Guid): (o: SceneObject)
    ensures o.id == id && !o.hasSpecifiedParent
    ensures o.name.None? && o.objectType.None? && o.parent.None? && o.instanceOf.None?
    ensures o.position.None? && o.rotation.None? && o.scale.None?
    ensures o.isEditorVisible.None? && o.isExcluded.None?
    ensures o.localParameters == EmptyCollection && o.localCustomProperties == EmptyCollection
  {
    SceneObject(id, None, None, None, None, None, None, None, None, None, false,
                EmptyCollection, EmptyCollection)
  }

  /** The public constructor: an explicit empty id is refused; no id means a fresh one
      (`freshId`, the value Guid.NewGuid() returns); a parent is specified exactly when
      one is given. */
  function NewObject(id: Option<Guid>, freshId: Guid, name: Option<string>, objectType: Option<string>,
                     parent: Option<Guid>, instanceOf: Option<Guid>, position: Option<Vector3>,
                     rotation: Option<Quaternion>, scale: Option<Vector3>,
                     isEditorVisible: Option<bool>, isExcluded: Option<bool>): (r: Result<SceneObject, ObjectError>)
    ensures r.Failure? <==> id == Some(EmptyGuid)
    ensures r.Success? ==> r.value.id == id.GetOr(freshId)
    ensures r.Success? ==> r.value.hasSpecifiedParent == parent.Some?
    ensures r.Success? ==> r.value.parent == parent && r.value.instanceOf == instanceOf
    ensures r.Success? ==> r.value.name == name && r.value.objectType == objectType
    ensures r.Success? ==> r.value.position == position && r.value.rotation == rotation && r.value.scale == scale
    ensures r.Success? ==> r.value.isEditorVisible == isEditorVisible && r.value.isExcluded == isExcluded
    ensures r.Success? ==> r.value.localParameters == EmptyCollection && r.value.localCustomProperties == EmptyCollection
  {
    if id.Some? && id.value == EmptyGuid then Failure(EmptyId)
    else
      Success(SceneObject(id.GetOr(freshId), name, objectType, parent, instanceOf, position,
                          rotation, scale, isEditorVisible, isExcluded, parent.Some?,
                          EmptyCollection, EmptyCollection))
  }

  /** The Id setter: the empty id is refused, any other is stored. */
  function SetId(o: SceneObject, id: Guid): (r: Result<SceneObject, ObjectError>)
    ensures r.Failure? <==> id == EmptyGuid
    ensures r.Success? ==> r.value == o.(id := id)
  {
    if id == EmptyGuid then Failure(EmptyId) else Success(o.(id := id))
  }

  /** The Parent setter: marks the parent specified even when it is null, which is how
      an explicit "no parent" is recorded. */
  function SetParent(o: SceneObject, parent: Option<Guid>): (r: SceneObject)
    ensures r.hasSpecifiedParent && r.parent == parent
    ensures r.(parent := o.parent, hasSpecifiedParent := o.hasSpecifiedParent) == o
  {
    o.(parent := parent, hasSpecifiedParent := true)
  }

  /** The SpecifiedParent setter: marks the parent specified only when it is not null,
      so null means "inherit the parent". */
  function SetSpecifiedParent(o: SceneObject, parent: Option<Guid>): (r: SceneObject)
    ensures r.hasSpecifiedParent <==> parent.Some?
    ensures r.parent == parent
    ensures r.(parent := o.parent, hasSpecifiedParent := o.hasSpecifiedParent) == o
  {
    o.(parent := parent, hasSpecifiedParent := parent.Some?)
  }

  // ---------------------------------------------------------------------------
  // Scenes and the prototype chain.
  // ---------------------------------------------------------------------------

  type Scene = map<Guid, SceneObject>

  /** Every object is stored under its own id, and every reference names an object of
      the scene (a .NET reference cannot dangle). */
  ghost predicate Linked(scene: Scene)
  {
    forall g :: g in scene ==>
      && scene[g].id == g
      && (scene[g].parent.Some? ==> scene[g].parent.value in scene)
      && (scene[g].instanceOf.Some? ==> scene[g].instanceOf.value in scene)
  }

  /** `rank` strictly decreases along every prototype reference. */
  ghost predicate Ranked(scene: Scene, rank: map<Guid, nat>)
  {
    forall g :: g in scene ==>
      && g in rank
      && (scene[g].instanceOf.Some? && scene[g].instanceOf.value in scene ==>
            scene[g].instanceOf.value in rank && rank[scene[g].instanceOf.value] < rank[g])
  }

  /** No object is its own prototype, directly or further up; the source has no guard
      against such a cycle, so the model asks for its absence. */
  ghost predicate Acyclic(scene: Scene)
  {
    exists rank :: Ranked(scene, rank)
  }

  ghost function ChosenRank(scene: Scene): (rank: map<Guid, nat>)
    requires Acyclic(scene)
    ensures Ranked(scene, rank)
  {
    var rank :| Ranked(scene, rank); rank
  }

  ghost predicate ValidScene(scene: Scene)
  {
    Linked(scene) && Acyclic(scene)
  }

  /** The objects met when following prototype references from `g`: `g` itself first,
      the object without a prototype last. */
  function Chain(scene: Scene, g: Guid): (r: seq<Guid>)
    requires ValidScene(scene) && g in scene
    ensures |r| >= 1 && r[0] == g
    ensures forall k :: 0 <= k < |r| ==> r[k] in scene
    ensures scene[r[|r| - 1]].instanceOf.None?
    decreases ChosenRank(scene)[g]
  {
    match scene[g].instanceOf
    case None => [g]
    case Some(h) => [g] + Chain(scene, h)
  }

  /** The first local value along a list of objects: the reference reading of the
      inheritance rule. */
  function FirstAlong<T>(scene: Scene, ids: seq<Guid>, local: SceneObject -> Option<T>): Option<T>
    requires forall k :: 0 <= k < |ids| ==> ids[k] in scene
  {
    if |ids| == 0 then None
    else if local(scene[ids[0]]).Some? then local(scene[ids[0]])
    else FirstAlong(scene, ids[1..], local)
  }

  /** The Specified* getters' shared recursion: the local value if present, else the
      prototype's, else none. */
  function Inherited<T>(scene: Scene, g: Guid, local: SceneObject -> Option<T>): (r: Option<T>)
    requires ValidScene(scene) && g in scene
    ensures r == FirstAlong(scene, Chain(scene, g), local)
    decreases ChosenRank(scene)[g]
  {
    var o := scene[g];
    if local(o).Some? then local(o)
    else
      match o.instanceOf
      case Some(h) => Inherited(scene, h, local)
      case None => None
  }

  /** The first local value along a list is found at some position whose predecessors
      all lack one; there is none exactly when no object of the list has one. */
  lemma {:induction false} FirstAlongFinds<T>(scene: Scene, ids: seq<Guid>, local: SceneObject -> Option<T>)
    requires forall k :: 0 <= k < |ids| ==> ids[k] in scene
    ensures FirstAlong(scene, ids, local).None? <==> forall k :: 0 <= k < |ids| ==> local(scene[ids[k]]).None?
    ensures FirstAlong(scene, ids, local).Some? ==>
      exists k :: 0 <= k < |ids| && local(scene[ids[k]]) == FirstAlong(scene, ids, local)
        && forall j :: 0 <= j < k ==> local(scene[ids[j]]).None?
  {
    if |ids| > 0 && local(scene[ids[0]]).None? {
      FirstAlongFinds(scene, ids[1..], local);
      assert forall k :: 1 <= k < |ids| ==> ids[1..][k - 1] == ids[k];
      if FirstAlong(scene, ids[1..], local).Some? {
        var k :| 0 <= k < |ids[1..]| && local(scene[ids[1..][k]]) == FirstAlong(scene, ids[1..], local)
          && forall j :: 0 <= j < k ==> local(scene[ids[1..][j]]).None?;
        assert local(scene[ids[k + 1]]) == FirstAlong(scene, ids, local);
        assert forall j :: 0 <= j < k + 1 ==> local(scene[ids[j]]).None? by {
          forall j | 0 <= j < k + 1 ensures local(scene[ids[j]]).None? {
            if j > 0 { assert ids[j] == ids[1..][j - 1]; }
          }
        }
      }
    }
  }

  /** When every object of a list but the last lacks a local value, the first local
      value along it is the last object's. */
  lemma {:induction false} FirstAlongLast<T>(scene: Scene, ids: seq<Guid>, local: SceneObject -> Option<T>)
    requires |ids| >= 1 && forall k :: 0 <= k < |ids| ==> ids[k] in scene
    requires forall j :: 0 <= j < |ids| - 1 ==> local(scene[ids[j]]).None?
    ensures FirstAlong(scene, ids, local) == local(scene[ids[|ids| - 1]])
  {
    if |ids| > 1 {
      assert forall j :: 0 <= j < |ids[1..]| - 1 ==> ids[1..][j] == ids[j + 1];
      FirstAlongLast(scene, ids[1..], local);
    }
  }

  /** A value specified only at the end of a prototype chain is seen by every object
      on it. */
  lemma {:induction false} RootValueSeenAlongChain<T>(scene: Scene, g: Guid, local: SceneObject -> Option<T>, k: nat)
    requires ValidScene(scene) && g in scene && k < |Chain(scene, g)|
    requires forall j :: 0 <= j < |Chain(scene, g)| - 1 ==> local(scene[Chain(scene, g)[j]]).None?
    ensures Inherited(scene, Chain(scene, g)[k], local) == local(scene[Chain(scene, g)[|Chain(scene, g)| - 1]])
  {
    var c := Chain(scene, g);
    ChainSuffix(scene, g, k);
    var rest := c[k..];
    forall j | 0 <= j < |rest| - 1
      ensures local(scene[rest[j]]).None?
    {
      assert rest[j] == c[k + j];
    }
    assert rest[|rest| - 1] == c[|c| - 1];
    FirstAlongLast(scene, rest, local);
    assert Inherited(scene, c[k], local) == FirstAlong(scene, rest, local);
  }

  /** The chain from an object on another object's chain is the rest of that chain. */
  lemma {:induction false} ChainSuffix(scene: Scene, g: Guid, k: nat)
    requires ValidScene(scene) && g in scene && k < |Chain(scene, g)|
    ensures Chain(scene, Chain(scene, g)[k]) == Chain(scene, g)[k..]
    decreases ChosenRank(scene)[g]
  {
    if k > 0 {
      var c := Chain(scene, g);
      var h := scene[g].instanceOf.value;
      var ch := Chain(scene, h);
      assert c == [g] + ch;
      assert c[k] == ch[k - 1];
      assert c[k..] == ch[k - 1..];
      ChainSuffix(scene, h, k - 1);
    }
  }

  /** Changing one object leaves the inherited value of every object whose chain does
      not pass through it as it was, as long as prototype references stay the same. */
  lemma {:induction false} InheritedUnaffected<T>(scene: Scene, g: Guid, o: SceneObject, h: Guid,
                                                  local: SceneObject -> Option<T>)
    requires ValidScene(scene) && g in scene && h in scene
    requires ValidScene(scene[g := o]) && o.instanceOf == scene[g].instanceOf
    requires g !in Chain(scene, h)
    ensures Inherited(scene[g := o], h, local) == Inherited(scene, h, local)
    decreases ChosenRank(scene)[h]
  {
    var s2 := scene[g := o];
    assert s2[h] == scene[h];
    if local(scene[h]).None? && scene[h].instanceOf.Some? {
      var next := scene[h].instanceOf.value;
      assert Chain(scene, h) == [h] + Chain(scene, next);
      InheritedUnaffected(scene, g, o, next, local);
    }
  }

  // ---------------------------------------------------------------------------
  // Specified*, HasSpecified* and the effective values.
  // ---------------------------------------------------------------------------

  function LocalName(o: SceneObject): Option<string> { o.name }
  function LocalType(o: SceneObject): Option<string> { o.objectType }
  function LocalPosition(o: SceneObject): Option<Vector3> { o.position }
  function LocalRotation(o: SceneObject): Option<Quaternion> { o.rotation }
  function LocalScale(o: SceneObject): Option<Vector3> { o.scale }
  function LocalIsEditorVisible(o: SceneObject): Option<bool> { o.isEditorVisible }
  function LocalIsExcluded(o: SceneObject): Option<bool> { o.isExcluded }
  /** The parent an object specifies, if it specifies one (possibly "no parent"). */
  function LocalParent(o: SceneObject): Option<Option<Guid>>
  {
    if o.hasSpecifiedParent then Some(o.parent) else None
  }

  function SpecifiedName(scene: Scene, g: Guid): (r: Option<string>)
    requires ValidScene(scene) && g in scene
    ensures r == FirstAlong(scene, Chain(scene, g), LocalName)
  {
    Inherited(scene, g, LocalName)
  }

  function SpecifiedType(scene: Scene, g: Guid): (r: Option<string>)
    requires ValidScene(scene) && g in scene
    ensures r == FirstAlong(scene, Chain(scene, g), LocalType)
  {
    Inherited(scene, g, LocalType)
  }

  function SpecifiedPosition(scene: Scene, g: Guid): (r: Option<Vector3>)
    requires ValidScene(scene) && g in scene
    ensures r == FirstAlong(scene, Chain(scene, g), LocalPosition)
  {
    Inherited(scene, g, LocalPosition)
  }

  function SpecifiedRotation(scene: Scene, g: Guid): (r: Option<Quaternion>)
    requires ValidScene(scene) && g in scene
    ensures r == FirstAlong(scene, Chain(scene, g), LocalRotation)
  {
    Inherited(scene, g, LocalRotation)
  }

  function SpecifiedScale(scene: Scene, g: Guid): (r: Option<Vector3>)
    requires ValidScene(scene) && g in scene
    ensures r == FirstAlong(scene, Chain(scene, g), LocalScale)
  {
    Inherited(scene, g, LocalScale)
  }

  function SpecifiedIsEditorVisible(scene: Scene, g: Guid): (r: Option<bool>)
    requires ValidScene(scene) && g in scene
    ensures r == FirstAlong(scene, Chain(scene, g), LocalIsEditorVisible)
  {
    Inherited(scene, g, LocalIsEditorVisible)
  }

  function SpecifiedIsExcluded(scene: Scene, g: Guid): (r: Option<bool>)
    requires ValidScene(scene) && g in scene
    ensures r == FirstAlong(scene, Chain(scene, g), LocalIsExcluded)
  {
    Inherited(scene, g, LocalIsExcluded)
  }

  /** HasSpecifiedParent: some object along the chain specified a parent (perhaps
      "none"). */
  function HasSpecifiedParent(scene: Scene, g: Guid): (r: bool)
    requires ValidScene(scene) && g in scene
    ensures r <==> exists k :: 0 <= k < |Chain(scene, g)| && scene[Chain(scene, g)[k]].hasSpecifiedParent
  {
    ParentSpecifiedAlong(scene, g);
    Inherited(scene, g, LocalParent).Some?
  }

  lemma ParentSpecifiedAlong(scene: Scene, g: Guid)
    requires ValidScene(scene) && g in scene
    ensures Inherited(scene, g, LocalParent).Some? ==>
      exists k :: 0 <= k < |Chain(scene, g)| && scene[Chain(scene, g)[k]].hasSpecifiedParent
    ensures (exists k :: 0 <= k < |Chain(scene, g)| && scene[Chain(scene, g)[k]].hasSpecifiedParent) ==>
      Inherited(scene, g, LocalParent).Some?
  {
    var c := Chain(scene, g);
    ParentFoundAlong(scene, c);
    if Inherited(scene, g, LocalParent).Some? {
      assert FirstAlong(scene, c, LocalParent).Some?;
      var k :| 0 <= k < |c| && scene[c[k]].hasSpecifiedParent;
    } else {
      assert FirstAlong(scene, c, LocalParent).None?;
    }
  }

  lemma {:induction false} ParentFoundAlong(scene: Scene, ids: seq<Guid>)
    requires forall k :: 0 <= k < |ids| ==> ids[k] in scene
    ensures FirstAlong(scene, ids, LocalParent).Some? <==>
      exists k :: 0 <= k < |ids| && scene[ids[k]].hasSpecifiedParent
  {
    if |ids| > 0 && !scene[ids[0]].hasSpecifiedParent {
      assert forall k :: 1 <= k < |ids| ==> ids[1..][k - 1] == ids[k];
      ParentFoundAlong(scene, ids[1..]);
      if FirstAlong(scene, ids, LocalParent).Some? {
        var k :| 0 <= k < |ids[1..]| && scene[ids[1..][k]].hasSpecifiedParent;
        assert scene[ids[k + 1]].hasSpecifiedParent;
      }
    }
  }

  /** SpecifiedParent (and the Parent getter): the parent the first object along the
      chain that specifies one gave, or none. */
  function SpecifiedParent(scene: Scene, g: Guid): (r: Option<Guid>)
    requires ValidScene(scene) && g in scene
    ensures !HasSpecifiedParent(scene, g) ==> r.None?
    ensures HasSpecifiedParent(scene, g) ==> FirstAlong(scene, Chain(scene, g), LocalParent) == Some(r)
    ensures scene[g].hasSpecifiedParent ==> r == scene[g].parent
    ensures !scene[g].hasSpecifiedParent && scene[g].instanceOf.Some? ==>
      r == SpecifiedParent(scene, scene[g].instanceOf.value)
    ensures !scene[g].hasSpecifiedParent && scene[g].instanceOf.None? ==> r.None?
    decreases ChosenRank(scene)[g]
  {
    match Inherited(scene, g, LocalParent)
    case Some(p) => p
    case None => None
  }

  /** The HasSpecified* getters of the other fields: some object along the chain has a
      local value. */
  function HasSpecifiedName(scene: Scene, g: Guid): (r: bool)
    requires ValidScene(scene) && g in scene
    ensures r <==> exists k :: 0 <= k < |Chain(scene, g)| && scene[Chain(scene, g)[k]].name.Some?
  {
    FirstAlongFinds(scene, Chain(scene, g), LocalName);
    SpecifiedName(scene, g).Some?
  }

  function HasSpecifiedType(scene: Scene, g: Guid): (r: bool)
    requires ValidScene(scene) && g in scene
    ensures r <==> exists k :: 0 <= k < |Chain(scene, g)| && scene[Chain(scene, g)[k]].objectType.Some?
  {
    FirstAlongFinds(scene, Chain(scene, g), LocalType);
    SpecifiedType(scene, g).Some?
  }

  function HasSpecifiedPosition(scene: Scene, g: Guid): (r: bool)
    requires ValidScene(scene) && g in scene
    ensures r <==> exists k :: 0 <= k < |Chain(scene, g)| && scene[Chain(scene, g)[k]].position.Some?
  {
    FirstAlongFinds(scene, Chain(scene, g), LocalPosition);
    SpecifiedPosition(scene, g).Some?
  }

  function HasSpecifiedRotation(scene: Scene, g: Guid): (r: bool)
    requires ValidScene(scene) && g in scene
    ensures r <==> exists k :: 0 <= k < |Chain(scene, g)| && scene[Chain(scene, g)[k]].rotation.Some?
  {
    FirstAlongFinds(scene, Chain(scene, g), LocalRotation);
    SpecifiedRotation(scene, g).Some?
  }

  function HasSpecifiedScale(scene: Scene, g: Guid): (r: bool)
    requires ValidScene(scene) && g in scene
    ensures r <==> exists k :: 0 <= k < |Chain(scene, g)| && scene[Chain(scene, g)[k]].scale.Some?
  {
    FirstAlongFinds(scene, Chain(scene, g), LocalScale);
    SpecifiedScale(scene, g).Some?
  }

  function HasSpecifiedIsEditorVisible(scene: Scene, g: Guid): (r: bool)
    requires ValidScene(scene) && g in scene
    ensures r <==> exists k :: 0 <= k < |Chain(scene, g)| && scene[Chain(scene, g)[k]].isEditorVisible.Some?
  {
    FirstAlongFinds(scene, Chain(scene, g), LocalIsEditorVisible);
    SpecifiedIsEditorVisible(scene, g).Some?
  }

  function HasSpecifiedIsExcluded(scene: Scene, g: Guid): (r: bool)
    requires ValidScene(scene) && g in scene
    ensures r <==> exists k :: 0 <= k < |Chain(scene, g)| && scene[Chain(scene, g)[k]].isExcluded.Some?
  {
    FirstAlongFinds(scene, Chain(scene, g), LocalIsExcluded);
    SpecifiedIsExcluded(scene, g).Some?
  }

  // The effective getters: the specified value, else the field's default.

  function Name(scene: Scene, g: Guid): (r: string)
    requires ValidScene(scene) && g in scene
    ensures SpecifiedName(scene, g).Some? ==> r == SpecifiedName(scene, g).value
    ensures scene[g].name.Some? ==> r == scene[g].name.value
    ensures !HasSpecifiedName(scene, g) ==> r == DefaultName
  {
    SpecifiedName(scene, g).GetOr(DefaultName)
  }

  function Type(scene: Scene, g: Guid): (r: string)
    requires ValidScene(scene) && g in scene
    ensures SpecifiedType(scene, g).Some? ==> r == SpecifiedType(scene, g).value
    ensures scene[g].objectType.Some? ==> r == scene[g].objectType.value
    ensures !HasSpecifiedType(scene, g) ==> r == ""
  {
    SpecifiedType(scene, g).GetOr("")
  }

  /** ParentId: the id of the parent, or the empty id when there is none. */
  function ParentId(scene: Scene, g: Guid): (r: Guid)
    requires ValidScene(scene) && g in scene
    ensures SpecifiedParent(scene, g).Some? ==> r == SpecifiedParent(scene, g).value && r in scene
    ensures SpecifiedParent(scene, g).None? ==> r == EmptyGuid
  {
    ParentInScene(scene, g);
    SpecifiedParent(scene, g).GetOr(EmptyGuid)
  }

  /** The parent an object sees is an object of the scene. */
  lemma ParentInScene(scene: Scene, g: Guid)
    requires ValidScene(scene) && g in scene
    ensures SpecifiedParent(scene, g).Some? ==> SpecifiedParent(scene, g).value in scene
  {
    var c := Chain(scene, g);
    if SpecifiedParent(scene, g).Some? {
      FirstAlongFinds(scene, c, LocalParent);
      var k :| 0 <= k < |c| && LocalParent(scene[c[k]]) == FirstAlong(scene, c, LocalParent);
      assert scene[c[k]].parent == SpecifiedParent(scene, g);
    }
  }

  /** InstanceOfId: the prototype's id, or the empty id when there is none. */
  function InstanceOfId(scene: Scene, g: Guid): (r: Guid)
    requires ValidScene(scene) && g in scene
    ensures scene[g].instanceOf.Some? ==> r == scene[g].instanceOf.value && r in scene
    ensures scene[g].instanceOf.None? ==> r == EmptyGuid
  {
    scene[g].instanceOf.GetOr(EmptyGuid)
  }

  function Position(scene: Scene, g: Guid): (r: Vector3)
    requires ValidScene(scene) && g in scene
    ensures SpecifiedPosition(scene, g).Some? ==> r == SpecifiedPosition(scene, g).value
    ensures scene[g].position.Some? ==> r == scene[g].position.value
    ensures !HasSpecifiedPosition(scene, g) ==> r == DefaultPosition
  {
    SpecifiedPosition(scene, g).GetOr(DefaultPosition)
  }

  function Rotation(scene: Scene, g: Guid): (r: Quaternion)
    requires ValidScene(scene) && g in scene
    ensures SpecifiedRotation(scene, g).Some? ==> r == SpecifiedRotation(scene, g).value
    ensures scene[g].rotation.Some? ==> r == scene[g].rotation.value
    ensures !HasSpecifiedRotation(scene, g) ==> r == DefaultRotation
  {
    SpecifiedRotation(scene, g).GetOr(DefaultRotation)
  }

  function Scale(scene: Scene, g: Guid): (r: Vector3)
    requires ValidScene(scene) && g in scene
    ensures SpecifiedScale(scene, g).Some? ==> r == SpecifiedScale(scene, g).value
    ensures scene[g].scale.Some? ==> r == scene[g].scale.value
    ensures !HasSpecifiedScale(scene, g) ==> r == DefaultScale
  {
    SpecifiedScale(scene, g).GetOr(DefaultScale)
  }

  function IsEditorVisible(scene: Scene, g: Guid): (r: bool)
    requires ValidScene(scene) && g in scene
    ensures SpecifiedIsEditorVisible(scene, g).Some? ==> r == SpecifiedIsEditorVisible(scene, g).value
    ensures scene[g].isEditorVisible.Some? ==> r == scene[g].isEditorVisible.value
    ensures !HasSpecifiedIsEditorVisible(scene, g) ==> r == DefaultIsEditorVisible
  {
    SpecifiedIsEditorVisible(scene, g).GetOr(DefaultIsEditorVisible)
  }

  function IsExcluded(scene: Scene, g: Guid): (r: bool)
    requires ValidScene(scene) && g in scene
    ensures SpecifiedIsExcluded(scene, g).Some? ==> r == SpecifiedIsExcluded(scene, g).value
    ensures scene[g].isExcluded.Some? ==> r == scene[g].isExcluded.value
    ensures !HasSpecifiedIsExcluded(scene, g) ==> r == DefaultIsExcluded
  {
    SpecifiedIsExcluded(scene, g).GetOr(DefaultIsExcluded)
  }

  /** An instance without a local value sees its prototype's: for every field, an
      object that does not set it has the effective value of the object it is an
      instance of. */
  lemma EffectiveInherited(scene: Scene, g: Guid)
    requires ValidScene(scene) && g in scene && scene[g].instanceOf.Some?
    ensures var o, h := scene[g], scene[g].instanceOf.value;
      && (o.name.None? ==> Name(scene, g) == Name(scene, h))
      && (o.objectType.None? ==> Type(scene, g) == Type(scene, h))
      && (o.position.None? ==> Position(scene, g) == Position(scene, h))
      && (o.rotation.None? ==> Rotation(scene, g) == Rotation(scene, h))
      && (o.scale.None? ==> Scale(scene, g) == Scale(scene, h))
      && (o.isEditorVisible.None? ==> IsEditorVisible(scene, g) == IsEditorVisible(scene, h))
      && (o.isExcluded.None? ==> IsExcluded(scene, g) == IsExcluded(scene, h))
      && (!o.hasSpecifiedParent ==>
            (SpecifiedParent(scene, g) == SpecifiedParent(scene, h)
             && ParentId(scene, g) == ParentId(scene, h)
             && HasSpecifiedParent(scene, g) == HasSpecifiedParent(scene, h)))
  {
  }

  /** With no local values and no prototype, every effective value is its default. */
  lemma EffectiveDefaults(scene: Scene, g: Guid)
    requires ValidScene(scene) && g in scene
    requires scene[g] == NewObjectWithId(g)
    ensures Name(scene, g) == DefaultName && Type(scene, g) == ""
    ensures ParentId(scene, g) == DefaultParentId && InstanceOfId(scene, g) == DefaultInstanceOf
    ensures Position(scene, g) == DefaultPosition && Rotation(scene, g) == DefaultRotation
    ensures Scale(scene, g) == DefaultScale
    ensures IsEditorVisible(scene, g) == DefaultIsEditorVisible && IsExcluded(scene, g) == DefaultIsExcluded
    ensures !HasSpecifiedParent(scene, g)
  {
    assert Chain(scene, g) == [g];
  }

  // ---------------------------------------------------------------------------
  // Parameters.
  // ---------------------------------------------------------------------------

  function GetParameterFromName(scene: Scene, g: Guid, name: string): (r: Option<Parameter>)
    requires ValidScene(scene) && g in scene
    ensures r == FirstAlong(scene, Chain(scene, g), (o: SceneObject) => TryGetParameterFromName(o.localParameters, name))
  {
    Inherited(scene, g, (o: SceneObject) => TryGetParameterFromName(o.localParameters, name))
  }

  function GetParameterFromPath(scene: Scene, g: Guid, path: string): (r: Option<Parameter>)
    requires ValidScene(scene) && g in scene && '/' in path
    ensures r == FirstAlong(scene, Chain(scene, g), (o: SceneObject) => PathGet(o.localParameters, Split(path)))
  {
    Inherited(scene, g, (o: SceneObject) => PathGet(o.localParameters, Split(path)))
  }

  /** The local lookup GetParameter makes in each object it visits. */
  function LocalParameter(path: string): SceneObject -> Option<Parameter>
  {
    (o: SceneObject) => TryGetValue(o.localParameters, path)
  }

  /** GetParameter: a lookup by name or by path, as the key says, first in the object's
      local parameters and then along its prototype chain. */
  function GetParameter(scene: Scene, g: Guid, path: string): (r: Option<Parameter>)
    requires ValidScene(scene) && g in scene
    ensures r == FirstAlong(scene, Chain(scene, g), LocalParameter(path))
  {
    if '/' in path then
      assert forall o: SceneObject :: PathGet(o.localParameters, Split(path)) == TryGetValue(o.localParameters, path);
      FirstAlongSame(scene, Chain(scene, g), (o: SceneObject) => PathGet(o.localParameters, Split(path)),
                     LocalParameter(path));
      GetParameterFromPath(scene, g, path)
    else
      FirstAlongSame(scene, Chain(scene, g), (o: SceneObject) => TryGetParameterFromName(o.localParameters, path),
                     LocalParameter(path));
      GetParameterFromName(scene, g, path)
  }

  lemma {:induction false} FirstAlongSame<T>(scene: Scene, ids: seq<Guid>, f: SceneObject -> Option<T>,
                                             h: SceneObject -> Option<T>)
    requires forall k :: 0 <= k < |ids| ==> ids[k] in scene
    requires forall o :: f(o) == h(o)
    ensures FirstAlong(scene, ids, f) == FirstAlong(scene, ids, h)
  {
    if |ids| > 0 {
      FirstAlongSame(scene, ids[1..], f, h);
    }
  }

  /** GetParameter finds nothing exactly when no object along the chain has the key. */
  lemma {:induction false} GetParameterSearchesChain(scene: Scene, g: Guid, path: string)
    requires ValidScene(scene) && g in scene
    ensures GetParameter(scene, g, path).None? <==>
      forall k :: 0 <= k < |Chain(scene, g)| ==> !ContainsKey(scene[Chain(scene, g)[k]].localParameters, path)
  {
    var c := Chain(scene, g);
    var f := LocalParameter(path);
    FirstAlongFinds(scene, c, f);
    if GetParameter(scene, g, path).Some? {
      var k :| 0 <= k < |c| && f(scene[c[k]]) == FirstAlong(scene, c, f)
        && forall j :: 0 <= j < k ==> f(scene[c[j]]).None?;
      assert ContainsKey(scene[Chain(scene, g)[k]].localParameters, path);
    } else {
      forall k | 0 <= k < |c| ensures !ContainsKey(scene[c[k]].localParameters, path) {
        assert f(scene[c[k]]).None?;
      }
    }
  }

  /** A key the object itself has is answered from its local parameters. */
  lemma GetParameterPrefersLocal(scene: Scene, g: Guid, path: string)
    requires ValidScene(scene) && g in scene
    requires ContainsKey(scene[g].localParameters, path)
    ensures GetParameter(scene, g, path) == TryGetValue(scene[g].localParameters, path)
  {
    var c := Chain(scene, g);
    assert LocalParameter(path)(scene[c[0]]).Some?;
  }

  // ---------------------------------------------------------------------------
  // Custom properties.
  // ---------------------------------------------------------------------------

  /** The names of the standard properties of an object. */
  const ReservedNames: seq<string> := ["id", "name", "parentId", "instanceOf", "type", "position",
                                       "rotation", "scale", "isEditorVisible", "isExcluded", "parameters"]

  /** Some name of `names` is a key of `c`. */
  function AnyKeyIn(c: ParameterCollection, names: seq<string>): (r: bool)
    ensures r <==> exists k :: 0 <= k < |names| && ContainsKey(c, names[k])
  {
    if |names| == 0 then false
    else
      assert forall k :: 1 <= k < |names| ==> names[1..][k - 1] == names[k];
      ContainsKey(c, names[0]) || AnyKeyIn(c, names[1..])
  }

  /** HasInvalidCustomProperties: a custom property is named like a standard one. */
  function HasInvalidCustomProperties(o: SceneObject): (r: bool)
    ensures r <==> exists k :: 0 <= k < |ReservedNames| && ContainsKey(o.localCustomProperties, ReservedNames[k])
  {
    AnyKeyIn(o.localCustomProperties, ReservedNames)
  }

  // ---------------------------------------------------------------------------
  // The two parent setters.
  // ---------------------------------------------------------------------------

  /** Changing the parent fields keeps a scene linked and acyclic. */
  lemma SetParentKeepsValid(scene: Scene, g: Guid, o: SceneObject)
    requires ValidScene(scene) && g in scene
    requires o.id == g && o.instanceOf == scene[g].instanceOf
    requires o.parent.Some? ==> o.parent.value in scene
    ensures ValidScene(scene[g := o])
  {
    var rank := ChosenRank(scene);
    assert Ranked(scene[g := o], rank);
  }

  /** Setting Parent to null records an explicit "no parent": the object then has a
      specified parent and it is none. Setting SpecifiedParent to null instead makes the
      object inherit the parent again, from its prototype. */
  lemma ParentSettersDiffer(scene: Scene, g: Guid)
    requires ValidScene(scene) && g in scene
    ensures ValidScene(scene[g := SetParent(scene[g], None)])
    ensures HasSpecifiedParent(scene[g := SetParent(scene[g], None)], g)
    ensures SpecifiedParent(scene[g := SetParent(scene[g], None)], g).None?
    ensures ValidScene(scene[g := SetSpecifiedParent(scene[g], None)])
    ensures scene[g].instanceOf.None? ==> !HasSpecifiedParent(scene[g := SetSpecifiedParent(scene[g], None)], g)
    ensures scene[g].instanceOf.Some? ==>
      HasSpecifiedParent(scene[g := SetSpecifiedParent(scene[g], None)], g)
        == HasSpecifiedParent(scene, scene[g].instanceOf.value)
  {
    var o1 := SetParent(scene[g], None);
    var o2 := SetSpecifiedParent(scene[g], None);
    SetParentKeepsValid(scene, g, o1);
    SetParentKeepsValid(scene, g, o2);
    var s1 := scene[g := o1];
    var s2 := scene[g := o2];
    assert Chain(s1, g)[0] == g;
    if scene[g].instanceOf.Some? {
      var h := scene[g].instanceOf.value;
      assert Chain(scene, g) == [g] + Chain(scene, h);
      GNotInOwnPrototypeChain(scene, g);
      InheritedUnaffected(scene, g, o2, h, LocalParent);
    } else {
      assert Chain(s2, g) == [g];
    }
  }

  /** An object never appears on its prototype's chain. */
  lemma GNotInOwnPrototypeChain(scene: Scene, g: Guid)
    requires ValidScene(scene) && g in scene && scene[g].instanceOf.Some?
    ensures g !in Chain(scene, scene[g].instanceOf.value)
  {
    var rank := ChosenRank(scene);
    ChainRanks(scene, scene[g].instanceOf.value, rank);
  }

  /** Ranks only decrease along a chain. */
  lemma {:induction false} ChainRanks(scene: Scene, h: Guid, rank: map<Guid, nat>)
    requires ValidScene(scene) && h in scene && Ranked(scene, rank)
    ensures forall x :: x in Chain(scene, h) ==> x in rank && rank[x] <= rank[h]
    decreases ChosenRank(scene)[h]
  {
    match scene[h].instanceOf
    case None =>
    case Some(next) =>
      ChainRanks(scene, next, rank);
      assert Chain(scene, h) == [h] + Chain(scene, next);
  }
}
