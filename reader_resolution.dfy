/** The deferred pass of ReadIntoAssignedProject (libHSON/ProjectReader.cs): mappings
    resolve in parse order against the registry as it grows, so what was registered
    before stays, a reference to an object later in the document fails, and the
    registry stays a valid scene. */
module ReaderResolution {
  import opened Wrappers
  import opened Externals
  import opened SceneObjects
  import opened ObjectCollections
  import opened ReaderSpec
  import opened ReaderProperties
  import Json
  import ProjectMeta = Metadata

  /** The pass only appends: the registry it started from is a prefix of the result,
      each object added carries the id of its mapping, in the mappings' order, and all
      are added when nothing throws. */
  lemma {:induction false} ResolveAppends(items: seq<SceneObject>, maps: seq<ObjectIdMapping>)
    ensures var r := Resolve(items, maps);
      && |items| <= |r.items| <= |items| + |maps|
      && r.items[..|items|] == items
      && (forall k :: |items| <= k < |r.items| ==> r.items[k].id == maps[k - |items|].obj.id)
      && (r.error.None? ==> |r.items| == |items| + |maps|)
    decreases |maps|
  {
    if |maps| > 0 {
      match ResolveMapping(items, maps[0])
      case Failure(_) =>
      case Success(o) =>
        if Find(items, o.id).None? {
          var items' := items + [o];
          ResolveAppends(items', maps[1..]);
          var r := Resolve(items', maps[1..]);
          assert r.items[..|items|] == r.items[..|items'|][..|items|];
          forall k | |items| <= k < |r.items| ensures r.items[k].id == maps[k - |items|].obj.id {
            if k == |items| {
              assert r.items[k] == r.items[..|items'|][k];
            } else {
              assert maps[1..][k - |items'|] == maps[k - |items|];
            }
          }
        }
    }
  }

  /** A mapping that refers to an object whose mapping comes later, and which neither
      the registry nor an earlier mapping holds, makes the pass throw: resolution is in
      parse order, so forward references fail. */
  lemma {:induction false} ForwardReferenceFails(items: seq<SceneObject>, maps: seq<ObjectIdMapping>, i: nat, j: nat)
    requires i < j < |maps|
    requires maps[i].parentId == Some(maps[j].obj.id) || maps[i].instanceOf == Some(maps[j].obj.id)
    requires Find(items, maps[j].obj.id).None?
    requires forall k :: 0 <= k < i ==> maps[k].obj.id != maps[j].obj.id
    ensures Resolve(items, maps).error.Some?
    decreases i
  {
    if i > 0 {
      match ResolveMapping(items, maps[0])
      case Failure(_) =>
      case Success(o) =>
        if Find(items, o.id).None? {
          var g := maps[j].obj.id;
          assert o.id == maps[0].obj.id != g;
          FindSnoc(items, o, g);
          assert maps[1..][i - 1] == maps[i] && maps[1..][j - 1] == maps[j];
          forall k | 0 <= k < i - 1 ensures maps[1..][k].obj.id != g {
            assert maps[1..][k] == maps[k + 1];
          }
          ForwardReferenceFails(items + [o], maps[1..], i - 1, j - 1);
        }
    }
  }

  /** The pass keeps the registry's ids distinct: an object whose id is already there
      makes ObjectCollection.Add throw instead. */
  lemma {:induction false} ResolveKeepsDistinct(items: seq<SceneObject>, maps: seq<ObjectIdMapping>)
    requires DistinctIds(items)
    ensures DistinctIds(Resolve(items, maps).items)
    decreases |maps|
  {
    if |maps| > 0 {
      match ResolveMapping(items, maps[0])
      case Failure(_) =>
      case Success(o) =>
        if Find(items, o.id).None? {
          assert DistinctIds(items + [o]);
          ResolveKeepsDistinct(items + [o], maps[1..]);
        }
    }
  }

  /** Starting from a valid registry with distinct ids that holds every object its
      objects refer to, and from mappings the token loop left unlinked, the pass leaves
      a registry that is still such a valid scene, whether or not it throws. */
  lemma {:induction false} ResolveKeepsValid(items: seq<SceneObject>, maps: seq<ObjectIdMapping>)
    requires DistinctIds(items) && ValidScene(SceneOf(items))
    requires forall k :: 0 <= k < |maps| ==> Unlinked(maps[k])
    ensures ValidScene(SceneOf(Resolve(items, maps).items))
    decreases |maps|
  {
    if |maps| > 0 {
      match ResolveMapping(items, maps[0])
      case Failure(_) =>
      case Success(o) =>
        if Find(items, o.id).None? {
          AddResolvedKeepsValid(items, maps[0]);
          forall k | 0 <= k < |maps[1..]| ensures Unlinked(maps[1..][k]) {
            assert maps[1..][k] == maps[k + 1];
          }
          ResolveKeepsValid(items + [o], maps[1..]);
        }
    }
  }

  /** `scene` with the objects of `xs` from index `from` on stored under their ids. */
  ghost function WithAdded(scene: Scene, xs: seq<SceneObject>, from: nat): Scene
    decreases |xs| - from
  {
    if from >= |xs| then scene else WithAdded(scene[xs[from].id := xs[from]], xs, from + 1)
  }

  /** The registry's objects may refer to objects outside it: `world` holds them all,
      and the registry's objects as they are. When no object of the world other than a
      registered one carries an id the token loop read, the world with the added
      objects is still a valid scene holding the whole registry: the added objects
      refer only to registered ones. */
  lemma {:induction false} ResolveKeepsWorld(world: Scene, items: seq<SceneObject>, maps: seq<ObjectIdMapping>)
    requires DistinctIds(items) && ValidScene(world) && HoldsAll(world, items)
    requires forall k :: 0 <= k < |maps| ==> Unlinked(maps[k])
    requires forall k :: 0 <= k < |maps| && maps[k].obj.id in world ==> Find(items, maps[k].obj.id).Some?
    ensures var r := Resolve(items, maps);
      ValidScene(WithAdded(world, r.items, |items|)) && HoldsAll(WithAdded(world, r.items, |items|), r.items)
    decreases |maps|
  {
    var r := Resolve(items, maps);
    if |maps| == 0 {
    } else {
      match ResolveMapping(items, maps[0])
      case Failure(_) =>
      case Success(o) =>
        if Find(items, o.id).None? {
          var items' := items + [o];
          var world' := world[o.id := o];
          assert o.id == maps[0].obj.id && o.id !in world;
          ExtendScene(world, o);
          forall i | 0 <= i < |items'| ensures items'[i].id in world' && world'[items'[i].id] == items'[i] {
            if i < |items| {
              assert items[i].id in world;
            }
          }
          forall k | 0 <= k < |maps[1..]| ensures Unlinked(maps[1..][k]) {
            assert maps[1..][k] == maps[k + 1];
          }
          forall k | 0 <= k < |maps[1..]| && maps[1..][k].obj.id in world'
            ensures Find(items', maps[1..][k].obj.id).Some?
          {
            var g := maps[1..][k].obj.id;
            assert maps[1..][k] == maps[k + 1];
            FindSnoc(items, o, g);
          }
          ResolveKeepsWorld(world', items', maps[1..]);
          ResolveAppends(items', maps[1..]);
          assert r.items[|items|] == r.items[..|items'|][|items|] == o;
        }
    }
  }

  /** A read adds to the project's registry and removes nothing from it, keeps its ids
      distinct, and keeps it a valid scene when it was one, whether it succeeds or
      throws. */
  lemma ReadKeepsRegistry(host: Host, m: ProjectMeta.ProjectMetadata, items: seq<SceneObject>, data: VecData, tokens: seq<Json.Token>)
    requires DistinctIds(items)
    ensures var r := ReadIntoProject(host, m, items, data, tokens);
      && |items| <= |r.items| && r.items[..|items|] == items
      && DistinctIds(r.items)
      && (ValidScene(SceneOf(items)) ==> ValidScene(SceneOf(r.items)))
  {
    var out := Run(host, Initial(m, data), tokens);
    InitialConsistent(m, data);
    RunKeepsConsistent(host, Initial(m, data), tokens);
    var r := ReadIntoProject(host, m, items, data, tokens);
    if out.error.None? {
      var maps := out.state.objIdMaps;
      assert r.items == Resolve(items, maps).items;
      ResolveAppends(items, maps);
      ResolveKeepsDistinct(items, maps);
      if ValidScene(SceneOf(items)) {
        ResolveKeepsValid(items, maps);
      }
    } else {
      assert r.items == items;
    }
  }
}
