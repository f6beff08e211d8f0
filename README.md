# libHSON core in Dafny

A model of libHSON. libHSON reads and writes HSON, a JSON format for projects of scene
objects. The model covers four parts:

- **Parameter values and their collections.** A `Parameter` is a tagged union of
  boolean, signed and unsigned 64-bit integer, double, string, array and object. A
  `ParameterCollection` is a string-keyed dictionary of parameters. A key that contains
  `/` is a path through nested object parameters.
- **Scene objects.** Every inheritable field of an object has a local, optional value.
  The effective value is the local one, else the prototype's (`instanceOf`) value,
  found recursively, else a fixed default. `Object.Write` decides, property by
  property, whether a value has to be written.
- **The reader.** `ProjectReader` turns a stream of JSON tokens into a project. It is an
  explicit state machine with:
  - a stack of open parameters;
  - a four-slot buffer for position, rotation and scale;
  - a deferred pass that resolves `parentId` and `instanceOf` against the project's
    registry, in parse order.
- **The glue.** `Project.Write` and `Project.Read`, `ProjectMetadata`,
  `ObjectCollection` and the `ProjectWriteOptions` bitmask.

How the model is built:

- JSON input and output are sequences of an abstract `Token` (module `Json`).
  - A `JsonWriter` class records the tokens written. Every writing method is proved to
    append exactly the tokens of a pure function of its inputs.
  - Where the source throws part-way, the tokens written before the exception stay
    recorded. A writer's result is `Written(tokens, error)`.
- Objects live in a scene: a map from ids to objects, in which links are ids.
  - `ValidScene` says every link resolves and prototype chains are acyclic, witnessed by
    a rank that decreases along each link.
  - The source has no cycle guard, so the recursive lookups require `ValidScene`.
- The reader has two layers.
  - `ReaderSpec` is the pure state machine: `Step` per token, `Run` for the token loop,
    `Resolve` for the deferred pass and `ReadIntoProject` for the whole read.
  - `ProjectReaders.ProjectReader` is a class with the source's fields: `curState`,
    `paramStack`, `curObjMap`, `objIdMaps`, `fileVersionNumber`, `curVecElemIndex`,
    and `curVecData` as a four-element `array`.
  - Each handler method is proved to take exactly the step `ReaderSpec` prescribes.
  - `ReaderProperties`, `ReaderTransitions` and `ReaderResolution` prove what that
    machine guarantees.
- Everything the core takes from the .NET runtime is a parameter of type
  `Externals.Host`:
  - Guid text and its parsing (`ParseExact(…, "B")`);
  - `Guid.NewGuid`, as the k-th fresh id of a read;
  - DateTime text and its parsing;
  - the number literal the writer emits for a float.

  `ValidHost` states what the runtime guarantees of these: `NewGuid` is never empty,
  and number formatting keeps its value.

## Model

| member | source | states |
|---|---|---|
| Parameters.NewParameter | libHSON/Parameter.cs:10-12 | `new Parameter()` is FloatingPoint, and its floating-point getter returns 0.0 (also the constructor at line 178) |
| Parameters.NewParameterOfType | libHSON/Parameter.cs:180-196 | `Parameter(type)` carries the given tag, and the matching getter returns that type's zero: false, 0, 0, 0.0, "", an empty list, an empty collection |
| Parameters.ValueBoolean | libHSON/Parameter.cs:34-42 | succeeds exactly on a boolean and returns its value; any other tag is an InvalidCast |
| Parameters.ValueSignedIntegerUnchecked | libHSON/Parameter.cs:44-69 | the getter as written: succeeds on both integer tags; an unsigned value above Int64.MaxValue comes back reduced by 2^64 |
| Parameters.ValueSignedInteger | libHSON/Parameter.cs:44-69 | the getter as its comments describe it: succeeds exactly on a signed value, or an unsigned one up to Int64.MaxValue, keeping the number; Overflow exactly for a larger unsigned value; InvalidCast for every other tag |
| Parameters.ValueUnsignedIntegerUnchecked | libHSON/Parameter.cs:77-101 | the getter as written: succeeds on both integer tags; a negative signed value comes back increased by 2^64 |
| Parameters.ValueUnsignedInteger | libHSON/Parameter.cs:77-101 | the getter as its comments describe it: succeeds exactly on an unsigned value, or a non-negative signed one, keeping the number; Overflow exactly for a negative value; InvalidCast otherwise |
| Parameters.ValueFloatingPoint | libHSON/Parameter.cs:110-138 | succeeds exactly on FloatingPoint, SignedInteger and UnsignedInteger, with the number held; InvalidCast on boolean, string, array and object |
| Parameters.ValueString | libHSON/Parameter.cs:146-154 | succeeds exactly on a string, returning it; on any other tag it fails with InvalidCast |
| Parameters.ValueArray | libHSON/Parameter.cs:156-164 | succeeds exactly on an array, returning its elements; on any other tag it fails with InvalidCast |
| Parameters.ValueObject | libHSON/Parameter.cs:166-174 | succeeds exactly on an object, returning its collection; on any other tag it fails with InvalidCast |
| Parameters.SetterThenGetter | libHSON/Parameter.cs:34-174 | each typed setter (and typed constructor) retags the parameter to its type, and the matching getter returns exactly the value stored |
| Parameters.FloatingPointAgreesWithIntegers | libHSON/Parameter.cs:110-138 | wherever an integer getter succeeds, the floating-point getter returns the same number, with doubles modelled as reals (no rounding above 2^53) |
| Parameters.UncheckedSignedGetterWraps | libHSON/Parameter.cs:54-58 | the stored unsigned 2^63 reads back from the signed getter as written as -2^63, where the intended getter reports Overflow |
| Parameters.UncheckedUnsignedGetterWraps | libHSON/Parameter.cs:87-91 | the stored signed -1 reads back from the unsigned getter as written as 2^64 - 1, where the intended getter reports Overflow |
| Parameters.UncheckedAgreesWithinRange | libHSON/Parameter.cs:44-101 | the getters as written agree with the intended ones wherever those succeed, and return a wrong value on every input those reject for overflow |
| ParameterWriter.WriteValue | libHSON/Parameter.cs:242-283 | appends exactly one JSON value for the tag: a scalar token; an array as start-array, each element in list order, end-array; an object as start-object, its entries, end-object |
| ParameterWriter.WriteElements | libHSON/Parameter.cs:266-275 | the loop over an array's elements appends each element's value in list order |
| ParameterWriter.ElementsTokensAppend | libHSON/Parameter.cs:266-275 | the output for two runs of array elements is the first's output followed by the second's |
| ParameterWriter.EntriesTokensAppend | libHSON/ParameterCollection.cs:420-427 | the output for two runs of entries is the first's output followed by the second's |
| ParameterWriter.WriteAll | libHSON/ParameterCollection.cs:420-427 | `WriteAll` appends, for each entry in order, its key as a property name followed by its value |
| ParameterCollections.LookupFinds | libHSON/ParameterCollection.cs:378-382 | a direct lookup finds a name exactly when some entry carries it |
| ParameterCollections.Store | libHSON/ParameterCollection.cs:150-153 | the dictionary indexer stores the value under the name; the dictionary grows by one exactly when the name was absent |
| ParameterCollections.StoreOthers | libHSON/ParameterCollection.cs:150-153 | storing under one name leaves every other name's lookup as it was |
| ParameterCollections.StoreKeepsWellFormed | libHSON/ParameterCollection.cs:150-153 | storing keeps the keys unique and every value well formed |
| ParameterCollections.TryInsert | libHSON/ParameterCollection.cs:515-518 | the dictionary's TryAdd adds exactly when the key is absent, and otherwise leaves the entries as they were |
| ParameterCollections.TryInsertIsStore | libHSON/ParameterCollection.cs:515-518 | on an absent key, the dictionary's TryAdd stores exactly like the indexer |
| ParameterCollections.StoreNewAppends | libHSON/ParameterCollection.cs:150-153 | the indexer, on a name no entry carries, appends the new entry after the existing ones |
| ParameterCollections.DeleteEffect | libHSON/ParameterCollection.cs:469-474 | the dictionary's Remove deletes only the named entry; removing an absent name changes nothing |
| ParameterCollections.DeleteKeepsWellFormed | libHSON/ParameterCollection.cs:469-474 | deleting keeps the keys unique and every value well formed |
| ParameterCollections.IndexOfFinds | libHSON/ParameterCollection.cs:149 | `IndexOf('/', from)` is -1 exactly when no separator follows `from`, and otherwise is the first separator at or after it |
| ParameterCollections.SplitNames | libHSON/ParameterCollection.cs:356-376 | no name of a key contains `/`, and a key has two or more names exactly when it contains `/` |
| ParameterCollections.JoinSplit | libHSON/ParameterCollection.cs:356-376 | joining the names of a key with `/` gives back the key |
| ParameterCollections.SplitJoin | libHSON/ParameterCollection.cs:356-376 | splitting a joined list of separator-free names gives back the list |
| ParameterCollections.SplitPlain | libHSON/ParameterCollection.cs:149-153 | a key without a separator is one name |
| ParameterCollections.NamesInPathShape | libHSON/ParameterCollection.cs:356-376 | a key that contains `/` yields at least two names; only the last is flagged final, none contains `/`, and joining them with `/` gives back the key |
| ParameterCollections.GetEachNameInPath | libHSON/ParameterCollection.cs:356-376 | the loop yields exactly the names of the path, the first ending at the given separator, only the last flagged final |
| ParameterCollections.TryGetParameterFromName | libHSON/ParameterCollection.cs:378-382 | finds a parameter exactly when a top-level entry has the key |
| ParameterCollections.TryGetParameterFromPath | libHSON/ParameterCollection.cs:384-418 | a path lookup follows the names through object parameters; when it finds something, the first name leads to an object parameter |
| ParameterCollections.TryGetValue | libHSON/ParameterCollection.cs:560-568 | lookup by name or by path, as the key says: the walk along the key's names, which fails softly on a missing name or a non-object intermediate and returns the final parameter whatever its tag |
| ParameterCollections.ContainsKey | libHSON/ParameterCollection.cs:443-444 | holds exactly when TryGetValue finds the key, so paths are accepted |
| ParameterCollections.Count | libHSON/ParameterCollection.cs:133 | the number of top-level entries |
| ParameterCollections.Get | libHSON/ParameterCollection.cs:137-145 | the indexer's getter succeeds exactly when ContainsKey holds and returns TryGetValue's parameter; otherwise KeyNotFound |
| ParameterCollections.UpdatePath | libHSON/ParameterCollection.cs:156-192 | the walk of the setter and of TryAdd: an assignment stores the value; an insertion adds exactly when the path is unresolved; a failure is always NotAnObject; at most one top-level entry is added; the collection stays well formed |
| ParameterCollections.Set | libHSON/ParameterCollection.cs:146-193 | the indexer's setter is that walk with assignment; when it does not throw, TryGetValue of the key returns the value set |
| ParameterCollections.TryAdd | libHSON/ParameterCollection.cs:511-558 | the walk with insertion: on true the key now reads the value; on false the key reads what it read before |
| ParameterCollections.Add | libHSON/ParameterCollection.cs:431-439 | TryAdd's collection, with a false result turned into KeyExists (an ArgumentException) |
| ParameterCollections.RemovePath | libHSON/ParameterCollection.cs:476-504 | Remove's walk reports exactly the parameter the path resolves to, changes nothing when it resolves to none, and shrinks the top level only for a one-name key |
| ParameterCollections.Remove | libHSON/ParameterCollection.cs:464-505 | Remove of a key is that walk, and reports exactly what TryGetValue found |
| ParameterCollectionFacts.UpdateFailsExactlyWhenBlocked | libHSON/ParameterCollection.cs:170-181 | an update throws exactly when some proper prefix of the path leads to a parameter that is not an object |
| ParameterCollectionFacts.UpdateKeepsOtherNames | libHSON/ParameterCollection.cs:146-193 | an update leaves the lookup of every top-level name other than the path's first as it was |
| ParameterCollectionFacts.UpdateLeavesDivergentPaths | libHSON/ParameterCollection.cs:171-185 | whether it succeeds or throws, an update leaves every path that parts ways with its own as it was, so setting `a/x` keeps `a/b` |
| ParameterCollectionFacts.UpdateLeavesObjectsAlongPath | libHSON/ParameterCollection.cs:171-185 | after an update that did not throw, every proper prefix of the path leads to an object parameter, and existing ones were objects already (reused, not replaced) |
| ParameterCollectionFacts.UpdateOnEmptySucceeds | libHSON/ParameterCollection.cs:172-185 | an update along any path in an empty collection creates the missing object parameters and succeeds |
| ParameterCollectionFacts.UpdateRefusedChangesNothing | libHSON/ParameterCollection.cs:171-185 | an update along a path that throws or reports false leaves the collection as it was: it can throw, or find the key taken, only where every intermediate already existed, so it has created nothing |
| ParameterCollectionFacts.RefusedUpdatesChangeNothing | libHSON/ParameterCollection.cs:511-558 | a TryAdd that throws or returns false, an Add that throws, or a setter (lines 146-193) that throws, leaves the collection as it was |
| ParameterCollectionFacts.SetAndTryAddFailExactlyWhenBlocked | libHSON/ParameterCollection.cs:172-181 | the setter and TryAdd (lines 531-542) throw exactly when an existing intermediate is not an object parameter, with the argument error |
| ParameterCollectionFacts.SetThenGet | libHSON/ParameterCollection.cs:146-193 | after a set that does not throw, TryGetValue and ContainsKey on that key see exactly the value set |
| ParameterCollectionFacts.SetFoundKey | libHSON/ParameterCollection.cs:146-193 | setting a key that already resolves never throws, and replaces its value |
| ParameterCollectionFacts.TryAddOutcome | libHSON/ParameterCollection.cs:511-558 | TryAdd returns false exactly when the key already resolves, and then keeps the old value; otherwise the key reads the new value; Add throws KeyExists exactly when the key resolves |
| ParameterCollectionFacts.UpdatesLeaveOtherKeys | libHSON/ParameterCollection.cs:171-185 | the setter, TryAdd and Add leave the lookup of every key whose path parts ways with theirs as it was |
| ParameterCollectionFacts.UpdatesCountTopLevel | libHSON/ParameterCollection.cs:133 | Count counts top-level entries only: an update adds one exactly when the path's first name was absent |
| ParameterCollectionFacts.RemoveLeavesDivergentPaths | libHSON/ParameterCollection.cs:476-504 | removing leaves every path that parts ways with the removed one as it was |
| ParameterCollectionFacts.RemoveEffect | libHSON/ParameterCollection.cs:464-505 | Remove reports what the key resolved to; for an unresolved key it creates and changes nothing; afterwards the key no longer resolves |
| ParameterCollectionFacts.RemoveLeavesOtherKeys | libHSON/ParameterCollection.cs:466-505 | Remove leaves the lookup of every key whose path parts ways with the removed key as it was |
| ParameterCollectionFacts.FoundPathUnblocked | libHSON/ParameterCollection.cs:384-418 | a path that resolves passes through object parameters only |
| SceneObjects.NewObjectWithId | libHSON/Object.cs:415-418 | the internal constructor stores the id and leaves every other field unset |
| SceneObjects.NewObject | libHSON/Object.cs:424-448 | the public constructor rejects exactly an explicit empty id, otherwise stores the given or a fresh id and every given field (name, type, parent, instanceOf, position, rotation, scale, both flags) as it is; it marks the parent specified exactly when one is given, and starts with no parameters and no custom properties |
| SceneObjects.SetId | libHSON/Object.cs:297-310 | the Id setter rejects exactly the empty id, and otherwise changes only the id |
| SceneObjects.SetParent | libHSON/Object.cs:324-332 | the Parent setter marks the parent specified even for null, and changes nothing but the parent fields |
| SceneObjects.SetSpecifiedParent | libHSON/Object.cs:139-143 | the SpecifiedParent setter marks the parent specified exactly when it is not null |
| SceneObjects.Chain | libHSON/Object.cs:83-91 | following `instanceOf` from an object visits objects of the scene, starting with itself and ending at an object with no prototype |
| SceneObjects.Inherited | libHSON/Object.cs:73-94 | the Specified* recursion (local value, else the prototype's) is the first local value along the chain |
| SceneObjects.FirstAlongFinds | libHSON/Object.cs:73-94 | that lookup finds nothing exactly when no object along the chain has a local value, and otherwise finds the first one |
| SceneObjects.RootValueSeenAlongChain | libHSON/Object.cs:73-259 | a value set only at the root of a prototype chain is seen by every object on the chain |
| SceneObjects.InheritedUnaffected | libHSON/Object.cs:73-259 | changing one object leaves the inherited values of every object whose chain does not pass through it |
| SceneObjects.SpecifiedName | libHSON/Object.cs:73-94 | the first local name along the prototype chain |
| SceneObjects.SpecifiedType | libHSON/Object.cs:96-117 | the first local type along the chain (a local "" counts as present) |
| SceneObjects.SpecifiedPosition | libHSON/Object.cs:146-167 | the first local position along the chain |
| SceneObjects.SpecifiedRotation | libHSON/Object.cs:169-190 | the first local rotation along the chain |
| SceneObjects.SpecifiedScale | libHSON/Object.cs:192-213 | the first local scale along the chain |
| SceneObjects.SpecifiedIsEditorVisible | libHSON/Object.cs:215-236 | the first local isEditorVisible along the chain |
| SceneObjects.SpecifiedIsExcluded | libHSON/Object.cs:238-259 | the first local isExcluded along the chain |
| SceneObjects.HasSpecifiedParent | libHSON/Object.cs:265-285 | holds exactly when some object along the chain specified a parent, null included |
| SceneObjects.ParentSpecifiedAlong | libHSON/Object.cs:265-285 | the inherited parent is present exactly when some object along the chain specified one |
| SceneObjects.SpecifiedParent | libHSON/Object.cs:119-138 | an object's own specified parent wins; without one, an instance takes its prototype's SpecifiedParent and an object without a prototype has none; it is the first parent specified along the chain, and null when no object along it specifies one |
| SceneObjects.HasSpecifiedName | libHSON/Object.cs:261 | holds exactly when some object along the chain has a local name |
| SceneObjects.HasSpecifiedType | libHSON/Object.cs:263 | holds exactly when some object along the chain has a local type, "" included |
| SceneObjects.HasSpecifiedPosition | libHSON/Object.cs:287 | holds exactly when some object along the chain has a local position |
| SceneObjects.HasSpecifiedRotation | libHSON/Object.cs:289 | holds exactly when some object along the chain has a local rotation |
| SceneObjects.HasSpecifiedScale | libHSON/Object.cs:291 | holds exactly when some object along the chain has a local scale |
| SceneObjects.HasSpecifiedIsEditorVisible | libHSON/Object.cs:293 | holds exactly when some object along the chain has a local isEditorVisible |
| SceneObjects.HasSpecifiedIsExcluded | libHSON/Object.cs:295 | holds exactly when some object along the chain has a local isExcluded |
| SceneObjects.Name | libHSON/Object.cs:312-316 | the specified name when there is one, else the default name; so a local name is the effective name, and with no name along the chain the name is the default |
| SceneObjects.Type | libHSON/Object.cs:318-322 | the specified type when there is one, else ""; so a local type is the effective type, and with no type along the chain the type is "" |
| SceneObjects.ParentId | libHSON/Object.cs:334-341 | with a specified parent, its id, an object of the scene; without one, the empty id |
| SceneObjects.ParentInScene | libHSON/Object.cs:324-341 | the parent an object sees, local or inherited, is an object of the scene, so its Id is the id stored |
| SceneObjects.InstanceOfId | libHSON/Object.cs:349-356 | with a prototype, its id, an object of the scene; without one, the empty id |
| SceneObjects.Position | libHSON/Object.cs:358-362 | the specified position when there is one, else Vector3.Zero; so a local position is the effective one, and with none along the chain it is Vector3.Zero |
| SceneObjects.Rotation | libHSON/Object.cs:364-368 | the specified rotation when there is one, else Quaternion.Identity; so a local rotation is the effective one, and with none along the chain it is the identity |
| SceneObjects.Scale | libHSON/Object.cs:370-374 | the specified scale when there is one, else Vector3.One; so a local scale is the effective one, and with none along the chain it is Vector3.One |
| SceneObjects.IsEditorVisible | libHSON/Object.cs:401-405 | the specified flag when there is one, else true; a local value is the effective one, and with none along the chain it is true |
| SceneObjects.IsExcluded | libHSON/Object.cs:407-411 | the specified flag when there is one, else false; a local value is the effective one, and with none along the chain it is false |
| SceneObjects.EffectiveInherited | libHSON/Object.cs:73-259 | an instance that does not set a field has its prototype's effective name, type, position, rotation, scale and flags; one that specifies no parent has its prototype's parent, parent id and HasSpecifiedParent |
| SceneObjects.EffectiveDefaults | libHSON/Object.cs:10-24 | an object with nothing set and no prototype has the defaults: "", "", empty parent and instanceOf ids, position zero, rotation identity, scale one, visible, not excluded, no specified parent |
| SceneObjects.GetParameterFromName | libHSON/Object.cs:452-469 | the first hit of a direct lookup along the prototype chain |
| SceneObjects.GetParameterFromPath | libHSON/Object.cs:471-491 | the first hit of a path lookup along the prototype chain |
| SceneObjects.GetParameter | libHSON/Object.cs:629-635 | a lookup by name or by path, as the key's `/` says, first in the object, then up the chain |
| SceneObjects.GetParameterSearchesChain | libHSON/Object.cs:452-491 | GetParameter finds nothing exactly when no object along the chain has the key |
| SceneObjects.GetParameterPrefersLocal | libHSON/Object.cs:452-491 | a key the object itself has is answered from its own parameters |
| SceneObjects.HasInvalidCustomProperties | libHSON/Object.cs:58-69 | holds exactly when a custom property is named like one of the eleven standard properties |
| SceneObjects.SetParentKeepsValid | libHSON/Object.cs:324-332 | changing an object's parent to an object of the scene keeps the scene linked and acyclic |
| SceneObjects.ParentSettersDiffer | libHSON/Object.cs:139-143 | after `Parent = null` the object has a specified parent that is null; after `SpecifiedParent = null` it has none of its own and falls back to its prototype's (lines 324-332, 265-285) |
| ObjectWriter.Emitted | libHSON/Object.cs:501-508 | the necessity rule: an instance writes its local value exactly when it has one; otherwise the value written agrees with the effective one, a default-valued or absent local is left out unless unnecessary properties are requested, and under that option a value is always written (the rule of lines 549-601 too) |
| ObjectWriter.ParentEmitted | libHSON/Object.cs:511-519 | an instance writes parentId exactly when it specifies a parent, the parent's id or the empty id; an object without a prototype writes its own parent's id, or the empty one under the option |
| ObjectWriter.InstanceOfEmitted | libHSON/Object.cs:522-529 | instanceOf is written when a prototype exists, and as the empty id exactly when the option is set and none exists |
| ObjectWriter.TypeEmitted | libHSON/Object.cs:532-546 | the type is written exactly when the local type is neither null nor empty |
| ObjectWriter.AfterHeaderCloses | libHSON/Object.cs:531-624 | the part after the header ends with end-object whenever it completes |
| ObjectWriter.HeaderStartsWithId | libHSON/Object.cs:495-498 | the output opens with start-object and the braced id |
| ObjectWriter.ObjectTokensShape | libHSON/Object.cs:493-625 | every object's output opens with its id, and a complete one ends with end-object |
| ObjectWriter.TypeCheck | libHSON/Object.cs:532-546 | the write fails with MissingType exactly when the local type is null or empty and the inherited type is too; a local "" always fails, even when the prototype has a type (lines 101-104) |
| ObjectWriter.CustomPropertyCheck | libHSON/Object.cs:612-622 | the write fails on a reserved custom-property name exactly when custom properties are being written |
| ObjectWriter.WriteVector | libHSON/JsonWriterExtensions.cs:70-76 | the property name, then the three components as an array of floats |
| ObjectWriter.WriteQuaternion | libHSON/JsonWriterExtensions.cs:134-140 | the property name, then x, y, z, w as an array of floats |
| ObjectWriter.WriteHeader | libHSON/Object.cs:495-529 | appends start-object, id, then name, parentId and instanceOf by the necessity rules |
| ObjectWriter.WriteTransform | libHSON/Object.cs:548-579 | appends position, rotation and scale by the necessity rule |
| ObjectWriter.WriteEmittedVector | libHSON/Object.cs:548-557 | appends a vector property exactly as the necessity rule decides: the local value when it is set and an instance or not the default, the default when unnecessary properties are requested for a non-instance, otherwise nothing |
| ObjectWriter.WriteEmittedQuaternion | libHSON/Object.cs:559-568 | the same rule for the rotation quaternion |
| ObjectWriter.WriteParameters | libHSON/Object.cs:603-609 | appends the "parameters" object exactly when there are local parameters or the option is set |
| ObjectWriter.WriteFlagsAndParameters | libHSON/Object.cs:581-609 | appends isEditorVisible, isExcluded and the parameters section |
| ObjectWriter.WriteAfterHeader | libHSON/Object.cs:531-624 | after the header: the type check, then the body, the custom-property check, the custom properties and end-object |
| ObjectWriter.WriteBody | libHSON/Object.cs:543-609 | appends the local type when it is set and non-empty, then position, rotation, scale, the flags and the parameters |
| ObjectWriter.WriteObject | libHSON/Object.cs:493-625 | `Object.Write` appends exactly the object's output and reports exactly its exception |
| ObjectCollections.Find | libHSON/ObjectCollection.cs:10-13 | an object is found by its id (the collection's key), and only an object with that id |
| ObjectCollections.SceneOf | libHSON/ObjectCollection.cs:10-13 | the collection seen as a scene has exactly the ids the collection finds |
| ObjectCollections.ItemsInScene | libHSON/ObjectCollection.cs:10-13 | with distinct ids, the scene built from the collection holds each object under its own id, as it is |
| ObjectCollections.SceneOfSnoc | libHSON/ObjectCollection.cs:7-13 | adding an object with a new id adds it to the scene and changes nothing else |
| ObjectCollections.SequencedError | libHSON/ObjectCollection.cs:22-25 | the objects' writes complete exactly when none throws; otherwise the first exception is reported and nothing after it is written |
| ObjectCollections.Outputs | libHSON/ObjectCollection.cs:22-25 | every object is written with the same options value |
| ObjectCollections.ObjectsSection | libHSON/ObjectCollection.cs:17-28 | the "objects" array fails exactly when an object's write does |
| ObjectCollections.ObjectsSectionShape | libHSON/ObjectCollection.cs:17-28 | the section opens with the "objects" property name and start-array, and a section written without an exception ends with end-array |
| ObjectCollections.WriteItem | libHSON/ObjectCollection.cs:24 | one turn of the loop extends the prefix written by that object's output |
| ObjectCollections.WriteItems | libHSON/ObjectCollection.cs:22-25 | the loop writes the objects in collection order until one throws |
| ObjectCollections.WriteSection | libHSON/ObjectCollection.cs:17-28 | start-array "objects", the objects, then end-array unless one threw |
| ObjectCollections.ObjectCollection.Count | libHSON/Project.cs:93 | the number of objects in the collection |
| ObjectCollections.ObjectCollection.TryGetValue | libHSON/ObjectCollection.cs:10-13 | the object with the given id, if the collection holds one |
| ObjectCollections.ObjectCollection.Add | libHSON/ObjectCollection.cs:7-13 | adding fails exactly when an object with the same id is present, and then changes nothing; otherwise the object is appended |
| ObjectCollections.ObjectCollection.WriteAll | libHSON/ObjectCollection.cs:17-28 | `WriteAll` writes the "objects" section for the collection's objects, in order, resolving their parents and prototypes in a valid scene that holds them and may hold other objects they refer to |
| Metadata.NonEmpty | libHSON/ProjectMetadata.cs:47-51 | a string field is written exactly when it is neither null nor empty |
| Metadata.HasAnySpecifiedValueIffFields | libHSON/ProjectMetadata.cs:24-34 | HasAnySpecifiedValue holds exactly when the metadata section would hold a field, that is, unless the section written is the empty `metadata` object |
| Metadata.WriteNamedFields | libHSON/ProjectMetadata.cs:47-75 | appends name, author, date, version, description in that order, each only when non-empty, the date exactly when present |
| Metadata.WriteMetadata | libHSON/ProjectMetadata.cs:43-84 | always a "metadata" object: the named fields, then the custom properties when there are any |
| Projects.Project.constructor | libHSON/Project.cs:14-18 | a new project has empty metadata and no objects |
| Projects.Project.Write | libHSON/Project.cs:79-99 | appends exactly the project output: start-object, version 1, the metadata section, the objects section, end-object unless an object threw; parents and prototypes resolve in a valid scene that holds the project's objects and may hold objects outside it |
| Projects.ProjectTokensFrame | libHSON/Project.cs:79-99 | the output starts with start-object and `version` = MaxSupportedVersion (1), and one written without an exception ends with end-object |
| Projects.ProjectTokensSections | libHSON/Project.cs:86-96 | right after the version, the metadata section appears exactly when the option is set or HasAnySpecifiedValue holds; right after that, the objects section appears exactly when the option is set or there are objects |
| Projects.MetadataSectionStarts | libHSON/Project.cs:87-90 | the metadata section is written exactly when requested or specified, and opens with its name |
| Projects.AfterMetadataShape | libHSON/Project.cs:93-98 | the objects section is written exactly when requested or when there are objects; otherwise only end-object follows |
| Projects.ClosedShape | libHSON/Project.cs:93-98 | closing the project keeps the first token of what precedes it and, unless an object threw, ends the output with end-object |
| WriteOptions.ProjectWriteOptions.WithIncludeUnnecessaryProperties | libHSON/ProjectWriteOptions.cs:20-30 | the getter then reads the value set, and every other mask bit is kept |
| WriteOptions.DefaultOmitsUnnecessary | libHSON/ProjectWriteOptions.cs:10-19 | the default value reports IncludeUnnecessaryProperties false |
| WriteOptions.SetterIdempotent | libHSON/ProjectWriteOptions.cs:20-30 | setting the flag to its current value keeps the mask |
| ReaderSpec.Initial | libHSON/ProjectReader.cs:686-692 | the reset: state `Idle` (the source's `State.None`), empty stack and mapping list, a fresh mapping, index and version 0; the vector buffer is left as it was |
| ReaderSpec.ResolveMapping | libHSON/ProjectReader.cs:737-762 | a mapping fails exactly when its parentId or instanceOf is not in the registry; otherwise its object gets that parent (marked specified) and prototype, and nothing else changes |
| ReaderProperties.InitialConsistent | libHSON/ProjectReader.cs:686-692 | the reset state satisfies the loop invariant |
| ReaderProperties.PopStores | libHSON/ProjectReader.cs:511-515 | popping a completed parameter leaves its value where it belongs (the object's local parameters, its key in the object parameter below, or the end of the array below) and keeps the stack well formed |
| ReaderProperties.StepKeepsConsistent | libHSON/ProjectReader.cs:697-731 | every token that does not throw keeps the invariant: the stack is well formed and empty outside the parameters, the vector index is within the arity while a vector is read and zero otherwise, and completed mappings have non-empty ids and still no links (references are only ids until the deferred pass) |
| ReaderProperties.RunKeepsConsistent | libHSON/ProjectReader.cs:695-732 | the token loop keeps that invariant up to the token that throws |
| ReaderProperties.AddResolvedKeepsValid | libHSON/ProjectReader.cs:735-765 | adding a resolved object with a new id to a registry that is a valid scene keeps it a valid scene |
| ReaderTransitions.UnhandledFails | libHSON/ProjectReader.cs:84-681 | a token in a state its handler has no case for throws InvalidDataException (the default cases at lines 125-126, 176-177, 229-230, 281-282, 439-440, 520-521, 636-637, 678-679); the null and comment tokens the loop has no case for change nothing |
| ReaderTransitions.StructureSucceeds | libHSON/ProjectReader.cs:84-284 | start and end tokens never throw in a state outside the parameters that handles them |
| ReaderTransitions.RunIgnoresSkipped | libHSON/ProjectReader.cs:697-731 | the loop over the tokens equals the loop over the tokens with the skipped kinds removed |
| ReaderTransitions.RunAppend | libHSON/ProjectReader.cs:695-732 | the loop over a concatenation is the loop over the first part, then over the second unless the first threw |
| ReaderTransitions.PropertyNameTable | libHSON/ProjectReader.cs:298-406 | at the top level, in the metadata and in an object, a name succeeds exactly when it is a known one and then changes only the state; any other name throws NotImplementedException (lines 315-316, 345-346, 405-406) |
| ReaderTransitions.PropertyNameStates | libHSON/ProjectReader.cs:298-406 | `version`, `metadata`, `objects`, `position`, `rotation`, `scale` and `parameters` lead to their states |
| ReaderTransitions.ComponentsRead | libHSON/ProjectReader.cs:535-563 | numbers within the arity fill the buffer slot by slot from the current index, and the index advances by their count |
| ReaderTransitions.ExtraComponentFails | libHSON/ProjectReader.cs:535-563 | one component more than the arity throws InvalidDataException |
| ReaderTransitions.TooManyComponents | libHSON/ProjectReader.cs:535-563 | more than 3 numbers for position or scale, or more than 4 for rotation, makes the read fail |
| ReaderTransitions.ExtraRunFails | libHSON/ProjectReader.cs:535-563 | once the buffer holds arity components, any further run of numbers makes the read fail |
| ReaderTransitions.StartVectorSeeds | libHSON/ProjectReader.cs:190-207 | start-array in a vector section seeds the buffer with the default vector (the fourth slot is kept for position and scale) and changes only the state |
| ReaderTransitions.VectorBodyRead | libHSON/ProjectReader.cs:190-207 | start-array then at most arity numbers leave the buffer holding the numbers read, then the seeded defaults |
| ReaderTransitions.VectorClosed | libHSON/ProjectReader.cs:243-266 | end-array sets the object's local vector from the buffer's first slots, resets the index and returns to the Object state |
| ReaderTransitions.PositionRead | libHSON/ProjectReader.cs:190-266 | a position array of at most three numbers sets the local position to those numbers, missing trailing components defaulting; nothing else of the object changes and the index is reset (with lines 535-543) |
| ReaderTransitions.ScaleRead | libHSON/ProjectReader.cs:204-266 | the same for scale, with the defaults of Vector3.One (with lines 555-563) |
| ReaderTransitions.RotationRead | libHSON/ProjectReader.cs:195-258 | a rotation array of at most four numbers sets the local rotation, the missing trailing components from the identity (with lines 545-553) |
| ReaderTransitions.ClassifyRanges | libHSON/ProjectReader.cs:565-631 | inside parameters an integer literal in UInt64 range becomes UnsignedInteger, a negative one in Int64 range SignedInteger, any other number in double range FloatingPoint; only a number beyond double range fails |
| ReaderTransitions.ScalarAppends | libHSON/ProjectReader.cs:501-507 | a scalar read while an array is open is appended to it; the stack keeps its height and nothing else changes (also lines 570-576, 659-664) |
| ReaderTransitions.ScalarCompletes | libHSON/ProjectReader.cs:509-515 | a scalar read while another parameter is open becomes its value, which is popped and found where it belongs (also lines 578-584, 666-672) |
| ReaderTransitions.EndObjectInParameters | libHSON/ProjectReader.cs:156-174 | end-object with an empty stack returns to Object; with a non-object on top it throws InvalidDataException; otherwise it pops |
| ReaderTransitions.EndArrayInParameters | libHSON/ProjectReader.cs:268-279 | end-array succeeds exactly when an array is on top, and pops it; otherwise InvalidDataException |
| ReaderTransitions.AddExisting | libHSON/ParameterCollection.cs:431-439 | Add of a key that already resolves throws KeyExists |
| ReaderTransitions.PropertyNameNeedsObject | libHSON/ProjectReader.cs:413-422 | a property name with a non-object parameter on top throws InvalidDataException |
| ReaderTransitions.LocalNameExists | libHSON/ProjectReader.cs:427-434 | a property name already among the object's local parameters throws ArgumentException |
| ReaderTransitions.NestedNameExists | libHSON/ProjectReader.cs:413-434 | a property name the open object parameter already holds throws ArgumentException |
| ReaderTransitions.PropertyNameOpens | libHSON/ProjectReader.cs:408-437 | a new name pushes a default parameter under that key; it is found in the object's local parameters when nothing was open, and otherwise in the object parameter just below |
| ReaderTransitions.EndObjectRegisters | libHSON/ProjectReader.cs:143-154 | end of an object never throws; an object still holding the empty id gets the fresh non-empty id; its mapping is appended in parse order, a new mapping begins, and the state is Objects |
| ReaderResolution.ResolveAppends | libHSON/ProjectReader.cs:735-765 | the pass only appends: the registry it started with is a prefix of the result, the added objects carry their mappings' ids in parse order, and all are added when nothing throws |
| ReaderResolution.ForwardReferenceFails | libHSON/ProjectReader.cs:735-765 | a mapping that refers to an object whose mapping comes later, and that neither the registry nor an earlier mapping holds, makes the read fail |
| ReaderResolution.ResolveKeepsDistinct | libHSON/ProjectReader.cs:735-765 | the pass keeps the registry's ids distinct, whether or not it throws |
| ReaderResolution.ResolveKeepsValid | libHSON/ProjectReader.cs:735-765 | from a registry that is a valid scene by itself, and the unlinked mappings the loop leaves, the pass leaves a registry that is a valid scene, whether or not it throws |
| ReaderResolution.ResolveKeepsWorld | libHSON/ProjectReader.cs:735-765 | when the registry's objects refer to objects outside it, held by a valid scene, and no outside object carries an id the loop read, that scene with the added objects is still valid and holds the whole registry |
| ReaderResolution.ReadKeepsRegistry | libHSON/ProjectReader.cs:683-766 | a read removes nothing from the project's registry and keeps its ids distinct, and keeps it a valid scene when it was one, whether it succeeds or throws |
| ProjectReaders.ProjectReader.constructor | libHSON/ProjectReader.cs:77-82 | a new reader bound to the project is in the reset state, with a zeroed buffer |
| ProjectReaders.ProjectReader.PopParameter | libHSON/ProjectReader.cs:172 | `_paramStack.Pop()` takes the pop step |
| ProjectReaders.ProjectReader.AddScalar | libHSON/ProjectReader.cs:499-518 | a scalar inside parameters takes the scalar step (also lines 565-634, 656-676) |
| ProjectReaders.ProjectReader.OpenParameter | libHSON/ProjectReader.cs:105-123 | a start token inside parameters takes the nesting step (also lines 209-227) |
| ProjectReaders.ProjectReader.ParseStartObject | libHSON/ProjectReader.cs:84-128 | takes exactly the start-object step |
| ProjectReaders.ProjectReader.ParseEndObject | libHSON/ProjectReader.cs:130-179 | takes exactly the end-object step |
| ProjectReaders.ProjectReader.ParseStartArray | libHSON/ProjectReader.cs:181-232 | takes exactly the start-array step |
| ProjectReaders.ProjectReader.ParseEndArray | libHSON/ProjectReader.cs:234-284 | takes exactly the end-array step |
| ProjectReaders.ProjectReader.ParsePropertyName | libHSON/ProjectReader.cs:286-442 | takes exactly the property-name step |
| ProjectReaders.ProjectReader.EnterProperty | libHSON/ProjectReader.cs:298-406 | the top-level, metadata and object cases of that step |
| ProjectReaders.ProjectReader.AddParameterName | libHSON/ProjectReader.cs:408-437 | the parameters case of that step |
| ProjectReaders.ProjectReader.AddToOpenParameter | libHSON/ProjectReader.cs:413-436 | a name added to the open object parameter, then pushed |
| ProjectReaders.ProjectReader.AddToLocalParameters | libHSON/ProjectReader.cs:427-436 | a name added to the object's local parameters, then pushed |
| ProjectReaders.ProjectReader.ParseString | libHSON/ProjectReader.cs:444-523 | takes exactly the string step |
| ProjectReaders.ProjectReader.ReadMetadataString | libHSON/ProjectReader.cs:449-472 | the metadata cases of that step |
| ProjectReaders.ProjectReader.ReadGuidString | libHSON/ProjectReader.cs:474-492 | takes the id step: the text must parse as a braced Guid (else the format error); an id goes through the Id setter, which refuses the empty id; parentId and instanceOf are kept for the deferred pass |
| ProjectReaders.ProjectReader.ReadComponent | libHSON/ProjectReader.cs:535-563 | one vector component: the arity check, then the buffer write |
| ProjectReaders.ProjectReader.ParseNumber | libHSON/ProjectReader.cs:525-639 | takes exactly the number step |
| ProjectReaders.ProjectReader.ReadParameterNumber | libHSON/ProjectReader.cs:565-634 | the parameters case of that step |
| ProjectReaders.ProjectReader.ParseBool | libHSON/ProjectReader.cs:641-681 | takes exactly the boolean step |
| ProjectReaders.ProjectReader.ParseToken | libHSON/ProjectReader.cs:697-731 | the dispatch on the token kind takes exactly the step of that token |
| ProjectReaders.ProjectReader.ReadTokens | libHSON/ProjectReader.cs:695-732 | the token loop ends in exactly the state and exception of the pure loop |
| ProjectReaders.ProjectReader.ResolveReferences | libHSON/ProjectReader.cs:735-765 | the deferred pass leaves the registry and exception of the pure pass, and the project valid |
| ProjectReaders.ProjectReader.LookupReferences | libHSON/ProjectReader.cs:737-761 | one mapping's parent and prototype are looked up in the registry exactly as the pure pass resolves them; an unknown id throws InvalidDataException |
| ProjectReaders.ProjectReader.Reset | libHSON/ProjectReader.cs:686-692 | the reset leaves the reader in the initial state over the project's metadata, with the vector buffer unchanged |
| ProjectReaders.ProjectReader.ReadIntoAssignedProject | libHSON/ProjectReader.cs:683-766 | reset, loop and deferred pass leave the project's metadata and registry as the pure read prescribes, from the project's previous contents; the objects stay a valid scene when they were one |
| ProjectReaders.Read | libHSON/Project.cs:48-53 | `Project.Read` binds a new reader, with a zeroed vector buffer, to the project: the project ends as the pure read from its previous metadata and objects prescribes, so parsed objects are added to its existing registry |
| RoundTrip.EntryKeyWritten | libHSON/ParameterCollection.cs:420-427 | every key of a collection, at any position, appears among the written tokens as a property name |
| RoundTrip.CustomKeyNotKnown | libHSON/Object.cs:58-69 | the key of a custom property of an object whose custom properties take no standard name is none of the names the reader has a case for inside an object |
| RoundTrip.UnknownNameFails | libHSON/ProjectReader.cs:298-406 | at the top level, in the metadata or in an object, a name the reader has no case for throws NotImplementedException from every reader state |
| RoundTrip.CustomPropertiesWritten | libHSON/Object.cs:611-624 | an object that has custom properties and is written without an exception takes no standard name among them, and after its header come its body, its custom properties and the closing brace |
| RoundTrip.WrittenCustomPropertyUnreadable | libHSON/Object.cs:611-622 | each custom property of an object written without an exception is written as a property name, and reading that name inside an object throws NotImplementedException (libHSON/ProjectReader.cs:405-406): written custom properties do not read back |
| RoundTrip.WrittenMetadataPropertyUnreadable | libHSON/ProjectMetadata.cs:78-81 | a metadata custom property not named like a metadata field is written in the metadata section, and reading that name in the metadata throws NotImplementedException (libHSON/ProjectReader.cs:345-346) |

The pure step functions of `ReaderSpec` (`StepStartObject`, `StepEndObject`,
`StepStartArray`, `StepEndArray`, `StepPropertyName`, `StepString`, `StepNumber`,
`StepBool`, `Step`, `Run`, `Resolve`, `ReadIntoProject`) are the reference definition
of the reader. Each of them follows one handler of libHSON/ProjectReader.cs case by
case. The handler methods above are proved equal to them, and the `ReaderTransitions`,
`ReaderProperties` and `ReaderResolution` lemmas state what they do.

Where the description of the format and the code disagree, the model follows the code:

- References resolve in parse order against the registry being built, so a forward
  reference fails (`ReaderResolution.ForwardReferenceFails`). The description allows
  forward references.
- The version read is stored but never compared with `MaxSupportedVersion`, so a
  document with version 2 is read like any other.
- A vector array with fewer components than its arity is accepted, and the missing
  trailing components take the defaults. Only a longer array fails.
- Custom properties are written inline among the standard ones, by Object.Write
  (libHSON/Object.cs:611-622) and by ProjectMetadata.Write
  (libHSON/ProjectMetadata.cs:78-81). The reader has no case for them and throws
  NotImplementedException on any unknown name, in an object
  (libHSON/ProjectReader.cs:405-406) and in the metadata
  (libHSON/ProjectReader.cs:345-346). So a written custom property makes the
  document unreadable (`RoundTrip.WrittenCustomPropertyUnreadable`,
  `RoundTrip.WrittenMetadataPropertyUnreadable`).
- An object whose write throws has already written its leading properties. The model
  keeps those tokens in `Written.tokens`.

## Left out

- Files, streams, buffers and the construction of Utf8JsonReader/Utf8JsonWriter (libHSON/Project.cs:21-46, 55-77, 101-123): they are wrappers over the .NET library and the file system.
- Float arithmetic: doubles and floats are bounded reals, and rounding is not modelled. `GetSingle`/`TryGetDouble` accept a literal exactly when its value is within range.
- Parameters.ValueFloatingPoint: it widens a stored integer to a real exactly. The source's `(double)` conversion (libHSON/Parameter.cs:120-130) rounds integers above 2^53 to the nearest double. For example, SignedInteger(2^53 + 1) reads back as 2^53. So Parameters.FloatingPointAgreesWithIntegers holds only in the model.
- Null values: the String, Array and Object constructors and setters (libHSON/Parameter.cs:146-174, 222-238) accept null, and so do a collection's values. `WriteValue` writes JSON null for a null string. For a null list or collection it throws NullReferenceException after the opening token (libHSON/Parameter.cs:262-281). `Parameter` has no null: every string, array and collection is present.
- `LocalTransform` and `GlobalTransform` (libHSON/Object.cs:376-399): matrix arithmetic on floats.
- Guid and DateTime text: formatting and parsing are `Host` parameters, and so is `Guid.NewGuid`. Their only assumed properties are the ones `ValidHost` states.
- `GetFlattenedParameters` (libHSON/Object.cs:637-649): it is unimplemented and only throws NotImplementedException.
- The .NET interface plumbing of ParameterCollection: serialization, non-generic IDictionary adapters, capacity, trimming and comparer members.
- Entry order: a collection is an ordered list of entries, and new keys go at the end. A .NET Dictionary may reuse the slot of a removed entry, so the write order after a removal can differ.
- Aliasing: parameters are values.
  - The reader's stack of open parameters is a zipper of frames, each knowing where its parameter goes.
  - Completing the top frame stores its value in the frame below.
  - This is the same observable result as the source's in-place updates through shared references, but the model has no shared mutable nodes.
- Scene objects are values in a map keyed by id. In the source, `_parent` and `_instanceOf` are object references.
  - The writer's references resolve in a scene that stands for the objects reachable from the collection. Those objects may lie outside the collection or the project.
  - Ids are assumed unique among the reachable objects, since the scene is keyed by id. The source compares references and allows two objects with the same id outside one collection.
- Cycles: the source has no cycle guard, so every recursive lookup requires an acyclic scene (`ValidScene`). A cyclic scene is outside the model; the source would overflow its stack.
- ProjectReadOptions: the handlers receive it but never read it, so it is not a parameter of the model.
- A handler that throws: the model reports the exception with the state from before that handler. The source's setters and collection updates also check before they change anything:
  - a Set, TryAdd or Add that throws, or a TryAdd that returns false, leaves the collection as it was (ParameterCollectionFacts.UpdateRefusedChangesNothing, ParameterCollectionFacts.RefusedUpdatesChangeNothing);
  - the Id setter throws before it assigns (libHSON/Object.cs:300-309).
  - One effect is not modelled. In `_curVecData[_curVecElemIndex++] = reader.GetSingle()` (libHSON/ProjectReader.cs:542, 552 and 562), the index is incremented before `GetSingle` throws. ReadIntoAssignedProject resets the index before any later read, so the effect cannot be observed.
- `_curVecData` is not reset by ReadIntoAssignedProject (libHSON/ProjectReader.cs:686-692), so a read starts with that buffer as the previous read left it. The model keeps this.
- Projects.Project.Write, ProjectReaders.Read: reading what was written does not give the project back in general, so no round-trip lemma is stated. The writer and the reader are each proved against their own token-level specification. The round trip fails, as written, in these cases:
  - a custom property of an object or of the metadata (RoundTrip.WrittenCustomPropertyUnreadable, RoundTrip.WrittenMetadataPropertyUnreadable);
  - a child written before its parent or its prototype, since references resolve in parse order (ReaderResolution.ForwardReferenceFails);
  - a parentId or instanceOf written as the braced empty id: an instance that sets its parent to none (libHSON/Object.cs:511-515), and, under IncludeUnnecessaryProperties, an object without a parent or without a prototype (libHSON/Object.cs:517-529). The deferred pass looks the empty id up in the registry and, unless some object there was constructed with the empty id, throws InvalidDataException (libHSON/ProjectReader.cs:738-745).
- Parameters.NewParameterOfType: the source's default arm (libHSON/Parameter.cs:192-194) throws ArgumentException for a value outside the ParameterType enumeration. `ParameterType` is a closed datatype here, so that case cannot arise.
- Number reading: `TryGetUInt64`, `TryGetInt64`, `TryGetDouble`, `GetUInt32` and `GetSingle` of module `Json` stand for the System.Text.Json reader. They accept a literal exactly when its value is in the type's range; the exact .NET text grammar is not modelled.
- Parameters.ValueSignedInteger, Parameters.ValueUnsignedInteger: these follow the getters' comments (overflow throws). The code as written is modelled separately by the `Unchecked` getters (see Findings).

## Findings

| source | as written | input that shows it | evidently intended | confidence | as-written member | corrected member |
|---|---|---|---|---|---|---|
| libHSON/Parameter.cs:54-58 | `(long)(ulong)_value` is an unchecked cast in a default C# build, so it reinterprets the 64 bits | UnsignedInteger(2^63): the signed getter returns -2^63 | the comment says values above long.MaxValue throw (OverflowException) | medium, not executed; depends on the build's overflow checking, which is not part of this model | Parameters.UncheckedSignedGetterWraps | Parameters.ValueSignedInteger |
| libHSON/Parameter.cs:87-91 | `(ulong)(long)_value` is an unchecked cast in a default C# build | SignedInteger(-1): the unsigned getter returns 2^64 - 1 | the comment says negative values throw | medium, not executed; depends on the build's overflow checking, which is not part of this model | Parameters.UncheckedUnsignedGetterWraps | Parameters.ValueUnsignedInteger |
