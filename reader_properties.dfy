/** What the reader's state machine guarantees (libHSON/ProjectReader.cs): the shape of
    the parameter stack and the bounds of the vector index that every step keeps, the
    transition table, the arity of vectors, the classification of numbers, the stack
    discipline inside parameters, and the deferred pass's order of resolution. */
module ReaderProperties {
  import opened Wrappers
  import opened Json
  import opened Externals
  import P = Parameters
  import opened ParameterCollections
  import opened ParameterCollectionFacts
  import opened SceneObjects
  import opened ObjectCollections
  import opened ProjectMeta = Metadata
  import opened ReaderSpec

  // ---------------------------------------------------------------------------
  // The invariant of the reader's state.
  // ---------------------------------------------------------------------------

  /** A parent holds its open child: an object parameter holding the child's key, or an
      array parameter. */
  ghost predicate Supports(parent: P.Parameter, d: Dest)
  {
    match d
    case Key(k) => parent.Object? && ContainsKey(parent.collection, k)
    case Element => parent.Array?
  }

  /** The bottom parameter of the stack is a key of the object's local parameters;
      every other one is held by the parameter below it. */
  ghost predicate WellStacked(s: ReaderState)
  {
    var st := s.paramStack;
    && (|st| > 0 ==> st[0].dest.Key? && ContainsKey(s.curObjMap.obj.localParameters, st[0].dest.key))
    && (forall i :: 0 < i < |st| ==> Supports(st[i - 1].value, st[i].dest))
  }

  predicate InVector(st: State)
  {
    st == ObjectPosition || st == ObjectRotation || st == ObjectScale
  }

  /** An object as the token loop leaves it: its references are still ids in its
      mapping, not links. */
  ghost predicate Unlinked(m: ObjectIdMapping)
  {
    m.obj.parent.None? && m.obj.instanceOf.None? && !m.obj.hasSpecifiedParent
  }

  /** The invariant of the token loop: the stack has its shape and is empty outside
      parameters; the vector index is within the arity while a vector is read and zero
      otherwise; completed objects have non-empty ids and no links yet. */
  ghost predicate Consistent(s: ReaderState)
  {
    && WellStacked(s)
    && (s.curState != ObjectParameters ==> s.paramStack == [])
    && (InVector(s.curState) ==> s.curVecElemIndex <= Arity(s.curState))
    && (!InVector(s.curState) ==> s.curVecElemIndex == 0)
    && Unlinked(s.curObjMap)
    && (forall k :: 0 <= k < |s.objIdMaps| ==> Unlinked(s.objIdMaps[k]) && s.objIdMaps[k].obj.id != EmptyGuid)
  }

  lemma InitialConsistent(m: ProjectMetadata, data: VecData)
    ensures Consistent(Initial(m, data))
  {
  }

  lemma ReplaceTopKeepsStacked(s: ReaderState, v: P.Parameter)
    requires WellStacked(s) && |s.paramStack| > 0
    ensures WellStacked(s.(paramStack := ReplaceTop(s.paramStack, v)))
  {
    var st := s.paramStack;
    var st' := ReplaceTop(st, v);
    forall i | 0 < i < |st'| ensures Supports(st'[i - 1].value, st'[i].dest) {
      assert st'[i - 1] == st[i - 1];
      assert st'[i].dest == st[i].dest;
    }
  }

  lemma PushKeepsStacked(s: ReaderState, f: Frame)
    requires WellStacked(s)
    requires |s.paramStack| == 0 ==> f.dest.Key? && ContainsKey(s.curObjMap.obj.localParameters, f.dest.key)
    requires |s.paramStack| > 0 ==> Supports(Top(s.paramStack).value, f.dest)
    ensures WellStacked(Push(s, f))
  {
    var st := s.paramStack;
    var st' := st + [f];
    forall i | 0 < i < |st'| ensures Supports(st'[i - 1].value, st'[i].dest) {
      if i < |st| {
        assert st'[i - 1] == st[i - 1] && st'[i] == st[i];
      }
    }
  }

  /** What popping stores: the completed parameter is found under its key in the
      object's local parameters or in the parameter below, or is the last element of
      the array below. */
  lemma PopStores(s: ReaderState)
    requires WellStacked(s) && |s.paramStack| > 0
    ensures WellStacked(Pop(s))
    ensures var top := Top(s.paramStack);
      |s.paramStack| == 1 ==>
        top.dest.Key? && TryGetValue(Pop(s).curObjMap.obj.localParameters, top.dest.key) == Some(top.value)
    ensures var top := Top(s.paramStack); var n := |s.paramStack|;
      n > 1 && top.dest.Key? ==>
        && Top(Pop(s).paramStack).value.Object?
        && TryGetValue(Top(Pop(s).paramStack).value.collection, top.dest.key) == Some(top.value)
    ensures var top := Top(s.paramStack); var n := |s.paramStack|;
      n > 1 && top.dest.Element? ==>
        Top(Pop(s).paramStack).value == P.Array(s.paramStack[n - 2].value.elements + [top.value])
    ensures |s.paramStack| > 1 ==> Pop(s).paramStack[..|s.paramStack| - 2] == s.paramStack[..|s.paramStack| - 2]
    ensures |s.paramStack| > 1 ==> Top(Pop(s).paramStack).dest == s.paramStack[|s.paramStack| - 2].dest
  {
    var st := s.paramStack;
    var n := |st|;
    var top := Top(st);
    if n == 1 {
      SetFoundKey(s.curObjMap.obj.localParameters, top.dest.key, top.value);
    } else {
      var below := st[n - 2];
      assert Supports(st[n - 1 - 1].value, st[n - 1].dest);
      if top.dest.Key? {
        SetFoundKey(below.value.collection, top.dest.key, top.value);
      }
      PopKeepsFramesBelow(s);
    }
  }

  /** Popping a stack of two or more keeps the frames below the new top, and the new
      top still holds its key or is an array. */
  lemma PopKeepsFramesBelow(s: ReaderState)
    requires WellStacked(s) && |s.paramStack| > 1
    ensures WellStacked(Pop(s))
  {
    var st := s.paramStack;
    var n := |st|;
    var top := Top(st);
    var below := st[n - 2];
    assert Supports(st[n - 1 - 1].value, st[n - 1].dest);
    if top.dest.Key? {
      SetFoundKey(below.value.collection, top.dest.key, top.value);
    }
    var st' := Pop(s).paramStack;
    assert Top(st').dest == below.dest;
    forall i | 0 < i < |st'| ensures Supports(st'[i - 1].value, st'[i].dest) {
      assert st'[i - 1] == st[i - 1];
      assert st'[i].dest == st[i].dest;
    }
  }

  lemma ScalarKeepsConsistent(s: ReaderState, v: P.Parameter)
    requires Consistent(s) && s.curState == ObjectParameters && Scalar(s, v).Success?
    ensures Consistent(Scalar(s, v).value)
  {
    var top := Top(s.paramStack);
    if top.value.Array? {
      ReplaceTopKeepsStacked(s, P.Array(top.value.elements + [v]));
    } else {
      ReplaceTopKeepsStacked(s, v);
      PopStores(s.(paramStack := ReplaceTop(s.paramStack, v)));
    }
  }

  lemma OpenNestedKeepsConsistent(s: ReaderState, empty: P.Parameter)
    requires Consistent(s) && s.curState == ObjectParameters && OpenNested(s, empty).Success?
    ensures Consistent(OpenNested(s, empty).value)
  {
    if Top(s.paramStack).value.Array? {
      PushKeepsStacked(s, Frame(Element, empty));
    } else {
      ReplaceTopKeepsStacked(s, empty);
    }
  }

  lemma PropertyNameKeepsConsistent(s: ReaderState, key: string)
    requires Consistent(s) && StepPropertyName(s, key).Success?
    ensures Consistent(StepPropertyName(s, key).value)
  {
    if s.curState == ObjectParameters {
      NewParameterNameKeepsConsistent(s, key);
    }
  }

  lemma NewParameterNameKeepsConsistent(s: ReaderState, key: string)
    requires Consistent(s) && s.curState == ObjectParameters && NewParameterName(s, key).Success?
    ensures Consistent(NewParameterName(s, key).value)
  {
    var child := Frame(Key(key), P.NewParameter());
    if |s.paramStack| > 0 {
      var u := Add(Top(s.paramStack).value.collection, key, P.NewParameter());
      var s1 := s.(paramStack := ReplaceTop(s.paramStack, P.Object(u.collection)));
      ReplaceTopKeepsStacked(s, P.Object(u.collection));
      PushKeepsStacked(s1, child);
    } else {
      var o := s.curObjMap.obj;
      var u := Add(o.localParameters, key, P.NewParameter());
      PushKeepsStacked(WithObject(s, o.(localParameters := u.collection)), child);
    }
  }

  lemma EndObjectKeepsConsistent(host: Host, s: ReaderState)
    requires Consistent(s) && StepEndObject(host, s).Success?
    ensures Consistent(StepEndObject(host, s).value)
  {
    if s.curState == ObjectParameters && |s.paramStack| > 0 {
      PopStores(s);
    } else if s.curState == Object {
      var s' := StepEndObject(host, s).value;
      assert s'.objIdMaps == s.objIdMaps + [s'.objIdMaps[|s.objIdMaps|]];
    }
  }

  lemma EndArrayKeepsConsistent(s: ReaderState)
    requires Consistent(s) && StepEndArray(s).Success?
    ensures Consistent(StepEndArray(s).value)
  {
    if s.curState == ObjectParameters {
      PopStores(s);
    }
  }

  lemma StartObjectKeepsConsistent(s: ReaderState)
    requires Consistent(s) && StepStartObject(s).Success?
    ensures Consistent(StepStartObject(s).value)
  {
    if s.curState == ObjectParameters {
      OpenNestedKeepsConsistent(s, P.Object(P.EmptyCollection));
    }
  }

  lemma StartArrayKeepsConsistent(s: ReaderState)
    requires Consistent(s) && StepStartArray(s).Success?
    ensures Consistent(StepStartArray(s).value)
  {
    if s.curState == ObjectParameters {
      OpenNestedKeepsConsistent(s, P.Array([]));
    }
  }

  lemma StringKeepsConsistent(host: Host, s: ReaderState, text: string)
    requires Consistent(s) && StepString(host, s, text).Success?
    ensures Consistent(StepString(host, s, text).value)
  {
    match s.curState
    case ObjectParameters => ScalarKeepsConsistent(s, P.String(text));
    case ObjectId | ObjectParentId | ObjectInstanceOf => GuidKeepsConsistent(host, s, text);
    case _ =>
  }

  lemma GuidKeepsConsistent(host: Host, s: ReaderState, text: string)
    requires s.curState == ObjectId || s.curState == ObjectParentId || s.curState == ObjectInstanceOf
    requires Consistent(s) && GuidString(host, s, text).Success?
    ensures Consistent(GuidString(host, s, text).value)
  {
  }

  lemma NumberKeepsConsistent(s: ReaderState, n: NumberLiteral)
    requires Consistent(s) && StepNumber(s, n).Success?
    ensures Consistent(StepNumber(s, n).value)
  {
    if s.curState == ObjectParameters {
      ScalarKeepsConsistent(s, Classify(n).value);
    }
  }

  lemma BoolKeepsConsistent(s: ReaderState, b: bool)
    requires Consistent(s) && StepBool(s, b).Success?
    ensures Consistent(StepBool(s, b).value)
  {
    if s.curState == ObjectParameters {
      ScalarKeepsConsistent(s, P.Boolean(b));
    }
  }

  /** Every step that does not throw keeps the invariant. */
  lemma StepKeepsConsistent(host: Host, s: ReaderState, t: Token)
    requires Consistent(s) && Step(host, s, t).Success?
    ensures Consistent(Step(host, s, t).value)
  {
    match t
    case StartObject => StartObjectKeepsConsistent(s);
    case EndObject => EndObjectKeepsConsistent(host, s);
    case StartArray => StartArrayKeepsConsistent(s);
    case EndArray => EndArrayKeepsConsistent(s);
    case PropertyName(key) => PropertyNameKeepsConsistent(s, key);
    case StringValue(text) => StringKeepsConsistent(host, s, text);
    case NumberValue(n) => NumberKeepsConsistent(s, n);
    case BooleanValue(b) => BoolKeepsConsistent(s, b);
    case NullValue =>
    case Comment(_) =>
  }

  /** The token loop keeps the invariant, up to the token that throws. */
  lemma {:induction false} RunKeepsConsistent(host: Host, s: ReaderState, tokens: seq<Token>)
    requires Consistent(s)
    ensures Consistent(Run(host, s, tokens).state)
    decreases |tokens|
  {
    if |tokens| > 0 && Step(host, s, tokens[0]).Success? {
      StepKeepsConsistent(host, s, tokens[0]);
      RunKeepsConsistent(host, Step(host, s, tokens[0]).value, tokens[1..]);
    }
  }

  // ---------------------------------------------------------------------------
  // The deferred pass.
  // ---------------------------------------------------------------------------

  /** Adding an object whose references were resolved against a valid registry, under
      an id the registry does not hold, keeps the registry a valid scene: the new
      object's references name objects already there, so no cycle can form. */
  lemma AddResolvedKeepsValid(items: seq<SceneObject>, m: ObjectIdMapping)
    requires DistinctIds(items) && ValidScene(SceneOf(items))
    requires Unlinked(m) && ResolveMapping(items, m).Success?
    requires Find(items, m.obj.id).None?
    ensures ValidScene(SceneOf(items + [ResolveMapping(items, m).value]))
  {
    var o := ResolveMapping(items, m).value;
    SceneOfSnoc(items, o);
    ExtendScene(SceneOf(items), o);
  }

  /** An object all of whose references name objects of a valid scene, added under a
      new id, keeps the scene valid: it can close no cycle. */
  lemma ExtendScene(scene: Scene, o: SceneObject)
    requires ValidScene(scene) && o.id !in scene
    requires o.parent.Some? ==> o.parent.value in scene
    requires o.instanceOf.Some? ==> o.instanceOf.value in scene
    ensures ValidScene(scene[o.id := o])
  {
    var scene' := scene[o.id := o];
    assert Linked(scene');
    var rank := ChosenRank(scene);
    var top: nat := if o.instanceOf.Some? then rank[o.instanceOf.value] + 1 else 0;
    var rank' := rank[o.id := top];
    forall g | g in scene'
      ensures g in rank'
      ensures scene'[g].instanceOf.Some? && scene'[g].instanceOf.value in scene' ==>
        scene'[g].instanceOf.value in rank' && rank'[scene'[g].instanceOf.value] < rank'[g]
    {
      if g != o.id {
        assert scene'[g] == scene[g];
        assert scene[g].instanceOf.Some? ==> scene[g].instanceOf.value != o.id;
      }
    }
    assert Ranked(scene', rank');
  }
}
