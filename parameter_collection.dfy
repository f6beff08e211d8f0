/** ParameterCollection (libHSON/ParameterCollection.cs): a string-keyed dictionary of
    parameters in which a key containing '/' is a path through nested object
    parameters. The dictionary `_data` is the entry sequence of a ParameterCollection
    value; an operation that changes it returns the new collection. Walking down a path
    one segment at a time, as the source's loops do, is recursion over the segments. */
module ParameterCollections {
  import opened Wrappers
  import opened Parameters

  // ---------------------------------------------------------------------------
  // The dictionary `_data`.
  // ---------------------------------------------------------------------------

  /** Dictionary.TryGetValue. */
  function Lookup(entries: seq<Member>, name: string): (r: Option<Parameter>)
    ensures r.Some? ==> Member(name, r.value) in entries
  {
    if |entries| == 0 then None
    else if entries[0].key == name then Some(entries[0].value)
    else Lookup(entries[1..], name)
  }

  /** A name is found exactly when some entry carries it. */
  lemma {:induction false} LookupFinds(entries: seq<Member>, name: string)
    ensures Lookup(entries, name).Some? <==> exists i :: 0 <= i < |entries| && entries[i].key == name
  {
    if |entries| > 0 && entries[0].key != name {
      LookupFinds(entries[1..], name);
      if exists i :: 0 <= i < |entries| && entries[i].key == name {
        var i :| 0 <= i < |entries| && entries[i].key == name;
        assert entries[1..][i - 1].key == name;
      }
    }
  }

  /** The Dictionary indexer's setter: replaces the entry for `name`, keeping its
      place, or adds a new entry at the end. */
  function Store(entries: seq<Member>, name: string, v: Parameter): (r: seq<Member>)
    ensures Lookup(r, name) == Some(v)
    ensures |r| == |entries| + (if Lookup(entries, name).None? then 1 else 0)
  {
    if |entries| == 0 then [Member(name, v)]
    else if entries[0].key == name then [Member(name, v)] + entries[1..]
    else [entries[0]] + Store(entries[1..], name, v)
  }

  /** Storing under one name leaves every other name's entry as it was, and storing the
      value a name already has changes nothing. */
  lemma {:induction false} StoreOthers(entries: seq<Member>, name: string, v: Parameter, m: string)
    ensures m != name ==> Lookup(Store(entries, name, v), m) == Lookup(entries, m)
    ensures Lookup(entries, name) == Some(v) ==> Store(entries, name, v) == entries
  {
    if |entries| > 0 && entries[0].key != name {
      StoreOthers(entries[1..], name, v, m);
    }
  }

  /** Storing keeps the keys of a dictionary distinct, and keeps its values well formed
      when the stored value is. */
  lemma {:induction false} StoreKeepsWellFormed(entries: seq<Member>, name: string, v: Parameter)
    ensures UniqueKeys(entries) ==> UniqueKeys(Store(entries, name, v))
    ensures (forall i :: 0 <= i < |entries| ==> WellFormed(entries[i].value)) && WellFormed(v) ==>
      forall i :: 0 <= i < |Store(entries, name, v)| ==> WellFormed(Store(entries, name, v)[i].value)
  {
    if |entries| > 0 && entries[0].key != name {
      var rest := entries[1..];
      StoreKeepsWellFormed(rest, name, v);
      var r := Store(entries, name, v);
      assert r == [entries[0]] + Store(rest, name, v);
      if UniqueKeys(entries) {
        forall k | 0 <= k < |Store(rest, name, v)|
          ensures Store(rest, name, v)[k].key != entries[0].key
        {
          var x := Store(rest, name, v)[k];
          assert x in Store(rest, name, v);
          LookupFinds(Store(rest, name, v), x.key);
          StoreOthers(rest, name, v, x.key);
          LookupFinds(rest, x.key);
        }
      }
    }
  }

  /** Dictionary.TryAdd: adds an entry only when the key is absent, and says whether
      it did. */
  function TryInsert(entries: seq<Member>, name: string, v: Parameter): (r: (seq<Member>, bool))
    ensures r.1 <==> Lookup(entries, name).None?
    ensures !r.1 ==> r.0 == entries
  {
    if Lookup(entries, name).Some? then (entries, false) else (entries + [Member(name, v)], true)
  }

  /** Where TryAdd adds, it stores exactly as the indexer would. */
  lemma TryInsertIsStore(entries: seq<Member>, name: string, v: Parameter)
    requires Lookup(entries, name).None?
    ensures TryInsert(entries, name, v).0 == Store(entries, name, v)
  {
    StoreNewAppends(entries, name, v);
  }

  /** Storing under a name no entry carries appends the entry. */
  lemma {:induction false} StoreNewAppends(entries: seq<Member>, name: string, v: Parameter)
    requires Lookup(entries, name).None?
    ensures Store(entries, name, v) == entries + [Member(name, v)]
  {
    if |entries| > 0 {
      var tail := entries[1..];
      assert entries[0].key != name && Lookup(tail, name).None?;
      assert Store(entries, name, v) == [entries[0]] + Store(tail, name, v);
      StoreNewAppends(tail, name, v);
      assert entries == [entries[0]] + tail;
    }
  }

  /** Dictionary.Remove: deletes the entry for `name`, if there is one. */
  function Delete(entries: seq<Member>, name: string): (r: seq<Member>)
    ensures |r| == |entries| - (if Lookup(entries, name).Some? then 1 else 0)
  {
    if |entries| == 0 then []
    else if entries[0].key == name then entries[1..]
    else [entries[0]] + Delete(entries[1..], name)
  }

  /** Removing one name leaves the other names alone; removing an absent name changes
      nothing; in a dictionary with distinct keys the name is gone afterwards. */
  lemma {:induction false} DeleteEffect(entries: seq<Member>, name: string, m: string)
    ensures m != name ==> Lookup(Delete(entries, name), m) == Lookup(entries, m)
    ensures Lookup(entries, name).None? ==> Delete(entries, name) == entries
    ensures UniqueKeys(entries) ==> Lookup(Delete(entries, name), name).None?
  {
    if |entries| > 0 {
      if entries[0].key != name {
        DeleteEffect(entries[1..], name, m);
      }
    }
  }

  /** Removing keeps the keys distinct and the values well formed. */
  lemma {:induction false} DeleteKeepsWellFormed(entries: seq<Member>, name: string)
    ensures UniqueKeys(entries) ==> UniqueKeys(Delete(entries, name))
    ensures (forall i :: 0 <= i < |entries| ==> WellFormed(entries[i].value)) ==>
      forall i :: 0 <= i < |Delete(entries, name)| ==> WellFormed(Delete(entries, name)[i].value)
  {
    if |entries| > 0 && entries[0].key != name {
      var rest := entries[1..];
      DeleteKeepsWellFormed(rest, name);
      DeleteSubset(rest, name);
      var d := Delete(rest, name);
      assert Delete(entries, name) == [entries[0]] + d;
      if UniqueKeys(entries) {
        forall k | 0 <= k < |d| ensures d[k].key != entries[0].key
        {
          assert d[k] in d;
          var j :| 0 <= j < |rest| && rest[j] == d[k];
          assert entries[j + 1].key != entries[0].key;
        }
      }
    }
  }

  lemma {:induction false} DeleteSubset(entries: seq<Member>, name: string)
    ensures forall x :: x in Delete(entries, name) ==> exists j :: 0 <= j < |entries| && entries[j] == x
  {
    if |entries| > 0 && entries[0].key != name {
      DeleteSubset(entries[1..], name);
      forall x | x in Delete(entries, name)
        ensures exists j :: 0 <= j < |entries| && entries[j] == x
      {
        if x != entries[0] {
          assert x in Delete(entries[1..], name);
          var j :| 0 <= j < |entries[1..]| && entries[1..][j] == x;
          assert entries[j + 1] == x;
        } else {
          assert entries[0] == x;
        }
      }
    } else if |entries| > 0 {
      forall x | x in Delete(entries, name)
        ensures exists j :: 0 <= j < |entries| && entries[j] == x
      {
        var j :| 0 <= j < |entries[1..]| && entries[1..][j] == x;
        assert entries[j + 1] == x;
      }
    }
  }

  // ---------------------------------------------------------------------------
  // Paths.
  // ---------------------------------------------------------------------------

  /** string.IndexOf('/', from): the first separator at or after `from`, or -1. */
  function IndexOf(s: string, from: nat): (r: int)
    requires from <= |s|
    ensures r == -1 || from <= r < |s|
    decreases |s| - from
  {
    if from == |s| then -1 else if s[from] == '/' then from else IndexOf(s, from + 1)
  }

  /** What IndexOf finds: no separator at all from `from` on, or a separator with none
      before it. */
  lemma {:induction false} IndexOfFinds(s: string, from: nat)
    requires from <= |s|
    ensures IndexOf(s, from) == -1 ==> forall k :: from <= k < |s| ==> s[k] != '/'
    ensures IndexOf(s, from) != -1 ==>
      s[IndexOf(s, from)] == '/' && forall k :: from <= k < IndexOf(s, from) ==> s[k] != '/'
    decreases |s| - from
  {
    if from < |s| && s[from] != '/' {
      IndexOfFinds(s, from + 1);
    }
  }

  /** The names a key is made of: the pieces between its separators. */
  function Split(s: string): (r: seq<string>)
    ensures |r| >= 1
    decreases |s|
  {
    var i := IndexOf(s, 0);
    if i == -1 then [s] else [s[..i]] + Split(s[i + 1..])
  }

  /** The separator IndexOf finds is the first one at or after `from`. */
  lemma {:induction false} IndexOfFirst(s: string, from: nat, r: nat)
    requires from <= r < |s| && s[r] == '/'
    requires forall k :: from <= k < r ==> s[k] != '/'
    ensures IndexOf(s, from) == r
    decreases r - from
  {
    if from < r {
      IndexOfFirst(s, from + 1, r);
    }
  }

  /** A key without a separator is one name. */
  lemma SplitPlain(s: string)
    requires '/' !in s
    ensures Split(s) == [s]
  {
    IndexOfFinds(s, 0);
    assert IndexOf(s, 0) == -1;
  }

  /** No name of a key contains a separator, and a key has two names or more exactly
      when it contains one. */
  lemma {:induction false} SplitNames(s: string)
    ensures forall i :: 0 <= i < |Split(s)| ==> '/' !in Split(s)[i]
    ensures '/' in s <==> |Split(s)| >= 2
    decreases |s|
  {
    var i := IndexOf(s, 0);
    IndexOfFinds(s, 0);
    if i == -1 {
      assert forall k :: 0 <= k < |s| ==> s[k] != '/';
    } else {
      assert s[i] == '/';
      SplitNames(s[i + 1..]);
      var r := Split(s);
      forall k | 0 <= k < |r| ensures '/' !in r[k] {
        if k > 0 { assert r[k] == Split(s[i + 1..])[k - 1]; }
      }
    }
  }

  /** The key whose names are `names`. */
  function Join(names: seq<string>): string
    requires |names| >= 1
  {
    if |names| == 1 then names[0] else names[0] + "/" + Join(names[1..])
  }

  /** Joining the names of a key with '/' gives back the key. */
  lemma {:induction false} JoinSplit(s: string)
    ensures Join(Split(s)) == s
    decreases |s|
  {
    var i := IndexOf(s, 0);
    IndexOfFinds(s, 0);
    if i != -1 {
      var names := Split(s);
      assert names == [s[..i]] + Split(s[i + 1..]);
      assert names[1..] == Split(s[i + 1..]);
      JoinSplit(s[i + 1..]);
      assert s == s[..i] + "/" + s[i + 1..];
    }
  }

  lemma IndexOfPrefix(a: string, b: string)
    requires '/' !in a
    ensures IndexOf(a + "/" + b, 0) == |a|
  {
    var s := a + "/" + b;
    assert s[|a|] == '/';
    assert forall k :: 0 <= k < |a| ==> s[k] == a[k];
    IndexOfFirst(s, 0, |a|);
  }

  /** Splitting a joined list of separator-free names gives back the list. */
  lemma {:induction false} SplitJoin(names: seq<string>)
    requires |names| >= 1
    requires forall i :: 0 <= i < |names| ==> '/' !in names[i]
    ensures Split(Join(names)) == names
  {
    if |names| == 1 {
      SplitPlain(names[0]);
    } else {
      var a, b := names[0], Join(names[1..]);
      var s := a + "/" + b;
      IndexOfPrefix(a, b);
      assert s[..|a|] == a;
      assert s[|a| + 1..] == b;
      SplitJoin(names[1..]);
    }
  }

  /** One item GetEachNameInPath yields: a name and whether it is the last one. */
  datatype PathName = PathName(name: string, isFinalName: bool)

  /** The items GetEachNameInPath yields for a key, in order. */
  function NamesInPath(path: string): (r: seq<PathName>)
  {
    var names := Split(path);
    seq(|names|, i requires 0 <= i < |names| => PathName(names[i], i == |names| - 1))
  }

  function NamesOf(items: seq<PathName>): (r: seq<string>)
    ensures |r| == |items|
    ensures forall i :: 0 <= i < |items| ==> r[i] == items[i].name
  {
    seq(|items|, i requires 0 <= i < |items| => items[i].name)
  }

  /** A key containing a separator yields at least two names, only the last is
      flagged final, no name contains a separator, and joining them with '/' gives back
      the key. */
  lemma NamesInPathShape(path: string)
    requires '/' in path
    ensures |NamesInPath(path)| >= 2
    ensures forall i :: 0 <= i < |NamesInPath(path)| ==>
      (NamesInPath(path)[i].isFinalName <==> i == |NamesInPath(path)| - 1)
    ensures forall i :: 0 <= i < |NamesInPath(path)| ==> '/' !in NamesInPath(path)[i].name
    ensures Join(NamesOf(NamesInPath(path))) == path
  {
    SplitNames(path);
    assert NamesOf(NamesInPath(path)) == Split(path);
    JoinSplit(path);
  }

  /** The first separator of a suffix is the first separator at or after where the
      suffix starts. */
  lemma IndexOfSuffix(s: string, from: nat)
    requires from <= |s|
    ensures IndexOf(s, from) == (if IndexOf(s[from..], 0) == -1 then -1 else IndexOf(s[from..], 0) + from)
  {
    var rest := s[from..];
    IndexOfFinds(s, from);
    IndexOfFinds(rest, 0);
    assert forall k :: 0 <= k < |rest| ==> rest[k] == s[from + k];
  }

  /** Where the next separator at or after `from` is, the names from `from` on begin
      with the piece up to it; where there is none, the rest is one name. */
  lemma SplitFrom(path: string, from: nat)
    requires from <= |path|
    ensures IndexOf(path, from) != -1 ==>
      Split(path[from..]) == [path[from..IndexOf(path, from)]] + Split(path[IndexOf(path, from) + 1..])
    ensures IndexOf(path, from) == -1 ==> Split(path[from..]) == [path[from..]]
  {
    var rest := path[from..];
    var j := IndexOf(path, from);
    IndexOfSuffix(path, from);
    if j != -1 {
      SplitAt(rest, j - from);
      SuffixSlices(path, from, j);
    } else {
      SplitNone(rest);
    }
  }

  /** One unfolding of Split at the separator IndexOf finds. */
  lemma SplitAt(t: string, i: nat)
    requires IndexOf(t, 0) == i
    ensures Split(t) == [t[..i]] + Split(t[i + 1..])
  {
  }

  lemma SplitNone(t: string)
    requires IndexOf(t, 0) == -1
    ensures Split(t) == [t]
  {
  }

  lemma SuffixSlices(path: string, from: nat, j: nat)
    requires from <= j < |path|
    ensures path[from..][..j - from] == path[from..j]
    ensures path[from..][j - from + 1..] == path[j + 1..]
  {
  }

  lemma NamesOfSnoc(items: seq<PathName>, x: PathName)
    ensures NamesOf(items + [x]) == NamesOf(items) + [x.name]
  {
  }

  /** Items whose names are the names of `path` and whose last item alone is flagged
      final are the items of NamesInPath. */
  lemma NamesInPathFrom(items: seq<PathName>, path: string)
    requires NamesOf(items) == Split(path)
    requires forall k :: 0 <= k < |items| ==> (items[k].isFinalName <==> k == |items| - 1)
    ensures items == NamesInPath(path)
  {
  }

  /** One turn of GetEachNameInPath's loop keeps the names yielded, followed by the
      names of what is left of the path, equal to the names of the whole path. */
  lemma NamesStep(names: seq<PathName>, path: string, cur: nat)
    requires cur <= |path| && IndexOf(path, cur) != -1
    requires NamesOf(names) + Split(path[cur..]) == Split(path)
    ensures NamesOf(names + [PathName(path[cur..IndexOf(path, cur)], false)])
      + Split(path[IndexOf(path, cur) + 1..]) == Split(path)
  {
    var j := IndexOf(path, cur);
    var x := PathName(path[cur..j], false);
    var tail := Split(path[j + 1..]);
    assert Split(path[cur..]) == [x.name] + tail by {
      SplitFrom(path, cur);
    }
    NamesOfSnoc(names, x);
    Reassoc(NamesOf(names), [x.name], tail);
  }

  lemma Reassoc<T>(a: seq<T>, b: seq<T>, c: seq<T>)
    ensures a + b + c == a + (b + c)
  {
  }

  /** GetEachNameInPath: yields each name of `path`, the first ending at the first
      separator, each later one at the next separator, the last running to the end. */
  method GetEachNameInPath(path: string, firstNameSepIndex: nat) returns (names: seq<PathName>)
    requires firstNameSepIndex < |path| && firstNameSepIndex == IndexOf(path, 0)
    ensures names == NamesInPath(path)
  {
    assert path[0..] == path;
    NamesStep([], path, 0);
    names := [PathName(path[..firstNameSepIndex], false)];
    var curNameIndex := firstNameSepIndex + 1;
    var nextNameSepIndex := IndexOf(path, curNameIndex);
    while nextNameSepIndex != -1
      invariant curNameIndex <= |path|
      invariant nextNameSepIndex == IndexOf(path, curNameIndex)
      invariant forall k :: 0 <= k < |names| ==> !names[k].isFinalName
      invariant NamesOf(names) + Split(path[curNameIndex..]) == Split(path)
      decreases |path| - curNameIndex
    {
      NamesStep(names, path, curNameIndex);
      ghost var tail := path[nextNameSepIndex + 1..];
      names := names + [PathName(path[curNameIndex..nextNameSepIndex], false)];
      curNameIndex := nextNameSepIndex + 1;
      assert path[curNameIndex..] == tail;
      nextNameSepIndex := IndexOf(path, curNameIndex);
    }
    NamesLast(names, path, curNameIndex);
    names := names + [PathName(path[curNameIndex..], true)];
  }

  /** After the last separator, the rest of the path is the final name. */
  lemma NamesLast(names: seq<PathName>, path: string, cur: nat)
    requires cur <= |path| && IndexOf(path, cur) == -1
    requires forall k :: 0 <= k < |names| ==> !names[k].isFinalName
    requires NamesOf(names) + Split(path[cur..]) == Split(path)
    ensures names + [PathName(path[cur..], true)] == NamesInPath(path)
  {
    var x := PathName(path[cur..], true);
    SplitFrom(path, cur);
    NamesOfSnoc(names, x);
    var items := names + [x];
    assert NamesOf(items) == Split(path);
    assert forall k :: 0 <= k < |items| ==> (items[k].isFinalName <==> k == |items| - 1);
    NamesInPathFrom(items, path);
  }

  /** The parameter a sequence of names leads to: each name but the last must lead to an
      object parameter; the last may lead to a parameter of any type. */
  function PathGet(c: ParameterCollection, names: seq<string>): Option<Parameter>
    requires |names| >= 1
    decreases |names|
  {
    match Lookup(c.entries, names[0])
    case None => None
    case Some(p) =>
      if |names| == 1 then Some(p)
      else if p.Object? then PathGet(p.collection, names[1..])
      else None
  }

  // ---------------------------------------------------------------------------
  // Lookups.
  // ---------------------------------------------------------------------------

  /** TryGetParameterFromName: a lookup of a plain name. */
  function TryGetParameterFromName(c: ParameterCollection, key: string): (r: Option<Parameter>)
    ensures r.Some? <==> exists i :: 0 <= i < |c.entries| && c.entries[i].key == key
  {
    LookupFinds(c.entries, key);
    Lookup(c.entries, key)
  }

  /** TryGetParameterFromPath: follows the names of a key through nested object
      parameters; a missing name or a non-object intermediate ends the search with
      nothing found, and never an error. */
  function TryGetParameterFromPath(c: ParameterCollection, key: string): (r: Option<Parameter>)
    requires '/' in key
    ensures r.Some? ==> Lookup(c.entries, Split(key)[0]).Some?
    ensures r.Some? ==> Lookup(c.entries, Split(key)[0]).value.Object?
  {
    SplitNames(key);
    PathGet(c, Split(key))
  }

  /** TryGetValue: a lookup by name, or by path when the key contains a separator. */
  function TryGetValue(c: ParameterCollection, key: string): (r: Option<Parameter>)
    ensures r == PathGet(c, Split(key))
  {
    if '/' !in key then
      SplitPlain(key);
      TryGetParameterFromName(c, key)
    else TryGetParameterFromPath(c, key)
  }

  /** ContainsKey: accepts paths, exactly as TryGetValue does. */
  function ContainsKey(c: ParameterCollection, key: string): (r: bool)
    ensures r <==> TryGetValue(c, key).Some?
  {
    TryGetValue(c, key).Some?
  }

  /** Count: the number of top-level entries only. */
  function Count(c: ParameterCollection): (r: nat)
    ensures r == |c.entries|
  {
    |c.entries|
  }

  /** Errors of the collection's operations: KeyNotFoundException from the indexer's
      getter, and the two ArgumentExceptions (an intermediate that is not an object
      parameter, a key that Add finds already present). */
  datatype CollectionError = KeyNotFound | NotAnObject | KeyExists

  /** The indexer's getter. */
  function Get(c: ParameterCollection, key: string): (r: Result<Parameter, CollectionError>)
    ensures r.Success? <==> ContainsKey(c, key)
    ensures r.Success? ==> TryGetValue(c, key) == Some(r.value)
    ensures r.Failure? ==> r.error == KeyNotFound
  {
    match TryGetValue(c, key)
    case Some(p) => Success(p)
    case None => Failure(KeyNotFound)
  }

  // ---------------------------------------------------------------------------
  // Updates.
  // ---------------------------------------------------------------------------

  /** What happens at the last name of a path: the indexer's setter assigns, TryAdd
      inserts only if absent. */
  datatype FinalStep = Assign(value: Parameter) | Insert(value: Parameter)

  /** The collection after an update, and how the update ended: `Success(b)` where it
      returned (`b` is whether the final value was stored; only an insert onto an
      existing key reports false), or the error it threw. An update that throws or
      reports false has created nothing (UpdateRefusedChangesNothing). */
  datatype Update = Update(collection: ParameterCollection, outcome: Result<bool, CollectionError>)

  /** The parameter at a proper prefix of `names` is there but is not an object. */
  ghost predicate NonObjectAt(c: ParameterCollection, prefix: seq<string>)
    requires |prefix| >= 1
  {
    PathGet(c, prefix).Some? && !PathGet(c, prefix).value.Object?
  }

  ghost predicate Blocked(c: ParameterCollection, names: seq<string>)
  {
    exists i :: 1 <= i < |names| && NonObjectAt(c, names[..i])
  }

  /** The walk the indexer's setter and TryAdd perform along a path: each name but the
      last leads to an existing object parameter, or a new empty one is added under it;
      a name that leads to a parameter of another type throws. */
  function UpdatePath(c: ParameterCollection, names: seq<string>, step: FinalStep): (r: Update)
    requires |names| >= 1
    ensures r.outcome == Success(true) ==> PathGet(r.collection, names) == Some(step.value)
    ensures r.outcome == Success(false) ==>
      step.Insert? && PathGet(c, names).Some? && PathGet(r.collection, names) == PathGet(c, names)
    ensures r.outcome.Success? && step.Insert? ==> (r.outcome.value <==> PathGet(c, names).None?)
    ensures step.Assign? ==> r.outcome != Success(false)
    ensures r.outcome.Failure? ==> r.outcome.error == NotAnObject
    ensures |r.collection.entries| == |c.entries| + (if Lookup(c.entries, names[0]).None? then 1 else 0)
    ensures WellFormedCollection(c) && WellFormed(step.value) ==> WellFormedCollection(r.collection)
    decreases |names|
  {
    if |names| == 1 then
      StoreKeepsWellFormed(c.entries, names[0], step.value);
      match step
      case Assign(v) => Update(ParameterCollection(Store(c.entries, names[0], v)), Success(true))
      case Insert(v) =>
        var (entries, added) := TryInsert(c.entries, names[0], v);
        if added then TryInsertIsStore(c.entries, names[0], v); Update(ParameterCollection(entries), Success(added))
        else Update(ParameterCollection(entries), Success(added))
    else
      match Lookup(c.entries, names[0])
      case None =>
        var u := UpdatePath(EmptyCollection, names[1..], step);
        StoreKeepsWellFormed(c.entries, names[0], Object(u.collection));
        Update(ParameterCollection(Store(c.entries, names[0], Object(u.collection))), u.outcome)
      case Some(p) =>
        if !p.Object? then Update(c, Failure(NotAnObject))
        else
          var u := UpdatePath(p.collection, names[1..], step);
          MemberWellFormed(c, names[0]);
          StoreKeepsWellFormed(c.entries, names[0], Object(u.collection));
          Update(ParameterCollection(Store(c.entries, names[0], Object(u.collection))), u.outcome)
  }

  /** A parameter found in a well-formed collection is well formed. */
  lemma MemberWellFormed(c: ParameterCollection, name: string)
    ensures WellFormedCollection(c) && Lookup(c.entries, name).Some? ==>
      WellFormed(Lookup(c.entries, name).value)
  {
    if Lookup(c.entries, name).Some? {
      var v := Lookup(c.entries, name).value;
      assert Member(name, v) in c.entries;
    }
  }

  /** The indexer's setter. */
  function Set(c: ParameterCollection, key: string, v: Parameter): (r: Update)
    ensures r == UpdatePath(c, Split(key), Assign(v))
    ensures r.outcome.Success? ==> r.outcome.value && TryGetValue(r.collection, key) == Some(v)
  {
    if '/' !in key then
      SplitPlain(key);
      Update(ParameterCollection(Store(c.entries, key, v)), Success(true))
    else UpdatePath(c, Split(key), Assign(v))
  }

  /** TryAdd. */
  function TryAdd(c: ParameterCollection, key: string, v: Parameter): (r: Update)
    ensures r == UpdatePath(c, Split(key), Insert(v))
    ensures r.outcome == Success(true) ==> TryGetValue(r.collection, key) == Some(v)
    ensures r.outcome == Success(false) ==> TryGetValue(r.collection, key) == TryGetValue(c, key)
  {
    if '/' !in key then
      SplitPlain(key);
      var (entries, added) := TryInsert(c.entries, key, v);
      Update(ParameterCollection(entries), Success(added))
    else UpdatePath(c, Split(key), Insert(v))
  }

  /** Add: TryAdd, with a key already present turned into an ArgumentException. */
  function Add(c: ParameterCollection, key: string, v: Parameter): (r: Update)
    ensures r.collection == TryAdd(c, key, v).collection
    ensures r.outcome.Success? <==> TryAdd(c, key, v).outcome == Success(true)
    ensures r.outcome.Success? ==> r.outcome.value && TryGetValue(r.collection, key) == Some(v)
    ensures TryAdd(c, key, v).outcome == Success(false) ==> r.outcome == Failure(KeyExists)
  {
    var u := TryAdd(c, key, v);
    if u.outcome == Success(false) then Update(u.collection, Failure(KeyExists)) else u
  }

  /** The collection after Remove, and the parameter removed, if any (Remove's result
      is whether there was one). */
  datatype Removal = Removal(collection: ParameterCollection, removed: Option<Parameter>)

  /** The walk Remove performs along a path: it follows existing object parameters
      only, creating nothing, and removes the last name from the innermost one. */
  function RemovePath(c: ParameterCollection, names: seq<string>): (r: Removal)
    requires |names| >= 1
    ensures r.removed == PathGet(c, names)
    ensures r.removed.None? ==> r.collection == c
    ensures |r.collection.entries| == |c.entries| - (if |names| == 1 && r.removed.Some? then 1 else 0)
    ensures WellFormedCollection(c) ==>
      WellFormedCollection(r.collection) && PathGet(r.collection, names).None?
    decreases |names|
  {
    if |names| == 1 then
      DeleteEffect(c.entries, names[0], names[0]);
      DeleteKeepsWellFormed(c.entries, names[0]);
      Removal(ParameterCollection(Delete(c.entries, names[0])), Lookup(c.entries, names[0]))
    else
      match Lookup(c.entries, names[0])
      case None => Removal(c, None)
      case Some(p) =>
        if !p.Object? then Removal(c, None)
        else
          var r := RemovePath(p.collection, names[1..]);
          StoreOthers(c.entries, names[0], Object(r.collection), names[0]);
          MemberWellFormed(c, names[0]);
          StoreKeepsWellFormed(c.entries, names[0], Object(r.collection));
          Removal(ParameterCollection(Store(c.entries, names[0], Object(r.collection))), r.removed)
  }

  /** Remove. */
  function Remove(c: ParameterCollection, key: string): (r: Removal)
    ensures r == RemovePath(c, Split(key))
    ensures r.removed == TryGetValue(c, key)
  {
    if '/' !in key then
      SplitPlain(key);
      Removal(ParameterCollection(Delete(c.entries, key)), Lookup(c.entries, key))
    else RemovePath(c, Split(key))
  }
}

/** What the path operations of ParameterCollection promise, stated over the names of a
    key: set-then-get, undisturbed siblings, the non-object error, Remove's no-op. */
module ParameterCollectionFacts {
  import opened Wrappers
  import opened Parameters
  import opened ParameterCollections

  /** Below a new empty object parameter, the rest of a path is all new, so the walk
      can neither meet a non-object nor find the last name present. */
  lemma {:induction false} UpdateOnEmptySucceeds(names: seq<string>, step: FinalStep)
    requires |names| >= 1
    ensures UpdatePath(EmptyCollection, names, step).outcome == Success(true)
    decreases |names|
  {
    if |names| > 1 {
      UpdateOnEmptySucceeds(names[1..], step);
    }
  }

  /** An update that throws, or an insert that reports false, leaves the collection as
      it was: intermediates are created only under absent names, and everything below
      a created one succeeds. */
  lemma {:induction false} UpdateRefusedChangesNothing(c: ParameterCollection, names: seq<string>, step: FinalStep)
    requires |names| >= 1
    ensures UpdatePath(c, names, step).outcome != Success(true) ==> UpdatePath(c, names, step).collection == c
    decreases |names|
  {
    if |names| > 1 {
      match Lookup(c.entries, names[0])
      case None => UpdateOnEmptySucceeds(names[1..], step);
      case Some(p) =>
        if p.Object? {
          UpdateRefusedChangesNothing(p.collection, names[1..], step);
          StoreOthers(c.entries, names[0], p, names[0]);
        }
    }
  }

  /** The indexer's setter, TryAdd and Add change nothing when they throw or, for
      TryAdd, when they return false. */
  lemma RefusedUpdatesChangeNothing(c: ParameterCollection, key: string, v: Parameter)
    ensures Set(c, key, v).outcome.Failure? ==> Set(c, key, v).collection == c
    ensures TryAdd(c, key, v).outcome != Success(true) ==> TryAdd(c, key, v).collection == c
    ensures Add(c, key, v).outcome.Failure? ==> Add(c, key, v).collection == c
  {
    SplitNames(key);
    UpdateRefusedChangesNothing(c, Split(key), Assign(v));
    UpdateRefusedChangesNothing(c, Split(key), Insert(v));
  }

  /** Below an object parameter found under the first name, the lookup of a prefix of
      two or more names continues in that object's collection. */
  lemma PathGetPrefix(c: ParameterCollection, names: seq<string>, cc: ParameterCollection, i: nat)
    requires |names| >= 1 && Lookup(c.entries, names[0]) == Some(Object(cc))
    requires 2 <= i <= |names|
    ensures PathGet(c, names[..i]) == PathGet(cc, names[1..][..i - 1])
  {
    assert names[..i][0] == names[0];
    assert names[..i][1..] == names[1..][..i - 1];
  }

  /** An update throws exactly when some proper prefix of the path leads to a parameter
      that is not an object. */
  lemma {:induction false} UpdateFailsExactlyWhenBlocked(c: ParameterCollection, names: seq<string>, step: FinalStep)
    requires |names| >= 1
    ensures UpdatePath(c, names, step).outcome.Failure? <==> Blocked(c, names)
    decreases |names|
  {
    if |names| > 1 {
      assert names[..1][0] == names[0];
      match Lookup(c.entries, names[0])
      case None =>
        UpdateFailsExactlyWhenBlocked(EmptyCollection, names[1..], step);
        forall i | 1 <= i < |names| - 1 ensures !NonObjectAt(EmptyCollection, names[1..][..i]) {}
        forall i | 1 <= i < |names| ensures !NonObjectAt(c, names[..i]) {
          assert names[..i][0] == names[0];
        }
      case Some(p) =>
        if p.Object? {
          var cc := p.collection;
          UpdateFailsExactlyWhenBlocked(cc, names[1..], step);
          if Blocked(c, names) {
            var i :| 1 <= i < |names| && NonObjectAt(c, names[..i]);
            PathGetPrefix(c, names, cc, i);
            assert NonObjectAt(cc, names[1..][..i - 1]);
          }
          if Blocked(cc, names[1..]) {
            var i :| 1 <= i < |names[1..]| && NonObjectAt(cc, names[1..][..i]);
            PathGetPrefix(c, names, cc, i + 1);
            assert NonObjectAt(c, names[..i + 1]);
          }
        } else {
          assert NonObjectAt(c, names[..1]);
        }
    }
  }

  /** Updating at a path leaves the first lookup of any name other than the path's first
      one as it was. */
  lemma UpdateKeepsOtherNames(c: ParameterCollection, names: seq<string>, step: FinalStep, m: string)
    requires |names| >= 1 && m != names[0]
    ensures Lookup(UpdatePath(c, names, step).collection.entries, m) == Lookup(c.entries, m)
  {
    if |names| == 1 {
      if step.Insert? && Lookup(c.entries, names[0]).None? {
        TryInsertIsStore(c.entries, names[0], step.value);
      }
      StoreOthers(c.entries, names[0], step.value, m);
    } else {
      match Lookup(c.entries, names[0])
      case None =>
        StoreOthers(c.entries, names[0], Object(UpdatePath(EmptyCollection, names[1..], step).collection), m);
      case Some(p) =>
        if p.Object? {
          StoreOthers(c.entries, names[0], Object(UpdatePath(p.collection, names[1..], step).collection), m);
        }
    }
  }

  /** Two name sequences that part ways: equal up to some position, different there. */
  ghost predicate Diverge(a: seq<string>, b: seq<string>)
  {
    exists i :: 0 <= i < |a| && i < |b| && a[..i] == b[..i] && a[i] != b[i]
  }

  /** Updating at a path, whether it succeeds or throws, leaves every path that parts
      ways with it resolving as before: setting a/x leaves a/b alone. */
  lemma {:induction false} UpdateLeavesDivergentPaths(c: ParameterCollection, names: seq<string>,
                                                      step: FinalStep, other: seq<string>, i: nat)
    requires i < |names| && i < |other| && names[..i] == other[..i] && names[i] != other[i]
    ensures PathGet(UpdatePath(c, names, step).collection, other) == PathGet(c, other)
    decreases i
  {
    if i == 0 {
      UpdateKeepsOtherNames(c, names, step, other[0]);
    } else {
      assert names[0] == names[..i][0] == other[..i][0] == other[0];
      assert names[1..][..i - 1] == other[1..][..i - 1];
      match Lookup(c.entries, names[0])
      case None =>
        UpdateLeavesDivergentPaths(EmptyCollection, names[1..], step, other[1..], i - 1);
      case Some(p) =>
        if p.Object? {
          UpdateLeavesDivergentPaths(p.collection, names[1..], step, other[1..], i - 1);
        }
    }
  }

  /** After an update that did not throw, every proper prefix of the path leads to an
      object parameter: the missing ones were created as objects, the existing ones
      were objects already and were reused. */
  lemma {:induction false} UpdateLeavesObjectsAlongPath(c: ParameterCollection, names: seq<string>,
                                                        step: FinalStep, i: nat)
    requires 1 <= i < |names| && UpdatePath(c, names, step).outcome.Success?
    ensures PathGet(UpdatePath(c, names, step).collection, names[..i]).Some?
    ensures PathGet(UpdatePath(c, names, step).collection, names[..i]).value.Object?
    ensures PathGet(c, names[..i]).Some? ==> PathGet(c, names[..i]).value.Object?
    decreases i
  {
    var r := UpdatePath(c, names, step);
    assert names[..i][0] == names[0];
    match Lookup(c.entries, names[0])
    case None =>
      var u := UpdatePath(EmptyCollection, names[1..], step);
      assert Lookup(r.collection.entries, names[0]) == Some(Object(u.collection));
      if i >= 2 {
        UpdateLeavesObjectsAlongPath(EmptyCollection, names[1..], step, i - 1);
        PathGetPrefix(r.collection, names, u.collection, i);
      }
    case Some(p) =>
      var u := UpdatePath(p.collection, names[1..], step);
      assert Lookup(r.collection.entries, names[0]) == Some(Object(u.collection));
      if i >= 2 {
        UpdateLeavesObjectsAlongPath(p.collection, names[1..], step, i - 1);
        PathGetPrefix(r.collection, names, u.collection, i);
        PathGetPrefix(c, names, p.collection, i);
      }
  }

  /** Set through an existing intermediate that is not an object parameter throws the
      ArgumentException, and so does TryAdd; nothing else makes them throw. */
  lemma SetAndTryAddFailExactlyWhenBlocked(c: ParameterCollection, key: string, v: Parameter)
    ensures Set(c, key, v).outcome.Failure? <==> Blocked(c, Split(key))
    ensures TryAdd(c, key, v).outcome.Failure? <==> Blocked(c, Split(key))
    ensures Set(c, key, v).outcome.Failure? ==> Set(c, key, v).outcome.error == NotAnObject
  {
    UpdateFailsExactlyWhenBlocked(c, Split(key), Assign(v));
    UpdateFailsExactlyWhenBlocked(c, Split(key), Insert(v));
  }

  /** Setting a key that does not throw makes TryGetValue return exactly the value set. */
  lemma SetThenGet(c: ParameterCollection, key: string, v: Parameter)
    requires !Blocked(c, Split(key))
    ensures TryGetValue(Set(c, key, v).collection, key) == Some(v)
    ensures ContainsKey(Set(c, key, v).collection, key)
  {
    UpdateFailsExactlyWhenBlocked(c, Split(key), Assign(v));
  }

  /** TryAdd returns false exactly when the key already resolves, and then leaves the
      value there in place; where it returns true the new value is found under the key;
      Add throws in the first case. */
  lemma TryAddOutcome(c: ParameterCollection, key: string, v: Parameter)
    requires !Blocked(c, Split(key))
    ensures TryAdd(c, key, v).outcome == Success(ContainsKey(c, key) == false)
    ensures ContainsKey(c, key) ==> TryGetValue(TryAdd(c, key, v).collection, key) == TryGetValue(c, key)
    ensures !ContainsKey(c, key) ==> TryGetValue(TryAdd(c, key, v).collection, key) == Some(v)
    ensures ContainsKey(c, key) <==> Add(c, key, v).outcome == Failure(KeyExists)
  {
    UpdateFailsExactlyWhenBlocked(c, Split(key), Insert(v));
  }

  /** Set, TryAdd and Add leave the lookup of every key whose path parts ways with the
      key's path as it was, whatever their outcome. */
  lemma UpdatesLeaveOtherKeys(c: ParameterCollection, key: string, v: Parameter, other: string)
    requires Diverge(Split(key), Split(other))
    ensures TryGetValue(Set(c, key, v).collection, other) == TryGetValue(c, other)
    ensures TryGetValue(TryAdd(c, key, v).collection, other) == TryGetValue(c, other)
    ensures TryGetValue(Add(c, key, v).collection, other) == TryGetValue(c, other)
  {
    var i :| 0 <= i < |Split(key)| && i < |Split(other)| && Split(key)[..i] == Split(other)[..i]
      && Split(key)[i] != Split(other)[i];
    UpdateLeavesDivergentPaths(c, Split(key), Assign(v), Split(other), i);
    UpdateLeavesDivergentPaths(c, Split(key), Insert(v), Split(other), i);
  }

  /** Count counts top-level entries only: an update by path adds one exactly when its
      first name was missing at the top level. */
  lemma UpdatesCountTopLevel(c: ParameterCollection, key: string, v: Parameter)
    ensures Count(Set(c, key, v).collection) == Count(c) + (if Lookup(c.entries, Split(key)[0]).None? then 1 else 0)
    ensures Count(TryAdd(c, key, v).collection) == Count(c) + (if Lookup(c.entries, Split(key)[0]).None? then 1 else 0)
  {
  }

  /** Removing leaves every path that parts ways with the removed one as it was. */
  lemma {:induction false} RemoveLeavesDivergentPaths(c: ParameterCollection, names: seq<string>,
                                                      other: seq<string>, i: nat)
    requires i < |names| && i < |other| && names[..i] == other[..i] && names[i] != other[i]
    ensures PathGet(RemovePath(c, names).collection, other) == PathGet(c, other)
    decreases i
  {
    if i == 0 {
      if |names| == 1 {
        DeleteEffect(c.entries, names[0], other[0]);
      } else {
        match Lookup(c.entries, names[0])
        case None =>
        case Some(p) =>
          if p.Object? {
            StoreOthers(c.entries, names[0], Object(RemovePath(p.collection, names[1..]).collection), other[0]);
          }
      }
    } else {
      assert names[0] == names[..i][0] == other[..i][0] == other[0];
      assert names[1..][..i - 1] == other[1..][..i - 1];
      match Lookup(c.entries, names[0])
      case None =>
      case Some(p) =>
        if p.Object? {
          RemoveLeavesDivergentPaths(p.collection, names[1..], other[1..], i - 1);
        }
    }
  }

  /** Remove by key: it reports exactly the parameter the key resolved to; where the key
      did not resolve it creates nothing and changes nothing; otherwise, in a collection
      with distinct keys, the key no longer resolves. */
  lemma RemoveEffect(c: ParameterCollection, key: string)
    ensures Remove(c, key).removed == TryGetValue(c, key)
    ensures !ContainsKey(c, key) ==> Remove(c, key).collection == c
    ensures WellFormedCollection(c) ==> !ContainsKey(Remove(c, key).collection, key)
  {
  }

  /** Remove leaves the lookup of every key whose path parts ways with the removed key's
      path as it was. */
  lemma RemoveLeavesOtherKeys(c: ParameterCollection, key: string, other: string)
    requires Diverge(Split(key), Split(other))
    ensures TryGetValue(Remove(c, key).collection, other) == TryGetValue(c, other)
  {
    var i :| 0 <= i < |Split(key)| && i < |Split(other)| && Split(key)[..i] == Split(other)[..i]
      && Split(key)[i] != Split(other)[i];
    RemoveLeavesDivergentPaths(c, Split(key), Split(other), i);
  }

  /** A path that resolves is not blocked: every proper prefix of it leads to an object
      parameter. */
  lemma {:induction false} FoundPathUnblocked(c: ParameterCollection, names: seq<string>)
    requires |names| >= 1 && PathGet(c, names).Some?
    ensures !Blocked(c, names)
    decreases |names|
  {
    if |names| > 1 {
      var p := Lookup(c.entries, names[0]).value;
      assert p.Object? && PathGet(p.collection, names[1..]).Some?;
      FoundPathUnblocked(p.collection, names[1..]);
      forall i | 1 <= i < |names| ensures !NonObjectAt(c, names[..i]) {
        assert names[..i][0] == names[0];
        if i >= 2 {
          PathGetPrefix(c, names, p.collection, i);
          assert !NonObjectAt(p.collection, names[1..][..i - 1]);
        }
      }
    }
  }

  /** Setting a key that is already there replaces its value. */
  lemma SetFoundKey(c: ParameterCollection, key: string, v: Parameter)
    requires ContainsKey(c, key)
    ensures Set(c, key, v).outcome == Success(true)
    ensures TryGetValue(Set(c, key, v).collection, key) == Some(v)
  {
    FoundPathUnblocked(c, Split(key));
    SetAndTryAddFailExactlyWhenBlocked(c, key, v);
  }
}
