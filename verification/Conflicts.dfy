/**
 ContextConflictDetector: compares two context snapshots at the paths a tool depends on, by deep
 structural equality. Deep equality and the canonical text agree except about the sign of zero and about
 keys that differ but collate alike.
 */
module Conflicts {
  import opened Basics
  import opened CanonicalText
  import opened CanonicalTree
  import opened Sorting

  // ------------------------------------------------------------ deep equality

  /** Whether one text comes before another by localeCompare; different texts may compare as equal. */
  type Collation = (Text, Text) -> bool

  function Keys(ms: seq<Member>): (ks: seq<Text>)
    ensures |ks| == |ms| && forall i :: 0 <= i < |ms| ==> ks[i] == ms[i].key
  {
    seq(|ms|, i requires 0 <= i < |ms| => ms[i].key)
  }

  predicate HasKey(ms: seq<Member>, key: Text) {
    exists i :: 0 <= i < |ms| && ms[i].key == key
  }

  /** Reflect.get(object, key), None for undefined. */
  function Get(ms: seq<Member>, key: Text): (v: Option<Tree>)
    ensures v.Some? <==> HasKey(ms, key)
    ensures v.Some? ==> exists i :: 0 <= i < |ms| && ms[i].key == key && ms[i].value == v.value
  {
    if ms == [] then None
    else if ms[0].key == key then
      assert HasKey(ms, key);
      Some(ms[0].value)
    else
      var v := Get(ms[1..], key);
      assert v.Some? ==> exists i :: 0 <= i < |ms[1..]| && ms[1..][i].key == key && ms[i + 1] == ms[1..][i];
      assert HasKey(ms, key) ==> HasKey(ms[1..], key) by {
        if HasKey(ms, key) {
          var i :| 0 <= i < |ms| && ms[i].key == key;
          assert ms[1..][i - 1].key == key;
        }
      }
      v
  }

  predicate DeepEqual(o: Collation, t: Tree, u: Tree)
    decreases t, 0
  {
    match (t, u)
    case (Null, Null) => true
    case (Boolean(b), Boolean(c)) => b == c
    case (Numeric(m), Numeric(n)) => m == n
    case (String(r), String(s)) => r == s
    case (Array(a), Array(b)) => |a| == |b| && forall i :: 0 <= i < |a| ==> DeepEqual(o, a[i], b[i])
    case (Object(a), Object(b)) =>
      && Sort(o, Keys(a)) == Sort(o, Keys(b))
      && forall i :: 0 <= i < |a| ==> EqualAt(o, a[i].value, Get(b, a[i].key))
    case _ => false
  }

  predicate EqualAt(o: Collation, t: Tree, u: Option<Tree>)
    decreases t, 1
  {
    u.Some? && DeepEqual(o, t, u.value)
  }

  predicate SameKeys(a: seq<Member>, b: seq<Member>) {
    && (forall i :: 0 <= i < |a| ==> HasKey(b, a[i].key))
    && (forall j :: 0 <= j < |b| ==> HasKey(a, b[j].key))
  }

  lemma KeysIn(ms: seq<Member>, key: Text)
    ensures key in Keys(ms) <==> HasKey(ms, key)
  {
    if key in Keys(ms) {
      var i :| 0 <= i < |ms| && Keys(ms)[i] == key;
      assert ms[i].key == key;
    }
    if HasKey(ms, key) {
      var i :| 0 <= i < |ms| && ms[i].key == key;
      assert Keys(ms)[i] == key;
    }
  }

  lemma KeysDistinct(ms: seq<Member>)
    requires DistinctKeys(ms)
    ensures Distinct(Keys(ms))
  {
  }

  /** Lists without repetition have the same elements exactly when each is in the other. */
  lemma SameElements(a: seq<Text>, b: seq<Text>)
    requires Distinct(a) && Distinct(b)
    ensures multiset(a) == multiset(b) <==> forall k :: k in a <==> k in b
  {
    forall k ensures multiset(a)[k] == (if k in a then 1 else 0) && multiset(b)[k] == (if k in b then 1 else 0) {
      SeenOnce(a, k);
      SeenOnce(b, k);
    }
    if multiset(a) == multiset(b) {
      forall k ensures k in a <==> k in b {
        assert k in a <==> k in multiset(a);
        assert k in b <==> k in multiset(b);
      }
    }
  }

  lemma SameKeysIff(a: seq<Member>, b: seq<Member>)
    requires DistinctKeys(a) && DistinctKeys(b)
    ensures SameKeys(a, b) <==> multiset(Keys(a)) == multiset(Keys(b))
  {
    KeysDistinct(a);
    KeysDistinct(b);
    SameElements(Keys(a), Keys(b));
    forall k ensures k in Keys(a) <==> HasKey(a, k)
      ensures k in Keys(b) <==> HasKey(b, k)
    {
      KeysIn(a, k);
      KeysIn(b, k);
    }
    if SameKeys(a, b) {
      forall k ensures HasKey(a, k) <==> HasKey(b, k) {
      }
    }
    if multiset(Keys(a)) == multiset(Keys(b)) {
      assert forall i :: 0 <= i < |a| ==> Keys(a)[i] in Keys(b);
      assert forall j :: 0 <= j < |b| ==> Keys(b)[j] in Keys(a);
    }
  }

  /** Sorted key lists are equal exactly when the same keys occur, and those that collate alike in the same order. */
  lemma SortedKeysEqualIff(o: Collation, a: seq<Member>, b: seq<Member>)
    requires WeakOrder(o) && DistinctKeys(a) && DistinctKeys(b)
    ensures Sort(o, Keys(a)) == Sort(o, Keys(b)) <==> SameKeys(a, b) && TiesAlike(o, Keys(a), Keys(b))
  {
    KeysDistinct(a);
    SameKeysIff(a, b);
    SortPermutes(o, Keys(a));
    SortPermutes(o, Keys(b));
    if SameKeys(a, b) {
      SortsAlikeIff(o, Keys(a), Keys(b));
    }
  }

  /** In an object with distinct keys, the value under a key is the value of its member. */
  lemma GetAt(ms: seq<Member>, j: nat)
    requires DistinctKeys(ms) && j < |ms|
    ensures Get(ms, ms[j].key) == Some(ms[j].value)
  {
    assert HasKey(ms, ms[j].key);
    var i :| 0 <= i < |ms| && ms[i].key == ms[j].key && Some(ms[i].value) == Get(ms, ms[j].key);
  }

  /** The shortcut for identical references never changes the answer. */
  lemma {:induction false} DeepEqualReflexive(o: Collation, t: Tree)
    requires Proper(t)
    ensures DeepEqual(o, t, t)
    decreases t
  {
    match t
    case Array(a) =>
      forall i | 0 <= i < |a| ensures DeepEqual(o, a[i], a[i]) {
        DeepEqualReflexive(o, a[i]);
      }
    case Object(a) =>
      forall i | 0 <= i < |a| ensures EqualAt(o, a[i].value, Get(a, a[i].key)) {
        GetAt(a, i);
        DeepEqualReflexive(o, a[i].value);
      }
    case _ =>
  }

  /** No corresponding position, arrays by index and objects by key, holds 0 on one side and -0 on the other. */
  predicate ZerosAlike(t: Tree, u: Tree)
    decreases t
  {
    match (t, u)
    case (Numeric(m), Numeric(n)) => IsZero(m) && IsZero(n) ==> m == n
    case (Array(a), Array(b)) => forall i :: 0 <= i < |a| && i < |b| ==> ZerosAlike(a[i], b[i])
    case (Object(a), Object(b)) =>
      forall i, j :: 0 <= i < |a| && 0 <= j < |b| && a[i].key == b[j].key ==> ZerosAlike(a[i].value, b[j].value)
    case _ => true
  }

  /** At every corresponding position, objects create keys that collate alike in the same order. */
  predicate KeysAlike(o: Collation, t: Tree, u: Tree)
    decreases t
  {
    match (t, u)
    case (Array(a), Array(b)) => forall i :: 0 <= i < |a| && i < |b| ==> KeysAlike(o, a[i], b[i])
    case (Object(a), Object(b)) =>
      && TiesAlike(o, Keys(a), Keys(b))
      && forall i, j :: 0 <= i < |a| && 0 <= j < |b| && a[i].key == b[j].key ==>
           KeysAlike(o, a[i].value, b[j].value)
    case _ => true
  }

  /** If the same keys occur and members with the same key are the same, every member is found. */
  lemma MembersFound(a: seq<Member>, b: seq<Member>)
    requires SameKeys(a, b)
    requires forall i, j :: 0 <= i < |a| && 0 <= j < |b| && a[i].key == b[j].key ==> SameMember(a[i], b[j])
    ensures SameTree(Object(a), Object(b))
  {
    forall i | 0 <= i < |a| ensures FoundIn(a[i], b) {
      assert HasKey(b, a[i].key);
      var j :| 0 <= j < |b| && b[j].key == a[i].key;
      assert SameMember(a[i], b[j]);
    }
    forall j | 0 <= j < |b| ensures FoundFor(a, b[j]) {
      assert HasKey(a, b[j].key);
      var i :| 0 <= i < |a| && a[i].key == b[j].key;
      assert SameMember(a[i], b[j]);
    }
  }

  /** The same tree, with zeros and keys alike. */
  predicate Alike(o: Collation, t: Tree, u: Tree) {
    SameTree(t, u) && ZerosAlike(t, u) && KeysAlike(o, t, u)
  }

  lemma ObjectsAlike(o: Collation, a: seq<Member>, b: seq<Member>)
    requires SameKeys(a, b) && TiesAlike(o, Keys(a), Keys(b))
    requires forall i, j :: 0 <= i < |a| && 0 <= j < |b| && a[i].key == b[j].key ==> Alike(o, a[i].value, b[j].value)
    ensures Alike(o, Object(a), Object(b))
  {
    MembersFound(a, b);
  }

  /** Deeply equal values are alike. */
  lemma {:induction false} DeepEqualSame(o: Collation, t: Tree, u: Tree)
    requires WeakOrder(o) && Proper(t) && Proper(u) && DeepEqual(o, t, u)
    ensures Alike(o, t, u)
    decreases t, 0
  {
    match (t, u)
    case (Array(a), Array(b)) =>
      forall i | 0 <= i < |a| ensures Alike(o, a[i], b[i]) {
        DeepEqualSame(o, a[i], b[i]);
      }
    case (Object(a), Object(b)) =>
      ObjectsEqualSame(o, a, b);
    case _ =>
  }

  lemma {:induction false} ObjectsEqualSame(o: Collation, a: seq<Member>, b: seq<Member>)
    requires WeakOrder(o) && Proper(Object(a)) && Proper(Object(b)) && DeepEqual(o, Object(a), Object(b))
    ensures Alike(o, Object(a), Object(b))
    decreases a, 1
  {
    hide Alike, Sort, TiesAlike;
    SortedKeysEqualIff(o, a, b);
    forall i, j | 0 <= i < |a| && 0 <= j < |b| && a[i].key == b[j].key
      ensures Alike(o, a[i].value, b[j].value)
    {
      GetAt(b, j);
      assert EqualAt(o, a[i].value, Get(b, a[i].key));
      DeepEqualSame(o, a[i].value, b[j].value);
    }
    ObjectsAlike(o, a, b);
  }

  /** Alike values are deeply equal. */
  lemma {:induction false} SameDeepEqual(o: Collation, t: Tree, u: Tree)
    requires WeakOrder(o) && Proper(t) && Proper(u) && Alike(o, t, u)
    ensures DeepEqual(o, t, u)
    decreases t
  {
    match (t, u)
    case (Array(a), Array(b)) =>
      forall i | 0 <= i < |a| ensures DeepEqual(o, a[i], b[i]) {
        SameDeepEqual(o, a[i], b[i]);
      }
    case (Object(a), Object(b)) =>
      SameMembersSameKeys(a, b);
      SortedKeysEqualIff(o, a, b);
      forall i | 0 <= i < |a| ensures EqualAt(o, a[i].value, Get(b, a[i].key)) {
        assert FoundIn(a[i], b);
        var j :| 0 <= j < |b| && SameMember(a[i], b[j]);
        SameDeepEqual(o, a[i].value, b[j].value);
        GetAt(b, j);
      }
    case _ =>
  }

  lemma SameMembersSameKeys(a: seq<Member>, b: seq<Member>)
    requires SameTree(Object(a), Object(b))
    ensures SameKeys(a, b)
  {
    forall i | 0 <= i < |a| ensures HasKey(b, a[i].key) {
      assert FoundIn(a[i], b);
      var j :| 0 <= j < |b| && SameMember(a[i], b[j]);
    }
    forall j | 0 <= j < |b| ensures HasKey(a, b[j].key) {
      assert FoundFor(a, b[j]);
      var i :| 0 <= i < |a| && SameMember(a[i], b[j]);
    }
  }

  /**
   A context that looks changed to the fingerprint looks changed to the conflict detector; the converse
   holds exactly when no zero changed its sign and no keys that collate alike changed their order.
   */
  lemma DeepEqualIffSameText(o: Collation, t: Tree, u: Tree)
    requires WeakOrder(o) && Proper(t) && Proper(u)
    ensures DeepEqual(o, t, u) <==> Serialize(t) == Serialize(u) && ZerosAlike(t, u) && KeysAlike(o, t, u)
  {
    hide DeepEqual, SameTree, Serialize, ZerosAlike, KeysAlike, Proper;
    SerializeInjective(t, u);
    if DeepEqual(o, t, u) {
      DeepEqualSame(o, t, u);
    }
    if Alike(o, t, u) {
      SameDeepEqual(o, t, u);
    }
  }

  /** 0 and -0 have one text, but Object.is tells them apart. */
  lemma NegativeZeroTold(o: Collation)
    ensures Serialize(Numeric(NegativeZero)) == Serialize(Numeric(Decimal(ZERO)))
    ensures !DeepEqual(o, Numeric(NegativeZero), Numeric(Decimal(ZERO)))
  {
    SerializeInjective(Numeric(NegativeZero), Numeric(Decimal(ZERO)));
  }

  /** Two objects with two keys each, created in opposite orders. */
  lemma SwappedKeys(k: Text, l: Text)
    requires k != l
    ensures SameTree(Object([Entry(k, Null), Entry(l, Null)]), Object([Entry(l, Null), Entry(k, Null)]))
  {
    var a, b := [Entry(k, Null), Entry(l, Null)], [Entry(l, Null), Entry(k, Null)];
    assert a[0].key == b[1].key && a[1].key == b[0].key;
    assert SameKeys(a, b);
    MembersFound(a, b);
  }

  lemma SwappedKeysTold(o: Collation, k: Text, l: Text)
    requires WeakOrder(o) && k != l && Tied(o, k, l)
    ensures !DeepEqual(o, Object([Entry(k, Null), Entry(l, Null)]), Object([Entry(l, Null), Entry(k, Null)]))
  {
    var a, b := [Entry(k, Null), Entry(l, Null)], [Entry(l, Null), Entry(k, Null)];
    SortedKeysEqualIff(o, a, b);
    assert Tied(o, Keys(a)[0], Keys(a)[1]) && !Earlier(Keys(b), k, l);
  }

  /** The letter e with an acute accent, as one character and as a letter with a combining accent. */
  const COMPOSED: Text := [0xE9]
  const DECOMPOSED: Text := [0x65, 0x301]

  /**
   localeCompare takes canonically equivalent texts as equal, so two objects with these keys, created in
   different orders, are not deeply equal, although they have one text.
   */
  lemma TiedKeysTold(o: Collation)
    requires WeakOrder(o) && Tied(o, COMPOSED, DECOMPOSED)
    ensures var a, b := Entry(COMPOSED, Null), Entry(DECOMPOSED, Null);
            && Serialize(Object([a, b])) == Serialize(Object([b, a]))
            && !DeepEqual(o, Object([a, b]), Object([b, a]))
  {
    hide DeepEqual, SameTree, Serialize;
    assert COMPOSED[0] != DECOMPOSED[0];
    SwappedKeys(COMPOSED, DECOMPOSED);
    SwappedKeysTold(o, COMPOSED, DECOMPOSED);
    var a, b := Entry(COMPOSED, Null), Entry(DECOMPOSED, Null);
    SerializeInjective(Object([a, b]), Object([b, a]));
  }

  // ------------------------------------------------------------------- paths

  type Path = seq<Text>

  /** The value at a path, None for undefined; only plain objects have segments. */
  function Lookup(v: Option<Tree>, path: Path): Option<Tree>
    decreases |path|
  {
    if path == [] then v
    else if v.None? || !v.value.Object? then None
    else Lookup(Get(v.value.members, path[0]), path[1..])
  }

  method ValueAt(snapshot: Tree, path: Path) returns (value: Option<Tree>)
    ensures value == Lookup(Some(snapshot), path)
  {
    value := Some(snapshot);
    for k := 0 to |path|
      invariant Lookup(Some(snapshot), path) == Lookup(value, path[k..])
    {
      if value.None? || !value.value.Object? {
        return None;
      }
      value := Get(value.value.members, path[k]);
      assert path[k..][1..] == path[k + 1..];
    }
  }

  /** What a path reads, segment by segment from its end: the property of what the rest of the path reads. */
  lemma {:induction false} LookupTold(v: Option<Tree>, path: Path, segment: Text)
    ensures Lookup(v, []) == v
    ensures var holder := Lookup(v, path);
            Lookup(v, path + [segment])
            == if holder.Some? && holder.value.Object? then Get(holder.value.members, segment) else None
    decreases |path|
  {
    if path == [] {
      assert path + [segment] == [segment];
    } else if v.Some? && v.value.Object? {
      LookupTold(Get(v.value.members, path[0]), path[1..], segment);
      assert (path + [segment])[1..] == path[1..] + [segment];
    }
  }

  predicate EqualValues(o: Collation, a: Option<Tree>, b: Option<Tree>) {
    if a.None? || b.None? then a == b else DeepEqual(o, a.value, b.value)
  }

  // ---------------------------------------------------------------- detection

  datatype ConflictStatus = NoConflict | VersionChangedButIrrelevant | RelevantStateChanged | UnknownRelevantPath

  predicate Changed(o: Collation, planning: Tree, execution: Tree, path: Path) {
    !EqualValues(o, Lookup(Some(planning), path), Lookup(Some(execution), path))
  }

  /** A path reads the same if it leads nowhere both times, or to deeply equal values. */
  lemma ChangedIff(o: Collation, planning: Tree, execution: Tree, path: Path)
    ensures var before, now := Lookup(Some(planning), path), Lookup(Some(execution), path);
            !Changed(o, planning, execution, path) <==>
              if before.Some? && now.Some? then DeepEqual(o, before.value, now.value) else before.None? && now.None?
  {
  }

  function UnknownPaths(paths: seq<Path>, known: set<Path>): seq<Path> {
    if paths == [] then []
    else (if paths[0] in known then [] else [paths[0]]) + UnknownPaths(paths[1..], known)
  }

  function ChangedPaths(o: Collation, planning: Tree, execution: Tree, paths: seq<Path>, known: set<Path>): seq<Path> {
    if paths == [] then []
    else
      (if paths[0] in known && Changed(o, planning, execution, paths[0]) then [paths[0]] else [])
      + ChangedPaths(o, planning, execution, paths[1..], known)
  }

  /** detect; duplicates and order of the listed paths do not matter for the status. */
  function Detect(
    o: Collation, planning: Tree, execution: Tree, versionsChanged: bool, paths: seq<Path>,
    known: set<Path>): ConflictStatus
  {
    if UnknownPaths(paths, known) != [] then UnknownRelevantPath
    else if ChangedPaths(o, planning, execution, paths, known) != [] then RelevantStateChanged
    else if versionsChanged then VersionChangedButIrrelevant
    else NoConflict
  }

  /** Every relevant path is known and reads the same before and after. */
  predicate Unchanged(o: Collation, planning: Tree, execution: Tree, paths: seq<Path>, known: set<Path>) {
    forall path :: path in paths ==> path in known && !Changed(o, planning, execution, path)
  }

  lemma {:induction false} ListedPaths(
    o: Collation, planning: Tree, execution: Tree, paths: seq<Path>, known: set<Path>)
    ensures forall path :: path in UnknownPaths(paths, known) <==> path in paths && path !in known
    ensures forall path :: path in ChangedPaths(o, planning, execution, paths, known) <==>
              path in paths && path in known && Changed(o, planning, execution, path)
  {
    if paths != [] {
      ListedPaths(o, planning, execution, paths[1..], known);
      assert paths == [paths[0]] + paths[1..];
    }
  }

  lemma EmptyIff<T>(s: seq<T>)
    ensures s == [] <==> forall x :: x !in s
  {
    if s != [] {
      assert s[0] in s;
    }
  }

  /** The detector lets an action pass exactly when every relevant path is known and unchanged. */
  lemma DetectPassesIff(
    o: Collation, planning: Tree, execution: Tree, versionsChanged: bool, paths: seq<Path>, known: set<Path>)
    ensures var status := Detect(o, planning, execution, versionsChanged, paths, known);
            && (status.NoConflict? || status.VersionChangedButIrrelevant? <==>
                  Unchanged(o, planning, execution, paths, known))
            && (status.UnknownRelevantPath? <==> exists path :: path in paths && path !in known)
            && (status.NoConflict? ==> !versionsChanged) && (status.VersionChangedButIrrelevant? ==> versionsChanged)
  {
    ListedPaths(o, planning, execution, paths, known);
    EmptyIff(UnknownPaths(paths, known));
    EmptyIff(ChangedPaths(o, planning, execution, paths, known));
  }
}
