/**
 canonicalValue on JavaScript object graphs, which may be shared or cyclic. The recursion keeps the
 objects on the current path in a mutable set; it is proved to terminate, to restore that set, to
 accept exactly the acyclic graphs of legal nodes, and to print their tree unfolding.
 */
module CanonicalGraph {
  import opened Basics
  import opened CanonicalText
  import opened CanonicalTree

  type Id = nat

  datatype Value =
    | NullValue
    | BooleanValue(b: bool)
    | NumberValue(n: Number)
    | NotFinite            // NaN and the infinities
    | StringValue(s: Text)
    | Reference(id: Id)
    | Unsupported          // undefined, bigint, function, symbol

  datatype Node =
    | ArrayNode(slots: seq<Option<Value>>, extraKeys: nat, symbols: nat)
    | ObjectNode(plainPrototype: bool, properties: seq<Entry<Value>>, hidden: nat)

  type Graph = map<Id, Node>

  predicate InGraph(g: Graph, v: Value) {
    v.Reference? ==> v.id in g
  }

  /** References lead to objects of the graph, and an object has each key once. */
  predicate Closed(g: Graph) {
    forall id :: id in g ==>
      match g[id]
      case ArrayNode(slots, _, _) => forall i :: 0 <= i < |slots| && slots[i].Some? ==> InGraph(g, slots[i].value)
      case ObjectNode(_, ps, _) => DistinctKeys(ps) && forall i :: 0 <= i < |ps| ==> InGraph(g, ps[i].value)
  }

  function Present(slots: seq<Option<Value>>): nat {
    if slots == [] then 0 else (if slots[0].Some? then 1 else 0) + Present(slots[1..])
  }

  /** Reflect.ownKeys(value).length: for an array, "length" is an own key too. */
  function OwnKeyCount(node: Node): nat {
    match node
    case ArrayNode(slots, extra, symbols) => 1 + Present(slots) + extra + symbols
    case ObjectNode(_, ps, hidden) => |ps| + hidden
  }

  /** The shape tests canonicalValue makes before it descends. */
  predicate LegalNode(node: Node) {
    match node
    case ArrayNode(slots, extra, symbols) =>
      && symbols == 0
      && OwnKeyCount(node) == |slots| + 1
      && extra == 0
      && forall i :: 0 <= i < |slots| ==> slots[i].Some?
    case ObjectNode(plain, ps, hidden) => plain && OwnKeyCount(node) == |ps|
  }

  function Values(slots: seq<Option<Value>>): (r: seq<Value>)
    requires forall i :: 0 <= i < |slots| ==> slots[i].Some?
    ensures |r| == |slots| && forall i :: 0 <= i < |slots| ==> r[i] == slots[i].value
  {
    seq(|slots|, i requires 0 <= i < |slots| => slots[i].value)
  }

  function PropertyValues(ps: seq<Entry<Value>>): (r: seq<Value>)
    ensures |r| == |ps| && forall i :: 0 <= i < |ps| ==> r[i] == ps[i].value
  {
    seq(|ps|, i requires 0 <= i < |ps| => ps[i].value)
  }

  function WithKeys(ps: seq<Entry<Value>>, ts: seq<Tree>): (r: seq<Member>)
    requires |ps| == |ts|
    ensures |r| == |ps| && forall i :: 0 <= i < |ps| ==> r[i] == Entry(ps[i].key, ts[i])
  {
    seq(|ps|, i requires 0 <= i < |ps| => Entry(ps[i].key, ts[i]))
  }

  /** The descent of canonicalValue: the tree it visits, or None where it throws. */
  function Canonicalize(g: Graph, v: Value, path: set<Id>): Option<Tree>
    requires Closed(g) && InGraph(g, v)
    decreases g.Keys - path, 0, 0
  {
    match v
    case NullValue => Some(Null)
    case BooleanValue(b) => Some(Boolean(b))
    case NumberValue(n) => Some(Numeric(n))
    case StringValue(s) => Some(String(s))
    case NotFinite => None
    case Unsupported => None
    case Reference(id) =>
      if id in path || !LegalNode(g[id]) then None
      else
        match g[id]
        case ArrayNode(slots, _, _) =>
          var r := CanonicalizeAll(g, Values(slots), path + {id});
          if r.None? then None else Some(Array(r.value))
        case ObjectNode(_, ps, _) =>
          var r := CanonicalizeAll(g, PropertyValues(ps), path + {id});
          if r.None? then None else Some(Object(WithKeys(ps, r.value)))
  }

  function CanonicalizeAll(g: Graph, vs: seq<Value>, path: set<Id>): (r: Option<seq<Tree>>)
    requires Closed(g) && forall i :: 0 <= i < |vs| ==> InGraph(g, vs[i])
    ensures r.Some? ==> |r.value| == |vs|
    ensures r.Some? <==> forall i :: 0 <= i < |vs| ==> Canonicalize(g, vs[i], path).Some?
    ensures r.Some? ==> forall i :: 0 <= i < |vs| ==> Canonicalize(g, vs[i], path) == Some(r.value[i])
    decreases g.Keys - path, 1, |vs|
  {
    if vs == [] then Some([])
    else
      var head := Canonicalize(g, vs[0], path);
      var tail := CanonicalizeAll(g, vs[1..], path);
      if head.None? || tail.None? then None else Some([head.value] + tail.value)
  }

  // ---------------------------------------------------------------- unfolding

  /** t is the tree obtained by unfolding v in g; no path and no visited set is involved. */
  predicate Unfolds(g: Graph, v: Value, t: Tree)
    decreases t
  {
    match v
    case NullValue => t == Null
    case BooleanValue(b) => t == Boolean(b)
    case NumberValue(n) => t == Numeric(n)
    case StringValue(s) => t == String(s)
    case NotFinite => false
    case Unsupported => false
    case Reference(id) =>
      && id in g
      && LegalNode(g[id])
      && match g[id]
         case ArrayNode(slots, _, _) =>
           && t.Array?
           && |t.items| == |slots|
           && forall i :: 0 <= i < |slots| ==> Unfolds(g, slots[i].value, t.items[i])
         case ObjectNode(_, ps, _) =>
           && t.Object?
           && |t.members| == |ps|
           && (forall i :: 0 <= i < |ps| ==> t.members[i].key == ps[i].key)
           && forall i :: 0 <= i < |ps| ==> Unfolds(g, ps[i].value, t.members[i].value)
  }

  lemma {:induction false} CanonicalizeUnfolds(g: Graph, v: Value, path: set<Id>)
    requires Closed(g) && InGraph(g, v)
    ensures Canonicalize(g, v, path).Some? ==> Unfolds(g, v, Canonicalize(g, v, path).value)
    decreases g.Keys - path
  {
    if v.Reference? && Canonicalize(g, v, path).Some? {
      var inner := path + {v.id};
      match g[v.id]
      case ArrayNode(slots, _, _) =>
        forall i | 0 <= i < |slots|
          ensures Unfolds(g, slots[i].value, Canonicalize(g, v, path).value.items[i])
        {
          CanonicalizeUnfolds(g, Values(slots)[i], inner);
        }
      case ObjectNode(_, ps, _) =>
        forall i | 0 <= i < |ps|
          ensures Unfolds(g, ps[i].value, Canonicalize(g, v, path).value.members[i].value)
        {
          CanonicalizeUnfolds(g, PropertyValues(ps)[i], inner);
        }
    }
  }

  lemma {:induction false} UnfoldsUnique(g: Graph, v: Value, t: Tree, u: Tree)
    requires Unfolds(g, v, t) && Unfolds(g, v, u)
    ensures t == u
    decreases t
  {
    if v.Reference? {
      match g[v.id]
      case ArrayNode(slots, _, _) =>
        forall i | 0 <= i < |slots| ensures t.items[i] == u.items[i] {
          UnfoldsUnique(g, slots[i].value, t.items[i], u.items[i]);
        }
      case ObjectNode(_, ps, _) =>
        forall i | 0 <= i < |ps| ensures t.members[i] == u.members[i] {
          UnfoldsUnique(g, ps[i].value, t.members[i].value, u.members[i].value);
        }
        assert t.members == u.members;
    }
  }

  /** Every object on the path unfolds, if at all, to a tree that properly contains t. */
  ghost predicate PathContains(g: Graph, path: set<Id>, t: Tree) {
    forall id :: id in path ==> UnfoldsDeeper(g, id, t)
  }

  ghost predicate UnfoldsDeeper(g: Graph, id: Id, t: Tree) {
    forall u :: Unfolds(g, Reference(id), u) ==> Depth(u) > Depth(t)
  }

  function Depth(t: Tree): nat
    decreases t, 1
  {
    match t
    case Array(items) => 1 + DepthItems(items)
    case Object(ms) => 1 + DepthMembers(ms)
    case _ => 0
  }

  function DepthItems(items: seq<Tree>): (d: nat)
    ensures forall i :: 0 <= i < |items| ==> d >= Depth(items[i])
    decreases items, 0
  {
    if items == [] then 0
    else
      var head, tail := Depth(items[0]), DepthItems(items[1..]);
      if head > tail then head else tail
  }

  function DepthMembers(ms: seq<Member>): (d: nat)
    ensures forall i :: 0 <= i < |ms| ==> d >= Depth(ms[i].value)
    decreases ms, 0
  {
    if ms == [] then 0
    else
      var head, tail := Depth(ms[0].value), DepthMembers(ms[1..]);
      if head > tail then head else tail
  }

  lemma PathExtends(g: Graph, path: set<Id>, id: Id, t: Tree, child: Tree)
    requires PathContains(g, path, t) && Unfolds(g, Reference(id), t) && Depth(child) < Depth(t)
    ensures PathContains(g, path + {id}, child)
  {
    forall k | k in path + {id} ensures UnfoldsDeeper(g, k, child) {
      forall u | Unfolds(g, Reference(k), u) ensures Depth(u) > Depth(child) {
        if k == id {
          UnfoldsUnique(g, Reference(id), t, u);
        } else {
          assert UnfoldsDeeper(g, k, t);
        }
      }
    }
  }

  lemma NotOnPath(g: Graph, path: set<Id>, id: Id, t: Tree)
    requires PathContains(g, path, t) && Unfolds(g, Reference(id), t)
    ensures id !in path
  {
    assert UnfoldsDeeper(g, id, t) ==> Depth(t) > Depth(t);
  }

  lemma CanonicalizeNode(g: Graph, id: Id, path: set<Id>)
    requires Closed(g) && id in g && id !in path && LegalNode(g[id])
    ensures match g[id]
            case ArrayNode(slots, _, _) =>
              forall items :: CanonicalizeAll(g, Values(slots), path + {id}) == Some(items) ==>
                Canonicalize(g, Reference(id), path) == Some(Array(items))
            case ObjectNode(_, ps, _) =>
              forall ts :: CanonicalizeAll(g, PropertyValues(ps), path + {id}) == Some(ts) && |ts| == |ps| ==>
                Canonicalize(g, Reference(id), path) == Some(Object(WithKeys(ps, ts)))
  {
  }

  lemma {:induction false} UnfoldsCanonicalize(g: Graph, v: Value, path: set<Id>, t: Tree)
    requires Closed(g) && InGraph(g, v)
    requires Unfolds(g, v, t) && PathContains(g, path, t)
    ensures Canonicalize(g, v, path) == Some(t)
    decreases t
  {
    if v.Reference? {
      NotOnPath(g, path, v.id, t);
      CanonicalizeNode(g, v.id, path);
      match g[v.id]
      case ArrayNode(slots, _, _) =>
        forall i | 0 <= i < |slots|
          ensures Canonicalize(g, Values(slots)[i], path + {v.id}) == Some(t.items[i])
        {
          PathExtends(g, path, v.id, t, t.items[i]);
          UnfoldsCanonicalize(g, slots[i].value, path + {v.id}, t.items[i]);
        }
        assert CanonicalizeAll(g, Values(slots), path + {v.id}).value == t.items;
      case ObjectNode(_, ps, _) =>
        forall i | 0 <= i < |ps|
          ensures Canonicalize(g, PropertyValues(ps)[i], path + {v.id}) == Some(t.members[i].value)
        {
          PathExtends(g, path, v.id, t, t.members[i].value);
          UnfoldsCanonicalize(g, ps[i].value, path + {v.id}, t.members[i].value);
        }
        assert WithKeys(ps, CanonicalizeAll(g, PropertyValues(ps), path + {v.id}).value) == t.members;
    }
  }

  /** The visited set decides exactly whether a finite unfolding exists, and yields that unfolding. */
  lemma CanonicalizeIffUnfolds(g: Graph, v: Value, t: Tree)
    requires Closed(g) && InGraph(g, v)
    ensures Canonicalize(g, v, {}) == Some(t) <==> Unfolds(g, v, t)
  {
    CanonicalizeUnfolds(g, v, {});
    if Unfolds(g, v, t) {
      UnfoldsCanonicalize(g, v, {}, t);
    }
  }

  /** Unfoldings of JavaScript objects have each key once. */
  lemma {:induction false} UnfoldsProper(g: Graph, v: Value, t: Tree)
    requires Closed(g) && Unfolds(g, v, t)
    ensures Proper(t)
    decreases t
  {
    if v.Reference? {
      match g[v.id]
      case ArrayNode(slots, _, _) =>
        forall i | 0 <= i < |slots| ensures Proper(t.items[i]) {
          UnfoldsProper(g, slots[i].value, t.items[i]);
        }
      case ObjectNode(_, ps, _) =>
        forall i | 0 <= i < |ps| ensures Proper(t.members[i].value) {
          UnfoldsProper(g, ps[i].value, t.members[i].value);
        }
    }
  }

  // ------------------------------------------------------------- acceptability

  /** What v leads to in one step. */
  function Children(g: Graph, v: Value): seq<Value> {
    if v.Reference? && v.id in g && LegalNode(g[v.id]) then
      match g[v.id]
      case ArrayNode(slots, _, _) => Values(slots)
      case ObjectNode(_, ps, _) => PropertyValues(ps)
    else []
  }

  /** The value a walk of child positions reaches from v. */
  function At(g: Graph, v: Value, walk: seq<nat>): Option<Value>
    decreases |walk|
  {
    if walk == [] then Some(v)
    else if walk[0] < |Children(g, v)| then At(g, Children(g, v)[walk[0]], walk[1..])
    else None
  }

  predicate LegalHere(g: Graph, v: Value) {
    match v
    case NotFinite => false
    case Unsupported => false
    case Reference(id) => id in g && LegalNode(g[id])
    case _ => true
  }

  /** A walk ends well when its last value is legal and, if an object, was not met before. */
  ghost predicate EndsWell(g: Graph, v: Value, path: set<Id>, walk: seq<nat>) {
    At(g, v, walk).Some? ==>
      var end := At(g, v, walk).value;
      && LegalHere(g, end)
      && (end.Reference? ==> end.id !in path && !MeetsBefore(g, v, walk, end))
  }

  ghost predicate MeetsBefore(g: Graph, v: Value, walk: seq<nat>, end: Value) {
    exists k :: 0 <= k < |walk| && At(g, v, walk[..k]) == Some(end)
  }

  /** Everything reachable is legal and no cycle is reachable. */
  ghost predicate Acceptable(g: Graph, v: Value, path: set<Id>) {
    forall walk :: EndsWell(g, v, path, walk)
  }

  lemma MeetsLifts(g: Graph, v: Value, i: nat, walk: seq<nat>, end: Value)
    requires i < |Children(g, v)|
    ensures MeetsBefore(g, Children(g, v)[i], walk, end) ==> MeetsBefore(g, v, [i] + walk, end)
  {
    var child, longer := Children(g, v)[i], [i] + walk;
    if MeetsBefore(g, child, walk, end) {
      var k :| 0 <= k < |walk| && At(g, child, walk[..k]) == Some(end);
      assert longer[..k + 1][1..] == walk[..k];
      assert At(g, v, longer[..k + 1]) == Some(end);
    }
  }

  lemma AcceptableChild(g: Graph, v: Value, path: set<Id>, i: nat)
    requires Acceptable(g, v, path) && v.Reference? && i < |Children(g, v)|
    ensures Acceptable(g, Children(g, v)[i], path + {v.id})
  {
    var child := Children(g, v)[i];
    forall walk ensures EndsWell(g, child, path + {v.id}, walk) {
      var longer := [i] + walk;
      assert longer[1..] == walk;
      assert EndsWell(g, v, path, longer);
      if At(g, child, walk).Some? {
        var end := At(g, child, walk).value;
        assert At(g, v, longer) == Some(end);
        MeetsLifts(g, v, i, walk, end);
        assert longer[..0] == [] && At(g, v, longer[..0]) == Some(v);
      }
    }
  }

  lemma {:induction false} AcceptableCanonicalizes(g: Graph, v: Value, path: set<Id>)
    requires Closed(g) && InGraph(g, v) && Acceptable(g, v, path)
    ensures Canonicalize(g, v, path).Some?
    decreases g.Keys - path
  {
    assert EndsWell(g, v, path, []) && At(g, v, []) == Some(v);
    if v.Reference? {
      var children := Children(g, v);
      forall i | 0 <= i < |children| ensures Canonicalize(g, children[i], path + {v.id}).Some? {
        AcceptableChild(g, v, path, i);
        AcceptableCanonicalizes(g, children[i], path + {v.id});
      }
    }
  }

  /** Along a walk, the tree descends with the graph. */
  lemma {:induction false} WalkDescends(g: Graph, v: Value, t: Tree, walk: seq<nat>) returns (s: Tree)
    requires Unfolds(g, v, t) && At(g, v, walk).Some?
    ensures Unfolds(g, At(g, v, walk).value, s)
    ensures walk == [] ==> s == t
    ensures walk != [] ==> Depth(s) < Depth(t)
    decreases walk
  {
    if walk == [] {
      s := t;
    } else {
      var i := walk[0];
      var child := match g[v.id] case ArrayNode(_, _, _) => t.items[i] case ObjectNode(_, _, _) => t.members[i].value;
      s := WalkDescends(g, Children(g, v)[i], child, walk[1..]);
    }
  }

  lemma {:induction false} AtSplit(g: Graph, v: Value, walk: seq<nat>, k: nat)
    requires k <= |walk| && At(g, v, walk).Some?
    ensures At(g, v, walk[..k]).Some?
    ensures At(g, At(g, v, walk[..k]).value, walk[k..]) == At(g, v, walk)
    decreases walk
  {
    if k > 0 {
      AtSplit(g, Children(g, v)[walk[0]], walk[1..], k - 1);
      assert walk[..k][1..] == walk[1..][..k - 1];
      assert walk[k..] == walk[1..][k - 1..];
    }
  }

  lemma UnfoldingAcceptable(g: Graph, v: Value, t: Tree)
    requires Unfolds(g, v, t)
    ensures Acceptable(g, v, {})
  {
    forall walk ensures EndsWell(g, v, {}, walk) {
      if At(g, v, walk).Some? {
        var s := WalkDescends(g, v, t, walk);
        var end := At(g, v, walk).value;
        if MeetsBefore(g, v, walk, end) {
          var k :| 0 <= k < |walk| && At(g, v, walk[..k]) == Some(end);
          AtSplit(g, v, walk, k);
          var first := WalkDescends(g, v, t, walk[..k]);
          var again := WalkDescends(g, end, first, walk[k..]);
          UnfoldsUnique(g, end, first, again);
          assert false;
        }
      }
    }
  }

  /**
   canonicalValue succeeds exactly when no cycle is reachable and every reachable value is legal;
   objects that are merely shared do not disturb it.
   */
  lemma AcceptsExactly(g: Graph, v: Value)
    requires Closed(g) && InGraph(g, v)
    ensures Canonicalize(g, v, {}).Some? <==> Acceptable(g, v, {})
  {
    if Acceptable(g, v, {}) {
      AcceptableCanonicalizes(g, v, {});
    }
    if Canonicalize(g, v, {}).Some? {
      CanonicalizeUnfolds(g, v, {});
      UnfoldingAcceptable(g, v, Canonicalize(g, v, {}).value);
    }
  }

  // ---------------------------------------------------------------- the method

  /** The set the recursion shares: the objects on the current path. */
  class Seen {
    var ids: set<Id>

    constructor ()
      ensures ids == {}
    {
      ids := {};
    }
  }

  function TextOf(t: Option<Tree>): Option<Text> {
    if t.None? then None else Some(Serialize(t.value))
  }

  lemma ShiftInsertion<A>(x: A, s: seq<A>, p: nat)
    requires p < |s|
    ensures [s[0]] + (s[1..][..p] + [x] + s[1..][p..]) == s[..p + 1] + [x] + s[p + 1..]
  {
    assert s[1..][..p] == s[1..p + 1] && s[1..][p..] == s[p + 1..];
    assert [s[0]] + s[1..p + 1] == s[..p + 1];
  }

  /** Sorting the properties before the descent gives the order in which sorted members are printed. */
  lemma {:induction false} InsertTogether<A, B>(x: Entry<A>, xs: seq<Entry<A>>, y: Entry<B>, ys: seq<Entry<B>>)
    returns (p: nat)
    requires x.key == y.key && |xs| == |ys|
    requires forall i :: 0 <= i < |xs| ==> xs[i].key == ys[i].key
    ensures p <= |xs|
    ensures Insert(x, xs) == xs[..p] + [x] + xs[p..]
    ensures Insert(y, ys) == ys[..p] + [y] + ys[p..]
  {
    if xs == [] || KeyLess(x.key, xs[0].key) {
      p := 0;
    } else {
      var q := InsertTogether(x, xs[1..], y, ys[1..]);
      ShiftInsertion(x, xs, q);
      ShiftInsertion(y, ys, q);
      p := q + 1;
    }
  }

  /** order lists positions of xs that give s, entry by entry. */
  predicate Picks<A(==)>(s: seq<Entry<A>>, xs: seq<Entry<A>>, order: seq<nat>) {
    |s| == |order| && forall k :: 0 <= k < |order| ==> order[k] < |xs| && s[k] == xs[order[k]]
  }

  function WithFirstAt(rest: seq<nat>, p: nat): seq<nat>
    requires p <= |rest|
  {
    seq(|rest| + 1, k requires 0 <= k < |rest| + 1 =>
      if k < p then rest[k] + 1 else if k == p then 0 else rest[k - 1] + 1)
  }

  lemma PicksInsert<A>(s: seq<Entry<A>>, xs: seq<Entry<A>>, rest: seq<nat>, p: nat)
    requires xs != [] && Picks(s, xs[1..], rest) && p <= |s|
    ensures Picks(s[..p] + [xs[0]] + s[p..], xs, WithFirstAt(rest, p))
  {
    var t, order := s[..p] + [xs[0]] + s[p..], WithFirstAt(rest, p);
    forall k | 0 <= k < |order| ensures order[k] < |xs| && t[k] == xs[order[k]] {
      if k < p {
        assert rest[k] < |xs[1..]| && s[k] == xs[1..][rest[k]];
        assert t[k] == s[k];
      } else if k > p {
        assert rest[k - 1] < |xs[1..]| && s[k - 1] == xs[1..][rest[k - 1]];
        assert t[k] == s[k - 1];
      }
    }
  }

  lemma {:induction false} SortTogether<A, B>(xs: seq<Entry<A>>, ys: seq<Entry<B>>) returns (order: seq<nat>)
    requires |xs| == |ys|
    requires forall i :: 0 <= i < |xs| ==> xs[i].key == ys[i].key
    ensures |order| == |xs| && Picks(SortEntries(xs), xs, order) && Picks(SortEntries(ys), ys, order)
  {
    if xs == [] {
      order := [];
    } else {
      var rest := SortTogether(xs[1..], ys[1..]);
      var a, b := SortEntries(xs[1..]), SortEntries(ys[1..]);
      forall i | 0 <= i < |a| ensures a[i].key == b[i].key {
        assert a[i] == xs[1..][rest[i]] && b[i] == ys[1..][rest[i]];
      }
      var p := InsertTogether(xs[0], a, ys[0], b);
      order := WithFirstAt(rest, p);
      PicksInsert(a, xs, rest, p);
      PicksInsert(b, ys, rest, p);
    }
  }

  /** What the sorted descent must append for one property. */
  function PropertyText(g: Graph, p: Entry<Value>, path: set<Id>): Text
    requires Closed(g) && InGraph(g, p.value) && Canonicalize(g, p.value, path).Some?
  {
    Quote(p.key) + [COLON] + Serialize(Canonicalize(g, p.value, path).value)
  }

  /** The text of an object with these properties, or None where one of them cannot be printed. */
  function ObjectText(g: Graph, ps: seq<Entry<Value>>, path: set<Id>): Option<Text>
    requires Closed(g) && forall i :: 0 <= i < |ps| ==> InGraph(g, ps[i].value)
  {
    var all := CanonicalizeAll(g, PropertyValues(ps), path);
    TextOf(if all.None? then None else Some(Object(WithKeys(ps, all.value))))
  }

  function ArrayText(g: Graph, vs: seq<Value>, path: set<Id>): Option<Text>
    requires Closed(g) && forall i :: 0 <= i < |vs| ==> InGraph(g, vs[i])
  {
    var all := CanonicalizeAll(g, vs, path);
    TextOf(if all.None? then None else Some(Array(all.value)))
  }

  /** The j-th property of an object prints as the j-th member of its tree. */
  lemma MemberTextAt(g: Graph, ps: seq<Entry<Value>>, path: set<Id>, j: nat)
    requires Closed(g) && forall i :: 0 <= i < |ps| ==> InGraph(g, ps[i].value)
    requires j < |ps| && CanonicalizeAll(g, PropertyValues(ps), path).Some?
    ensures Canonicalize(g, ps[j].value, path).Some?
    ensures var ms := WithKeys(ps, CanonicalizeAll(g, PropertyValues(ps), path).value);
            PrintMember(NormalMembers(ms)[j]) == PropertyText(g, ps[j], path)
  {
    hide Canonicalize, Closed, LegalNode;
    assert PropertyValues(ps)[j] == ps[j].value;
  }

  lemma ObjectTexts(g: Graph, ps: seq<Entry<Value>>, path: set<Id>, texts: seq<Text>)
    requires Closed(g) && forall i :: 0 <= i < |ps| ==> InGraph(g, ps[i].value)
    requires CanonicalizeAll(g, PropertyValues(ps), path).Some?
    requires |texts| == |ps| == |SortEntries(ps)|
    requires forall k :: 0 <= k < |texts| ==>
               && SortEntries(ps)[k] in ps
               && Canonicalize(g, SortEntries(ps)[k].value, path).Some?
               && texts[k] == PropertyText(g, SortEntries(ps)[k], path)
    ensures ObjectText(g, ps, path) == Some([OPEN_BRACE] + Join(texts) + [CLOSE_BRACE])
  {
    hide Canonicalize, CanonicalizeAll, Closed, SortEntries, PropertyText, PrintMember;
    var ms := WithKeys(ps, CanonicalizeAll(g, PropertyValues(ps), path).value);
    var ns := NormalMembers(ms);
    var order := SortTogether(ps, ns);
    var printed := PrintMembers(SortEntries(ns));
    forall k | 0 <= k < |texts| ensures texts[k] == printed[k] {
      MemberTextAt(g, ps, path, order[k]);
      assert SortEntries(ps)[k] == ps[order[k]] && SortEntries(ns)[k] == ns[order[k]];
    }
    assert texts == printed;
  }

  lemma ArrayTexts(g: Graph, vs: seq<Value>, path: set<Id>, texts: seq<Text>)
    requires Closed(g) && forall i :: 0 <= i < |vs| ==> InGraph(g, vs[i])
    requires CanonicalizeAll(g, vs, path).Some?
    requires |texts| == |vs|
    requires forall i :: 0 <= i < |vs| ==> Some(texts[i]) == TextOf(Canonicalize(g, vs[i], path))
    ensures ArrayText(g, vs, path) == Some([OPEN_BRACKET] + Join(texts) + [CLOSE_BRACKET])
  {
    var items := CanonicalizeAll(g, vs, path).value;
    assert texts == PrintItems(NormalItems(items));
  }

  /** An object canonicalizes exactly when each property does, in whatever order they are tried. */
  lemma SortedProperties(g: Graph, ps: seq<Entry<Value>>, path: set<Id>)
    requires Closed(g) && forall i :: 0 <= i < |ps| ==> InGraph(g, ps[i].value)
    ensures |SortEntries(ps)| == |ps|
    ensures forall k :: 0 <= k < |ps| ==> SortEntries(ps)[k] in ps && InGraph(g, SortEntries(ps)[k].value)
    ensures CanonicalizeAll(g, PropertyValues(ps), path).Some?
       <==> forall k :: 0 <= k < |ps| ==> Canonicalize(g, SortEntries(ps)[k].value, path).Some?
  {
    SortEntriesSorts(ps);
    var sorted, vs := SortEntries(ps), PropertyValues(ps);
    forall k | 0 <= k < |ps|
      ensures InGraph(g, sorted[k].value)
      ensures CanonicalizeAll(g, vs, path).Some? ==> Canonicalize(g, sorted[k].value, path).Some?
    {
      var j :| 0 <= j < |ps| && ps[j] == sorted[k];
      assert vs[j] == sorted[k].value;
    }
    if forall k :: 0 <= k < |ps| ==> Canonicalize(g, sorted[k].value, path).Some? {
      forall j | 0 <= j < |ps| ensures Canonicalize(g, vs[j], path).Some? {
        assert ps[j] in sorted;
        var k :| 0 <= k < |sorted| && sorted[k] == ps[j];
      }
    }
  }

  /**
   canonicalValue: depth-first over the graph, with the current path in `seen`. The path set is the
   same on exit as on entry, also when the result is None (an exception in the source).
   */
  method CanonicalValue(g: Graph, v: Value, seen: Seen) returns (r: Option<Text>)
    requires Closed(g) && InGraph(g, v)
    modifies seen
    ensures seen.ids == old(seen.ids)
    ensures r == TextOf(Canonicalize(g, v, seen.ids))
    decreases g.Keys - seen.ids, 1
  {
    match v
    case NullValue => return Some(NULL_TEXT);
    case StringValue(s) => return Some(Quote(s));
    case BooleanValue(b) => return Some(if b then TRUE_TEXT else FALSE_TEXT);
    case NumberValue(n) => return Some(if n == NegativeZero then ZERO else n.numeral);
    case NotFinite => return None;
    case Unsupported => return None;
    case Reference(id) =>
      if id in seen.ids {
        return None;
      }
      ghost var path := seen.ids;
      seen.ids := seen.ids + {id};
      if !LegalNode(g[id]) {
        r := None;
      } else {
        match g[id]
        case ArrayNode(slots, _, _) => r := CanonicalArray(g, Values(slots), seen, path);
        case ObjectNode(_, ps, _) => r := CanonicalObject(g, ps, seen, path);
      }
      seen.ids := seen.ids - {id};
      assert seen.ids == path;
  }

  method CanonicalArray(g: Graph, vs: seq<Value>, seen: Seen, ghost path: set<Id>) returns (r: Option<Text>)
    requires Closed(g) && forall i :: 0 <= i < |vs| ==> InGraph(g, vs[i])
    requires g.Keys - seen.ids < g.Keys - path
    modifies seen
    ensures seen.ids == old(seen.ids)
    ensures r == ArrayText(g, vs, seen.ids)
    decreases g.Keys - path, 0
  {
    var texts := [];
    for i := 0 to |vs|
      invariant seen.ids == old(seen.ids)
      invariant |texts| == i
      invariant forall k :: 0 <= k < i ==> Some(texts[k]) == TextOf(Canonicalize(g, vs[k], seen.ids))
    {
      var text := CanonicalValue(g, vs[i], seen);
      if text.None? {
        return None;
      }
      texts := texts + [text.value];
    }
    ArrayTexts(g, vs, seen.ids, texts);
    return Some([OPEN_BRACKET] + Join(texts) + [CLOSE_BRACKET]);
  }

  method CanonicalObject(g: Graph, ps: seq<Entry<Value>>, seen: Seen, ghost path: set<Id>) returns (r: Option<Text>)
    requires Closed(g) && forall i :: 0 <= i < |ps| ==> InGraph(g, ps[i].value)
    requires g.Keys - seen.ids < g.Keys - path
    modifies seen
    ensures seen.ids == old(seen.ids)
    ensures r == ObjectText(g, ps, seen.ids)
    decreases g.Keys - path, 0
  {
    hide Canonicalize, Closed, Serialize, Join, Quote;
    var sorted := SortEntries(ps);
    SortedProperties(g, ps, seen.ids);
    var texts := [];
    for i := 0 to |sorted|
      invariant seen.ids == old(seen.ids)
      invariant |texts| == i
      invariant forall k :: 0 <= k < i ==>
                  && Canonicalize(g, sorted[k].value, seen.ids).Some?
                  && texts[k] == PropertyText(g, sorted[k], seen.ids)
    {
      var text := CanonicalValue(g, sorted[i].value, seen);
      if text.None? {
        return None;
      }
      texts := texts + [Quote(sorted[i].key) + [COLON] + text.value];
    }
    ObjectTexts(g, ps, seen.ids, texts);
    return Some([OPEN_BRACE] + Join(texts) + [CLOSE_BRACE]);
  }

  /** canonicalSerialize starts with nothing on the path. */
  method CanonicalSerialize(g: Graph, v: Value) returns (r: Option<Text>)
    requires Closed(g) && InGraph(g, v)
    ensures r.Some? <==> Acceptable(g, v, {})
    ensures forall t :: Unfolds(g, v, t) ==> r == Some(Serialize(t))
  {
    var seen := new Seen();
    r := CanonicalValue(g, v, seen);
    AcceptsExactly(g, v);
    forall t | Unfolds(g, v, t) ensures r == Some(Serialize(t)) {
      CanonicalizeIffUnfolds(g, v, t);
    }
  }

  /** Two accepted values, whatever their sharing, print the same text exactly when they unfold to the same tree. */
  lemma GraphsPrintAlike(g: Graph, v: Value, h: Graph, w: Value, t: Tree, u: Tree)
    requires Closed(g) && InGraph(g, v) && Closed(h) && InGraph(h, w)
    requires Unfolds(g, v, t) && Unfolds(h, w, u)
    ensures TextOf(Canonicalize(g, v, {})) == TextOf(Canonicalize(h, w, {})) <==> SameTree(t, u)
  {
    CanonicalizeIffUnfolds(g, v, t);
    CanonicalizeIffUnfolds(h, w, u);
    UnfoldsProper(g, v, t);
    UnfoldsProper(h, w, u);
    SerializeInjective(t, u);
  }
}
