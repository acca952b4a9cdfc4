/**
 JSON-compatible values as trees, the canonical text of a tree, and when two trees share it:
 exactly when they differ only in the order of object keys and in the sign of zero.
 */
module CanonicalTree {
  import opened CanonicalText

  /** A finite number, identified with its shortest decimal text; JavaScript keeps -0 apart from 0. */
  datatype Number = NegativeZero | Decimal(numeral: Numeral)

  datatype Tree =
    | Null
    | Boolean(b: bool)
    | Numeric(n: Number)
    | String(s: Text)
    | Array(items: seq<Tree>)
    | Object(members: seq<Member>)

  datatype Entry<+V> = Entry(key: Text, value: V)

  /** The members of an object keep the order in which the properties were created. */
  type Member = Entry<Tree>

  predicate DistinctKeys<V>(ms: seq<Entry<V>>) {
    forall i, j :: 0 <= i < j < |ms| ==> ms[i].key != ms[j].key
  }

  /** What every JavaScript value satisfies: an object has each key once. */
  predicate Proper(t: Tree) {
    match t
    case Array(items) => forall i :: 0 <= i < |items| ==> Proper(items[i])
    case Object(ms) => DistinctKeys(ms) && forall i :: 0 <= i < |ms| ==> Proper(ms[i].value)
    case _ => true
  }

  /** Equal up to key order and the sign of zero, said without any reference to text. */
  predicate SameTree(t: Tree, u: Tree)
    decreases t
  {
    match (t, u)
    case (Null, Null) => true
    case (Boolean(b), Boolean(c)) => b == c
    case (Numeric(m), Numeric(n)) => m == n || (IsZero(m) && IsZero(n))
    case (String(r), String(s)) => r == s
    case (Array(a), Array(b)) => |a| == |b| && forall i :: 0 <= i < |a| ==> SameTree(a[i], b[i])
    case (Object(a), Object(b)) =>
      && (forall i :: 0 <= i < |a| ==> FoundIn(a[i], b))
      && (forall j :: 0 <= j < |b| ==> FoundFor(a, b[j]))
    case _ => false
  }

  predicate FoundIn(m: Member, ns: seq<Member>)
    decreases m, 1
  {
    exists j :: 0 <= j < |ns| && SameMember(m, ns[j])
  }

  predicate FoundFor(ms: seq<Member>, n: Member)
    decreases ms
  {
    exists i :: 0 <= i < |ms| && SameMember(ms[i], n)
  }

  predicate SameMember(m: Member, n: Member)
    decreases m, 0
  {
    m.key == n.key && SameTree(m.value, n.value)
  }

  predicate IsZero(n: Number) {
    n == NegativeZero || n == Decimal(ZERO)
  }

  // ---------------------------------------------------------------- key order

  /** Lexicographic order of code units, the order of Array.prototype.sort. */
  predicate KeyLess(a: Text, b: Text) {
    if b == [] then false
    else if a == [] then true
    else a[0] < b[0] || (a[0] == b[0] && KeyLess(a[1..], b[1..]))
  }

  lemma {:induction false} KeyTrichotomy(a: Text, b: Text)
    ensures KeyLess(a, b) || KeyLess(b, a) || a == b
    ensures !(KeyLess(a, b) && KeyLess(b, a))
    ensures !KeyLess(a, a)
  {
    if a != [] {
      KeyTrichotomy(a[1..], a[1..]);
    }
    if a != [] && b != [] {
      KeyTrichotomy(a[1..], b[1..]);
      assert a[0] == b[0] && a[1..] == b[1..] ==> a == [a[0]] + a[1..] == b;
    }
  }

  lemma {:induction false} KeyTransitive(a: Text, b: Text, c: Text)
    requires KeyLess(a, b) && KeyLess(b, c)
    ensures KeyLess(a, c)
  {
    if a != [] && a[0] == b[0] == c[0] {
      KeyTransitive(a[1..], b[1..], c[1..]);
    }
  }

  predicate SortedByKey<V>(ms: seq<Entry<V>>) {
    forall i, j :: 0 <= i < j < |ms| ==> KeyLess(ms[i].key, ms[j].key)
  }

  function Insert<V>(m: Entry<V>, ms: seq<Entry<V>>): seq<Entry<V>> {
    if ms == [] || KeyLess(m.key, ms[0].key) then [m] + ms
    else [ms[0]] + Insert(m, ms[1..])
  }

  function SortEntries<V>(ms: seq<Entry<V>>): seq<Entry<V>> {
    if ms == [] then [] else Insert(ms[0], SortEntries(ms[1..]))
  }

  lemma {:induction false} InsertElements<V>(m: Entry<V>, ms: seq<Entry<V>>)
    ensures |Insert(m, ms)| == |ms| + 1
    ensures forall x :: x in Insert(m, ms) <==> x == m || x in ms
    ensures forall i :: 0 <= i < |Insert(m, ms)| ==> Insert(m, ms)[i] == m || Insert(m, ms)[i] in ms
  {
    if ms != [] && !KeyLess(m.key, ms[0].key) {
      InsertElements(m, ms[1..]);
      assert ms == [ms[0]] + ms[1..];
    }
  }

  lemma {:induction false} InsertSorted<V>(m: Entry<V>, ms: seq<Entry<V>>)
    requires SortedByKey(ms)
    requires forall i :: 0 <= i < |ms| ==> ms[i].key != m.key
    ensures SortedByKey(Insert(m, ms))
  {
    if ms == [] {
    } else if KeyLess(m.key, ms[0].key) {
      forall j | 0 < j < |ms| ensures KeyLess(m.key, ms[j].key) {
        KeyTransitive(m.key, ms[0].key, ms[j].key);
      }
    } else {
      KeyTrichotomy(m.key, ms[0].key);
      InsertSorted(m, ms[1..]);
      InsertElements(m, ms[1..]);
      var rest := Insert(m, ms[1..]);
      forall j | 0 <= j < |rest| ensures KeyLess(ms[0].key, rest[j].key) {
        assert rest[j] == m || rest[j] in ms[1..];
      }
    }
  }

  /** Sorting keeps the members and puts distinct keys in strictly increasing order. */
  lemma {:induction false} SortEntriesSorts<V>(ms: seq<Entry<V>>)
    ensures forall x :: x in SortEntries(ms) <==> x in ms
    ensures |SortEntries(ms)| == |ms|
    ensures forall i :: 0 <= i < |ms| ==> SortEntries(ms)[i] in ms
    ensures DistinctKeys(ms) ==> SortedByKey(SortEntries(ms))
  {
    if ms != [] {
      SortEntriesSorts(ms[1..]);
      var rest := SortEntries(ms[1..]);
      InsertElements(ms[0], rest);
      assert ms == [ms[0]] + ms[1..];
      if DistinctKeys(ms) {
        forall i | 0 <= i < |rest| ensures rest[i].key != ms[0].key {
          assert rest[i] in ms[1..];
        }
        InsertSorted(ms[0], rest);
      }
    }
  }

  lemma FirstIsIn<A>(b: seq<A>)
    ensures b != [] ==> b[0] in b
  {
  }

  /** A set of members has one sorted arrangement. */
  lemma {:induction false} SortedUnique<V>(a: seq<Entry<V>>, b: seq<Entry<V>>)
    requires SortedByKey(a) && SortedByKey(b)
    requires forall x :: x in a <==> x in b
    ensures a == b
  {
    if a == [] {
      FirstIsIn(b);
    } else {
      assert a[0] in b && b != [];
      assert b[0] in a;
      KeyTrichotomy(a[0].key, b[0].key);
      assert a[0] == b[0];
      KeyTrichotomy(a[0].key, a[0].key);
      assert a == [a[0]] + a[1..] && b == [b[0]] + b[1..];
      forall x ensures x in a[1..] <==> x in b[1..] {
        assert x in a[1..] ==> KeyLess(a[0].key, x.key) && x in b;
        assert x in b[1..] ==> KeyLess(a[0].key, x.key) && x in a;
      }
      SortedUnique(a[1..], b[1..]);
    }
  }

  // -------------------------------------------------------------- normal form

  function Normal(t: Tree): Tree
    decreases t, 1
  {
    match t
    case Numeric(NegativeZero) => Numeric(Decimal(ZERO))
    case Array(items) => Array(NormalItems(items))
    case Object(ms) => Object(SortEntries(NormalMembers(ms)))
    case _ => t
  }

  function NormalItems(items: seq<Tree>): (r: seq<Tree>)
    ensures |r| == |items|
    ensures forall i :: 0 <= i < |items| ==> r[i] == Normal(items[i])
    decreases items, 0
  {
    if items == [] then [] else [Normal(items[0])] + NormalItems(items[1..])
  }

  function NormalMember(m: Member): Member
    decreases m, 2
  {
    Entry(m.key, Normal(m.value))
  }

  function NormalMembers(ms: seq<Member>): (r: seq<Member>)
    ensures |r| == |ms|
    ensures forall i :: 0 <= i < |ms| ==> r[i] == NormalMember(ms[i])
    decreases ms, 0
  {
    if ms == [] then [] else [NormalMember(ms[0])] + NormalMembers(ms[1..])
  }

  /** Normal forms decide sameness member by member. */
  predicate NormalDecides(a: seq<Member>, b: seq<Member>) {
    forall i, j :: 0 <= i < |a| && 0 <= j < |b| ==>
      (SameMember(a[i], b[j]) <==> NormalMember(a[i]) == NormalMember(b[j]))
  }

  lemma FoundInNormal(a: seq<Member>, b: seq<Member>, i: nat)
    requires NormalDecides(a, b) && i < |a|
    ensures FoundIn(a[i], b) <==> NormalMember(a[i]) in NormalMembers(b)
  {
    var y := NormalMembers(b);
    assert forall j :: 0 <= j < |b| ==> y[j] == NormalMember(b[j]);
  }

  lemma FoundForNormal(a: seq<Member>, b: seq<Member>, j: nat)
    requires NormalDecides(a, b) && j < |b|
    ensures FoundFor(a, b[j]) <==> NormalMember(b[j]) in NormalMembers(a)
  {
    var x := NormalMembers(a);
    assert forall i :: 0 <= i < |a| ==> x[i] == NormalMember(a[i]);
  }

  predicate Within(x: seq<Member>, y: seq<Member>) {
    forall i :: 0 <= i < |x| ==> x[i] in y
  }

  predicate AllFoundIn(a: seq<Member>, b: seq<Member>) {
    forall i :: 0 <= i < |a| ==> FoundIn(a[i], b)
  }

  predicate AllFoundFor(a: seq<Member>, b: seq<Member>) {
    forall j :: 0 <= j < |b| ==> FoundFor(a, b[j])
  }

  lemma AllFoundInNormal(a: seq<Member>, b: seq<Member>)
    requires NormalDecides(a, b)
    ensures AllFoundIn(a, b) <==> Within(NormalMembers(a), NormalMembers(b))
  {
    var x, y := NormalMembers(a), NormalMembers(b);
    forall i | 0 <= i < |a| ensures FoundIn(a[i], b) <==> x[i] in y {
      FoundInNormal(a, b, i);
    }
  }

  lemma AllFoundForNormal(a: seq<Member>, b: seq<Member>)
    requires NormalDecides(a, b)
    ensures AllFoundFor(a, b) <==> Within(NormalMembers(b), NormalMembers(a))
  {
    var x, y := NormalMembers(a), NormalMembers(b);
    forall j | 0 <= j < |b| ensures FoundFor(a, b[j]) <==> y[j] in x {
      FoundForNormal(a, b, j);
    }
  }

  lemma SameMembersSorted(a: seq<Member>, b: seq<Member>)
    requires DistinctKeys(a) && DistinctKeys(b) && NormalDecides(a, b)
    ensures SameTree(Object(a), Object(b)) <==> Normal(Object(a)) == Normal(Object(b))
  {
    var x, y := NormalMembers(a), NormalMembers(b);
    AllFoundInNormal(a, b);
    AllFoundForNormal(a, b);
    assert SameTree(Object(a), Object(b)) <==> AllFoundIn(a, b) && AllFoundFor(a, b);
    SortedAlikeIff(x, y);
  }

  lemma SortedAlikeIff(a: seq<Member>, b: seq<Member>)
    requires DistinctKeys(a) && DistinctKeys(b)
    ensures SortEntries(a) == SortEntries(b) <==> Within(a, b) && Within(b, a)
  {
    if Within(a, b) && Within(b, a) {
      SortedAlike(a, b);
    }
    SortEntriesSorts(a);
    SortEntriesSorts(b);
  }

  lemma SortedAlike(a: seq<Member>, b: seq<Member>)
    requires DistinctKeys(a) && DistinctKeys(b)
    requires Within(a, b) && Within(b, a)
    ensures SortEntries(a) == SortEntries(b)
  {
    SortEntriesSorts(a);
    SortEntriesSorts(b);
    forall m ensures m in SortEntries(a) <==> m in SortEntries(b) {
      assert m in a <==> m in b;
    }
    SortedUnique(SortEntries(a), SortEntries(b));
  }

  /** Two values are the same tree exactly when their normal forms are equal. */
  lemma {:induction false} SameTreeNormal(t: Tree, u: Tree)
    requires Proper(t) && Proper(u)
    ensures SameTree(t, u) <==> Normal(t) == Normal(u)
  {
    match (t, u)
    case (Array(a), Array(b)) =>
      if |a| == |b| {
        forall i | 0 <= i < |a| ensures SameTree(a[i], b[i]) <==> Normal(a[i]) == Normal(b[i]) {
          SameTreeNormal(a[i], b[i]);
        }
        var x, y := NormalItems(a), NormalItems(b);
        assert x == y <==> forall i :: 0 <= i < |a| ==> x[i] == y[i];
      }
    case (Object(a), Object(b)) =>
      forall i, j | 0 <= i < |a| && 0 <= j < |b|
        ensures SameMember(a[i], b[j]) <==> NormalMember(a[i]) == NormalMember(b[j])
      {
        SameTreeNormal(a[i].value, b[j].value);
      }
      SameMembersSorted(a, b);
    case _ =>
  }

  // ----------------------------------------------------------------- printing

  function Join(texts: seq<Text>): Text {
    if texts == [] then []
    else if |texts| == 1 then texts[0]
    else texts[0] + [COMMA] + Join(texts[1..])
  }

  /** The text of a tree, members in the order given. */
  function Print(t: Tree): Text
    decreases t, 1
  {
    match t
    case Null => NULL_TEXT
    case Boolean(b) => if b then TRUE_TEXT else FALSE_TEXT
    case Numeric(n) => if n == NegativeZero then ZERO else n.numeral
    case String(s) => Quote(s)
    case Array(items) => [OPEN_BRACKET] + Join(PrintItems(items)) + [CLOSE_BRACKET]
    case Object(ms) => [OPEN_BRACE] + Join(PrintMembers(ms)) + [CLOSE_BRACE]
  }

  function PrintItems(items: seq<Tree>): (r: seq<Text>)
    ensures |r| == |items|
    ensures forall i :: 0 <= i < |items| ==> r[i] == Print(items[i])
    decreases items, 0
  {
    if items == [] then [] else [Print(items[0])] + PrintItems(items[1..])
  }

  function PrintMember(m: Member): Text
    decreases m, 2
  {
    Quote(m.key) + [COLON] + Print(m.value)
  }

  function PrintMembers(ms: seq<Member>): (r: seq<Text>)
    ensures |r| == |ms|
    ensures forall i :: 0 <= i < |ms| ==> r[i] == PrintMember(ms[i])
    decreases ms, 0
  {
    if ms == [] then [] else [PrintMember(ms[0])] + PrintMembers(ms[1..])
  }

  /** canonicalSerialize on an acyclic value. */
  function Serialize(t: Tree): Text {
    Print(Normal(t))
  }

  // -------------------------------------------------------- unique readability

  /** No -0 anywhere: such trees are told apart by their text. */
  predicate Plain(t: Tree)
    decreases t
  {
    match t
    case Numeric(n) => n.Decimal?
    case Array(items) => forall i :: 0 <= i < |items| ==> Plain(items[i])
    case Object(ms) => forall i :: 0 <= i < |ms| ==> Plain(ms[i].value)
    case _ => true
  }

  lemma {:induction false} NormalPlain(t: Tree)
    ensures Plain(Normal(t))
  {
    match t
    case Array(items) =>
      forall i | 0 <= i < |items| ensures Plain(NormalItems(items)[i]) {
        NormalPlain(items[i]);
      }
    case Object(ms) =>
      var ns := NormalMembers(ms);
      forall i | 0 <= i < |ms| ensures Plain(ns[i].value) {
        NormalPlain(ms[i].value);
      }
      SortEntriesSorts(ns);
      assert forall j :: 0 <= j < |SortEntries(ns)| ==> SortEntries(ns)[j] in ns;
    case _ =>
  }

  /** The first unit of a value's text: it tells the kinds of value apart, and is never a delimiter. */
  predicate OpensWith(t: Tree, c: CodeUnit) {
    match t
    case Null => c == 110
    case Boolean(b) => c == if b then 116 else 102
    case Numeric(_) => 48 <= c <= 57 || c == 45
    case String(_) => c == QUOTE
    case Array(_) => c == OPEN_BRACKET
    case Object(_) => c == OPEN_BRACE
  }

  lemma PrintOpens(t: Tree)
    ensures |Print(t)| > 0 && OpensWith(t, Print(t)[0])
  {
  }

  /** The text of a nonempty list splits into its first entry and a delimited rest. */
  lemma JoinStep(texts: seq<Text>, close: CodeUnit, x: Text) returns (rest: Text)
    requires texts != []
    ensures Join(texts) + ([close] + x) == texts[0] + rest
    ensures |texts| == 1 ==> rest == [close] + x
    ensures |texts| > 1 ==> rest == [COMMA] + (Join(texts[1..]) + ([close] + x))
  {
    rest := if |texts| == 1 then [close] + x else [COMMA] + (Join(texts[1..]) + ([close] + x));
  }

  /** Equal delimited rests agree on whether the list goes on, and on what follows. */
  lemma RestUnique(p: seq<Text>, q: seq<Text>, close: CodeUnit, x: Text, y: Text, rest: Text)
    requires p != [] && q != [] && close != COMMA
    requires rest == if |p| == 1 then [close] + x else [COMMA] + (Join(p[1..]) + ([close] + x))
    requires rest == if |q| == 1 then [close] + y else [COMMA] + (Join(q[1..]) + ([close] + y))
    ensures SameContinuation(p, q, close, x, y)
  {
    if |p| == 1 {
      assert rest[1..] == x && rest[1..] == y;
    } else {
      assert rest[1..] == Join(p[1..]) + ([close] + x);
      assert rest[1..] == Join(q[1..]) + ([close] + y);
    }
  }

  /** After equal first entries, two lists either both end, before equal text, or both go on alike. */
  predicate SameContinuation(p: seq<Text>, q: seq<Text>, close: CodeUnit, x: Text, y: Text)
    requires p != [] && q != []
  {
    && (|p| == 1 <==> |q| == 1)
    && (|p| == 1 ==> x == y)
    && (|p| > 1 ==> Join(p[1..]) + ([close] + x) == Join(q[1..]) + ([close] + y))
  }

  /** Two closed lists with the same text: what can be concluded before their entries are compared. */
  lemma ListStep(p: seq<Text>, q: seq<Text>, close: CodeUnit, x: Text, y: Text) returns (restP: Text, restQ: Text)
    requires close == CLOSE_BRACKET || close == CLOSE_BRACE
    requires p == [] <==> q == []
    requires Join(p) + ([close] + x) == Join(q) + ([close] + y)
    ensures p == [] ==> x == y
    ensures p != [] ==> p[0] + restP == q[0] + restQ && Delimited(restP) && Delimited(restQ)
    ensures p != [] && restP == restQ ==> SameContinuation(p, q, close, x, y)
  {
    if p == [] {
      assert Join(p) + ([close] + x) == [close] + x;
      assert Join(q) + ([close] + y) == [close] + y;
      ConcatCancel([close], [close], x, y);
      restP, restQ := x, y;
    } else {
      restP := JoinStep(p, close, x);
      restQ := JoinStep(q, close, y);
      if restP == restQ {
        RestUnique(p, q, close, x, y, restP);
      }
    }
  }

  lemma OpenBracket(open: CodeUnit, a: Text, b: Text, close: CodeUnit, x: Text, y: Text)
    requires [open] + a + [close] + x == [open] + b + [close] + y
    ensures a + ([close] + x) == b + ([close] + y)
  {
    assert [open] + a + [close] + x == [open] + (a + ([close] + x));
    assert [open] + b + [close] + y == [open] + (b + ([close] + y));
    ConcatCancel([open], [open], a + ([close] + x), b + ([close] + y));
  }

  lemma SameKind(t: Tree, u: Tree, x: Text, y: Text)
    requires Print(t) + x == Print(u) + y
    ensures Print(t)[..1] == Print(u)[..1] && OpensWith(t, Print(t)[0]) && OpensWith(u, Print(t)[0])
  {
    PrintOpens(t);
    PrintOpens(u);
    assert (Print(t) + x)[0] == Print(t)[0] && (Print(u) + y)[0] == Print(u)[0];
  }

  lemma ScalarUnique(t: Tree, u: Tree, x: Text, y: Text)
    requires Plain(t) && Plain(u) && !t.Array? && !t.Object?
    requires Print(t) + x == Print(u) + y && Delimited(x) && Delimited(y)
    ensures t == u && x == y
  {
    SameKind(t, u, x, y);
    match t
    case Numeric(m) => NumeralUnique(m.numeral, u.n.numeral, x, y);
    case String(r) => QuoteUnique(r, u.s, x, y);
    case _ => ConcatCancel(Print(t), Print(u), x, y);
  }

  /**
   Unique readability: a value's text can be recognised at the front of any delimited text, so two
   values without -0 print alike only when they are the same tree, members in the same order.
   */
  lemma {:induction false} PrintUnique(t: Tree, u: Tree, x: Text, y: Text)
    requires Plain(t) && Plain(u)
    requires Print(t) + x == Print(u) + y && Delimited(x) && Delimited(y)
    ensures t == u && x == y
    decreases t, 1
  {
    SameKind(t, u, x, y);
    match t
    case Array(a) =>
      OpenBracket(OPEN_BRACKET, Join(PrintItems(a)), Join(PrintItems(u.items)), CLOSE_BRACKET, x, y);
      ItemsUnique(a, u.items, x, y);
    case Object(a) =>
      OpenBracket(OPEN_BRACE, Join(PrintMembers(a)), Join(PrintMembers(u.members)), CLOSE_BRACE, x, y);
      MembersUnique(a, u.members, x, y);
    case _ =>
      ScalarUnique(t, u, x, y);
  }

  lemma ItemsTail(a: seq<Tree>)
    requires a != []
    ensures PrintItems(a)[0] == Print(a[0]) && PrintItems(a)[1..] == PrintItems(a[1..])
  {
  }

  lemma MembersTail(a: seq<Member>)
    requires a != []
    ensures PrintMembers(a)[0] == PrintMember(a[0]) && PrintMembers(a)[1..] == PrintMembers(a[1..])
  {
  }

  lemma ConsEqual<A>(a: seq<A>, b: seq<A>)
    requires a != [] && b != [] && a[0] == b[0]
    requires |a| == |b| && (|a| > 1 ==> a[1..] == b[1..])
    ensures a == b
  {
    assert a == [a[0]] + a[1..] && b == [b[0]] + b[1..];
  }

  lemma {:induction false} ItemsUnique(a: seq<Tree>, b: seq<Tree>, x: Text, y: Text)
    requires forall i :: 0 <= i < |a| ==> Plain(a[i])
    requires forall i :: 0 <= i < |b| ==> Plain(b[i])
    requires Join(PrintItems(a)) + ([CLOSE_BRACKET] + x) == Join(PrintItems(b)) + ([CLOSE_BRACKET] + y)
    ensures a == b && x == y
    decreases a, 0
  {
    ItemsHead(a, x);
    ItemsHead(b, y);
    var p, q := PrintItems(a), PrintItems(b);
    var restP, restQ := ListStep(p, q, CLOSE_BRACKET, x, y);
    if a != [] {
      PrintUnique(a[0], b[0], restP, restQ);
      if |a| > 1 {
        ItemsTail(a);
        ItemsTail(b);
        ItemsUnique(a[1..], b[1..], x, y);
      }
      ConsEqual(a, b);
    }
  }

  /** The closing bracket comes first exactly when the list is empty. */
  lemma ItemsHead(a: seq<Tree>, x: Text)
    ensures (Join(PrintItems(a)) + ([CLOSE_BRACKET] + x))[0] == CLOSE_BRACKET <==> a == []
  {
    if a != [] {
      PrintOpens(a[0]);
      var rest := JoinStep(PrintItems(a), CLOSE_BRACKET, x);
      assert (Print(a[0]) + rest)[0] == Print(a[0])[0];
    }
  }

  lemma {:induction false} MembersUnique(a: seq<Member>, b: seq<Member>, x: Text, y: Text)
    requires forall i :: 0 <= i < |a| ==> Plain(a[i].value)
    requires forall i :: 0 <= i < |b| ==> Plain(b[i].value)
    requires Join(PrintMembers(a)) + ([CLOSE_BRACE] + x) == Join(PrintMembers(b)) + ([CLOSE_BRACE] + y)
    ensures a == b && x == y
    decreases a, 0
  {
    MembersHead(a, x);
    MembersHead(b, y);
    var p, q := PrintMembers(a), PrintMembers(b);
    var restP, restQ := ListStep(p, q, CLOSE_BRACE, x, y);
    if a != [] {
      MemberSplit(a[0], b[0], restP, restQ);
      PrintUnique(a[0].value, b[0].value, restP, restQ);
      if |a| > 1 {
        MembersTail(a);
        MembersTail(b);
        MembersUnique(a[1..], b[1..], x, y);
      }
      ConsEqual(a, b);
    }
  }

  lemma MemberText(m: Member, x: Text)
    ensures PrintMember(m) + x == Quote(m.key) + ([COLON] + (Print(m.value) + x))
  {
  }

  lemma MemberSplit(m: Member, n: Member, x: Text, y: Text)
    requires PrintMember(m) + x == PrintMember(n) + y
    ensures m.key == n.key && Print(m.value) + x == Print(n.value) + y
  {
    MemberText(m, x);
    MemberText(n, y);
    var valueM, valueN := Print(m.value) + x, Print(n.value) + y;
    QuoteUnique(m.key, n.key, [COLON] + valueM, [COLON] + valueN);
    ConcatCancel([COLON], [COLON], valueM, valueN);
  }

  lemma MembersHead(a: seq<Member>, x: Text)
    ensures (Join(PrintMembers(a)) + ([CLOSE_BRACE] + x))[0] == CLOSE_BRACE <==> a == []
  {
    if a != [] {
      var rest := JoinStep(PrintMembers(a), CLOSE_BRACE, x);
      assert (PrintMember(a[0]) + rest)[0] == QUOTE;
    }
  }

  /**
   The canonical text identifies a value up to key order and the sign of zero, and no further:
   two values have the same text exactly when they are the same tree.
   */
  lemma SerializeInjective(t: Tree, u: Tree)
    requires Proper(t) && Proper(u)
    ensures Serialize(t) == Serialize(u) <==> SameTree(t, u)
  {
    SameTreeNormal(t, u);
    NormalPlain(t);
    NormalPlain(u);
    if Serialize(t) == Serialize(u) {
      PrintUnique(Normal(t), Normal(u), [], []);
    }
  }

  /** Reordering the keys of an object never changes its text. */
  lemma KeyOrderIrrelevant(ms: seq<Member>, ns: seq<Member>)
    requires Proper(Object(ms)) && multiset(ms) == multiset(ns)
    ensures Proper(Object(ns)) && Serialize(Object(ms)) == Serialize(Object(ns))
  {
    PermutedKeysDistinct(ms, ns);
    PermutedElements(ms, ns);
    PermutedElements(ns, ms);
    forall j | 0 <= j < |ns| ensures Proper(ns[j].value) {
      assert ns[j] in ms;
    }
    NormalWithin(ms, ns);
    NormalWithin(ns, ms);
    SortedAlike(NormalMembers(ms), NormalMembers(ns));
  }

  lemma PermutedElements(ms: seq<Member>, ns: seq<Member>)
    requires multiset(ms) == multiset(ns)
    ensures Within(ms, ns)
  {
    forall i | 0 <= i < |ms| ensures ms[i] in ns {
      assert ms[i] in multiset(ms);
    }
  }

  lemma NormalWithin(ms: seq<Member>, ns: seq<Member>)
    requires Within(ms, ns)
    ensures Within(NormalMembers(ms), NormalMembers(ns))
  {
    var x, y := NormalMembers(ms), NormalMembers(ns);
    forall i | 0 <= i < |x| ensures x[i] in y {
      assert ms[i] in ns;
      var j :| 0 <= j < |ns| && ns[j] == ms[i];
      assert y[j] == x[i];
    }
  }

  /** Distinct keys survive any reordering. */
  lemma PermutedKeysDistinct(ms: seq<Member>, ns: seq<Member>)
    requires DistinctKeys(ms) && multiset(ms) == multiset(ns)
    ensures DistinctKeys(ns)
  {
    forall i, j | 0 <= i < j < |ns| ensures ns[i].key != ns[j].key {
      assert ns == ns[..i] + [ns[i]] + ns[i + 1..j] + [ns[j]] + ns[j + 1..];
      assert multiset(ns)[ns[i]] >= 1 && multiset(ns)[ns[j]] >= 1;
      assert ns[i] in multiset(ms) && ns[j] in multiset(ms);
      if ns[i] == ns[j] {
        assert multiset(ns)[ns[i]] >= 2;
        AtMostOnce(ms, ns[i]);
      }
    }
  }

  lemma {:induction false} AtMostOnce(ms: seq<Member>, m: Member)
    requires DistinctKeys(ms)
    ensures multiset(ms)[m] <= 1
  {
    if ms != [] {
      AtMostOnce(ms[1..], m);
      assert ms == [ms[0]] + ms[1..];
      if m == ms[0] {
        assert m !in ms[1..];
      }
    }
  }

  // ------------------------------------------------------- well-formed output

  lemma {:induction false} JoinWellFormed(texts: seq<Text>)
    requires forall i :: 0 <= i < |texts| ==> WellFormed(texts[i])
    ensures WellFormed(Join(texts))
  {
    if |texts| > 1 {
      JoinWellFormed(texts[1..]);
      WellFormedPlain([COMMA]);
      WellFormedConcat(texts[0], [COMMA]);
      WellFormedConcat(texts[0] + [COMMA], Join(texts[1..]));
    }
  }

  lemma EncloseWellFormed(open: CodeUnit, body: Text, close: CodeUnit)
    requires WellFormed(body) && open < 128 && close < 128
    ensures WellFormed([open] + body + [close])
  {
    WellFormedPlain([open]);
    WellFormedPlain([close]);
    WellFormedConcat([open], body);
    WellFormedConcat([open] + body, [close]);
  }

  /** Canonical text never contains an unpaired surrogate, so hashing its UTF-8 bytes loses nothing. */
  lemma {:induction false} PrintWellFormed(t: Tree)
    ensures WellFormed(Print(t))
    decreases t, 1
  {
    match t
    case String(s) => QuoteWellFormed(s);
    case Array(items) =>
      forall i | 0 <= i < |items| ensures WellFormed(PrintItems(items)[i]) {
        PrintWellFormed(items[i]);
      }
      JoinWellFormed(PrintItems(items));
      EncloseWellFormed(OPEN_BRACKET, Join(PrintItems(items)), CLOSE_BRACKET);
    case Object(ms) =>
      forall i | 0 <= i < |ms| ensures WellFormed(PrintMembers(ms)[i]) {
        PrintWellFormed(ms[i].value);
        QuoteWellFormed(ms[i].key);
        WellFormedPlain([COLON]);
        WellFormedConcat(Quote(ms[i].key), [COLON]);
        WellFormedConcat(Quote(ms[i].key) + [COLON], Print(ms[i].value));
      }
      JoinWellFormed(PrintMembers(ms));
      EncloseWellFormed(OPEN_BRACE, Join(PrintMembers(ms)), CLOSE_BRACE);
    case _ =>
      WellFormedPlain(Print(t));
  }
}
