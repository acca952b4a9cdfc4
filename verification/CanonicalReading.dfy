/**
 A reader of JSON text (RFC 8259) without insignificant whitespace, and the round trip: the canonical text of
 a value reads back as the same tree, with every object's keys in code-unit order.
 */
module CanonicalReading {
  import opened Basics
  import opened CanonicalText
  import opened CanonicalTree

  // ------------------------------------------------------------------ strings

  function HexValue(c: CodeUnit): Option<nat> {
    if 48 <= c <= 57 then Some(c - 48)
    else if 97 <= c <= 102 then Some(c - 87)
    else if 65 <= c <= 70 then Some(c - 55)
    else None
  }

  /** The code unit written as four hexadecimal digits. */
  function ReadHex(a: CodeUnit, b: CodeUnit, c: CodeUnit, d: CodeUnit): Option<CodeUnit> {
    var p, q, r, s := HexValue(a), HexValue(b), HexValue(c), HexValue(d);
    if p.None? || q.None? || r.None? || s.None? then None
    else
      var n := ((p.value * 16 + q.value) * 16 + r.value) * 16 + s.value;
      if n < 0x1_0000 then Some(n) else None
  }

  /** What an escape of two units stands for. */
  function Unescaped(c: CodeUnit): Option<CodeUnit> {
    if c == QUOTE || c == BACKSLASH || c == 47 then Some(c)
    else if c == 98 then Some(8)
    else if c == 102 then Some(12)
    else if c == 110 then Some(10)
    else if c == 114 then Some(13)
    else if c == 116 then Some(9)
    else None
  }

  /** The first unit of the inside of a string, and what follows it. */
  function ReadUnit(t: Text): (r: Option<(CodeUnit, Text)>)
    ensures r.Some? ==> |r.value.1| < |t|
  {
    if t == [] || t[0] == QUOTE || t[0] < 32 then None
    else if t[0] != BACKSLASH then Some((t[0], t[1..]))
    else if |t| >= 6 && t[1] == 117 then
      var c := ReadHex(t[2], t[3], t[4], t[5]);
      if c.None? then None else Some((c.value, t[6..]))
    else if |t| < 2 || Unescaped(t[1]).None? then None
    else Some((Unescaped(t[1]).value, t[2..]))
  }

  /** The inside of a string up to its closing quote, and what follows it. */
  function ReadString(t: Text): (r: Option<(Text, Text)>)
    ensures r.Some? ==> |r.value.1| < |t|
    decreases |t|
  {
    if t != [] && t[0] == QUOTE then Some(([], t[1..]))
    else
      var first := ReadUnit(t);
      if first.None? then None
      else
        var rest := ReadString(first.value.1);
        if rest.None? then None else Some(([first.value.0] + rest.value.0, rest.value.1))
  }

  lemma HexRead(n: int)
    requires 0 <= n < 16
    ensures HexValue(HexDigit(n)) == Some(n)
  {
  }

  lemma UnicodeRead(c: CodeUnit)
    ensures var u := UnicodeEscape(c); ReadHex(u[2], u[3], u[4], u[5]) == Some(c)
  {
    HexRead(c / 16 / 16 / 16);
    HexRead(c / 16 / 16 % 16);
    HexRead(c / 16 % 16);
    HexRead(c % 16);
  }

  lemma UnitRead(c: CodeUnit, paired: bool, x: Text)
    ensures ReadUnit(EncodeUnit(c, paired) + x) == Some((c, x))
    ensures (EncodeUnit(c, paired) + x)[0] != QUOTE
  {
    var a := EncodeUnit(c, paired);
    var t := a + x;
    assert t[|a|..] == x;
    assert forall i :: 0 <= i < |a| ==> t[i] == a[i];
    if |a| == 6 {
      UnicodeRead(c);
    }
  }

  lemma {:induction false} EscapeRead(s: Text, inPair: bool, x: Text)
    ensures ReadString(Escape(s, inPair) + ([QUOTE] + x)) == Some((s, x))
  {
    var t := Escape(s, inPair) + ([QUOTE] + x);
    if s == [] {
      assert t == [QUOTE] + x;
    } else {
      var paired, leads, rest := EscapeStep(s, inPair, x);
      UnitRead(s[0], paired, rest);
      EscapeRead(s[1..], leads, x);
      assert s == [s[0]] + s[1..];
    }
  }

  // ------------------------------------------------------------------- values

  function ReadValue(t: Text): (r: Option<(Tree, Text)>)
    ensures r.Some? ==> |r.value.1| < |t|
    decreases |t|, 0
  {
    if t == [] then None
    else if t[0] == QUOTE then
      var s := ReadString(t[1..]);
      if s.None? then None else Some((String(s.value.0), s.value.1))
    else if t[0] == OPEN_BRACKET then
      if |t| > 1 && t[1] == CLOSE_BRACKET then Some((Array([]), t[2..]))
      else
        var items := ReadItems(t[1..]);
        if items.None? then None else Some((Array(items.value.0), items.value.1))
    else if t[0] == OPEN_BRACE then
      if |t| > 1 && t[1] == CLOSE_BRACE then Some((Object([]), t[2..]))
      else
        var members := ReadMembers(t[1..]);
        if members.None? then None else Some((Object(members.value.0), members.value.1))
    else if NULL_TEXT <= t then Some((Null, t[4..]))
    else if TRUE_TEXT <= t then Some((Boolean(true), t[4..]))
    else if FALSE_TEXT <= t then Some((Boolean(false), t[5..]))
    else
      var n := NumeralLength(t);
      if n <= |t| && IsNumeral(t[..n]) then Some((Numeric(Decimal(t[..n])), t[n..])) else None
  }

  /** The entries of an array that is not empty, up to its closing bracket. */
  function ReadItems(t: Text): (r: Option<(seq<Tree>, Text)>)
    ensures r.Some? ==> |r.value.1| < |t|
    decreases |t|, 1
  {
    var first := ReadValue(t);
    if first.None? || first.value.1 == [] then None
    else
      var (item, after) := first.value;
      if after[0] == CLOSE_BRACKET then Some(([item], after[1..]))
      else if after[0] != COMMA then None
      else
        var rest := ReadItems(after[1..]);
        if rest.None? then None else Some(([item] + rest.value.0, rest.value.1))
  }

  /** The members of an object that is not empty, up to its closing brace. */
  function ReadMembers(t: Text): (r: Option<(seq<Member>, Text)>)
    ensures r.Some? ==> |r.value.1| < |t|
    decreases |t|, 1
  {
    var first := ReadMember(t);
    if first.None? || first.value.1 == [] then None
    else
      var (member, after) := first.value;
      if after[0] == CLOSE_BRACE then Some(([member], after[1..]))
      else if after[0] != COMMA then None
      else
        var rest := ReadMembers(after[1..]);
        if rest.None? then None else Some(([member] + rest.value.0, rest.value.1))
  }

  function ReadMember(t: Text): (r: Option<(Member, Text)>)
    ensures r.Some? ==> |r.value.1| < |t|
    decreases |t|, 0
  {
    if t == [] || t[0] != QUOTE then None
    else
      var key := ReadString(t[1..]);
      if key.None? || key.value.1 == [] || key.value.1[0] != COLON then None
      else
        var v := ReadValue(key.value.1[1..]);
        if v.None? then None else Some((Entry(key.value.0, v.value.0), v.value.1))
  }

  // --------------------------------------------------------------- round trip

  lemma QuoteRead(s: Text, x: Text)
    ensures (Quote(s) + x)[0] == QUOTE && ReadString((Quote(s) + x)[1..]) == Some((s, x))
  {
    assert (Quote(s) + x)[1..] == Escape(s, false) + ([QUOTE] + x);
    EscapeRead(s, false, x);
  }

  lemma NumeralRead(a: Numeral, x: Text)
    requires Delimited(x)
    ensures ReadValue(a + x) == Some((Numeric(Decimal(a)), x))
  {
    NumeralEnd(a, x);
    var t := a + x;
    assert t[0] == a[0] && t[..|a|] == a && t[|a|..] == x;
  }

  /** A printed value does not start like the end of an array. */
  lemma PrintHead(t: Tree, x: Text)
    ensures Print(t) != [] && (Print(t) + x)[0] == Print(t)[0] && Print(t)[0] != CLOSE_BRACKET
  {
  }

  lemma ScalarRead(t: Tree, x: Text)
    requires Plain(t) && Delimited(x) && !t.Array? && !t.Object?
    ensures ReadValue(Print(t) + x) == Some((t, x))
  {
    hide ReadString, ReadItems, ReadMembers, Escape;
    var text := Print(t) + x;
    match t
    case Null => assert text[..4] == NULL_TEXT && text[4..] == x;
    case Boolean(b) =>
      assert if b then text[..4] == TRUE_TEXT && text[4..] == x else text[..5] == FALSE_TEXT && text[5..] == x;
    case Numeric(n) => NumeralRead(n.numeral, x);
    case String(s) => QuoteRead(s, x);
  }

  lemma ArrayRead(items: seq<Tree>, x: Text)
    requires items == [] || ItemsReadable(items, x)
    ensures ReadValue(Print(Array(items)) + x) == Some((Array(items), x))
  {
    hide ReadString, ReadItems, ReadMembers;
    var text := Print(Array(items)) + x;
    if items == [] {
      assert text == [OPEN_BRACKET, CLOSE_BRACKET] + x;
    } else {
      assert text[1..] == Join(PrintItems(items)) + ([CLOSE_BRACKET] + x);
    }
  }

  lemma ObjectRead(ms: seq<Member>, x: Text)
    requires ms == [] || MembersReadable(ms, x)
    ensures ReadValue(Print(Object(ms)) + x) == Some((Object(ms), x))
  {
    hide ReadString, ReadItems, ReadMembers;
    var text := Print(Object(ms)) + x;
    if ms == [] {
      assert text == [OPEN_BRACE, CLOSE_BRACE] + x;
    } else {
      assert text[1..] == Join(PrintMembers(ms)) + ([CLOSE_BRACE] + x);
    }
  }

  /** The printed entries of an array read back, whatever follows the array. */
  predicate ItemsReadable(items: seq<Tree>, x: Text) {
    var text := Join(PrintItems(items)) + ([CLOSE_BRACKET] + x);
    text[0] != CLOSE_BRACKET && ReadItems(text) == Some((items, x))
  }

  predicate MembersReadable(ms: seq<Member>, x: Text) {
    var text := Join(PrintMembers(ms)) + ([CLOSE_BRACE] + x);
    text[0] != CLOSE_BRACE && ReadMembers(text) == Some((ms, x))
  }

  lemma {:induction false} PrintRead(t: Tree, x: Text)
    requires Plain(t) && Delimited(x)
    ensures ReadValue(Print(t) + x) == Some((t, x))
    decreases t, 1
  {
    hide ReadValue, Print;
    match t
    case Array(items) =>
      if items != [] {
        ItemsRead(items, x);
      }
      ArrayRead(items, x);
    case Object(ms) =>
      if ms != [] {
        MembersRead(ms, x);
      }
      ObjectRead(ms, x);
    case _ => ScalarRead(t, x);
  }

  /** Reading one more entry. */
  lemma ItemsMore(item: Tree, after: Text, rest: Text)
    ensures ReadValue(rest) == Some((item, after)) && after != [] && after[0] == CLOSE_BRACKET ==>
              ReadItems(rest) == Some(([item], after[1..]))
    ensures ReadValue(rest) == Some((item, after)) && after != [] && after[0] == COMMA
              && ReadItems(after[1..]).Some? ==>
              ReadItems(rest) == Some(([item] + ReadItems(after[1..]).value.0, ReadItems(after[1..]).value.1))
  {
    hide ReadValue;
  }

  lemma MembersMore(member: Member, after: Text, rest: Text)
    ensures ReadMember(rest) == Some((member, after)) && after != [] && after[0] == CLOSE_BRACE ==>
              ReadMembers(rest) == Some(([member], after[1..]))
    ensures ReadMember(rest) == Some((member, after)) && after != [] && after[0] == COMMA
              && ReadMembers(after[1..]).Some? ==>
              ReadMembers(rest) == Some(([member] + ReadMembers(after[1..]).value.0, ReadMembers(after[1..]).value.1))
  {
    hide ReadMember;
  }

  lemma {:induction false} ItemsRead(items: seq<Tree>, x: Text)
    requires items != [] && forall i :: 0 <= i < |items| ==> Plain(items[i])
    ensures ItemsReadable(items, x)
    decreases items, 0
  {
    hide ReadValue, ReadItems, Print, Plain, PrintItems;
    var text, end := Join(PrintItems(items)) + ([CLOSE_BRACKET] + x), [CLOSE_BRACKET] + x;
    assert |PrintItems(items)| == |items| && PrintItems(items)[0] == Print(items[0]);
    if |items| == 1 {
      PrintHead(items[0], end);
      PrintRead(items[0], end);
      ItemsMore(items[0], end, text);
      assert items == [items[0]] && end[1..] == x;
    } else {
      var rest := Join(PrintItems(items[1..])) + end;
      assert PrintItems(items)[1..] == PrintItems(items[1..]);
      assert text == Print(items[0]) + ([COMMA] + rest);
      PrintHead(items[0], [COMMA] + rest);
      PrintRead(items[0], [COMMA] + rest);
      ItemsRead(items[1..], x);
      assert ([COMMA] + rest)[1..] == rest;
      ItemsMore(items[0], [COMMA] + rest, text);
      assert items == [items[0]] + items[1..];
    }
  }

  lemma {:induction false} MemberRead(m: Member, x: Text)
    requires Plain(m.value) && Delimited(x)
    ensures (PrintMember(m) + x)[0] == QUOTE && ReadMember(PrintMember(m) + x) == Some((m, x))
    decreases m, 2
  {
    hide ReadValue, ReadString, Print, Quote;
    var text := PrintMember(m) + x;
    var rest := [COLON] + (Print(m.value) + x);
    assert text == Quote(m.key) + rest;
    QuoteRead(m.key, rest);
    assert rest[1..] == Print(m.value) + x;
    PrintRead(m.value, x);
  }

  lemma {:induction false} MembersRead(ms: seq<Member>, x: Text)
    requires ms != [] && forall i :: 0 <= i < |ms| ==> Plain(ms[i].value)
    ensures MembersReadable(ms, x)
    decreases ms, 0
  {
    hide ReadMember, ReadMembers, PrintMember;
    var text, end := Join(PrintMembers(ms)) + ([CLOSE_BRACE] + x), [CLOSE_BRACE] + x;
    if |ms| == 1 {
      MemberRead(ms[0], end);
      MembersMore(ms[0], end, text);
      assert ms == [ms[0]] && end[1..] == x;
    } else {
      var rest := Join(PrintMembers(ms[1..])) + end;
      assert PrintMembers(ms)[1..] == PrintMembers(ms[1..]);
      assert text == PrintMember(ms[0]) + ([COMMA] + rest);
      MemberRead(ms[0], [COMMA] + rest);
      MembersRead(ms[1..], x);
      assert ([COMMA] + rest)[1..] == rest;
      MembersMore(ms[0], [COMMA] + rest, text);
      assert ms == [ms[0]] + ms[1..];
    }
  }

  // ------------------------------------------------------------- canonical text

  /** Every object's members are in code-unit order of their keys. */
  predicate InKeyOrder(t: Tree)
    decreases t
  {
    match t
    case Array(items) => forall i :: 0 <= i < |items| ==> InKeyOrder(items[i])
    case Object(ms) => SortedByKey(ms) && forall i :: 0 <= i < |ms| ==> InKeyOrder(ms[i].value)
    case _ => true
  }

  /** The order of keys: at the first place where they differ, the one with the smaller code unit, or without any. */
  predicate FirstDifference(a: Text, b: Text, k: nat) {
    && k <= |a| && k < |b| && a[..k] == b[..k]
    && (k < |a| ==> a[k] < b[k])
  }

  lemma {:induction false} KeyLessIff(a: Text, b: Text)
    ensures KeyLess(a, b) <==> exists k :: 0 <= k < |b| && FirstDifference(a, b, k)
  {
    if a == [] {
      assert b != [] ==> FirstDifference(a, b, 0);
    } else if b != [] {
      KeyLessIff(a[1..], b[1..]);
      if a[0] < b[0] {
        assert FirstDifference(a, b, 0);
      } else if a[0] == b[0] && KeyLess(a[1..], b[1..]) {
        var k :| 0 <= k < |b[1..]| && FirstDifference(a[1..], b[1..], k);
        assert a[..k + 1] == [a[0]] + a[1..][..k] && b[..k + 1] == [b[0]] + b[1..][..k];
        assert FirstDifference(a, b, k + 1);
      }
      forall k | 0 <= k < |b| && FirstDifference(a, b, k) ensures KeyLess(a, b) {
        if k > 0 {
          assert a[0] == a[..k][0] == b[0];
          assert a[1..][..k - 1] == a[..k][1..] && b[1..][..k - 1] == b[..k][1..];
          assert FirstDifference(a[1..], b[1..], k - 1);
        }
      }
    }
  }

  /** The normal form is the same tree with its keys in order. */
  lemma {:induction false} NormalSame(t: Tree)
    requires Proper(t)
    ensures SameTree(t, Normal(t)) && InKeyOrder(Normal(t))
    decreases t
  {
    match t
    case Array(items) =>
      forall i | 0 <= i < |items| ensures SameTree(items[i], Normal(items[i])) && InKeyOrder(Normal(items[i])) {
        NormalSame(items[i]);
      }
    case Object(ms) =>
      forall i | 0 <= i < |ms| ensures SameMember(ms[i], NormalMember(ms[i])) && InKeyOrder(Normal(ms[i].value)) {
        NormalSame(ms[i].value);
      }
      MembersSame(ms);
    case _ =>
  }

  lemma MembersSame(ms: seq<Member>)
    requires DistinctKeys(ms)
    requires forall i :: 0 <= i < |ms| ==> SameMember(ms[i], NormalMember(ms[i])) && InKeyOrder(Normal(ms[i].value))
    ensures SameTree(Object(ms), Normal(Object(ms))) && InKeyOrder(Normal(Object(ms)))
  {
    var normal := NormalMembers(ms);
    var sorted := SortEntries(normal);
    SortEntriesSorts(normal);
    forall i | 0 <= i < |ms| ensures FoundIn(ms[i], sorted) {
      assert normal[i] in sorted;
      var j :| 0 <= j < |sorted| && sorted[j] == normal[i];
      assert SameMember(ms[i], sorted[j]);
    }
    forall j | 0 <= j < |sorted| ensures FoundFor(ms, sorted[j]) && InKeyOrder(sorted[j].value) {
      assert sorted[j] in normal;
      var i :| 0 <= i < |normal| && normal[i] == sorted[j];
      assert SameMember(ms[i], sorted[j]);
    }
  }

  /**
   The canonical text of a value is JSON: it reads back, with nothing left over, as a tree that is the same up
   to key order and the sign of zero, and whose keys are in order.
   */
  lemma SerializeReadsBack(t: Tree)
    requires Proper(t)
    ensures var r := ReadValue(Serialize(t));
            r.Some? && r.value.1 == [] && SameTree(t, r.value.0) && InKeyOrder(r.value.0)
  {
    hide ReadValue, SameTree, InKeyOrder, Print;
    NormalPlain(t);
    PrintRead(Normal(t), []);
    assert Print(Normal(t)) + [] == Serialize(t);
    NormalSame(t);
  }
}
