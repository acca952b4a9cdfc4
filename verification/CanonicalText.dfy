/**
 JSON text as the canonical serializer writes it: UTF-16 code units, the quoting of
 JSON.stringify (section 7 of RFC 8259, with unpaired surrogates escaped), and the facts
 that make the output readable in exactly one way.
 */
module CanonicalText {

  type CodeUnit = n: int | 0 <= n < 0x1_0000
  type Text = seq<CodeUnit>

  const QUOTE: CodeUnit := 34
  const BACKSLASH: CodeUnit := 92
  const COMMA: CodeUnit := 44
  const COLON: CodeUnit := 58
  const OPEN_BRACKET: CodeUnit := 91
  const CLOSE_BRACKET: CodeUnit := 93
  const OPEN_BRACE: CodeUnit := 123
  const CLOSE_BRACE: CodeUnit := 125
  const NULL_TEXT: Text := [110, 117, 108, 108]
  const TRUE_TEXT: Text := [116, 114, 117, 101]
  const FALSE_TEXT: Text := [102, 97, 108, 115, 101]
  const ZERO: Numeral := [48]

  /** Units that occur in the decimal text of a finite number: digits, '+', '-', '.', 'e'. */
  predicate NumeralUnit(c: CodeUnit) {
    48 <= c <= 57 || c == 43 || c == 45 || c == 46 || c == 101
  }

  predicate IsNumeral(t: Text) {
    && |t| > 0
    && (48 <= t[0] <= 57 || t[0] == 45)
    && forall i :: 0 <= i < |t| ==> NumeralUnit(t[i])
  }

  type Numeral = t: Text | IsNumeral(t) witness [48]

  predicate IsHigh(c: CodeUnit) { 0xD800 <= c <= 0xDBFF }

  predicate IsLow(c: CodeUnit) { 0xDC00 <= c <= 0xDFFF }

  function HexDigit(n: int): (d: CodeUnit)
    requires 0 <= n < 16
  {
    if n < 10 then 48 + n else 87 + n
  }

  function UnicodeEscape(c: CodeUnit): Text {
    [BACKSLASH, 117, HexDigit(c / 16 / 16 / 16), HexDigit(c / 16 / 16 % 16), HexDigit(c / 16 % 16), HexDigit(c % 16)]
  }

  /** The second unit of the two-unit escapes, or 0 when there is none. */
  function ShortEscape(c: CodeUnit): CodeUnit {
    if c == QUOTE || c == BACKSLASH then c
    else if c == 8 then 98
    else if c == 9 then 116
    else if c == 10 then 110
    else if c == 12 then 102
    else if c == 13 then 114
    else 0
  }

  /** One code unit as JSON.stringify writes it; `paired` marks one half of a surrogate pair. */
  function EncodeUnit(c: CodeUnit, paired: bool): Text {
    if ShortEscape(c) != 0 then [BACKSLASH, ShortEscape(c)]
    else if c < 32 || ((IsHigh(c) || IsLow(c)) && !paired) then UnicodeEscape(c)
    else [c]
  }

  /** True when s starts with both halves of a surrogate pair. */
  predicate LeadsPair(s: Text) {
    |s| > 1 && IsHigh(s[0]) && IsLow(s[1])
  }

  /** The inside of a string literal; `inPair` says that s[0] is the low half of a pair already begun. */
  function Escape(s: Text, inPair: bool): Text {
    if s == [] then []
    else
      var leads := !inPair && LeadsPair(s);
      EncodeUnit(s[0], inPair || leads) + Escape(s[1..], leads)
  }

  function Quote(s: Text): Text {
    [QUOTE] + Escape(s, false) + [QUOTE]
  }

  lemma ConcatCancel(a: Text, b: Text, x: Text, y: Text)
    requires a + x == b + y && |a| == |b|
    ensures a == b && x == y
  {
    assert a == (a + x)[..|a|] && b == (b + y)[..|a|];
    assert x == (a + x)[|a|..] && y == (b + y)[|a|..];
  }

  lemma HexDigitInjective(m: int, n: int)
    requires 0 <= m < 16 && 0 <= n < 16 && HexDigit(m) == HexDigit(n)
    ensures m == n
  {
  }

  lemma UnicodeEscapeInjective(c: CodeUnit, d: CodeUnit)
    requires UnicodeEscape(c) == UnicodeEscape(d)
    ensures c == d
  {
    var u, v := UnicodeEscape(c), UnicodeEscape(d);
    assert u[2] == v[2] && u[3] == v[3] && u[4] == v[4] && u[5] == v[5];
    HexDigitInjective(c / 16 / 16 / 16, d / 16 / 16 / 16);
    HexDigitInjective(c / 16 / 16 % 16, d / 16 / 16 % 16);
    HexDigitInjective(c / 16 % 16, d / 16 % 16);
    HexDigitInjective(c % 16, d % 16);
  }

  /** An encoded unit can be read back off the front of any text, whatever its neighbours were. */
  lemma EncodeUnitUnique(c: CodeUnit, p: bool, d: CodeUnit, q: bool, x: Text, y: Text)
    requires EncodeUnit(c, p) + x == EncodeUnit(d, q) + y
    ensures c == d && x == y
  {
    var a, b := EncodeUnit(c, p), EncodeUnit(d, q);
    assert (a + x)[0] == (b + y)[0];
    assert a[0] == b[0];
    if a[0] == BACKSLASH {
      assert (a + x)[1] == (b + y)[1];
      assert a[1] == b[1];
      ConcatCancel(a, b, x, y);
      if |a| == 6 {
        UnicodeEscapeInjective(c, d);
      }
    } else {
      ConcatCancel(a, b, x, y);
    }
  }

  /** The closing quote comes first exactly when nothing of the string is left. */
  lemma EscapeHead(s: Text, p: bool, x: Text)
    ensures (Escape(s, p) + ([QUOTE] + x))[0] == QUOTE <==> s == []
  {
    if s != [] {
      var first := EncodeUnit(s[0], p || (!p && LeadsPair(s)));
      assert first[0] != QUOTE;
      assert (Escape(s, p) + ([QUOTE] + x))[0] == first[0];
    }
  }

  lemma EscapeStep(s: Text, p: bool, x: Text) returns (paired: bool, leads: bool, rest: Text)
    requires s != []
    ensures rest == Escape(s[1..], leads) + ([QUOTE] + x)
    ensures Escape(s, p) + ([QUOTE] + x) == EncodeUnit(s[0], paired) + rest
  {
    leads := !p && LeadsPair(s);
    paired := p || leads;
    rest := Escape(s[1..], leads) + ([QUOTE] + x);
  }

  lemma {:induction false} EscapeUnique(s: Text, p: bool, t: Text, q: bool, x: Text, y: Text)
    requires Escape(s, p) + ([QUOTE] + x) == Escape(t, q) + ([QUOTE] + y)
    ensures s == t && x == y
  {
    EscapeHead(s, p, x);
    EscapeHead(t, q, y);
    if s == [] {
      assert Escape(s, p) + ([QUOTE] + x) == [QUOTE] + x;
      assert Escape(t, q) + ([QUOTE] + y) == [QUOTE] + y;
      ConcatCancel([QUOTE], [QUOTE], x, y);
    } else {
      var pairedS, leadsS, restS := EscapeStep(s, p, x);
      var pairedT, leadsT, restT := EscapeStep(t, q, y);
      EncodeUnitUnique(s[0], pairedS, t[0], pairedT, restS, restT);
      EscapeUnique(s[1..], leadsS, t[1..], leadsT, x, y);
      assert s == [s[0]] + s[1..] && t == [t[0]] + t[1..];
    }
  }

  /** A quoted string is self-delimiting: its end and its contents can be read off any text it starts. */
  lemma QuoteUnique(s: Text, t: Text, x: Text, y: Text)
    requires Quote(s) + x == Quote(t) + y
    ensures s == t && x == y
  {
    var left, right := Escape(s, false) + ([QUOTE] + x), Escape(t, false) + ([QUOTE] + y);
    assert Quote(s) + x == [QUOTE] + left;
    assert Quote(t) + y == [QUOTE] + right;
    ConcatCancel([QUOTE], [QUOTE], left, right);
    EscapeUnique(s, false, t, false, x, y);
  }

  /** What may follow a value inside canonical text. */
  predicate Delimited(t: Text) {
    t == [] || t[0] == COMMA || t[0] == CLOSE_BRACKET || t[0] == CLOSE_BRACE
  }

  /** How many numeral units t starts with. */
  function NumeralLength(t: Text): nat {
    if t != [] && NumeralUnit(t[0]) then 1 + NumeralLength(t[1..]) else 0
  }

  lemma {:induction false} NumeralEnd(a: Text, x: Text)
    requires forall i :: 0 <= i < |a| ==> NumeralUnit(a[i])
    requires Delimited(x)
    ensures NumeralLength(a + x) == |a|
  {
    if a == [] {
      assert a + x == x;
    } else {
      assert (a + x)[1..] == a[1..] + x;
      NumeralEnd(a[1..], x);
    }
  }

  /** Numerals have no closing mark, yet end uniquely where a delimiter begins. */
  lemma NumeralUnique(a: Numeral, b: Numeral, x: Text, y: Text)
    requires a + x == b + y && Delimited(x) && Delimited(y)
    ensures a == b && x == y
  {
    NumeralEnd(a, x);
    NumeralEnd(b, y);
    ConcatCancel(a, b, x, y);
  }

  /** No unpaired surrogate: such text survives encoding as UTF-8 unchanged. */
  predicate WellFormed(t: Text) {
    if t == [] then true
    else if IsHigh(t[0]) then |t| > 1 && IsLow(t[1]) && WellFormed(t[2..])
    else !IsLow(t[0]) && WellFormed(t[1..])
  }

  lemma {:induction false} WellFormedConcat(a: Text, b: Text)
    requires WellFormed(a) && WellFormed(b)
    ensures WellFormed(a + b)
  {
    if a == [] {
      assert a + b == b;
    } else if IsHigh(a[0]) {
      WellFormedConcat(a[2..], b);
      assert (a + b)[2..] == a[2..] + b;
    } else {
      WellFormedConcat(a[1..], b);
      assert (a + b)[1..] == a[1..] + b;
    }
  }

  /** Text of units outside the surrogate range is well formed. */
  lemma {:induction false} WellFormedPlain(t: Text)
    requires forall i :: 0 <= i < |t| ==> !IsHigh(t[i]) && !IsLow(t[i])
    ensures WellFormed(t)
  {
    if t != [] {
      WellFormedPlain(t[1..]);
    }
  }

  lemma {:induction false} EscapeWellFormed(s: Text, inPair: bool)
    requires inPair ==> s != [] && IsLow(s[0])
    ensures inPair ==> Escape(s, true) == [s[0]] + Escape(s[1..], false)
    ensures inPair ==> WellFormed(Escape(s[1..], false))
    ensures !inPair ==> WellFormed(Escape(s, false))
  {
    if s != [] {
      if inPair {
        EscapeWellFormed(s[1..], false);
      } else if LeadsPair(s) {
        EscapeWellFormed(s[1..], true);
        var rest := Escape(s[2..], false);
        assert s[1..][1..] == s[2..];
        assert Escape(s, false) == [s[0]] + ([s[1]] + rest);
        assert Escape(s, false)[2..] == rest;
      } else {
        EscapeWellFormed(s[1..], false);
        WellFormedPlain(EncodeUnit(s[0], false));
        WellFormedConcat(EncodeUnit(s[0], false), Escape(s[1..], false));
      }
    }
  }

  /** Any string, even one with unpaired surrogates, is quoted as well-formed text. */
  lemma QuoteWellFormed(s: Text)
    ensures WellFormed(Quote(s))
  {
    EscapeWellFormed(s, false);
    WellFormedPlain([QUOTE]);
    WellFormedConcat([QUOTE], Escape(s, false));
    WellFormedConcat([QUOTE] + Escape(s, false), [QUOTE]);
  }

  // ----------------------------------------------------------- what is escaped

  /** The units an escape of two units exists for: the quote, the backslash and five control characters. */
  predicate HasShortEscape(c: CodeUnit) {
    c in {QUOTE, BACKSLASH, 8, 9, 10, 12, 13}
  }

  /**
   Controls, quotes, backslashes and unpaired surrogates are escaped and nothing else is; an escape has two
   units where there is one of two units, and else four lower-case hexadecimal digits.
   */
  lemma UnitEscaped(c: CodeUnit, paired: bool)
    ensures var e := EncodeUnit(c, paired);
            && (e == [c] <==> c >= 32 && !HasShortEscape(c) && (IsHigh(c) || IsLow(c) ==> paired))
            && (|e| == 2 <==> HasShortEscape(c))
            && (e != [c] && !HasShortEscape(c) ==>
                  && |e| == 6 && e[..2] == [BACKSLASH, 117]
                  && forall i :: 2 <= i < 6 ==> 48 <= e[i] <= 57 || 97 <= e[i] <= 102)
  {
  }

  predicate NoneToEscape(s: Text) {
    forall i :: 0 <= i < |s| ==> s[i] >= 32 && !HasShortEscape(s[i])
  }

  lemma {:induction false} EscapeVerbatim(s: Text, inPair: bool)
    requires inPair ==> s != [] && IsLow(s[0])
    ensures |Escape(s, inPair)| >= |s|
    ensures Escape(s, inPair) == s <==> NoneToEscape(s) && WellFormed(if inPair then s[1..] else s)
  {
    if s != [] {
      var leads := !inPair && LeadsPair(s);
      var e := EncodeUnit(s[0], inPair || leads);
      UnitEscaped(s[0], inPair || leads);
      EscapeVerbatim(s[1..], leads);
      assert s == [s[0]] + s[1..];
      assert Escape(s, inPair) == e + Escape(s[1..], leads);
      if |Escape(s, inPair)| == |s| {
        assert e == Escape(s, inPair)[..1] && Escape(s[1..], leads) == Escape(s, inPair)[1..];
      }
      assert NoneToEscape(s) <==> NoneToEscape([s[0]]) && NoneToEscape(s[1..]);
      if leads {
        assert s[1..][1..] == s[2..];
      }
    }
  }

  /** A string is quoted as it is exactly if it is well formed and holds no control, quote or backslash. */
  lemma QuoteVerbatimIff(s: Text)
    ensures Quote(s) == [QUOTE] + s + [QUOTE] <==> NoneToEscape(s) && WellFormed(s)
  {
    EscapeVerbatim(s, false);
    if Quote(s) == [QUOTE] + s + [QUOTE] {
      assert Escape(s, false) == Quote(s)[1..|Quote(s)| - 1];
      assert s == ([QUOTE] + s + [QUOTE])[1..|s| + 1];
    }
  }
}
