/**
 Stable sorting, as Array.prototype.sort does it, by any comparison that is a strict weak order. Elements
 the comparison cannot tell apart keep their relative order, so what the result depends on besides the
 elements is exactly how the input arranges those.
 */
module Sorting {

  ghost predicate TotalOrder<T(!new)>(less: (T, T) -> bool) {
    && (forall a, b :: less(a, b) || less(b, a) || a == b)
    && (forall a, b :: !(less(a, b) && less(b, a)))
    && (forall a, b, c :: less(a, b) && less(b, c) ==> less(a, c))
  }

  /** What a consistent comparator gives: comparing as equal is an equivalence. */
  ghost predicate WeakOrder<T(!new)>(less: (T, T) -> bool) {
    && (forall a, b :: !(less(a, b) && less(b, a)))
    && (forall a, b, c :: less(a, c) ==> less(a, b) || less(b, c))
  }

  predicate Sorted<T>(less: (T, T) -> bool, s: seq<T>) {
    forall i, j :: 0 <= i < j < |s| ==> less(s[i], s[j])
  }

  predicate Distinct<T(==)>(s: seq<T>) {
    forall i, j :: 0 <= i < j < |s| ==> s[i] != s[j]
  }

  function Insert<T>(less: (T, T) -> bool, x: T, s: seq<T>): seq<T> {
    if s == [] || !less(s[0], x) then [x] + s else [s[0]] + Insert(less, x, s[1..])
  }

  function Sort<T>(less: (T, T) -> bool, s: seq<T>): seq<T> {
    if s == [] then [] else Insert(less, s[0], Sort(less, s[1..]))
  }

  lemma {:induction false} InsertPermutes<T>(less: (T, T) -> bool, x: T, s: seq<T>)
    ensures multiset(Insert(less, x, s)) == multiset{x} + multiset(s)
  {
    if s != [] && less(s[0], x) {
      InsertPermutes(less, x, s[1..]);
      assert s == [s[0]] + s[1..];
    }
  }

  lemma {:induction false} SortPermutes<T>(less: (T, T) -> bool, s: seq<T>)
    ensures multiset(Sort(less, s)) == multiset(s)
    ensures |Sort(less, s)| == |s|
  {
    if s != [] {
      SortPermutes(less, s[1..]);
      InsertPermutes(less, s[0], Sort(less, s[1..]));
      assert s == [s[0]] + s[1..];
    }
    assert |multiset(Sort(less, s))| == |multiset(s)|;
  }

  // ---------------------------------------------------------------- stability

  predicate Tied<T>(less: (T, T) -> bool, a: T, b: T) {
    !less(a, b) && !less(b, a)
  }

  predicate Earlier<T(==)>(s: seq<T>, a: T, b: T) {
    exists i, j :: 0 <= i < j < |s| && s[i] == a && s[j] == b
  }

  /** a must come before b when s is sorted. */
  predicate Precedes<T(==)>(less: (T, T) -> bool, s: seq<T>, a: T, b: T) {
    less(a, b) || (Tied(less, a, b) && Earlier(s, a, b))
  }

  predicate StablySorted<T(==)>(less: (T, T) -> bool, s: seq<T>, r: seq<T>) {
    forall i, j :: 0 <= i < j < |r| ==> Precedes(less, s, r[i], r[j])
  }

  lemma PrecedesMore<T(!new)>(less: (T, T) -> bool, x: T, s: seq<T>, a: T, b: T)
    requires Precedes(less, s, a, b)
    ensures Precedes(less, [x] + s, a, b)
  {
    if Earlier(s, a, b) {
      var i, j :| 0 <= i < j < |s| && s[i] == a && s[j] == b;
      assert ([x] + s)[i + 1] == a && ([x] + s)[j + 1] == b;
    }
  }

  lemma FirstEarlier<T>(x: T, s: seq<T>, b: T)
    requires b in s
    ensures Earlier([x] + s, x, b)
  {
    var j :| 0 <= j < |s| && s[j] == b;
    assert ([x] + s)[0] == x && ([x] + s)[j + 1] == b;
  }

  /** Inserting an element that came before all of these. */
  lemma {:induction false} InsertStable<T(!new)>(less: (T, T) -> bool, x: T, s: seq<T>, r: seq<T>)
    requires WeakOrder(less) && StablySorted(less, [x] + s, r) && forall a :: a in r ==> a in s
    ensures StablySorted(less, [x] + s, Insert(less, x, r))
  {
    var all, result := [x] + s, Insert(less, x, r);
    if r == [] || !less(r[0], x) {
      forall j | 0 < j < |result| ensures Precedes(less, all, x, result[j]) {
        FirstEarlier(x, s, r[j - 1]);
        assert j > 1 ==> Precedes(less, all, r[0], r[j - 1]);
      }
    } else {
      InsertStable(less, x, s, r[1..]);
      InsertPermutes(less, x, r[1..]);
      forall j | 0 < j < |result| ensures Precedes(less, all, result[0], result[j]) {
        assert result[j] in multiset(result[1..]);
        if result[j] != x {
          var k :| 0 <= k < |r[1..]| && r[1..][k] == result[j];
          assert r[k + 1] == result[j];
        }
      }
    }
  }

  lemma {:induction false} SortStable<T(!new)>(less: (T, T) -> bool, s: seq<T>)
    requires WeakOrder(less)
    ensures StablySorted(less, s, Sort(less, s))
  {
    if s != [] {
      var r := Sort(less, s[1..]);
      SortStable(less, s[1..]);
      SortPermutes(less, s[1..]);
      forall i, j | 0 <= i < j < |r| ensures Precedes(less, [s[0]] + s[1..], r[i], r[j]) {
        PrecedesMore(less, s[0], s[1..], r[i], r[j]);
      }
      forall a | a in r ensures a in s[1..] {
        assert a in multiset(r);
      }
      assert s == [s[0]] + s[1..];
      InsertStable(less, s[0], s[1..], r);
    }
  }

  lemma TotalIsWeak<T(!new)>(less: (T, T) -> bool)
    requires TotalOrder(less)
    ensures WeakOrder(less)
  {
    forall a, b, c | less(a, c) ensures less(a, b) || less(b, c) {
      assert a == b || less(a, b) || less(b, a);
    }
  }

  lemma SortSorts<T(!new)>(less: (T, T) -> bool, s: seq<T>)
    requires TotalOrder(less) && Distinct(s)
    ensures Sorted(less, Sort(less, s))
  {
    TotalIsWeak(less);
    SortStable(less, s);
    SortPermutes(less, s);
    PermutedDistinct(s, Sort(less, s));
    var r := Sort(less, s);
    forall i, j | 0 <= i < j < |r| ensures less(r[i], r[j]) {
      assert Precedes(less, s, r[i], r[j]);
    }
  }

  lemma {:induction false} SeenOnce<T>(s: seq<T>, x: T)
    requires Distinct(s)
    ensures multiset(s)[x] <= 1
  {
    if s != [] {
      SeenOnce(s[1..], x);
      assert s == [s[0]] + s[1..];
      if x == s[0] {
        assert x !in s[1..];
      }
    }
  }

  /** Distinctness survives any reordering. */
  lemma PermutedDistinct<T>(s: seq<T>, t: seq<T>)
    requires Distinct(s) && multiset(s) == multiset(t)
    ensures Distinct(t)
  {
    forall i, j | 0 <= i < j < |t| ensures t[i] != t[j] {
      SeenOnce(s, t[i]);
      assert t == t[..i] + [t[i]] + t[i + 1..j] + [t[j]] + t[j + 1..];
    }
  }

  /** t arranges elements that compare as equal as s does. */
  predicate TiesAlike<T(==)>(less: (T, T) -> bool, s: seq<T>, t: seq<T>) {
    forall i, j :: 0 <= i < j < |s| && Tied(less, s[i], s[j]) ==> Earlier(t, s[i], s[j])
  }

  lemma EarlierOnce<T>(s: seq<T>, a: T, b: T)
    requires Distinct(s)
    ensures !(Earlier(s, a, b) && Earlier(s, b, a))
    ensures a in s && b in s && a != b ==> Earlier(s, a, b) || Earlier(s, b, a)
  {
  }

  lemma FirstAlike<T(!new)>(less: (T, T) -> bool, s: seq<T>, a: seq<T>, b: seq<T>)
    requires WeakOrder(less) && Distinct(s) && StablySorted(less, s, a) && StablySorted(less, s, b)
    requires a != [] && b != [] && a[0] in b && b[0] in a
    ensures a[0] == b[0]
  {
    EarlierOnce(s, a[0], b[0]);
    var i :| 0 <= i < |a| && a[i] == b[0];
    var j :| 0 <= j < |b| && b[j] == a[0];
    assert i > 0 ==> Precedes(less, s, a[0], a[i]);
    assert j > 0 ==> Precedes(less, s, b[0], b[j]);
  }

  lemma RestAlike<T>(a: seq<T>, b: seq<T>)
    requires a != [] && b != [] && a[0] == b[0] && multiset(a) == multiset(b)
    ensures multiset(a[1..]) == multiset(b[1..])
  {
    assert a == [a[0]] + a[1..] && b == [b[0]] + b[1..];
    assert multiset(a[1..]) == multiset(a) - multiset{a[0]};
    assert multiset(b[1..]) == multiset(b) - multiset{b[0]};
  }

  /** Two arrangements of the same distinct elements, each sorted by the same strict comparison of them. */
  lemma {:induction false} SortedAlike<T(!new)>(less: (T, T) -> bool, s: seq<T>, a: seq<T>, b: seq<T>)
    requires WeakOrder(less) && Distinct(s) && StablySorted(less, s, a) && StablySorted(less, s, b)
    requires multiset(a) == multiset(b)
    ensures a == b
  {
    hide WeakOrder, Distinct, Precedes;
    assert |a| == |multiset(a)| == |multiset(b)| == |b|;
    if a != [] {
      assert a[0] in multiset(b) && b[0] in multiset(a);
      FirstAlike(less, s, a, b);
      RestAlike(a, b);
      SortedAlike(less, s, a[1..], b[1..]);
      assert a == [a[0]] + a[1..] && b == [b[0]] + b[1..];
    }
  }

  /** Sorted by how t arranges ties is sorted by how s does. */
  lemma StableAlike<T(!new)>(less: (T, T) -> bool, s: seq<T>, t: seq<T>, r: seq<T>)
    requires Distinct(s) && Distinct(t) && TiesAlike(less, s, t) && StablySorted(less, t, r)
    requires multiset(r) == multiset(s) == multiset(t)
    ensures StablySorted(less, s, r)
  {
    PermutedDistinct(s, r);
    forall i, j | 0 <= i < j < |r| ensures Precedes(less, s, r[i], r[j]) {
      var a, b := r[i], r[j];
      assert Precedes(less, t, a, b);
      if Tied(less, a, b) {
        assert a in multiset(s) && b in multiset(s);
        EarlierOnce(s, a, b);
        EarlierOnce(t, a, b);
      }
    }
  }

  /**
   Two arrangements of the same distinct elements sort to the same sequence exactly when they arrange
   elements that compare as equal alike.
   */
  lemma SortsAlikeIff<T(!new)>(less: (T, T) -> bool, s: seq<T>, t: seq<T>)
    requires WeakOrder(less) && Distinct(s) && multiset(s) == multiset(t)
    ensures Sort(less, s) == Sort(less, t) <==> TiesAlike(less, s, t)
  {
    PermutedDistinct(s, t);
    SortStable(less, s);
    SortStable(less, t);
    SortPermutes(less, s);
    SortPermutes(less, t);
    if TiesAlike(less, s, t) {
      StableAlike(less, s, t, Sort(less, t));
      SortedAlike(less, s, Sort(less, s), Sort(less, t));
    }
    if Sort(less, s) == Sort(less, t) {
      forall i, j | 0 <= i < j < |s| && Tied(less, s[i], s[j]) ensures Earlier(t, s[i], s[j]) {
        TieKept(less, s, t, Sort(less, s), i, j);
      }
    }
  }

  lemma EarlierPrecedes<T(!new)>(less: (T, T) -> bool, s: seq<T>, r: seq<T>, a: T, b: T)
    requires StablySorted(less, s, r)
    ensures Earlier(r, a, b) ==> Precedes(less, s, a, b)
  {
    if Earlier(r, a, b) {
      var k, l :| 0 <= k < l < |r| && r[k] == a && r[l] == b;
      assert Precedes(less, s, r[k], r[l]);
    }
  }

  lemma TieKept<T(!new)>(less: (T, T) -> bool, s: seq<T>, t: seq<T>, r: seq<T>, i: nat, j: nat)
    requires Distinct(s) && Distinct(t) && multiset(r) == multiset(s)
    requires StablySorted(less, s, r) && StablySorted(less, t, r)
    requires i < j < |s| && Tied(less, s[i], s[j])
    ensures Earlier(t, s[i], s[j])
  {
    var a, b := s[i], s[j];
    PermutedDistinct(s, r);
    assert Earlier(s, a, b);
    EarlierOnce(s, a, b);
    assert a in multiset(r) && b in multiset(r);
    EarlierOnce(r, a, b);
    EarlierPrecedes(less, s, r, b, a);
    EarlierPrecedes(less, t, r, a, b);
  }

  /** The first element of x can be taken out of any reordering of x. */
  lemma PermutedSplit<T>(x: seq<T>, y: seq<T>) returns (a: seq<T>, b: seq<T>)
    requires x != [] && multiset(x) == multiset(y)
    ensures y == a + [x[0]] + b
    ensures multiset(x[1..]) == multiset(a + b)
  {
    assert x[0] in multiset(x);
    assert x[0] in y;
    var j :| 0 <= j < |y| && y[j] == x[0];
    a, b := y[..j], y[j + 1..];
    assert y == a + [x[0]] + b;
    assert x == [x[0]] + x[1..];
    assert multiset(x[1..]) == multiset(x) - multiset{x[0]};
    assert multiset(y) == multiset(a) + multiset{x[0]} + multiset(b);
    assert multiset(a + b) == multiset(y) - multiset{x[0]};
  }
}
