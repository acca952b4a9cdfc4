/**
 The largest-remainder allocation of the holdout: three tenths of every category, rounded so that the
 total is three tenths of the whole. The fraction 0.3 is taken exactly, as 3/10.
 */
module Apportionment {
  import opened Sorting

  function Sum(xs: seq<nat>): nat {
    if xs == [] then 0 else xs[0] + Sum(xs[1..])
  }

  /** Math.floor(size * 0.3). */
  function Floor(size: nat): nat { 3 * size / 10 }

  /** The fractional part of size * 0.3, in tenths. */
  function Remainder(size: nat): nat { 3 * size % 10 }

  /** Math.round(total * 0.3): halves are rounded up. */
  function Target(total: nat): nat { (3 * total + 5) / 10 }

  function RemainderAt(sizes: seq<nat>, c: nat): nat {
    if c < |sizes| then Remainder(sizes[c]) else 0
  }

  /** Categories with larger fractional parts come first; ties go by name, which is list order. */
  predicate Ahead(sizes: seq<nat>, c: nat, d: nat) {
    || RemainderAt(sizes, c) > RemainderAt(sizes, d)
    || (RemainderAt(sizes, c) == RemainderAt(sizes, d) && c < d)
  }

  function Order(sizes: seq<nat>): (nat, nat) -> bool {
    (c: nat, d: nat) => Ahead(sizes, c, d)
  }

  lemma OrderTotal(sizes: seq<nat>)
    ensures TotalOrder(Order(sizes))
  {
  }

  /**
   The allocation the largest-remainder method stands for: the total is right, every category gets the
   floor or the ceiling of its quota, and whoever is rounded up is ahead of whoever is rounded down.
   */
  predicate LargestRemainder(sizes: seq<nat>, a: seq<nat>) {
    && |a| == |sizes|
    && Sum(a) == Target(Sum(sizes))
    && (forall c :: 0 <= c < |a| ==>
              a[c] == Floor(sizes[c]) || (a[c] == Floor(sizes[c]) + 1 && Remainder(sizes[c]) > 0))
    && forall c, d :: 0 <= c < |a| && 0 <= d < |a| && a[c] > Floor(sizes[c]) && a[d] == Floor(sizes[d]) ==>
         Ahead(sizes, c, d)
  }

  /** Extra cases go to the categories with the largest fractional parts, in list order among equal ones. */
  lemma ExtraToLargest(sizes: seq<nat>, a: seq<nat>, c: nat, d: nat)
    requires LargestRemainder(sizes, a) && c < |sizes| && d < |sizes|
    requires 10 * a[c] > 3 * sizes[c] && 10 * a[d] <= 3 * sizes[d]
    ensures var tenths, others := 3 * sizes[c] % 10, 3 * sizes[d] % 10;
            tenths > others || (tenths == others && c < d)
  {
    assert a[c] > Floor(sizes[c]) && a[d] == Floor(sizes[d]);
  }

  lemma AheadOneWay(sizes: seq<nat>, c: nat, d: nat)
    ensures !(Ahead(sizes, c, d) && Ahead(sizes, d, c))
  {
  }

  lemma {:induction false} SumPointwise(a: seq<nat>, b: seq<nat>)
    requires |a| == |b| && forall c :: 0 <= c < |a| ==> a[c] <= b[c]
    ensures Sum(a) <= Sum(b)
    ensures Sum(a) == Sum(b) ==> a == b
  {
    if a != [] {
      SumPointwise(a[1..], b[1..]);
      assert a == [a[0]] + a[1..] && b == [b[0]] + b[1..];
    }
  }

  /** The description determines the allocation. */
  lemma LargestRemainderUnique(sizes: seq<nat>, a: seq<nat>, b: seq<nat>)
    requires LargestRemainder(sizes, a) && LargestRemainder(sizes, b)
    ensures a == b
  {
    if forall c :: 0 <= c < |a| ==> a[c] <= b[c] {
      SumPointwise(a, b);
    } else {
      var c :| 0 <= c < |a| && a[c] > b[c];
      forall d | 0 <= d < |a| ensures b[d] <= a[d] {
        AheadOneWay(sizes, c, d);
      }
      SumPointwise(b, a);
    }
  }

  /** No category gives up more cases than it has, and the share is within one of its quota. */
  lemma ShareWithinSize(sizes: seq<nat>, a: seq<nat>, c: nat)
    requires LargestRemainder(sizes, a) && c < |a|
    ensures a[c] <= sizes[c]
    ensures 3 * sizes[c] < 10 * a[c] + 10 && 10 * a[c] < 3 * sizes[c] + 10
  {
  }

  // -------------------------------------------------- why the remainder runs out

  function Indices(from: nat, n: nat): (r: seq<nat>)
    requires from <= n
    ensures |r| == n - from && forall i :: 0 <= i < |r| ==> r[i] == from + i
    decreases n - from
  {
    if from == n then [] else [from] + Indices(from + 1, n)
  }

  function RemainderSum(sizes: seq<nat>, order: seq<nat>): nat {
    if order == [] then 0 else RemainderAt(sizes, order[0]) + RemainderSum(sizes, order[1..])
  }

  function Floors(sizes: seq<nat>): (r: seq<nat>)
    ensures |r| == |sizes| && forall c :: 0 <= c < |r| ==> r[c] == Floor(sizes[c])
  {
    if sizes == [] then [] else [Floor(sizes[0])] + Floors(sizes[1..])
  }

  lemma {:induction false} QuotaSplits(sizes: seq<nat>, from: nat)
    requires from <= |sizes|
    ensures 3 * Sum(sizes[from..]) == 10 * Sum(Floors(sizes[from..])) + RemainderSum(sizes, Indices(from, |sizes|))
    decreases |sizes| - from
  {
    if from < |sizes| {
      QuotaSplits(sizes, from + 1);
      assert sizes[from..][1..] == sizes[from + 1..];
    }
  }

  lemma {:induction false} RemainderSumInsert(sizes: seq<nat>, c: nat, order: seq<nat>)
    ensures RemainderSum(sizes, Insert(Order(sizes), c, order)) == RemainderAt(sizes, c) + RemainderSum(sizes, order)
  {
    if order != [] && !Ahead(sizes, c, order[0]) {
      RemainderSumInsert(sizes, c, order[1..]);
    }
  }

  lemma {:induction false} RemainderSumSort(sizes: seq<nat>, order: seq<nat>)
    ensures RemainderSum(sizes, Sort(Order(sizes), order)) == RemainderSum(sizes, order)
  {
    if order != [] {
      RemainderSumSort(sizes, order[1..]);
      RemainderSumInsert(sizes, order[0], Sort(Order(sizes), order[1..]));
    }
  }

  /** In sorted order, a zero remainder at position j means at most 9 tenths each before j, and none after. */
  lemma {:induction false} ZeroTail(sizes: seq<nat>, order: seq<nat>, j: nat)
    requires Sorted(Order(sizes), order) && j <= |order|
    requires j < |order| ==> RemainderAt(sizes, order[j]) == 0
    ensures RemainderSum(sizes, order) <= 9 * j
    decreases |order|
  {
    if order != [] {
      if j == 0 {
        assert |order| > 1 ==> Order(sizes)(order[0], order[1]);
        ZeroTail(sizes, order[1..], 0);
      } else {
        ZeroTail(sizes, order[1..], j - 1);
      }
    }
  }

  function Ranking(sizes: seq<nat>): seq<nat> {
    Sort(Order(sizes), Indices(0, |sizes|))
  }

  /** The units to hand out are at most as many as the categories with a fractional part, which rank first. */
  lemma RemainingCovered(sizes: seq<nat>)
    ensures var r := Target(Sum(sizes)) - Sum(Floors(sizes));
            && 0 <= r <= |Ranking(sizes)|
            && forall j :: 0 <= j < r ==> RemainderAt(sizes, Ranking(sizes)[j]) > 0
  {
    var order := Ranking(sizes);
    QuotaSplits(sizes, 0);
    assert sizes[0..] == sizes;
    RemainderSumSort(sizes, Indices(0, |sizes|));
    OrderTotal(sizes);
    SortSorts(Order(sizes), Indices(0, |sizes|));
    var r := Target(Sum(sizes)) - Sum(Floors(sizes));
    assert r == (RemainderSum(sizes, order) + 5) / 10;
    ZeroTail(sizes, order, |order|);
    forall j | 0 <= j < r ensures RemainderAt(sizes, order[j]) > 0 {
      if RemainderAt(sizes, order[j]) == 0 {
        ZeroTail(sizes, order, j);
      }
    }
  }

  lemma RankingCovers(sizes: seq<nat>)
    ensures |Ranking(sizes)| == |sizes| && Distinct(Ranking(sizes)) && Sorted(Order(sizes), Ranking(sizes))
    ensures forall j :: 0 <= j < |sizes| ==> Ranking(sizes)[j] < |sizes|
    ensures forall c :: 0 <= c < |sizes| ==> c in Ranking(sizes)
  {
    hide Sort, TotalOrder, Ahead, Distinct, Sorted;
    var all := Indices(0, |sizes|);
    OrderTotal(sizes);
    SortPermutes(Order(sizes), all);
    SortSorts(Order(sizes), all);
    PermutedDistinct(all, Ranking(sizes));
    forall j | 0 <= j < |sizes| ensures Ranking(sizes)[j] < |sizes| {
      assert Ranking(sizes)[j] in multiset(all);
    }
    forall c | 0 <= c < |sizes| ensures c in Ranking(sizes) {
      assert all[c] in multiset(all);
    }
  }

  lemma {:induction false} SumIncrement(a: seq<nat>, c: nat)
    requires c < |a|
    ensures Sum(a[c := a[c] + 1]) == Sum(a) + 1
  {
    if c > 0 {
      SumIncrement(a[1..], c - 1);
      assert a[c := a[c] + 1][1..] == a[1..][c - 1 := a[c] + 1];
    } else {
      assert a[0 := a[0] + 1][1..] == a[1..];
    }
  }

  /** A category among the first r of the ranking is ahead of every category outside them. */
  lemma RankedAhead(sizes: seq<nat>, r: nat, c: nat, d: nat)
    requires r <= |Ranking(sizes)| && c < |sizes| && d < |sizes|
    requires c in Ranking(sizes)[..r] && d !in Ranking(sizes)[..r]
    ensures Ahead(sizes, c, d)
  {
    var order := Ranking(sizes);
    RankingCovers(sizes);
    var i :| 0 <= i < r && order[..r][i] == c;
    assert d in order;
    var j :| 0 <= j < |order| && order[j] == d;
    assert forall k :: 0 <= k < r ==> order[k] in order[..r];
    assert Order(sizes)(order[i], order[j]);
  }

  lemma FirstRanked(sizes: seq<nat>, a: seq<nat>, r: nat)
    requires |a| == |sizes| && r <= |Ranking(sizes)| && Sum(a) == Target(Sum(sizes))
    requires forall j :: 0 <= j < r ==> RemainderAt(sizes, Ranking(sizes)[j]) > 0
    requires forall c :: 0 <= c < |a| ==> a[c] == Floor(sizes[c]) + if c in Ranking(sizes)[..r] then 1 else 0
    ensures LargestRemainder(sizes, a)
  {
    forall c, d | 0 <= c < |a| && 0 <= d < |a| && a[c] > Floor(sizes[c]) && a[d] == Floor(sizes[d])
      ensures Ahead(sizes, c, d)
    {
      RankedAhead(sizes, r, c, d);
    }
  }

  /** The allocation loop of createNativeSplitManifest: it hands out `remaining` down to zero. */
  method Allocate(sizes: seq<nat>) returns (allocations: seq<nat>, remaining: int)
    ensures remaining == 0
    ensures LargestRemainder(sizes, allocations)
  {
    allocations := Floors(sizes);
    remaining := Target(Sum(sizes)) - Sum(allocations);
    var order := Ranking(sizes);
    RankingCovers(sizes);
    RemainingCovered(sizes);
    ghost var handed := remaining;
    for j := 0 to |order|
      invariant |allocations| == |sizes|
      invariant 0 <= remaining == handed - j
      invariant Sum(allocations) + remaining == Target(Sum(sizes))
      invariant forall c :: 0 <= c < |sizes| ==> allocations[c] == Floor(sizes[c]) + if c in order[..j] then 1 else 0
    {
      if remaining == 0 {
        break;
      }
      SumIncrement(allocations, order[j]);
      assert order[..j + 1] == order[..j] + [order[j]];
      allocations := allocations[order[j] := allocations[order[j]] + 1];
      remaining := remaining - 1;
    }
    FirstRanked(sizes, allocations, handed);
  }
}
