/**
 createNativeSplitManifest: a stratified development/holdout split of evaluation cases. Within each
 category the cases with the smallest seeded hash go to the holdout, as many as apportioned.
 */
module SplitManifest {
  import opened Basics
  import opened CanonicalText
  import opened Sorting
  import opened Apportionment

  /**
   A category is its position in the category list, which is alphabetical. The source's list has ten
   entries; nothing here depends on how many there are, so the number is a parameter.
   */
  type Category = nat

  datatype Case = Case(caseId: Text, category: Category, datasetVersion: Text)

  datatype Partition = Partition(count: nat, byCategory: seq<nat>, caseIds: seq<Text>)

  datatype Manifest = Manifest(datasetVersion: Text, development: Partition, holdout: Partition)

  datatype SplitError = InvalidDigest | DuplicateCaseIds | MixedDatasetVersions

  /** The seeded hash of an id, and what localeCompare says: whether one text collates before another. */
  datatype Ordering = Ordering(rank: Text -> Text, before: (Text, Text) -> bool)

  /** Cases are ranked by seeded hash; equal hashes by case id. */
  function Ranked(o: Ordering): (Text, Text) -> bool {
    (a: Text, b: Text) =>
      o.before(o.rank(a), o.rank(b)) || (!o.before(o.rank(b), o.rank(a)) && o.before(a, b))
  }

  lemma RankedWeak(o: Ordering)
    requires WeakOrder(o.before)
    ensures WeakOrder(Ranked(o))
  {
    var less := Ranked(o);
    forall a, b, c | less(a, c) ensures less(a, b) || less(b, c) {
      assert o.before(o.rank(a), o.rank(c)) ==> o.before(o.rank(a), o.rank(b)) || o.before(o.rank(b), o.rank(c));
      assert o.before(a, c) ==> o.before(a, b) || o.before(b, c);
      assert o.before(o.rank(c), o.rank(b)) ==> o.before(o.rank(c), o.rank(a)) || o.before(o.rank(a), o.rank(b));
    }
  }

  /** No two ids both hash and collate alike. */
  predicate NoTies(o: Ordering, ids: seq<Text>) {
    forall i, j :: 0 <= i < j < |ids| ==> !Tied(Ranked(o), ids[i], ids[j])
  }

  function Ids(cases: seq<Case>): (r: seq<Text>)
    ensures |r| == |cases| && forall i :: 0 <= i < |r| ==> r[i] == cases[i].caseId
  {
    if cases == [] then [] else [cases[0].caseId] + Ids(cases[1..])
  }

  /** The ids of one category, in input order. */
  function InCategory(cases: seq<Case>, c: Category): seq<Text> {
    if cases == [] then []
    else (if cases[0].category == c then [cases[0].caseId] else []) + InCategory(cases[1..], c)
  }

  function Sizes(cases: seq<Case>, n: nat): (r: seq<nat>)
    ensures |r| == n && forall c :: 0 <= c < n ==> r[c] == |InCategory(cases, c)|
  {
    if n == 0 then [] else Sizes(cases, n - 1) + [|InCategory(cases, n - 1)|]
  }

  function RankedIds(o: Ordering, cases: seq<Case>, c: Category): seq<Text> {
    Sort(Ranked(o), InCategory(cases, c))
  }

  /** For each category below n, its ids in ranked order. */
  function RankedLists(o: Ordering, cases: seq<Case>, n: nat): (r: seq<seq<Text>>)
    ensures |r| == n && forall c :: 0 <= c < n ==> r[c] == RankedIds(o, cases, c)
  {
    if n == 0 then [] else RankedLists(o, cases, n - 1) + [RankedIds(o, cases, n - 1)]
  }

  predicate Feasible(lists: seq<seq<Text>>, a: seq<nat>) {
    |a| == |lists| && forall c :: 0 <= c < |a| ==> a[c] <= |lists[c]|
  }

  /** The first a[c] entries of each list c, list by list. */
  function Heads(lists: seq<seq<Text>>, a: seq<nat>): seq<Text>
    requires Feasible(lists, a)
  {
    if lists == [] then []
    else Heads(lists[..|lists| - 1], a[..|a| - 1]) + lists[|lists| - 1][..a[|a| - 1]]
  }

  /** What Heads leaves. */
  function Tails(lists: seq<seq<Text>>, a: seq<nat>): seq<Text>
    requires Feasible(lists, a)
  {
    if lists == [] then []
    else Tails(lists[..|lists| - 1], a[..|a| - 1]) + lists[|lists| - 1][a[|a| - 1]..]
  }

  function Flatten(lists: seq<seq<Text>>): seq<Text> {
    if lists == [] then [] else Flatten(lists[..|lists| - 1]) + lists[|lists| - 1]
  }

  /** How many of these ids belong to category c. */
  function CountOf(ids: seq<Text>, byId: map<Text, Category>, c: Category): nat {
    if ids == [] then 0
    else CountOf(ids[..|ids| - 1], byId, c)
         + if ids[|ids| - 1] in byId && byId[ids[|ids| - 1]] == c then 1 else 0
  }

  function ById(cases: seq<Case>): map<Text, Category> {
    if cases == [] then map[]
    else ById(cases[..|cases| - 1])[cases[|cases| - 1].caseId := cases[|cases| - 1].category]
  }

  predicate OneVersion(cases: seq<Case>) {
    cases != [] && forall i :: 0 <= i < |cases| ==> cases[i].datasetVersion == cases[0].datasetVersion
  }

  predicate ValidPartition(p: Partition, ids: seq<Text>, byId: map<Text, Category>, n: nat) {
    && p.caseIds == ids
    && p.count == |ids|
    && |p.byCategory| == n
    && forall c :: 0 <= c < n ==> p.byCategory[c] == CountOf(ids, byId, c)
  }

  predicate Categorised(cases: seq<Case>, n: nat) {
    forall i :: 0 <= i < |cases| ==> cases[i].category < n
  }

  /** What a manifest for these cases must be: its own category counts are the allocation. */
  predicate IsSplit(o: Ordering, cases: seq<Case>, n: nat, m: Manifest) {
    var a := m.holdout.byCategory;
    && OneVersion(cases)
    && m.datasetVersion == cases[0].datasetVersion
    && LargestRemainder(Sizes(cases, n), a)
    && Feasible(RankedLists(o, cases, n), a)
    && ValidPartition(m.holdout, Heads(RankedLists(o, cases, n), a), ById(cases), n)
    && ValidPartition(m.development, Tails(RankedLists(o, cases, n), a), ById(cases), n)
  }

  // ------------------------------------------------------------ main results

  function InFirst(cases: seq<Case>, n: nat): seq<Case> {
    if cases == [] then []
    else (if cases[0].category < n then [cases[0]] else []) + InFirst(cases[1..], n)
  }

  lemma {:induction false} AllInFirst(cases: seq<Case>, n: nat)
    requires Categorised(cases, n)
    ensures InFirst(cases, n) == cases
  {
    if cases != [] {
      AllInFirst(cases[1..], n);
    }
  }

  lemma Cut(ids: seq<Text>, k: nat)
    requires k <= |ids|
    ensures multiset(ids[..k]) + multiset(ids[k..]) == multiset(ids)
  {
    assert ids == ids[..k] + ids[k..];
  }

  lemma {:induction false} HeadsAndTails(lists: seq<seq<Text>>, a: seq<nat>)
    requires Feasible(lists, a)
    ensures multiset(Heads(lists, a)) + multiset(Tails(lists, a)) == multiset(Flatten(lists))
  {
    if lists != [] {
      HeadsAndTails(lists[..|lists| - 1], a[..|a| - 1]);
      Cut(lists[|lists| - 1], a[|a| - 1]);
    }
  }

  lemma {:induction false} HeadsSize(lists: seq<seq<Text>>, a: seq<nat>)
    requires Feasible(lists, a)
    ensures |Heads(lists, a)| == Sum(a)
  {
    if lists != [] {
      HeadsSize(lists[..|lists| - 1], a[..|a| - 1]);
      SumAppend(a[..|a| - 1], a[|a| - 1]);
      assert a == a[..|a| - 1] + [a[|a| - 1]];
    }
  }

  lemma {:induction false} OneMoreCategory(cases: seq<Case>, c: Category)
    ensures multiset(Ids(InFirst(cases, c + 1))) == multiset(Ids(InFirst(cases, c))) + multiset(InCategory(cases, c))
  {
    if cases != [] {
      OneMoreCategory(cases[1..], c);
      HeadCase(cases, c);
      HeadCase(cases, c + 1);
    }
  }

  lemma HeadCase(cases: seq<Case>, n: nat)
    requires cases != []
    ensures Ids(InFirst(cases, n))
         == (if cases[0].category < n then [cases[0].caseId] else []) + Ids(InFirst(cases[1..], n))
  {
    var rest := InFirst(cases[1..], n);
    if cases[0].category < n {
      assert InFirst(cases, n) == [cases[0]] + rest;
      assert ([cases[0]] + rest)[1..] == rest;
    } else {
      assert InFirst(cases, n) == rest;
    }
  }

  lemma {:induction false} NoneInFirst(cases: seq<Case>)
    ensures InFirst(cases, 0) == []
  {
    if cases != [] {
      NoneInFirst(cases[1..]);
    }
  }

  lemma {:induction false} ListsCoverCases(o: Ordering, cases: seq<Case>, n: nat)
    ensures multiset(Flatten(RankedLists(o, cases, n))) == multiset(Ids(InFirst(cases, n)))
    decreases n
  {
    if n == 0 {
      NoneInFirst(cases);
    } else {
      var lists := RankedLists(o, cases, n);
      ListsCoverCases(o, cases, n - 1);
      OneMoreCategory(cases, n - 1);
      SortPermutes(Ranked(o), InCategory(cases, n - 1));
      assert lists[..n - 1] == RankedLists(o, cases, n - 1);
    }
  }

  /** Development and holdout divide the cases: every id goes to one of them exactly as often as it occurs. */
  lemma SplitIsPartition(o: Ordering, cases: seq<Case>, n: nat, m: Manifest)
    requires IsSplit(o, cases, n, m) && Categorised(cases, n)
    ensures multiset(m.development.caseIds) + multiset(m.holdout.caseIds) == multiset(Ids(cases))
  {
    HeadsAndTails(RankedLists(o, cases, n), m.holdout.byCategory);
    ListsCoverCases(o, cases, n);
    AllInFirst(cases, n);
  }

  lemma {:induction false} SizesTotal(cases: seq<Case>, n: nat)
    ensures Sum(Sizes(cases, n)) == |InFirst(cases, n)|
    decreases n
  {
    if n == 0 {
      NoneInFirst(cases);
    } else {
      SizesTotal(cases, n - 1);
      SumAppend(Sizes(cases, n - 1), |InCategory(cases, n - 1)|);
      OneMoreCategory(cases, n - 1);
      assert |multiset(Ids(InFirst(cases, n)))| == |InFirst(cases, n)|;
    }
  }

  lemma {:induction false} SumAppend(xs: seq<nat>, x: nat)
    ensures Sum(xs + [x]) == Sum(xs) + x
  {
    if xs == [] {
      assert xs + [x] == [x];
    } else {
      SumAppend(xs[1..], x);
      assert (xs + [x])[1..] == xs[1..] + [x];
    }
  }

  /** The holdout has three tenths of all cases, rounded to the nearest whole number, halves up. */
  lemma HoldoutTotal(o: Ordering, cases: seq<Case>, n: nat, m: Manifest)
    requires IsSplit(o, cases, n, m) && Categorised(cases, n)
    ensures m.holdout.count == (3 * |cases| + 5) / 10
  {
    HeadsSize(RankedLists(o, cases, n), m.holdout.byCategory);
    SizesTotal(cases, n);
    AllInFirst(cases, n);
  }

  // ----------------------------------------------------------- category counts

  /** Every id of list d is a case of category d. */
  predicate Labelled(lists: seq<seq<Text>>, byId: map<Text, Category>) {
    forall d, id :: 0 <= d < |lists| && id in lists[d] ==> id in byId && byId[id] == d
  }

  lemma {:induction false} CountConcat(x: seq<Text>, y: seq<Text>, byId: map<Text, Category>, c: Category)
    ensures CountOf(x + y, byId, c) == CountOf(x, byId, c) + CountOf(y, byId, c)
  {
    if y == [] {
      assert x + y == x;
    } else {
      assert (x + y)[..|x + y| - 1] == x + y[..|y| - 1];
      CountConcat(x, y[..|y| - 1], byId, c);
    }
  }

  lemma {:induction false} CountUniform(ids: seq<Text>, byId: map<Text, Category>, d: Category, c: Category)
    requires forall id :: id in ids ==> id in byId && byId[id] == d
    ensures CountOf(ids, byId, c) == if c == d then |ids| else 0
  {
    if ids != [] {
      CountUniform(ids[..|ids| - 1], byId, d, c);
    }
  }

  lemma CountAppended(
    front: seq<Text>, list: seq<Text>, part: seq<Text>, byId: map<Text, Category>, d: Category, c: Category)
    requires forall id :: id in list ==> id in byId && byId[id] == d
    requires forall id :: id in part ==> id in list
    ensures CountOf(front + part, byId, c) == CountOf(front, byId, c) + if c == d then |part| else 0
  {
    CountConcat(front, part, byId, c);
    CountUniform(part, byId, d, c);
  }

  lemma {:induction false} CountParts(lists: seq<seq<Text>>, a: seq<nat>, byId: map<Text, Category>, c: Category)
    requires Feasible(lists, a) && Labelled(lists, byId)
    ensures CountOf(Heads(lists, a), byId, c) == if c < |a| then a[c] else 0
    ensures CountOf(Tails(lists, a), byId, c) == if c < |a| then |lists[c]| - a[c] else 0
  {
    if lists != [] {
      var d := |lists| - 1;
      var last, k := lists[d], a[d];
      var heads, tails := Heads(lists[..d], a[..d]), Tails(lists[..d], a[..d]);
      CountParts(lists[..d], a[..d], byId, c);
      CountAppended(heads, last, last[..k], byId, d, c);
      CountAppended(tails, last, last[k..], byId, d, c);
    }
  }

  lemma {:induction false} ByIdLookup(cases: seq<Case>, i: nat)
    requires Distinct(Ids(cases)) && i < |cases|
    ensures cases[i].caseId in ById(cases) && ById(cases)[cases[i].caseId] == cases[i].category
  {
    hide Distinct;
    var front, last := cases[..|cases| - 1], cases[|cases| - 1];
    IdsConcat(front, [last]);
    assert cases == front + [last];
    assert Ids(cases) == Ids(front) + [last.caseId];
    DistinctAppend(Ids(front), last.caseId);
    if i < |front| {
      ByIdLookup(front, i);
      assert Ids(front)[i] in Ids(front);
      assert cases[i] == front[i] && front[i].caseId != last.caseId;
    }
    assert ById(cases) == ById(front)[last.caseId := last.category];
  }

  lemma {:induction false} ByIdKeys(cases: seq<Case>)
    ensures forall id :: id in ById(cases) <==> id in Ids(cases)
  {
    if cases != [] {
      var last := |cases| - 1;
      ByIdKeys(cases[..last]);
      assert forall j :: 0 <= j < last ==> Ids(cases[..last])[j] == Ids(cases)[j];
      assert Ids(cases) == Ids(cases[..last]) + [cases[last].caseId];
    }
  }

  lemma {:induction false} InCategoryMember(cases: seq<Case>, c: Category, id: Text) returns (i: nat)
    requires id in InCategory(cases, c)
    ensures i < |cases| && cases[i].caseId == id && cases[i].category == c
  {
    if cases[0].category == c && cases[0].caseId == id {
      i := 0;
    } else {
      var j := InCategoryMember(cases[1..], c, id);
      i := j + 1;
    }
  }

  lemma RankedListAt(o: Ordering, cases: seq<Case>, n: nat, c: nat)
    requires c < n
    ensures |RankedLists(o, cases, n)[c]| == |InCategory(cases, c)|
    ensures multiset(RankedLists(o, cases, n)[c]) == multiset(InCategory(cases, c))
  {
    SortPermutes(Ranked(o), InCategory(cases, c));
  }

  lemma ListsLabelled(o: Ordering, cases: seq<Case>, n: nat)
    requires Distinct(Ids(cases))
    ensures Labelled(RankedLists(o, cases, n), ById(cases))
  {
    var lists := RankedLists(o, cases, n);
    forall d, id | 0 <= d < n && id in lists[d] ensures id in ById(cases) && ById(cases)[id] == d {
      RankedListAt(o, cases, n, d);
      assert id in multiset(lists[d]);
      var i := InCategoryMember(cases, d, id);
      ByIdLookup(cases, i);
    }
  }

  /** Each category gives the holdout its largest-remainder share and keeps the rest for development. */
  lemma SharesPerCategory(o: Ordering, cases: seq<Case>, n: nat, m: Manifest, c: nat)
    requires IsSplit(o, cases, n, m) && Distinct(Ids(cases)) && c < n
    ensures m.holdout.byCategory[c] + m.development.byCategory[c] == |InCategory(cases, c)|
    ensures 3 * |InCategory(cases, c)| < 10 * m.holdout.byCategory[c] + 10
    ensures 10 * m.holdout.byCategory[c] < 3 * |InCategory(cases, c)| + 10
  {
    ListsLabelled(o, cases, n);
    CountParts(RankedLists(o, cases, n), m.holdout.byCategory, ById(cases), c);
    RankedListAt(o, cases, n, c);
    ShareWithinSize(Sizes(cases, n), m.holdout.byCategory, c);
  }

  // ------------------------------------------------------------------- ranking

  lemma {:induction false} HeadMember(lists: seq<seq<Text>>, a: seq<nat>, id: Text) returns (d: nat)
    requires Feasible(lists, a) && id in Heads(lists, a)
    ensures d < |lists| && id in lists[d][..a[d]]
  {
    d := |lists| - 1;
    if id !in lists[d][..a[d]] {
      d := HeadMember(lists[..d], a[..d], id);
    }
  }

  lemma {:induction false} TailMember(lists: seq<seq<Text>>, a: seq<nat>, id: Text) returns (d: nat)
    requires Feasible(lists, a) && id in Tails(lists, a)
    ensures d < |lists| && id in lists[d][a[d]..]
  {
    d := |lists| - 1;
    if id !in lists[d][a[d]..] {
      d := TailMember(lists[..d], a[..d], id);
    }
  }

  lemma RankedInOrder(o: Ordering, ids: seq<Text>, i: nat, j: nat)
    requires WeakOrder(o.before) && i < j < |Sort(Ranked(o), ids)|
    ensures var r := Sort(Ranked(o), ids);
            !o.before(o.rank(r[j]), o.rank(r[i]))
  {
    hide Sort, Earlier;
    RankedWeak(o);
    SortStable(Ranked(o), ids);
    var r := Sort(Ranked(o), ids);
    assert Precedes(Ranked(o), ids, r[i], r[j]);
  }

  /** Within a category, no hash of a development case collates before the hash of a holdout case. */
  lemma HoldoutRanksFirst(o: Ordering, cases: seq<Case>, n: nat, m: Manifest, held: Text, kept: Text)
    requires IsSplit(o, cases, n, m) && Distinct(Ids(cases)) && WeakOrder(o.before)
    requires held in m.holdout.caseIds && kept in m.development.caseIds
    ensures held in ById(cases) && kept in ById(cases)
    ensures ById(cases)[held] == ById(cases)[kept] ==> !o.before(o.rank(kept), o.rank(held))
  {
    hide Heads, Tails, Sort, ById, InCategory, LargestRemainder, Ranked;
    var lists, a := RankedLists(o, cases, n), m.holdout.byCategory;
    ListsLabelled(o, cases, n);
    var c := HeadMember(lists, a, held);
    var d := TailMember(lists, a, kept);
    assert held in lists[c] && kept in lists[d];
    if c == d {
      var i :| 0 <= i < a[c] && lists[c][..a[c]][i] == held;
      var j :| 0 <= j < |lists[c]| - a[c] && lists[c][a[c]..][j] == kept;
      RankedInOrder(o, InCategory(cases, c), i, a[c] + j);
    }
  }

  // ------------------------------------------------------- independence of order

  lemma {:induction false} InCategoryConcat(x: seq<Case>, y: seq<Case>, c: Category)
    ensures InCategory(x + y, c) == InCategory(x, c) + InCategory(y, c)
  {
    if x == [] {
      assert x + y == y;
    } else {
      assert (x + y)[1..] == x[1..] + y;
      InCategoryConcat(x[1..], y, c);
    }
  }

  lemma {:induction false} InCategoryPermuted(x: seq<Case>, y: seq<Case>, c: Category)
    requires multiset(x) == multiset(y)
    ensures multiset(InCategory(x, c)) == multiset(InCategory(y, c))
    decreases |x|
  {
    if x == [] {
      assert |multiset(y)| == 0;
    } else {
      var a, b := PermutedSplit(x, y);
      InCategoryPermuted(x[1..], a + b, c);
      InCategoryConcat([x[0]], x[1..], c);
      assert x == [x[0]] + x[1..];
      InCategoryConcat(a + [x[0]], b, c);
      InCategoryConcat(a, [x[0]], c);
      InCategoryConcat(a, b, c);
    }
  }

  lemma {:induction false} InCategoryDistinct(cases: seq<Case>, c: Category)
    requires Distinct(Ids(cases))
    ensures Distinct(InCategory(cases, c))
  {
    if cases != [] {
      var rest := InCategory(cases[1..], c);
      assert forall j :: 0 <= j < |cases| - 1 ==> Ids(cases[1..])[j] == Ids(cases)[j + 1];
      InCategoryDistinct(cases[1..], c);
      forall k | 0 <= k < |rest| ensures rest[k] != cases[0].caseId {
        var i := InCategoryMember(cases[1..], c, rest[k]);
        assert Ids(cases)[0] != Ids(cases)[i + 1];
      }
    }
  }

  lemma {:induction false} IdsConcat(x: seq<Case>, y: seq<Case>)
    ensures Ids(x + y) == Ids(x) + Ids(y)
  {
  }

  lemma {:induction false} IdsPermuted(x: seq<Case>, y: seq<Case>)
    requires multiset(x) == multiset(y)
    ensures multiset(Ids(x)) == multiset(Ids(y))
    decreases |x|
  {
    if x == [] {
      assert |multiset(y)| == 0;
    } else {
      var a, b := PermutedSplit(x, y);
      IdsPermuted(x[1..], a + b);
      IdsConcat([x[0]], x[1..]);
      assert x == [x[0]] + x[1..];
      IdsConcat(a + [x[0]], b);
      IdsConcat(a, [x[0]]);
      IdsConcat(a, b);
    }
  }

  lemma ByIdIncluded(x: seq<Case>, y: seq<Case>, id: Text)
    requires multiset(x) == multiset(y) && Distinct(Ids(x)) && Distinct(Ids(y))
    ensures id in ById(x) ==> id in ById(y) && ById(x)[id] == ById(y)[id]
  {
    if id in ById(x) {
      ByIdKeys(x);
      var i :| 0 <= i < |Ids(x)| && Ids(x)[i] == id;
      assert x[i] in multiset(y);
      var j :| 0 <= j < |y| && y[j] == x[i];
      ByIdLookup(x, i);
      ByIdLookup(y, j);
    }
  }

  lemma ByIdPermuted(x: seq<Case>, y: seq<Case>)
    requires multiset(x) == multiset(y) && Distinct(Ids(x)) && Distinct(Ids(y))
    ensures ById(x) == ById(y)
  {
    forall id
      ensures id in ById(x) ==> id in ById(y) && ById(x)[id] == ById(y)[id]
      ensures id in ById(y) ==> id in ById(x)
    {
      ByIdIncluded(x, y, id);
      ByIdIncluded(y, x, id);
    }
  }

  lemma InCategoryNoTies(o: Ordering, cases: seq<Case>, c: Category)
    requires Distinct(Ids(cases)) && NoTies(o, Ids(cases))
    ensures NoTies(o, InCategory(cases, c))
  {
    var ids, all := InCategory(cases, c), Ids(cases);
    InCategoryDistinct(cases, c);
    forall i, j | 0 <= i < j < |ids| ensures !Tied(Ranked(o), ids[i], ids[j]) {
      var k := InCategoryMember(cases, c, ids[i]);
      var l := InCategoryMember(cases, c, ids[j]);
      assert all[k] == ids[i] && all[l] == ids[j] && k != l;
      assert !Tied(Ranked(o), all[if k < l then k else l], all[if k < l then l else k]);
    }
  }

  lemma {:induction false} ListsPermuted(o: Ordering, x: seq<Case>, y: seq<Case>, n: nat)
    requires multiset(x) == multiset(y) && Distinct(Ids(x))
    requires WeakOrder(o.before) && NoTies(o, Ids(x))
    ensures RankedLists(o, x, n) == RankedLists(o, y, n) && Sizes(x, n) == Sizes(y, n)
    decreases n
  {
    if n > 0 {
      var c := n - 1;
      ListsPermuted(o, x, y, c);
      InCategoryPermuted(x, y, c);
      InCategoryDistinct(x, c);
      RankedWeak(o);
      InCategoryNoTies(o, x, c);
      SortsAlikeIff(Ranked(o), InCategory(x, c), InCategory(y, c));
      assert |multiset(InCategory(x, c))| == |multiset(InCategory(y, c))|;
    }
  }

  /**
   The manifest depends only on which cases there are: any two orders of them give the same one, unless the
   hashes of two ids collide and the ids collate alike.
   */
  lemma OrderIrrelevant(o: Ordering, x: seq<Case>, y: seq<Case>, n: nat, m: Manifest, k: Manifest)
    requires multiset(x) == multiset(y) && Distinct(Ids(x))
    requires WeakOrder(o.before) && NoTies(o, Ids(x))
    requires IsSplit(o, x, n, m) && IsSplit(o, y, n, k)
    ensures m == k
  {
    IdsPermuted(x, y);
    PermutedDistinct(Ids(x), Ids(y));
    ByIdPermuted(x, y);
    ListsPermuted(o, x, y, n);
    LargestRemainderUnique(Sizes(x, n), m.holdout.byCategory, k.holdout.byCategory);
    assert x[0] in multiset(y);
    assert m.holdout == k.holdout;
    assert m.development.byCategory == k.development.byCategory;
  }

  // ---------------------------------------------------------------- the method

  lemma DistinctAppend(ids: seq<Text>, id: Text)
    ensures Distinct(ids + [id]) <==> Distinct(ids) && id !in ids
  {
    var all := ids + [id];
    assert forall i :: 0 <= i < |ids| ==> all[i] == ids[i];
    if Distinct(ids) && id !in ids {
      forall i, j | 0 <= i < j < |all| ensures all[i] != all[j] {
        assert ids[i] in ids;
      }
    }
    if Distinct(all) {
      assert forall i :: 0 <= i < |ids| ==> all[i] != all[|ids|];
    }
  }

  lemma UpdateSize(m: map<Text, Category>, id: Text, c: Category)
    ensures |m[id := c]| == |m| + if id in m then 0 else 1
  {
    assert m[id := c].Keys == m.Keys + {id};
    assert |m| == |m.Keys| && |m[id := c]| == |m[id := c].Keys|;
  }

  lemma {:induction false} ByIdSize(cases: seq<Case>)
    ensures |ById(cases)| <= |cases|
    ensures |ById(cases)| == |cases| <==> Distinct(Ids(cases))
  {
    hide Distinct, Ids;
    if cases == [] {
      NoIds();
    } else {
      var front, last := cases[..|cases| - 1], cases[|cases| - 1];
      ByIdSize(front);
      ByIdKeys(front);
      UpdateSize(ById(front), last.caseId, last.category);
      IdsAppend(front, last);
      assert cases == front + [last];
      DistinctAppend(Ids(front), last.caseId);
    }
  }

  lemma NoIds()
    ensures Ids([]) == [] && Distinct(Ids([]))
  {
  }

  lemma IdsAppend(front: seq<Case>, last: Case)
    ensures Ids(front + [last]) == Ids(front) + [last.caseId]
  {
    IdsConcat(front, [last]);
  }

  lemma VersionsSize(cases: seq<Case>, versions: set<Text>)
    requires versions == set i | 0 <= i < |cases| :: cases[i].datasetVersion
    ensures |versions| == 1 <==> OneVersion(cases)
  {
    if cases == [] {
      assert versions == {};
    } else {
      assert cases[0].datasetVersion in versions;
      assert forall i :: 0 <= i < |cases| ==> cases[i].datasetVersion in versions;
      assert |versions - {cases[0].datasetVersion}| == |versions| - 1;
      assert OneVersion(cases) <==> versions - {cases[0].datasetVersion} == {};
    }
  }

  method CategoryCounts(ids: seq<Text>, byId: map<Text, Category>, n: nat) returns (counts: seq<nat>)
    requires forall id :: id in ids ==> id in byId && byId[id] < n
    ensures |counts| == n && forall c :: 0 <= c < n ==> counts[c] == CountOf(ids, byId, c)
  {
    counts := seq(n, _ => 0);
    for i := 0 to |ids|
      invariant |counts| == n
      invariant forall c :: 0 <= c < n ==> counts[c] == CountOf(ids[..i], byId, c)
    {
      assert ids[..i + 1][..i] == ids[..i];
      var c := byId[ids[i]];
      counts := counts[c := counts[c] + 1];
    }
    assert ids[..|ids|] == ids;
  }

  method Group(cases: seq<Case>, n: nat) returns (grouped: seq<seq<Text>>)
    requires Categorised(cases, n)
    ensures |grouped| == n && forall c :: 0 <= c < n ==> grouped[c] == InCategory(cases, c)
  {
    grouped := seq(n, _ => []);
    for i := 0 to |cases|
      invariant |grouped| == n
      invariant forall c :: 0 <= c < n ==> grouped[c] == InCategory(cases[..i], c)
    {
      assert cases[..i + 1] == cases[..i] + [cases[i]];
      forall c | 0 <= c < n
        ensures InCategory(cases[..i + 1], c)
             == InCategory(cases[..i], c) + if cases[i].category == c then [cases[i].caseId] else []
      {
        InCategoryConcat(cases[..i], [cases[i]], c);
      }
      var c := cases[i].category;
      grouped := grouped[c := grouped[c] + [cases[i].caseId]];
    }
    assert cases[..|cases|] == cases;
  }

  /** The best-ranked part of every group to the holdout, the rest to development. */
  method Divide(o: Ordering, grouped: seq<seq<Text>>, allocations: seq<nat>, ghost lists: seq<seq<Text>>)
    returns (holdout: seq<Text>, development: seq<Text>)
    requires |lists| == |grouped| && forall c :: 0 <= c < |lists| ==> lists[c] == Sort(Ranked(o), grouped[c])
    requires Feasible(lists, allocations)
    ensures holdout == Heads(lists, allocations) && development == Tails(lists, allocations)
  {
    holdout, development := [], [];
    for c := 0 to |grouped|
      invariant Feasible(lists[..c], allocations[..c])
      invariant holdout == Heads(lists[..c], allocations[..c])
      invariant development == Tails(lists[..c], allocations[..c])
    {
      var sorted := Sort(Ranked(o), grouped[c]);
      holdout := holdout + sorted[..allocations[c]];
      development := development + sorted[allocations[c]..];
      assert lists[..c + 1][..c] == lists[..c] && allocations[..c + 1][..c] == allocations[..c];
    }
    assert lists[..|lists|] == lists && allocations[..|allocations|] == allocations;
  }

  lemma PartsKnown(lists: seq<seq<Text>>, a: seq<nat>, byId: map<Text, Category>)
    requires Feasible(lists, a) && Labelled(lists, byId)
    ensures forall id :: id in Heads(lists, a) ==> id in byId && byId[id] < |lists|
    ensures forall id :: id in Tails(lists, a) ==> id in byId && byId[id] < |lists|
  {
    HeadsAndTails(lists, a);
    forall id | id in Flatten(lists) ensures id in byId && byId[id] < |lists| {
      FlattenMember(lists, id);
    }
    PartMembers(Heads(lists, a), Tails(lists, a), Flatten(lists));
  }

  lemma PartMembers(x: seq<Text>, y: seq<Text>, whole: seq<Text>)
    requires multiset(x) + multiset(y) == multiset(whole)
    ensures forall id :: id in x || id in y ==> id in whole
  {
    forall id | id in x || id in y ensures id in whole {
      assert id in multiset(x) + multiset(y);
    }
  }

  lemma {:induction false} FlattenMember(lists: seq<seq<Text>>, id: Text)
    requires id in Flatten(lists)
    ensures exists d :: 0 <= d < |lists| && id in lists[d]
  {
    var d := |lists| - 1;
    if id !in lists[d] {
      FlattenMember(lists[..d], id);
      var e :| 0 <= e < d && id in lists[..d][e];
      assert id in lists[e];
    }
  }

  method CreateNativeSplitManifest(o: Ordering, cases: seq<Case>, n: nat, digestValid: bool)
    returns (r: Result<Manifest, SplitError>)
    requires Categorised(cases, n)
    ensures !digestValid ==> r == Err(InvalidDigest)
    ensures digestValid && !Distinct(Ids(cases)) ==> r == Err(DuplicateCaseIds)
    ensures digestValid && Distinct(Ids(cases)) && !OneVersion(cases) ==> r == Err(MixedDatasetVersions)
    ensures digestValid && Distinct(Ids(cases)) && OneVersion(cases) ==> r.Ok? && IsSplit(o, cases, n, r.value)
  {
    if !digestValid {
      return Err(InvalidDigest);
    }
    var byId := ById(cases);
    ByIdSize(cases);
    if |byId| != |cases| {
      return Err(DuplicateCaseIds);
    }
    var versions := set i | 0 <= i < |cases| :: cases[i].datasetVersion;
    VersionsSize(cases, versions);
    if |versions| != 1 {
      return Err(MixedDatasetVersions);
    }
    ListsLabelled(o, cases, n);
    var holdout, development := Partitions(o, cases, n, byId);
    r := Ok(Manifest(cases[0].datasetVersion, development, holdout));
  }

  lemma AllocationFeasible(o: Ordering, cases: seq<Case>, n: nat, a: seq<nat>)
    requires LargestRemainder(Sizes(cases, n), a)
    ensures Feasible(RankedLists(o, cases, n), a)
  {
    forall c | 0 <= c < n ensures a[c] <= |RankedLists(o, cases, n)[c]| {
      RankedListAt(o, cases, n, c);
      ShareWithinSize(Sizes(cases, n), a, c);
    }
  }

  method Partitions(o: Ordering, cases: seq<Case>, n: nat, byId: map<Text, Category>)
    returns (holdout: Partition, development: Partition)
    requires Categorised(cases, n) && Labelled(RankedLists(o, cases, n), byId)
    ensures LargestRemainder(Sizes(cases, n), holdout.byCategory)
    ensures Feasible(RankedLists(o, cases, n), holdout.byCategory)
    ensures ValidPartition(holdout, Heads(RankedLists(o, cases, n), holdout.byCategory), byId, n)
    ensures ValidPartition(development, Tails(RankedLists(o, cases, n), holdout.byCategory), byId, n)
  {
    var grouped := Group(cases, n);
    var allocations, _ := Allocate(Sizes(cases, n));
    ghost var lists := RankedLists(o, cases, n);
    AllocationFeasible(o, cases, n, allocations);
    var holdoutIds, developmentIds := Divide(o, grouped, allocations, lists);
    PartsKnown(lists, allocations, byId);
    var holdoutCounts := CategoryCounts(holdoutIds, byId, n);
    var developmentCounts := CategoryCounts(developmentIds, byId, n);
    forall c | 0 <= c < n ensures holdoutCounts[c] == allocations[c] {
      CountParts(lists, allocations, byId, c);
    }
    assert holdoutCounts == allocations;
    holdout := Partition(|holdoutIds|, holdoutCounts, holdoutIds);
    development := Partition(|developmentIds|, developmentCounts, developmentIds);
  }
}
