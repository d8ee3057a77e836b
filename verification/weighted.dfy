// Comparing tag profiles: the plain Jaccard similarity of tag sets (internal/similarity/genre.go)
// and the weighted one of vote shares (internal/similarity/weighted.go). float64 is modelled
// by the exact reals; a range loop over a map picks its keys in any order.
module Similarity {
  import opened Collections

  type Profile = map<string, real>

  // strings.ToLower(strings.TrimSpace(s)); Unicode case tables are not part of this model.
  type Fold = string -> string

  // Go's m[t]: zero for a missing tag.
  function Weight(m: Profile, t: string): real { if t in m then m[t] else 0.0 }

  function At(m: Profile): string -> real { (t: string) => Weight(m, t) }

  function RealMin(x: real, y: real): real { if x <= y then x else y }
  function RealMax(x: real, y: real): real { if x >= y then x else y }
  function Abs(x: real): real { if x >= 0.0 then x else -x }

  function MinAt(a: Profile, b: Profile): string -> real { (t: string) => RealMin(Weight(a, t), Weight(b, t)) }
  function MaxAt(a: Profile, b: Profile): string -> real { (t: string) => RealMax(Weight(a, t), Weight(b, t)) }
  function GapAt(a: Profile, b: Profile): string -> real { (t: string) => Abs(Weight(a, t) - Weight(b, t)) }

  function Used(m: Profile): set<string> { set t | t in m && m[t] > 0.0 }

  ghost predicate AllPositive(m: Profile) { forall t :: t in m ==> m[t] > 0.0 }

  // ---------------------------------------------------------------- what is computed

  ghost function Total(m: Profile): real { SetSum(Used(m), At(m)) }

  lemma {:induction false} NonNegativeSum(s: set<string>, f: string -> real)
    requires forall t :: t in s ==> f(t) >= 0.0
    ensures SetSum(s, f) >= 0.0
    ensures SetSum(s, f) == 0.0 <==> forall t :: t in s ==> f(t) == 0.0
  {
    if s != {} {
      var t :| t in s;
      SetSumTake(s, t, f);
      NonNegativeSum(s - {t}, f);
    }
  }

  lemma {:induction false} PositiveSum(s: set<string>, f: string -> real)
    requires forall t :: t in s ==> f(t) > 0.0
    ensures s != {} ==> SetSum(s, f) > 0.0
  {
    if s != {} {
      var t :| t in s;
      SetSumTake(s, t, f);
      PositiveSum(s - {t}, f);
    }
  }

  // Each positively weighted tag's part of the profile's total weight.
  ghost function Shares(m: Profile): (r: Profile)
    ensures r.Keys == Used(m)
  {
    var total := Total(m);
    PositiveSum(Used(m), At(m));
    map t | t in m && m[t] > 0.0 ::
      assert t in Used(m);
      m[t] / total
  }

  ghost function Overlap(a: Profile, b: Profile): real { SetSum(a.Keys + b.Keys, MinAt(a, b)) }
  ghost function Cover(a: Profile, b: Profile): real { SetSum(a.Keys + b.Keys, MaxAt(a, b)) }

  ghost function Jaccard(a: Profile, b: Profile): real
  {
    if Cover(a, b) == 0.0 then 0.0 else Overlap(a, b) / Cover(a, b)
  }

  // What WeightedJaccard promises for two raw profiles.
  ghost function Score(a: Profile, b: Profile): real { Jaccard(Shares(a), Shares(b)) }

  function SetJaccard(a: set<string>, b: set<string>): real
  {
    if |a + b| == 0 then 0.0 else |a * b| as real / |a + b| as real
  }

  // ---------------------------------------------------------------- weighted.go

  method SortedKeys(m: Profile) returns (keys: seq<string>)
    ensures Distinct(keys) && forall t :: t in keys <==> t in m
    ensures Sorted(NameLess, keys)
  {
    keys := [];
    var rest := m.Keys;
    while rest != {}
      invariant rest <= m.Keys && Distinct(keys) && forall t :: t in keys <==> t in m && t !in rest
    {
      var k :| k in rest;
      keys := keys + [k];
      rest := rest - {k};
    }
    ghost var unsorted := keys;
    keys := Sort(NameLess, keys);
    PermutationMembers(unsorted, keys);
    DistinctPermutes(unsorted, keys);
    NamesAreOrdered();
    SortSorted(NameLess, unsorted);
  }

  // The members of the first i keys.
  ghost function Seen(keys: seq<string>, i: nat): set<string>
    requires i <= |keys|
  {
    set t | t in keys[..i]
  }

  lemma SeenNext(keys: seq<string>, i: nat, f: string -> real)
    requires Distinct(keys) && i < |keys|
    ensures keys[i] !in Seen(keys, i) && Seen(keys, i + 1) == Seen(keys, i) + {keys[i]}
    ensures SetSum(Seen(keys, i + 1), f) == SetSum(Seen(keys, i), f) + f(keys[i])
  {
    assert keys[..i + 1] == keys[..i] + [keys[i]];
    assert keys[i] !in keys[..i];
    assert Seen(keys, i + 1) == Seen(keys, i) + {keys[i]};
    SetSumAdd(Seen(keys, i), keys[i], f);
  }

  function UsedAt(m: Profile): string -> real { (t: string) => if t in m && m[t] > 0.0 then m[t] else 0.0 }

  lemma TotalOfAll(m: Profile)
    ensures SetSum(m.Keys, UsedAt(m)) == Total(m)
  {
    var idle := m.Keys - Used(m);
    assert m.Keys == Used(m) + idle;
    SetSumDisjoint(Used(m), idle, UsedAt(m));
    SetSumZero(idle, UsedAt(m));
    SetSumEqual(Used(m), UsedAt(m), At(m));
  }

  method TotalWeight(weights: Profile) returns (total: real)
    ensures total == Total(weights)
  {
    total := 0.0;
    var keys := SortedKeys(weights);
    for i := 0 to |keys|
      invariant total == SetSum(Seen(keys, i), UsedAt(weights))
    {
      SeenNext(keys, i, UsedAt(weights));
      assert keys[i] in keys;
      var w := weights[keys[i]];
      if w > 0.0 {
        total := total + w;
      }
    }
    assert keys[..|keys|] == keys;
    assert Seen(keys, |keys|) == weights.Keys;
    TotalOfAll(weights);
  }

  method SharesOf(weights: Profile) returns (out: Profile)
    ensures out == Shares(weights)
  {
    hide SetSum;
    var total := TotalWeight(weights);
    PositiveSum(Used(weights), At(weights));
    out := map[];
    var rest := weights.Keys;
    while rest != {}
      invariant rest <= weights.Keys
      invariant forall t :: t in out <==> t in weights && t !in rest && weights[t] > 0.0
      invariant forall t :: t in out ==> total > 0.0 && out[t] == weights[t] / total
    {
      var t :| t in rest;
      if weights[t] > 0.0 {
        assert t in Used(weights);
        out := out[t := weights[t] / total];
      }
      rest := rest - {t};
    }
    assert out.Keys == Shares(weights).Keys;
  }

  // The sums run over a's keys first, then over b's own keys.
  lemma SumsByProfile(a: Profile, b: Profile)
    requires AllPositive(a) && AllPositive(b)
    ensures Overlap(a, b) == SetSum(a.Keys, MinAt(a, b))
    ensures Cover(a, b) == SetSum(a.Keys, MaxAt(a, b)) + SetSum(b.Keys - a.Keys, At(b))
  {
    var own := b.Keys - a.Keys;
    assert a.Keys + b.Keys == a.Keys + own;
    SetSumDisjoint(a.Keys, own, MinAt(a, b));
    SetSumDisjoint(a.Keys, own, MaxAt(a, b));
    forall t | t in own ensures MinAt(a, b)(t) == 0.0 && MaxAt(a, b)(t) == At(b)(t) {
      assert t in b && t !in a && b[t] > 0.0;
    }
    SetSumZero(own, MinAt(a, b));
    SetSumEqual(own, MaxAt(a, b), At(b));
  }

  function OwnAt(a: Profile, b: Profile): string -> real { (t: string) => if t in a then 0.0 else Weight(b, t) }

  lemma OwnSum(a: Profile, b: Profile)
    ensures SetSum(b.Keys, OwnAt(a, b)) == SetSum(b.Keys - a.Keys, At(b))
  {
    var own := b.Keys - a.Keys;
    assert b.Keys == own + b.Keys * a.Keys;
    SetSumDisjoint(own, b.Keys * a.Keys, OwnAt(a, b));
    SetSumZero(b.Keys * a.Keys, OwnAt(a, b));
    SetSumEqual(own, OwnAt(a, b), At(b));
  }

  // The first loop of weightedJaccard.
  method SumsOverA(a: Profile, b: Profile) returns (minSum: real, maxSum: real)
    ensures minSum == SetSum(a.Keys, MinAt(a, b)) && maxSum == SetSum(a.Keys, MaxAt(a, b))
  {
    minSum, maxSum := 0.0, 0.0;
    var keys := SortedKeys(a);
    for i := 0 to |keys|
      invariant minSum == SetSum(Seen(keys, i), MinAt(a, b)) && maxSum == SetSum(Seen(keys, i), MaxAt(a, b))
    {
      SeenNext(keys, i, MinAt(a, b));
      SeenNext(keys, i, MaxAt(a, b));
      var wa, wb := Weight(a, keys[i]), Weight(b, keys[i]);
      minSum := minSum + RealMin(wa, wb);
      maxSum := maxSum + RealMax(wa, wb);
    }
    assert keys[..|keys|] == keys;
    assert Seen(keys, |keys|) == a.Keys;
  }

  // The second loop: the tags b has on its own.
  method SumOverOwn(a: Profile, b: Profile) returns (sum: real)
    ensures sum == SetSum(b.Keys - a.Keys, At(b))
  {
    sum := 0.0;
    var keys := SortedKeys(b);
    for i := 0 to |keys|
      invariant sum == SetSum(Seen(keys, i), OwnAt(a, b))
    {
      SeenNext(keys, i, OwnAt(a, b));
      assert keys[i] in keys;
      if keys[i] !in a {
        sum := sum + b[keys[i]];
      }
    }
    assert keys[..|keys|] == keys;
    assert Seen(keys, |keys|) == b.Keys;
    OwnSum(a, b);
  }

  method JaccardOfShares(a: Profile, b: Profile) returns (r: real)
    requires AllPositive(a) && AllPositive(b)
    ensures r == Jaccard(a, b)
  {
    var minSum, maxSum := SumsOverA(a, b);
    var own := SumOverOwn(a, b);
    maxSum := maxSum + own;
    SumsByProfile(a, b);
    if maxSum == 0.0 {
      return 0.0;
    }
    return minSum / maxSum;
  }

  lemma SharesArePositive(m: Profile)
    ensures AllPositive(Shares(m))
  {
    PositiveSum(Used(m), At(m));
    forall t | t in Shares(m) ensures Shares(m)[t] > 0.0 {
      PositiveQuotient(m[t], Total(m));
    }
  }

  lemma PositiveQuotient(x: real, y: real)
    requires x > 0.0 && y > 0.0
    ensures x / y > 0.0
  {
  }

  method WeightedJaccard(a: Profile, b: Profile) returns (r: real)
    ensures r == Score(a, b)
  {
    var shareA := SharesOf(a);
    var shareB := SharesOf(b);
    SharesArePositive(a);
    SharesArePositive(b);
    r := JaccardOfShares(shareA, shareB);
  }

  // ---------------------------------------------------------------- Compare

  datatype Result = Result(genreScore: real, weightedScore: real,
                           shared: seq<string>, onlyA: seq<string>, onlyB: seq<string>)

  // Larger weight first, then the name.
  function Heavier(weight: string -> real): (string, string) -> bool
  {
    (x: string, y: string) => if weight(x) != weight(y) then weight(x) > weight(y) else NameLess(x, y)
  }

  lemma HeavierOrders(weight: string -> real, tags: seq<string>)
    ensures Orders(Heavier(weight), tags)
  {
    NamesAreOrdered();
  }

  // tags are exactly the members, each once, the heaviest first and equally heavy ones by name.
  ghost predicate Lists(tags: seq<string>, members: set<string>, weight: string -> real)
  {
    && Distinct(tags)
    && (forall t :: t in tags <==> t in members)
    && (forall i, j :: 0 <= i < j < |tags| ==>
          weight(tags[i]) > weight(tags[j]) || (weight(tags[i]) == weight(tags[j]) && NameLess(tags[i], tags[j])))
  }

  ghost predicate IsComparison(r: Result, a: Profile, b: Profile)
  {
    var sa, sb := Shares(a), Shares(b);
    && Lists(r.shared, Used(a) * Used(b), MinAt(sa, sb))
    && Lists(r.onlyA, Used(a) - Used(b), At(sa))
    && Lists(r.onlyB, Used(b) - Used(a), At(sb))
    && r.genreScore == SetJaccard(Used(a), Used(b))
    && r.weightedScore == Score(a, b)
  }

  method SortByWeight(tags: seq<string>, weight: string -> real) returns (sorted: seq<string>)
    requires Distinct(tags)
    ensures Lists(sorted, (set t | t in tags), weight)
  {
    sorted := Sort(Heavier(weight), tags);
    HeavierOrders(weight, tags);
    SortSorted(Heavier(weight), tags);
    PermutationMembers(tags, sorted);
    DistinctPermutes(tags, sorted);
    forall i, j | 0 <= i < j < |sorted| ensures Heavier(weight)(sorted[i], sorted[j]) {
      assert sorted[i] in tags && sorted[j] in tags && sorted[i] != sorted[j];
    }
  }

  // One range loop of Compare: the tags of a that are (or are not) in b.
  method Collect(a: Profile, b: Profile, inB: bool) returns (tags: seq<string>)
    ensures Distinct(tags) && forall t :: t in tags <==> t in a && (t in b <==> inB)
  {
    tags := [];
    var rest := a.Keys;
    while rest != {}
      invariant rest <= a.Keys && Distinct(tags)
      invariant forall t :: t in tags <==> t in a && t !in rest && (t in b <==> inB)
    {
      var tag :| tag in rest;
      if (tag in b) == inB {
        tags := tags + [tag];
      }
      rest := rest - {tag};
    }
  }

  // The three lists of tags, collected and sorted.
  method Partition(a: Profile, b: Profile) returns (shared: seq<string>, onlyA: seq<string>, onlyB: seq<string>)
    ensures Lists(shared, a.Keys * b.Keys, MinAt(a, b))
    ensures Lists(onlyA, a.Keys - b.Keys, At(a))
    ensures Lists(onlyB, b.Keys - a.Keys, At(b))
  {
    shared := Collect(a, b, true);
    onlyA := Collect(a, b, false);
    onlyB := Collect(b, a, false);
    assert (set t | t in shared) == a.Keys * b.Keys;
    assert (set t | t in onlyA) == a.Keys - b.Keys;
    assert (set t | t in onlyB) == b.Keys - a.Keys;
    hide Lists, Distinct;
    shared := SortByWeight(shared, MinAt(a, b));
    onlyA := SortByWeight(onlyA, At(a));
    onlyB := SortByWeight(onlyB, At(b));
  }

  lemma PartitionSizes(a: set<string>, b: set<string>, shared: seq<string>, onlyA: seq<string>, onlyB: seq<string>,
                       f: string -> real, g: string -> real, h: string -> real)
    requires Lists(shared, a * b, f) && Lists(onlyA, a - b, g) && Lists(onlyB, b - a, h)
    ensures |shared| == |a * b| && |shared| + |onlyA| + |onlyB| == |a + b|
  {
    DistinctSize(shared, a * b);
    DistinctSize(onlyA, a - b);
    DistinctSize(onlyB, b - a);
    assert a + b == a * b + (a - b) + (b - a);
  }

  method Compare(a: Profile, b: Profile) returns (r: Result)
    ensures IsComparison(r, a, b)
  {
    hide Shares, Jaccard, Lists;
    var shareA := SharesOf(a);
    var shareB := SharesOf(b);
    var shared, onlyA, onlyB := Partition(shareA, shareB);
    PartitionSizes(Used(a), Used(b), shared, onlyA, onlyB, MinAt(shareA, shareB), At(shareA), At(shareB));
    var union := |shared| + |onlyA| + |onlyB|;
    var genreScore := 0.0;
    if union > 0 {
      genreScore := |shared| as real / union as real;
    }
    SharesArePositive(a);
    SharesArePositive(b);
    var weightedScore := JaccardOfShares(shareA, shareB);
    r := Result(genreScore, weightedScore, shared, onlyA, onlyB);
  }

  lemma ListsUnique(xs: seq<string>, ys: seq<string>, members: set<string>, weight: string -> real)
    requires Lists(xs, members, weight) && Lists(ys, members, weight)
    ensures xs == ys
  {
    HeavierOrders(weight, xs);
    HeavierOrders(weight, ys);
    DistinctSameMembers(xs, ys);
    StrictIsSorted(xs, members, weight);
    StrictIsSorted(ys, members, weight);
    SortedUnique(Heavier(weight), xs, ys);
  }

  lemma StrictIsSorted(xs: seq<string>, members: set<string>, weight: string -> real)
    requires Lists(xs, members, weight)
    ensures Sorted(Heavier(weight), xs)
  {
    HeavierOrders(weight, xs);
    forall i, j | 0 <= i < j < |xs| ensures !Heavier(weight)(xs[j], xs[i]) {
      assert Heavier(weight)(xs[i], xs[j]);
      assert xs[i] in xs && xs[j] in xs;
    }
  }

  // What a comparison's lists show first: the tags with the larger weight in their own profile,
  // and of the shared ones those whose smaller share is larger; then the smaller name.
  lemma StrongestTagsFirst(r: Result, a: Profile, b: Profile, i: nat, j: nat)
    requires IsComparison(r, a, b) && i < j
    ensures j < |r.onlyA| ==>
      var x, y := r.onlyA[i], r.onlyA[j];
      x in a && y in a && (a[x] > a[y] || (a[x] == a[y] && NameLess(x, y)))
    ensures j < |r.onlyB| ==>
      var x, y := r.onlyB[i], r.onlyB[j];
      x in b && y in b && (b[x] > b[y] || (b[x] == b[y] && NameLess(x, y)))
    ensures j < |r.shared| ==>
      var x, y := r.shared[i], r.shared[j];
      && x in Used(a) * Used(b) && y in Used(a) * Used(b)
      && var least := (t: string) => RealMin(Weight(Shares(a), t), Weight(Shares(b), t));
      least(x) > least(y) || (least(x) == least(y) && NameLess(x, y))
  {
    if j < |r.onlyA| {
      assert r.onlyA[i] in r.onlyA && r.onlyA[j] in r.onlyA;
      SharesOrderAsWeights(a, r.onlyA[i], r.onlyA[j]);
    }
    if j < |r.onlyB| {
      assert r.onlyB[i] in r.onlyB && r.onlyB[j] in r.onlyB;
      SharesOrderAsWeights(b, r.onlyB[i], r.onlyB[j]);
    }
    if j < |r.shared| {
      assert r.shared[i] in r.shared && r.shared[j] in r.shared;
    }
    hide Shares, Score, SetJaccard;
  }

  lemma SharesOrderAsWeights(m: Profile, x: string, y: string)
    requires x in Used(m) && y in Used(m)
    ensures At(Shares(m))(x) > At(Shares(m))(y) <==> m[x] > m[y]
    ensures At(Shares(m))(x) == At(Shares(m))(y) <==> m[x] == m[y]
  {
    ShareOfTotal(m, x);
    ShareOfTotal(m, y);
    ProductsOrder(Total(m), Shares(m)[x], Shares(m)[y], m[x], m[y]);
  }

  lemma ProductsOrder(c: real, x: real, y: real, cx: real, cy: real)
    requires c > 0.0 && cx == c * x && cy == c * y
    ensures x > y <==> cx > cy
    ensures x == y <==> cx == cy
  {
    assert cx - cy == c * (x - y);
  }

  // Whatever order Go enumerates the maps in, two comparisons of the same profiles agree in
  // every field, and the three lists are a partition of the tags in use.
  lemma ComparisonIsUnique(a: Profile, b: Profile, r: Result, q: Result)
    requires IsComparison(r, a, b) && IsComparison(q, a, b)
    ensures r == q
    ensures forall t :: t in Used(a) || t in Used(b) <==> t in r.shared + r.onlyA + r.onlyB
    ensures Distinct(r.shared + r.onlyA + r.onlyB)
  {
    hide Shares, Score, SetJaccard, Heavier;
    var sa, sb := Shares(a), Shares(b);
    ListsUnique(r.shared, q.shared, Used(a) * Used(b), MinAt(sa, sb));
    ListsUnique(r.onlyA, q.onlyA, Used(a) - Used(b), At(sa));
    ListsUnique(r.onlyB, q.onlyB, Used(b) - Used(a), At(sb));
    DistinctConcat(r.shared, r.onlyA);
    DistinctConcat(r.shared + r.onlyA, r.onlyB);
  }

  lemma DistinctConcat(xs: seq<string>, ys: seq<string>)
    requires Distinct(xs) && Distinct(ys) && forall x :: x in xs ==> x !in ys
    ensures Distinct(xs + ys)
  {
    forall i, j | 0 <= i < j < |xs + ys| ensures (xs + ys)[i] != (xs + ys)[j] {
      if i < |xs| <= j {
        assert xs[i] in xs && ys[j - |xs|] in ys;
      }
    }
  }

  // ---------------------------------------------------------------- genre.go

  // The different non-empty names of the tags once folded.
  function FoldedSet(tags: seq<string>, fold: Fold): set<string> { set t | t in tags && fold(t) != "" :: fold(t) }

  method ToSet(tags: seq<string>, fold: Fold) returns (s: set<string>)
    ensures s == FoldedSet(tags, fold)
  {
    s := {};
    for i := 0 to |tags|
      invariant s == FoldedSet(tags[..i], fold)
    {
      var normalized := fold(tags[i]);
      assert tags[..i + 1] == tags[..i] + [tags[i]];
      if normalized != "" {
        s := s + {normalized};
      }
    }
    assert tags[..|tags|] == tags;
  }

  // The range loop of CompareGenres.
  method CountShared(setA: set<string>, setB: set<string>) returns (intersection: nat)
    ensures intersection == |setA * setB|
  {
    intersection := 0;
    var rest := setA;
    while rest != {}
      invariant rest <= setA && intersection + |rest * setB| == |setA * setB|
    {
      var tag :| tag in rest;
      if tag in setB {
        intersection := intersection + 1;
        assert rest * setB == (rest - {tag}) * setB + {tag};
      } else {
        assert rest * setB == (rest - {tag}) * setB;
      }
      rest := rest - {tag};
    }
  }

  method CompareGenres(tagsA: seq<string>, tagsB: seq<string>, fold: Fold) returns (r: real)
    ensures r == SetJaccard(FoldedSet(tagsA, fold), FoldedSet(tagsB, fold))
  {
    var setA := ToSet(tagsA, fold);
    var setB := ToSet(tagsB, fold);
    UnionSize(setA, setB);
    if |setA| == 0 && |setB| == 0 {
      return 0.0;
    }
    var intersection := CountShared(setA, setB);
    var union := |setA| + |setB| - intersection;
    if union == 0 {
      return 0.0;
    }
    return intersection as real / union as real;
  }

  lemma UnionSize(a: set<string>, b: set<string>)
    ensures |a + b| == |a| + |b| - |a * b|
  {
    assert a + b == a + (b - a) && b == (b - a) + a * b;
  }

  // The genre score of a comparison is what CompareGenres says about the two key lists.
  lemma GenreScoreIsCompareGenres(a: Profile, b: Profile, keysA: seq<string>, keysB: seq<string>, fold: Fold, r: Result)
    requires IsComparison(r, a, b)
    requires AllPositive(a) && AllPositive(b)
    requires forall t :: t in keysA <==> t in a
    requires forall t :: t in keysB <==> t in b
    requires forall t :: t in a || t in b ==> fold(t) == t && t != ""
    ensures r.genreScore == SetJaccard(FoldedSet(keysA, fold), FoldedSet(keysB, fold))
  {
    FoldedKeys(a, keysA, fold);
    FoldedKeys(b, keysB, fold);
  }

  lemma FoldedKeys(m: Profile, keys: seq<string>, fold: Fold)
    requires AllPositive(m) && forall t :: t in keys <==> t in m
    requires forall t :: t in m ==> fold(t) == t && t != ""
    ensures FoldedSet(keys, fold) == Used(m)
  {
    var folded := FoldedSet(keys, fold);
    forall t | t in Used(m) ensures t in folded {
      assert t in keys && fold(t) == t;
    }
  }

  // ---------------------------------------------------------------- laws of the weighted score

  lemma ShareOfTotal(m: Profile, t: string)
    requires t in Used(m)
    ensures Total(m) > 0.0 && Shares(m)[t] == m[t] / Total(m) && m[t] == Total(m) * Shares(m)[t]
  {
    PositiveSum(Used(m), At(m));
    ProductOfQuotient(m[t], Total(m));
  }

  lemma ProductOfQuotient(x: real, y: real)
    requires y > 0.0
    ensures x == y * (x / y)
  {
  }

  lemma SharesSumToOne(m: Profile)
    requires Used(m) != {}
    ensures SetSum(Used(m), At(Shares(m))) == 1.0
  {
    hide SetSum;
    var total := Total(m);
    forall t | t in Used(m) ensures total > 0.0 && At(m)(t) == total * At(Shares(m))(t) {
      ShareOfTotal(m, t);
    }
    var some :| some in Used(m);
    SetSumScale(Used(m), At(Shares(m)), At(m), total);
    CancelTotal(total, SetSum(Used(m), At(Shares(m))), SetSum(Used(m), At(m)));
  }

  lemma CancelTotal(total: real, sum: real, product: real)
    requires total > 0.0 && product == total * sum && product == total
    ensures sum == 1.0
  {
    assert total * (sum - 1.0) == 0.0;
  }

  lemma SetSumExtend(s: set<string>, u: set<string>, f: string -> real)
    requires s <= u && forall t :: t in u && t !in s ==> f(t) == 0.0
    ensures SetSum(u, f) == SetSum(s, f)
  {
    assert u == s + (u - s);
    SetSumDisjoint(s, u - s, f);
    SetSumZero(u - s, f);
  }

  // Total variation of two share maps, over any set of tags that contains their keys.
  ghost function Gap(a: Profile, b: Profile): real { SetSum(a.Keys + b.Keys, GapAt(a, b)) }

  lemma GapOver(a: Profile, b: Profile, u: set<string>)
    requires a.Keys + b.Keys <= u
    ensures SetSum(u, GapAt(a, b)) == Gap(a, b) >= 0.0
  {
    forall t | t in u && t !in a.Keys + b.Keys ensures GapAt(a, b)(t) == 0.0 {
      assert Weight(a, t) == Weight(b, t) == 0.0;
    }
    SetSumExtend(a.Keys + b.Keys, u, GapAt(a, b));
    NonNegativeSum(u, GapAt(a, b));
  }

  function BothAt(a: Profile, b: Profile): string -> real { (t: string) => Weight(a, t) + Weight(b, t) }

  lemma BothSum(a: Profile, b: Profile)
    ensures SetSum(a.Keys + b.Keys, BothAt(a, b)) == SetSum(a.Keys, At(a)) + SetSum(b.Keys, At(b))
  {
    var u := a.Keys + b.Keys;
    SetSumExtend(a.Keys, u, At(a));
    SetSumExtend(b.Keys, u, At(b));
    SetSumPlus(u, At(a), At(b), BothAt(a, b));
  }

  // min + max = a + b and max - min = |a - b|, summed.
  lemma OverlapByGap(a: Profile, b: Profile)
    ensures Overlap(a, b) == (SetSum(a.Keys, At(a)) + SetSum(b.Keys, At(b)) - Gap(a, b)) / 2.0
    ensures Cover(a, b) == (SetSum(a.Keys, At(a)) + SetSum(b.Keys, At(b)) + Gap(a, b)) / 2.0
  {
    hide SetSum;
    var u := a.Keys + b.Keys;
    BothSum(a, b);
    SetSumPlus(u, MinAt(a, b), MaxAt(a, b), BothAt(a, b));
    SetSumPlus(u, MinAt(a, b), GapAt(a, b), MaxAt(a, b));
  }

  ghost function ShareGap(a: Profile, b: Profile): real { Gap(Shares(a), Shares(b)) }

  // For non-empty profiles the sum of minima S and the sum of maxima add up to 2.
  lemma MinimaAndMaxima(a: Profile, b: Profile)
    requires Used(a) != {} && Used(b) != {}
    ensures var s := Overlap(Shares(a), Shares(b));
      && s + Cover(Shares(a), Shares(b)) == 2.0
      && 0.0 <= s <= 1.0
      && s == 1.0 - ShareGap(a, b) / 2.0
      && Score(a, b) == s / (2.0 - s)
  {
    var sa, sb := Shares(a), Shares(b);
    SharesSumToOne(a);
    SharesSumToOne(b);
    OverlapByGap(sa, sb);
    GapOver(sa, sb, sa.Keys + sb.Keys);
    MinimaAreShared(a, b);
    NonNegativeSum(sa.Keys + sb.Keys, MinAt(sa, sb));
  }

  // The smaller share of a tag is positive exactly when both profiles use the tag.
  lemma MinimaAreShared(a: Profile, b: Profile)
    ensures forall t :: MinAt(Shares(a), Shares(b))(t) >= 0.0
    ensures forall t :: MinAt(Shares(a), Shares(b))(t) > 0.0 <==> t in Used(a) * Used(b)
  {
    var sa, sb := Shares(a), Shares(b);
    SharesArePositive(a);
    SharesArePositive(b);
    forall t ensures MinAt(sa, sb)(t) >= 0.0 && (MinAt(sa, sb)(t) > 0.0 <==> t in Used(a) * Used(b)) {
      assert t in sa ==> sa[t] > 0.0;
      assert t in sb ==> sb[t] > 0.0;
      assert t in sa <==> t in Used(a);
      assert t in sb <==> t in Used(b);
    }
  }

  lemma EmptyScoresZero(a: Profile, b: Profile)
    requires Used(a) == {} || Used(b) == {}
    ensures Score(a, b) == 0.0
  {
    MinimaAreShared(a, b);
    var sa, sb := Shares(a), Shares(b);
    forall t ensures MinAt(sa, sb)(t) == 0.0 {
      assert t !in Used(a) * Used(b);
    }
    SetSumZero(sa.Keys + sb.Keys, MinAt(sa, sb));
  }

  lemma ScoreOfMinima(s: real)
    requires 0.0 <= s <= 1.0
    ensures 0.0 <= s / (2.0 - s) <= 1.0
    ensures s / (2.0 - s) == 1.0 <==> s == 1.0
    ensures s / (2.0 - s) == 0.0 <==> s == 0.0
  {
    var q, r := s / (2.0 - s), 2.0 - s;
    assert q * r == s;
    assert q > 1.0 ==> (q - 1.0) * r > 0.0;
    assert q < 0.0 ==> -q * r > 0.0;
  }

  lemma ScoreInUnit(a: Profile, b: Profile)
    ensures 0.0 <= Score(a, b) <= 1.0
  {
    if Used(a) == {} || Used(b) == {} {
      EmptyScoresZero(a, b);
    } else {
      MinimaAndMaxima(a, b);
      ScoreOfMinima(Overlap(Shares(a), Shares(b)));
    }
  }

  lemma ScoreIsSymmetric(a: Profile, b: Profile)
    ensures Score(a, b) == Score(b, a)
  {
    var sa, sb := Shares(a), Shares(b);
    assert sa.Keys + sb.Keys == sb.Keys + sa.Keys;
    SetSumEqual(sa.Keys + sb.Keys, MinAt(sa, sb), MinAt(sb, sa));
    SetSumEqual(sa.Keys + sb.Keys, MaxAt(sa, sb), MaxAt(sb, sa));
  }

  function Scaled(m: Profile, c: real): Profile { map t | t in m :: c * m[t] }

  lemma ScaledUsed(m: Profile, c: real)
    requires c > 0.0
    ensures Used(Scaled(m, c)) == Used(m)
  {
    forall t | t in m ensures Scaled(m, c)[t] > 0.0 <==> m[t] > 0.0 {
      SignOfProduct(c, m[t]);
    }
  }

  lemma ScaledTotal(m: Profile, c: real)
    requires c > 0.0
    ensures Used(Scaled(m, c)) == Used(m) && Total(Scaled(m, c)) == c * Total(m)
  {
    ScaledUsed(m, c);
    hide SetSum;
    forall t | t in Used(m) ensures At(Scaled(m, c))(t) == c * At(m)(t) {
      ScaledAt(m, c, t);
    }
    hide Used, Scaled, At;
    SetSumScale(Used(m), At(m), At(Scaled(m, c)), c);
  }

  lemma ScaledAt(m: Profile, c: real, t: string)
    requires t in m
    ensures At(Scaled(m, c))(t) == c * At(m)(t) && Scaled(m, c)[t] == c * m[t]
  {
  }

  lemma ShareIgnoresScale(m: Profile, c: real, t: string)
    requires c > 0.0 && t in Used(m) && t in Used(Scaled(m, c)) && Total(Scaled(m, c)) == c * Total(m)
    ensures Shares(Scaled(m, c))[t] == Shares(m)[t]
  {
    var total, scaledTotal, weight, scaledWeight := Total(m), Total(Scaled(m, c)), m[t], Scaled(m, c)[t];
    hide *;
    ScaledAt(m, c, t);
    ShareOfTotal(m, t);
    ShareOfTotal(Scaled(m, c), t);
    CancelFactor(c, weight, total, scaledWeight, scaledTotal);
  }

  // Only proportions matter: multiplying a profile by a positive factor keeps its shares.
  lemma SharesIgnoreScale(m: Profile, c: real)
    requires c > 0.0
    ensures Shares(Scaled(m, c)) == Shares(m)
  {
    ScaledTotal(m, c);
    forall t | t in Used(m) ensures Shares(Scaled(m, c))[t] == Shares(m)[t] {
      ShareIgnoresScale(m, c, t);
    }
    hide Total, Used, Scaled;
  }

  lemma SignOfProduct(c: real, w: real)
    requires c > 0.0
    ensures c * w > 0.0 <==> w > 0.0
  {
  }

  lemma CancelFactor(c: real, w: real, total: real, scaledW: real, scaledTotal: real)
    requires c > 0.0 && total > 0.0 && scaledW == c * w && scaledTotal == c * total
    ensures scaledTotal > 0.0 && scaledW / scaledTotal == w / total
  {
    var share := w / total;
    assert share * total == w;
    assert share * scaledTotal == scaledW;
  }

  lemma ScoreIgnoresScale(a: Profile, b: Profile, c: real, d: real)
    requires c > 0.0 && d > 0.0
    ensures Score(Scaled(a, c), Scaled(b, d)) == Score(a, b)
  {
    SharesIgnoreScale(a, c);
    SharesIgnoreScale(b, d);
  }

  // The score is 1 exactly when the shares are equal, and 0 exactly when no tag is shared.
  lemma ScoreExtremes(a: Profile, b: Profile)
    requires Used(a) != {} && Used(b) != {}
    ensures Score(a, b) == 1.0 <==> Shares(a) == Shares(b)
    ensures Score(a, b) == 0.0 <==> Used(a) * Used(b) == {}
  {
    var sa, sb := Shares(a), Shares(b);
    MinimaAndMaxima(a, b);
    ScoreOfMinima(Overlap(sa, sb));
    SharesArePositive(a);
    SharesArePositive(b);
    NoGapIsEqual(sa, sb);
    MinimaAreShared(a, b);
    NonNegativeSum(sa.Keys + sb.Keys, MinAt(sa, sb));
    if t :| t in Used(a) * Used(b) {
      assert t in sa.Keys + sb.Keys && MinAt(sa, sb)(t) > 0.0;
    }
  }

  lemma NoGapIsEqual(a: Profile, b: Profile)
    requires AllPositive(a) && AllPositive(b)
    ensures Gap(a, b) == 0.0 <==> a == b
  {
    var u := a.Keys + b.Keys;
    NonNegativeSum(u, GapAt(a, b));
    if forall t :: t in u ==> GapAt(a, b)(t) == 0.0 {
      forall t | t in u ensures t in a && t in b && a[t] == b[t] {
        assert GapAt(a, b)(t) == 0.0;
        assert t in a ==> a[t] > 0.0;
        assert t in b ==> b[t] > 0.0;
      }
      assert a == b;
    }
  }

  // ---------------------------------------------------------------- the triangle inequality

  ghost function Distance(a: Profile, b: Profile): real { 1.0 - Score(a, b) }

  function Bent(d: real): real
    requires d >= 0.0
  {
    2.0 * d / (2.0 + d)
  }

  lemma DistanceByGap(a: Profile, b: Profile)
    requires Used(a) != {} && Used(b) != {}
    ensures ShareGap(a, b) >= 0.0 && Distance(a, b) == Bent(ShareGap(a, b))
  {
    MinimaAndMaxima(a, b);
    var d := ShareGap(a, b);
    var s := 1.0 - d / 2.0;
    GapOver(Shares(a), Shares(b), Shares(a).Keys + Shares(b).Keys);
    BentOfShare(d, s);
  }

  lemma BentOfShare(d: real, s: real)
    requires d >= 0.0 && s == 1.0 - d / 2.0
    ensures 1.0 - s / (2.0 - s) == Bent(d)
  {
    var q := s / (2.0 - s);
    assert q * (2.0 - s) == s;
    assert (1.0 - q) * (2.0 + d) == 2.0 * d;
  }

  function DetourAt(a: Profile, b: Profile, c: Profile): string -> real
  {
    (t: string) => Abs(Weight(a, t) - Weight(b, t)) + Abs(Weight(b, t) - Weight(c, t))
  }

  lemma DetourSum(a: Profile, b: Profile, c: Profile, u: set<string>)
    ensures SetSum(u, GapAt(a, c)) <= SetSum(u, GapAt(a, b)) + SetSum(u, GapAt(b, c))
  {
    hide SetSum;
    SetSumPlus(u, GapAt(a, b), GapAt(b, c), DetourAt(a, b, c));
    SetSumMonotone(u, GapAt(a, c), DetourAt(a, b, c));
  }

  lemma GapTriangle(a: Profile, b: Profile, c: Profile)
    ensures Gap(a, c) <= Gap(a, b) + Gap(b, c)
  {
    var u := a.Keys + b.Keys + c.Keys;
    GapOver(a, b, u);
    GapOver(b, c, u);
    GapOver(a, c, u);
    DetourSum(a, b, c, u);
  }

  // d -> 2d / (2 + d) is increasing and concave, so it keeps the triangle inequality.
  lemma BentTriangle(x: real, y: real, z: real)
    requires x >= 0.0 && y >= 0.0 && 0.0 <= z <= x + y
    ensures Bent(z) <= Bent(x) + Bent(y)
  {
    var w := x + y;
    BentMonotone(z, w);
    SmallerDivisor(2.0 * x, 2.0 + x, 2.0 + w);
    SmallerDivisor(2.0 * y, 2.0 + y, 2.0 + w);
    assert Bent(w) == 2.0 * x / (2.0 + w) + 2.0 * y / (2.0 + w);
  }

  lemma SmallerDivisor(n: real, p: real, q: real)
    requires n >= 0.0 && 0.0 < p <= q
    ensures n / q <= n / p
  {
    var r := n / q;
    assert r * q == n && r >= 0.0;
    assert r * p <= n;
    assert n / p * p == n;
    assert (n / p - r) * p >= 0.0;
  }

  lemma BentMonotone(x: real, y: real)
    requires 0.0 <= x <= y
    ensures Bent(x) <= Bent(y)
  {
    var b := Bent(x);
    assert b * (2.0 + x) == 2.0 * x;
    assert Bent(y) * (2.0 + y) == 2.0 * y;
    assert b <= 2.0;
    assert (Bent(y) - b) * (2.0 + y) == (2.0 - b) * (y - x);
    assert (2.0 - b) * (y - x) >= 0.0;
  }

  // 1 - score satisfies the triangle inequality over any three profiles, empty ones included.
  lemma DistanceTriangle(a: Profile, b: Profile, c: Profile)
    ensures Distance(a, c) <= Distance(a, b) + Distance(b, c)
  {
    ScoreInUnit(a, b);
    ScoreInUnit(b, c);
    ScoreInUnit(a, c);
    if Used(a) == {} || Used(b) == {} || Used(c) == {} {
      if Used(a) == {} || Used(b) == {} {
        EmptyScoresZero(a, b);
      } else {
        EmptyScoresZero(b, c);
      }
    } else {
      DistanceByGap(a, b);
      DistanceByGap(b, c);
      DistanceByGap(a, c);
      GapTriangle(Shares(a), Shares(b), Shares(c));
      BentTriangle(ShareGap(a, b), ShareGap(b, c), ShareGap(a, c));
    }
  }
}
