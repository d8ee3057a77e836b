// Sequence and set facts shared by the components: folds and sorts whose result does not
// depend on the order of their input, counting, and finite sums over sets.
module Collections {

  datatype Option<+T> = None | Some(value: T)

  function Min(a: int, b: int): int { if a <= b then a else b }
  function Max(a: int, b: int): int { if a >= b then a else b }

  // The first n, or all if there are fewer.
  function Take<T>(xs: seq<T>, n: nat): seq<T> { if n <= |xs| then xs[..n] else xs }

  // ---------------------------------------------------------------- folds

  function Fold<S, T>(step: (S, T) -> S, init: S, xs: seq<T>): S
  {
    if xs == [] then init else step(Fold(step, init, xs[..|xs| - 1]), xs[|xs| - 1])
  }

  ghost predicate Commuting<S(!new), T(!new)>(step: (S, T) -> S)
  {
    forall s, x, y :: step(step(s, x), y) == step(step(s, y), x)
  }

  lemma FoldSnoc<S(!new), T(!new)>(step: (S, T) -> S, init: S, xs: seq<T>, x: T)
    ensures Fold(step, init, xs + [x]) == step(Fold(step, init, xs), x)
  {
    assert (xs + [x])[..|xs|] == xs;
  }

  lemma {:induction false} FoldAppend<S(!new), T(!new)>(step: (S, T) -> S, init: S, xs: seq<T>, ys: seq<T>)
    ensures Fold(step, init, xs + ys) == Fold(step, Fold(step, init, xs), ys)
  {
    if ys == [] {
      assert xs + ys == xs;
    } else {
      var last := |ys| - 1;
      FoldAppend(step, init, xs, ys[..last]);
      assert xs + ys == (xs + ys[..last]) + [ys[last]];
      FoldSnoc(step, init, xs + ys[..last], ys[last]);
    }
  }

  // A commuting step can be postponed past any number of others.
  lemma {:induction false} FoldMove<S(!new), T(!new)>(step: (S, T) -> S, init: S, xs: seq<T>, x: T)
    requires Commuting(step)
    ensures Fold(step, step(init, x), xs) == step(Fold(step, init, xs), x)
  {
    if xs != [] {
      FoldMove(step, init, xs[..|xs| - 1], x);
    }
  }

  // The last of xs has a place in every permutation of xs, and taking both out leaves a
  // permutation of the rest.
  lemma PlaceOfLast<T(!new)>(xs: seq<T>, ys: seq<T>) returns (i: nat)
    requires multiset(xs) == multiset(ys) && xs != []
    ensures i < |ys| && ys[i] == xs[|xs| - 1]
    ensures ys == ys[..i] + [ys[i]] + ys[i + 1..] && multiset(xs[..|xs| - 1]) == multiset(ys[..i] + ys[i + 1..])
  {
    var last := |xs| - 1;
    assert xs == xs[..last] + [xs[last]];
    assert xs[last] in multiset(ys);
    i :| 0 <= i < |ys| && ys[i] == xs[last];
    assert ys == ys[..i] + [ys[i]] + ys[i + 1..];
    assert multiset(xs[..last]) == multiset(xs) - multiset{xs[last]};
    assert multiset(ys[..i] + ys[i + 1..]) == multiset(ys) - multiset{ys[i]};
  }

  // The shared permutation lemma: folding a commuting step sees only the multiset.
  lemma {:induction false} FoldPermutes<S(!new), T(!new)>(step: (S, T) -> S, init: S, xs: seq<T>, ys: seq<T>)
    requires Commuting(step)
    requires multiset(xs) == multiset(ys)
    ensures Fold(step, init, xs) == Fold(step, init, ys)
    decreases |xs|
  {
    if xs == [] {
      assert |ys| == |multiset(ys)| == |multiset(xs)| == 0;
    } else {
      var last := |xs| - 1;
      var i := PlaceOfLast(xs, ys);
      var x, front, back := ys[i], ys[..i], ys[i + 1..];
      FoldPermutes(step, init, xs[..last], front + back);
      FoldAppend(step, init, front, back);
      FoldAppend(step, init, front + [x], back);
      FoldSnoc(step, init, front, x);
      FoldMove(step, Fold(step, init, front), back, x);
    }
  }

  // ---------------------------------------------------------------- map and filter

  function Map<A, B>(f: A -> B, xs: seq<A>): (ys: seq<B>)
    ensures |ys| == |xs|
    ensures forall i :: 0 <= i < |xs| ==> ys[i] == f(xs[i])
  {
    seq(|xs|, i requires 0 <= i < |xs| => f(xs[i]))
  }

  function Filter<T>(p: T -> bool, xs: seq<T>): (ys: seq<T>)
    ensures |ys| <= |xs|
  {
    if xs == [] then [] else
      var rest := Filter(p, xs[..|xs| - 1]);
      if p(xs[|xs| - 1]) then rest + [xs[|xs| - 1]] else rest
  }

  lemma {:induction false} FilterMembers<T(!new)>(p: T -> bool, xs: seq<T>)
    ensures forall y :: y in Filter(p, xs) <==> y in xs && p(y)
  {
    if xs != [] {
      var last := |xs| - 1;
      assert xs == xs[..last] + [xs[last]];
      FilterMembers(p, xs[..last]);
    }
  }

  lemma {:induction false} FilterAppend<T(!new)>(p: T -> bool, xs: seq<T>, ys: seq<T>)
    ensures Filter(p, xs + ys) == Filter(p, xs) + Filter(p, ys)
  {
    if ys == [] {
      assert xs + ys == xs;
    } else {
      var last := |ys| - 1;
      FilterAppend(p, xs, ys[..last]);
      assert (xs + ys)[..|xs + ys| - 1] == xs + ys[..last];
      assert (xs + ys)[|xs + ys| - 1] == ys[last];
    }
  }

  lemma {:induction false} FilterMultiset<T(!new)>(p: T -> bool, xs: seq<T>, x: T)
    ensures multiset(Filter(p, xs))[x] == if p(x) then multiset(xs)[x] else 0
  {
    if xs != [] {
      var last := |xs| - 1;
      assert xs == xs[..last] + [xs[last]];
      FilterMultiset(p, xs[..last], x);
    }
  }

  lemma FilterPermutes<T(!new)>(p: T -> bool, xs: seq<T>, ys: seq<T>)
    requires multiset(xs) == multiset(ys)
    ensures multiset(Filter(p, xs)) == multiset(Filter(p, ys))
  {
    forall x ensures multiset(Filter(p, xs))[x] == multiset(Filter(p, ys))[x] {
      FilterMultiset(p, xs, x);
      FilterMultiset(p, ys, x);
    }
  }

  // Filtering by a property of the image and mapping commute.
  lemma {:induction false} FilterMap<A(!new), B(!new)>(f: A -> B, p: A -> bool, q: B -> bool, xs: seq<A>)
    requires forall x :: x in xs ==> (p(x) <==> q(f(x)))
    ensures Map(f, Filter(p, xs)) == Filter(q, Map(f, xs))
  {
    if xs == [] {
      assert Map(f, xs) == [];
    } else {
      var last := |xs| - 1;
      FilterMap(f, p, q, xs[..last]);
      assert Map(f, xs)[..last] == Map(f, xs[..last]);
      assert xs[last] in xs;
    }
  }

  function AddImage<A, B>(f: A -> B): (multiset<B>, A) -> multiset<B>
  {
    (m, a) => m + multiset{f(a)}
  }

  lemma {:induction false} MapIsFold<A(!new), B(!new)>(f: A -> B, xs: seq<A>)
    ensures multiset(Map(f, xs)) == Fold(AddImage(f), multiset{}, xs)
  {
    if xs == [] {
      assert Map(f, xs) == [];
    } else {
      var last := |xs| - 1;
      MapIsFold(f, xs[..last]);
      assert Map(f, xs) == Map(f, xs[..last]) + [f(xs[last])];
    }
  }

  lemma MapPermutes<A(!new), B(!new)>(f: A -> B, xs: seq<A>, ys: seq<A>)
    requires multiset(xs) == multiset(ys)
    ensures multiset(Map(f, xs)) == multiset(Map(f, ys))
  {
    MapIsFold(f, xs);
    MapIsFold(f, ys);
    forall m, x, y ensures AddImage(f)(AddImage(f)(m, x), y) == AddImage(f)(AddImage(f)(m, y), x) {
      assert m + multiset{f(x)} + multiset{f(y)} == m + multiset{f(y)} + multiset{f(x)};
    }
    FoldPermutes(AddImage(f), multiset{}, xs, ys);
  }

  ghost predicate Distinct<T(!new)>(xs: seq<T>)
  {
    forall i, j :: 0 <= i < j < |xs| ==> xs[i] != xs[j]
  }

  lemma {:induction false} DistinctCounts<T(!new)>(xs: seq<T>)
    requires Distinct(xs)
    ensures forall x :: x in xs ==> multiset(xs)[x] == 1
  {
    forall x | x in xs ensures multiset(xs)[x] == 1 {
      var i :| 0 <= i < |xs| && xs[i] == x;
      assert xs == xs[..i] + [x] + xs[i + 1..];
      assert x !in xs[..i] && x !in xs[i + 1..];
    }
  }

  lemma CountedTwice<T(!new)>(xs: seq<T>, i: nat, j: nat)
    requires i < j < |xs| && xs[i] == xs[j]
    ensures multiset(xs)[xs[i]] >= 2
  {
    var front, back := xs[..j], xs[j..];
    assert xs == front + back;
    assert front[i] in multiset(front) && back[0] in multiset(back);
  }

  lemma DistinctPermutes<T(!new)>(xs: seq<T>, ys: seq<T>)
    requires multiset(xs) == multiset(ys) && Distinct(xs)
    ensures Distinct(ys)
  {
    DistinctCounts(xs);
    PermutationMembers(xs, ys);
    forall i, j | 0 <= i < j < |ys| ensures ys[i] != ys[j] {
      if ys[i] == ys[j] {
        CountedTwice(ys, i, j);
      }
    }
  }

  lemma {:induction false} DistinctSize<T(!new)>(xs: seq<T>, members: set<T>)
    requires Distinct(xs) && forall x :: x in xs <==> x in members
    ensures |xs| == |members|
  {
    if xs == [] {
      assert members == {};
    } else {
      var last := |xs| - 1;
      var t := xs[last];
      assert t in xs;
      forall x ensures x in xs[..last] <==> x in members - {t} {
        assert x in xs[..last] ==> x in xs;
      }
      DistinctSize(xs[..last], members - {t});
    }
  }

  // Distinct sequences with the same members are permutations of each other.
  lemma DistinctSameMembers<T(!new)>(xs: seq<T>, ys: seq<T>)
    requires Distinct(xs) && Distinct(ys)
    requires forall x :: x in xs <==> x in ys
    ensures multiset(xs) == multiset(ys)
  {
    DistinctCounts(xs);
    DistinctCounts(ys);
    forall x ensures multiset(xs)[x] == multiset(ys)[x] {
      if x in xs {
        assert multiset(xs)[x] == 1 && multiset(ys)[x] == 1;
      } else {
        assert x !in multiset(xs) && x !in multiset(ys);
      }
    }
  }

  // ---------------------------------------------------------------- sorting

  // less decides every pair of different members of xs, one way only, transitively.
  ghost predicate Orders<T(!new)>(less: (T, T) -> bool, xs: seq<T>)
  {
    && (forall x, y {:trigger less(x, y)} :: x in xs && y in xs && less(x, y) ==> !less(y, x))
    && (forall x, y {:trigger less(x, y)} :: x in xs && y in xs && x != y ==> less(x, y) || less(y, x))
    && (forall x, y, z {:trigger less(x, y), less(y, z)} ::
          x in xs && y in xs && z in xs && less(x, y) && less(y, z) ==> less(x, z))
  }

  ghost predicate Sorted<T(!new)>(less: (T, T) -> bool, xs: seq<T>)
  {
    forall i, j :: 0 <= i < j < |xs| ==> !less(xs[j], xs[i])
  }

  // The library sort of Go's sort package, which is not part of this model: a stable
  // insertion sort with the same promise.
  function Insert<T>(less: (T, T) -> bool, x: T, xs: seq<T>): (r: seq<T>)
    ensures multiset(r) == multiset{x} + multiset(xs)
  {
    if xs == [] then [x]
    else if !less(xs[0], x) then [x] + xs
    else
      assert xs == [xs[0]] + xs[1..];
      [xs[0]] + Insert(less, x, xs[1..])
  }

  function Sort<T>(less: (T, T) -> bool, xs: seq<T>): (r: seq<T>)
    ensures multiset(r) == multiset(xs)
    ensures |r| == |xs|
  {
    if xs == [] then [] else
      assert xs == [xs[0]] + xs[1..];
      var r := Insert(less, xs[0], Sort(less, xs[1..]));
      assert |r| == |multiset(r)| == |multiset(xs)| == |xs|;
      r
  }

  lemma OrdersMembers<T(!new)>(less: (T, T) -> bool, xs: seq<T>, ys: seq<T>)
    requires Orders(less, xs)
    requires forall y :: y in ys ==> y in xs
    ensures Orders(less, ys)
  {
  }

  lemma PermutationMembers<T(!new)>(xs: seq<T>, ys: seq<T>)
    requires multiset(xs) == multiset(ys)
    ensures forall x :: x in xs <==> x in ys
  {
    forall x ensures x in xs <==> x in ys {
      assert x in xs <==> x in multiset(xs);
      assert x in ys <==> x in multiset(ys);
    }
  }

  lemma {:induction false} InsertSorted<T(!new)>(less: (T, T) -> bool, x: T, xs: seq<T>)
    requires Orders(less, [x] + xs)
    requires Sorted(less, xs)
    ensures Sorted(less, Insert(less, x, xs))
  {
    assert x in [x] + xs;
    assert forall y :: y in xs ==> y in [x] + xs;
    if xs == [] {
    } else if !less(xs[0], x) {
      forall i | 0 <= i < |xs| ensures !less(xs[i], x) {
        assert xs[i] in xs && xs[0] in xs;
      }
    } else {
      OrdersMembers(less, [x] + xs, [x] + xs[1..]);
      InsertSorted(less, x, xs[1..]);
      var rest := Insert(less, x, xs[1..]);
      forall i | 0 <= i < |rest| ensures !less(rest[i], xs[0]) {
        assert rest[i] in multiset(rest);
        if rest[i] != x {
          assert rest[i] in xs[1..];
        }
      }
    }
  }

  lemma {:induction false} SortSorted<T(!new)>(less: (T, T) -> bool, xs: seq<T>)
    requires Orders(less, xs)
    ensures Sorted(less, Sort(less, xs))
  {
    if xs != [] {
      OrdersMembers(less, xs, xs[1..]);
      SortSorted(less, xs[1..]);
      var rest := Sort(less, xs[1..]);
      forall y | y in [xs[0]] + rest ensures y in xs {
        if y in rest {
          assert y in multiset(rest);
        }
      }
      OrdersMembers(less, xs, [xs[0]] + rest);
      InsertSorted(less, xs[0], rest);
    }
  }

  lemma SameHead<T(!new)>(less: (T, T) -> bool, xs: seq<T>, ys: seq<T>)
    requires Orders(less, xs)
    requires xs != [] && ys != [] && forall x :: x in xs <==> x in ys
    requires Sorted(less, xs) && Sorted(less, ys)
    ensures xs[0] == ys[0]
  {
    assert xs[0] in ys && ys[0] in xs;
    var i :| 0 <= i < |ys| && ys[i] == xs[0];
    var j :| 0 <= j < |xs| && xs[j] == ys[0];
    assert i > 0 ==> !less(ys[i], ys[0]);
    assert j > 0 ==> !less(xs[j], xs[0]);
  }

  lemma SortedTail<T(!new)>(less: (T, T) -> bool, xs: seq<T>)
    requires Sorted(less, xs) && xs != []
    ensures Sorted(less, xs[1..])
  {
  }

  lemma PermutedTails<T(!new)>(xs: seq<T>, ys: seq<T>)
    requires multiset(xs) == multiset(ys) && xs != [] && ys != [] && xs[0] == ys[0]
    ensures multiset(xs[1..]) == multiset(ys[1..])
  {
    assert xs == [xs[0]] + xs[1..] && ys == [ys[0]] + ys[1..];
    assert multiset(xs[1..]) == multiset(xs) - multiset{xs[0]};
    assert multiset(ys[1..]) == multiset(ys) - multiset{ys[0]};
  }

  // Two sorted permutations are equal, so any correct sort gives this one result.
  lemma {:induction false} SortedUnique<T(!new)>(less: (T, T) -> bool, xs: seq<T>, ys: seq<T>)
    requires Orders(less, xs)
    requires multiset(xs) == multiset(ys)
    requires Sorted(less, xs) && Sorted(less, ys)
    ensures xs == ys
  {
    hide Orders, Sorted;
    assert |xs| == |multiset(xs)| == |multiset(ys)| == |ys|;
    if xs != [] {
      PermutationMembers(xs, ys);
      SameHead(less, xs, ys);
      PermutedTails(xs, ys);
      SortedTail(less, xs);
      SortedTail(less, ys);
      OrdersMembers(less, xs, xs[1..]);
      SortedUnique(less, xs[1..], ys[1..]);
      assert xs == [xs[0]] + xs[1..] && ys == [ys[0]] + ys[1..];
    }
  }

  lemma SortCanonical<T(!new)>(less: (T, T) -> bool, xs: seq<T>, ys: seq<T>)
    requires Orders(less, xs)
    requires multiset(xs) == multiset(ys)
    ensures Sort(less, xs) == Sort(less, ys)
    ensures Sorted(less, Sort(less, xs))
  {
    PermutationMembers(xs, ys);
    OrdersMembers(less, xs, ys);
    var sorted := Sort(less, xs);
    PermutationMembers(xs, sorted);
    OrdersMembers(less, xs, sorted);
    SortSorted(less, xs);
    SortSorted(less, ys);
    SortedUnique(less, Sort(less, xs), Sort(less, ys));
  }

  // What comes first in the sorted order comes before every other member.
  lemma SortedFirst<T(!new)>(less: (T, T) -> bool, xs: seq<T>)
    requires Orders(less, xs) && xs != []
    ensures Sort(less, xs)[0] in xs
    ensures forall y :: y in xs && y != Sort(less, xs)[0] ==> less(Sort(less, xs)[0], y)
  {
    var sorted := Sort(less, xs);
    SortSorted(less, xs);
    PermutationMembers(xs, sorted);
    assert sorted[0] in sorted;
    forall y | y in xs && y != sorted[0] ensures less(sorted[0], y) {
      var i :| 0 <= i < |sorted| && sorted[i] == y;
      assert !less(sorted[i], sorted[0]);
    }
  }

  // What is kept of a sorted list comes before what is cut off.
  lemma KeptBeforeCut<T(!new)>(less: (T, T) -> bool, xs: seq<T>, n: nat, kept: T, cut: T)
    requires Orders(less, xs)
    requires kept in Take(Sort(less, xs), n) && cut in xs && cut !in Take(Sort(less, xs), n)
    ensures kept in xs && less(kept, cut) && |Take(Sort(less, xs), n)| == n
  {
    var sorted := Sort(less, xs);
    SortSorted(less, xs);
    PermutationMembers(xs, sorted);
    hide Sort;
    var i :| 0 <= i < |sorted| && sorted[i] == cut;
    var head := Take(sorted, n);
    assert forall k :: 0 <= k < |head| ==> sorted[k] == head[k] && head[k] in head;
    var j :| 0 <= j < |head| && head[j] == kept;
    assert !less(sorted[i], sorted[j]);
    assert sorted[j] in sorted;
  }

  lemma MapCons<A(!new), B(!new)>(f: A -> B, x: A, xs: seq<A>)
    ensures Map(f, [x] + xs) == [f(x)] + Map(f, xs)
  {
  }

  lemma {:induction false} InsertMap<A(!new), B(!new)>(f: A -> B, less: (A, A) -> bool, lessB: (B, B) -> bool,
                                                       x: A, xs: seq<A>)
    requires forall a, b :: less(a, b) == lessB(f(a), f(b))
    ensures Map(f, Insert(less, x, xs)) == Insert(lessB, f(x), Map(f, xs))
  {
    if xs != [] {
      var head, rest := xs[0], xs[1..];
      assert xs == [head] + rest;
      MapCons(f, head, rest);
      assert Map(f, xs)[1..] == Map(f, rest);
      if less(head, x) {
        InsertMap(f, less, lessB, x, rest);
        MapCons(f, head, Insert(less, x, rest));
      } else {
        MapCons(f, x, xs);
      }
      hide Map;
    }
  }

  // Sorting by a property of the image and mapping commute.
  lemma {:induction false} SortMap<A(!new), B(!new)>(f: A -> B, less: (A, A) -> bool, lessB: (B, B) -> bool, xs: seq<A>)
    requires forall a, b :: less(a, b) == lessB(f(a), f(b))
    ensures Map(f, Sort(less, xs)) == Sort(lessB, Map(f, xs))
  {
    if xs != [] {
      SortMap(f, less, lessB, xs[1..]);
      InsertMap(f, less, lessB, xs[0], Sort(less, xs[1..]));
      assert Map(f, xs)[1..] == Map(f, xs[1..]);
    }
  }

  // ---------------------------------------------------------------- counting

  function SumInts(xs: seq<int>): int
  {
    if xs == [] then 0 else SumInts(xs[..|xs| - 1]) + xs[|xs| - 1]
  }

  function Count<T>(p: T -> bool, xs: seq<T>): nat
  {
    |Filter(p, xs)|
  }

  lemma CountAppend<T(!new)>(p: T -> bool, xs: seq<T>, x: T)
    ensures Count(p, xs + [x]) == Count(p, xs) + if p(x) then 1 else 0
  {
    assert (xs + [x])[..|xs|] == xs;
  }

  lemma CountUpdate<T(!new)>(p: T -> bool, xs: seq<T>, i: nat, x: T)
    requires i < |xs|
    ensures Count(p, xs[i := x]) == Count(p, xs) - (if p(xs[i]) then 1 else 0) + (if p(x) then 1 else 0)
  {
    var front, back := xs[..i], xs[i + 1..];
    assert xs == (front + [xs[i]]) + back;
    assert xs[i := x] == (front + [x]) + back;
    FilterAppend(p, front + [xs[i]], back);
    FilterAppend(p, front + [x], back);
    FilterAppend(p, front, [xs[i]]);
    FilterAppend(p, front, [x]);
  }

  lemma CountZero<T(!new)>(p: T -> bool, xs: seq<T>)
    ensures Count(p, xs) == 0 <==> forall x :: x in xs ==> !p(x)
  {
    FilterMembers(p, xs);
    var kept := Filter(p, xs);
    if |kept| != 0 {
      assert kept[0] in kept;
    }
  }

  lemma {:induction false} CountTwo<T(!new)>(p: T -> bool, xs: seq<T>, i: nat, j: nat)
    requires i < j < |xs| && p(xs[i]) && p(xs[j])
    ensures Count(p, xs) >= 2
  {
    var front, back := xs[..j], xs[j..];
    assert xs == front + back;
    FilterAppend(p, front, back);
    FilterMembers(p, front);
    FilterMembers(p, back);
    assert front[i] in front && back[0] in back;
    assert front[i] in Filter(p, front) && back[0] in Filter(p, back);
  }

  // ---------------------------------------------------------------- names

  // Go's < on strings.
  predicate NameLess(a: string, b: string)
  {
    if b == [] then false
    else if a == [] then true
    else if a[0] != b[0] then a[0] < b[0]
    else NameLess(a[1..], b[1..])
  }

  lemma {:induction false} NameLessOrders(a: string, b: string, c: string)
    ensures !(NameLess(a, b) && NameLess(b, a))
    ensures a != b ==> NameLess(a, b) || NameLess(b, a)
    ensures NameLess(a, b) && NameLess(b, c) ==> NameLess(a, c)
    decreases |a| + |b| + |c|
  {
    if a != [] && b != [] {
      if c != [] {
        NameLessOrders(a[1..], b[1..], c[1..]);
      } else {
        NameLessOrders(a[1..], b[1..], c);
      }
      if a[0] == b[0] && a[1..] == b[1..] {
        assert a == [a[0]] + a[1..] && b == [b[0]] + b[1..];
      }
    }
  }

  // a comes before b exactly if, after what they share, a has ended or has the smaller character.
  lemma {:induction false} NameLessMeans(a: string, b: string)
    ensures NameLess(a, b) <==>
            exists k :: 0 <= k <= |a| && k < |b| && a[..k] == b[..k] && (k == |a| || a[k] < b[k])
  {
    if a != [] && b != [] {
      NameLessMeans(a[1..], b[1..]);
      if k :| 0 <= k <= |a| && k < |b| && a[..k] == b[..k] && (k == |a| || a[k] < b[k]) {
        if k > 0 {
          assert a[..k][0] == b[..k][0];
          assert a[1..][..k - 1] == a[..k][1..] && b[1..][..k - 1] == b[..k][1..];
        }
      }
      if a[0] < b[0] {
        assert a[..0] == b[..0];
      } else if a[0] == b[0] && NameLess(a[1..], b[1..]) {
        var k :| 0 <= k <= |a[1..]| && k < |b[1..]| && a[1..][..k] == b[1..][..k]
                 && (k == |a[1..]| || a[1..][k] < b[1..][k]);
        assert a[..k + 1] == [a[0]] + a[1..][..k] && b[..k + 1] == [b[0]] + b[1..][..k];
      }
    } else if a == [] && b != [] {
      assert a[..0] == b[..0];
    }
  }

  // Go's order on strings decides every two of them, one way only, transitively.
  lemma NamesAreOrdered()
    ensures forall a, b :: NameLess(a, b) ==> !NameLess(b, a)
    ensures forall a, b {:trigger NameLess(a, b)} :: a != b ==> NameLess(a, b) || NameLess(b, a)
    ensures forall a, b, c :: NameLess(a, b) && NameLess(b, c) ==> NameLess(a, c)
  {
    forall a, b ensures NameLess(a, b) ==> !NameLess(b, a) {
      NameLessOrders(a, b, a);
    }
    forall a, b ensures a != b ==> NameLess(a, b) || NameLess(b, a) {
      NameLessOrders(a, b, a);
    }
    forall a, b, c ensures NameLess(a, b) && NameLess(b, c) ==> NameLess(a, c) {
      NameLessOrders(a, b, c);
    }
  }

  // ---------------------------------------------------------------- sums over finite sets

  ghost function SetSum<K>(s: set<K>, f: K -> real): real
  {
    if s == {} then 0.0 else
      var x :| x in s;
      f(x) + SetSum(s - {x}, f)
  }

  // Whichever member is taken out first, the sum is the same.
  lemma {:induction false} SetSumTake<K(!new)>(s: set<K>, x: K, f: K -> real)
    requires x in s
    ensures SetSum(s, f) == f(x) + SetSum(s - {x}, f)
    decreases |s|
  {
    var y :| y in s && SetSum(s, f) == f(y) + SetSum(s - {y}, f);
    if y != x {
      SetSumTake(s - {y}, x, f);
      SetSumTake(s - {x}, y, f);
      assert s - {y} - {x} == s - {x} - {y};
    }
  }

  lemma SetSumAdd<K(!new)>(s: set<K>, x: K, f: K -> real)
    requires x !in s
    ensures SetSum(s + {x}, f) == f(x) + SetSum(s, f)
  {
    SetSumTake(s + {x}, x, f);
    assert s + {x} - {x} == s;
  }

  lemma {:induction false} SetSumDisjoint<K(!new)>(s: set<K>, t: set<K>, f: K -> real)
    requires s !! t
    ensures SetSum(s + t, f) == SetSum(s, f) + SetSum(t, f)
  {
    if t == {} {
      assert s + t == s;
    } else {
      var x :| x in t;
      SetSumTake(t, x, f);
      SetSumTake(s + t, x, f);
      assert s + t - {x} == s + (t - {x});
      SetSumDisjoint(s, t - {x}, f);
    }
  }

  lemma {:induction false} SetSumEqual<K(!new)>(s: set<K>, f: K -> real, g: K -> real)
    requires forall k :: k in s ==> f(k) == g(k)
    ensures SetSum(s, f) == SetSum(s, g)
  {
    if s != {} {
      var x :| x in s;
      SetSumTake(s, x, f);
      SetSumTake(s, x, g);
      SetSumEqual(s - {x}, f, g);
    }
  }

  lemma {:induction false} SetSumZero<K(!new)>(s: set<K>, f: K -> real)
    requires forall k :: k in s ==> f(k) == 0.0
    ensures SetSum(s, f) == 0.0
  {
    if s != {} {
      var x :| x in s;
      SetSumTake(s, x, f);
      SetSumZero(s - {x}, f);
    }
  }

  function Times(c: real, x: real): real { c * x }

  lemma TimesLaws(c: real, x: real, y: real)
    ensures Times(c, x) + Times(c, y) == Times(c, x + y) && Times(c, 0.0) == 0.0
  {
  }

  lemma {:induction false} SetSumScale<K(!new)>(s: set<K>, f: K -> real, g: K -> real, c: real)
    requires forall k :: k in s ==> g(k) == Times(c, f(k))
    ensures SetSum(s, g) == Times(c, SetSum(s, f))
  {
    hide Times;
    if s == {} {
      TimesLaws(c, 0.0, 0.0);
    } else {
      var x :| x in s;
      SetSumTake(s, x, f);
      SetSumTake(s, x, g);
      SetSumScale(s - {x}, f, g, c);
      TimesLaws(c, f(x), SetSum(s - {x}, f));
    }
  }

  lemma {:induction false} SetSumPlus<K(!new)>(s: set<K>, f: K -> real, g: K -> real, h: K -> real)
    requires forall k :: k in s ==> h(k) == f(k) + g(k)
    ensures SetSum(s, h) == SetSum(s, f) + SetSum(s, g)
  {
    if s != {} {
      var x :| x in s;
      SetSumTake(s, x, f);
      SetSumTake(s, x, g);
      SetSumTake(s, x, h);
      SetSumPlus(s - {x}, f, g, h);
    }
  }

  lemma {:induction false} SetSumMonotone<K(!new)>(s: set<K>, f: K -> real, g: K -> real)
    requires forall k :: k in s ==> f(k) <= g(k)
    ensures SetSum(s, f) <= SetSum(s, g)
    ensures SetSum(s, f) == SetSum(s, g) ==> forall k :: k in s ==> f(k) == g(k)
  {
    if s != {} {
      var x :| x in s;
      SetSumTake(s, x, f);
      SetSumTake(s, x, g);
      SetSumMonotone(s - {x}, f, g);
    }
  }
}
