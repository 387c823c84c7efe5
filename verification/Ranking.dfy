/** What the sort makes of a host's tasks, whichever of the two comparators is used. */
module Ranking {
  import opened Floats
  import opened Entities
  import opened StableSort

  /** The `less` of cpushares (strict) and of cpuutil (reflexive). */
  predicate MoreWeight(a: Task, b: Task) { Greater(a.weight, b.weight) }

  predicate AtLeastWeight(a: Task, b: Task) { GreaterEq(a.weight, b.weight) }

  ghost predicate NaNFree(s: seq<Task>) {
    forall i :: 0 <= i < |s| ==> !s[i].weight.NaN?
  }

  ghost predicate NonIncreasing(s: seq<Task>) {
    forall i, j :: 0 <= i < j < |s| ==> GreaterEq(s[i].weight, s[j].weight)
  }

  /** The subsequence of tasks that tie on weight w. */
  ghost function WithWeight(s: seq<Task>, w: Float): seq<Task> {
    if s == [] then []
    else
      var n := |s| - 1;
      WithWeight(s[..n], w) + (if s[n].weight == w then [s[n]] else [])
  }

  /** output ranks the tasks of input: heaviest first, ties in input order. */
  ghost predicate IsStableRanking(input: seq<Task>, output: seq<Task>) {
    && NonIncreasing(output)
    && forall w :: WithWeight(output, w) == WithWeight(input, w)
  }

  /** A `less` that puts a in front of b only if a weighs at least as much, and leaves b in front
      only if b weighs at least as much. Both comparators qualify, the reflexive one included. */
  ghost predicate Ranks(less: (Task, Task) -> bool) {
    forall a: Task, b: Task :: !a.weight.NaN? && !b.weight.NaN? ==>
      if less(a, b) then GreaterEq(a.weight, b.weight) else GreaterEq(b.weight, a.weight)
  }

  lemma BothComparatorsRank()
    ensures Ranks(MoreWeight) && Ranks(AtLeastWeight)
  {
  }

  // ----- permutation

  lemma {:induction false} InsertPermutes<T>(s: seq<T>, x: T, less: (T, T) -> bool)
    ensures multiset(Insert(s, x, less)) == multiset(s) + multiset{x}
  {
    if s != [] {
      var n := |s| - 1;
      assert s == s[..n] + [s[n]];
      InsertPermutes(s[..n], x, less);
    }
  }

  /** Sorting loses and invents nothing, whatever the comparator does. */
  lemma {:induction false} SortedPermutes<T>(s: seq<T>, less: (T, T) -> bool)
    ensures multiset(Sorted(s, less)) == multiset(s)
  {
    if s != [] {
      var n := |s| - 1;
      assert s == s[..n] + [s[n]];
      SortedPermutes(s[..n], less);
      InsertPermutes(Sorted(s[..n], less), s[n], less);
    }
  }

  lemma PermutationMembers<T>(s: seq<T>, t: seq<T>)
    requires multiset(s) == multiset(t)
    ensures |s| == |t|
    ensures forall x :: x in s <==> x in t
  {
    assert |s| == |multiset(s)| == |multiset(t)| == |t|;
    forall x ensures x in s <==> x in t {
      assert x in s <==> x in multiset(s);
      assert x in t <==> x in multiset(t);
    }
  }

  lemma PermutationNaNFree(s: seq<Task>, t: seq<Task>)
    requires multiset(s) == multiset(t)
    ensures NaNFree(s) <==> NaNFree(t)
  {
    PermutationMembers(s, t);
    assert NaNFree(s) <==> forall x :: x in s ==> !x.weight.NaN?;
    assert NaNFree(t) <==> forall x :: x in t ==> !x.weight.NaN?;
  }

  // ----- order

  lemma {:induction false} InsertNonIncreasing(s: seq<Task>, x: Task, less: (Task, Task) -> bool)
    requires Ranks(less) && NaNFree(s) && !x.weight.NaN? && NonIncreasing(s)
    ensures NonIncreasing(Insert(s, x, less)) && NaNFree(Insert(s, x, less))
  {
    if s != [] {
      var n := |s| - 1;
      var r := Insert(s, x, less);
      if less(x, s[n]) {
        InsertNonIncreasing(s[..n], x, less);
        InsertPermutes(s[..n], x, less);
        var t := Insert(s[..n], x, less);
        forall i | 0 <= i < |t| ensures GreaterEq(t[i].weight, s[n].weight) {
          assert t[i] in multiset(s[..n]) + multiset{x};
        }
      } else {
        forall i | 0 <= i < |s| ensures GreaterEq(s[i].weight, x.weight) {
          GreaterEqTotalPreorder(s[i].weight, s[n].weight, x.weight);
        }
      }
    }
  }

  /** Without NaN the sort delivers non-increasing weights, even though `>=` is not a strict order. */
  lemma {:induction false} SortedNonIncreasing(s: seq<Task>, less: (Task, Task) -> bool)
    requires Ranks(less) && NaNFree(s)
    ensures NonIncreasing(Sorted(s, less)) && NaNFree(Sorted(s, less))
  {
    if s != [] {
      var n := |s| - 1;
      SortedNonIncreasing(s[..n], less);
      InsertNonIncreasing(Sorted(s[..n], less), s[n], less);
    }
  }

  /** A NaN next to anything else defeats every arrangement. */
  lemma NonIncreasingExcludesNaN(s: seq<Task>)
    requires |s| > 1 && NonIncreasing(s)
    ensures NaNFree(s)
  {
    forall i | 0 <= i < |s| ensures !s[i].weight.NaN? {
      if i == 0 {
        assert GreaterEq(s[0].weight, s[1].weight);
      } else {
        assert GreaterEq(s[0].weight, s[i].weight);
      }
    }
  }

  /** Exactly when the sorted list is non-increasing. */
  lemma SortedNonIncreasingIff(s: seq<Task>, less: (Task, Task) -> bool)
    requires Ranks(less)
    ensures NonIncreasing(Sorted(s, less)) <==> |s| <= 1 || NaNFree(s)
  {
    SortedPermutes(s, less);
    PermutationMembers(s, Sorted(s, less));
    PermutationNaNFree(s, Sorted(s, less));
    if NaNFree(s) {
      SortedNonIncreasing(s, less);
    } else if |s| > 1 && NonIncreasing(Sorted(s, less)) {
      NonIncreasingExcludesNaN(Sorted(s, less));
    }
  }

  // ----- stability and uniqueness

  lemma {:induction false} WithWeightPush(s: seq<Task>, x: Task, w: Float)
    ensures WithWeight(s + [x], w) == WithWeight(s, w) + (if x.weight == w then [x] else [])
  {
  }

  lemma {:induction false} InsertStable(s: seq<Task>, x: Task, w: Float)
    ensures WithWeight(Insert(s, x, MoreWeight), w) == WithWeight(s + [x], w)
  {
    hide WithWeight;
    if s != [] && MoreWeight(x, s[|s| - 1]) {
      var n := |s| - 1;
      assert s == s[..n] + [s[n]];
      InsertStable(s[..n], x, w);
      WithWeightPush(Insert(s[..n], x, MoreWeight), s[n], w);
      WithWeightPush(s[..n], x, w);
      WithWeightPush(s[..n], s[n], w);
      WithWeightPush(s, x, w);
    } else {
      assert s == [] ==> s + [x] == [x];
    }
  }

  /** With the strict comparator ties keep their order. */
  lemma {:induction false} SortedStable(s: seq<Task>, w: Float)
    ensures WithWeight(Sorted(s, MoreWeight), w) == WithWeight(s, w)
  {
    if s != [] {
      var n := |s| - 1;
      var t := Sorted(s[..n], MoreWeight);
      SortedStable(s[..n], w);
      InsertStable(t, s[n], w);
      WithWeightPush(t, s[n], w);
    }
  }

  lemma SortedIsStableRanking(s: seq<Task>)
    requires NaNFree(s)
    ensures IsStableRanking(s, Sorted(s, MoreWeight))
  {
    SortedNonIncreasing(s, MoreWeight);
    forall w ensures WithWeight(Sorted(s, MoreWeight), w) == WithWeight(s, w) {
      SortedStable(s, w);
    }
  }

  lemma {:induction false} WithWeightMembers(s: seq<Task>, w: Float)
    ensures forall x :: x in WithWeight(s, w) <==> x in s && x.weight == w
  {
    if s != [] {
      var n := |s| - 1;
      assert s == s[..n] + [s[n]];
      WithWeightMembers(s[..n], w);
    }
  }

  lemma SameMembers(a: seq<Task>, b: seq<Task>)
    requires forall w :: WithWeight(a, w) == WithWeight(b, w)
    ensures forall x :: x in a <==> x in b
    ensures a == [] <==> b == []
  {
    forall x ensures x in a <==> x in b {
      WithWeightMembers(a, x.weight);
      WithWeightMembers(b, x.weight);
    }
    assert a != [] ==> a[0] in b;
    assert b != [] ==> b[0] in a;
  }

  lemma LastWithWeight(s: seq<Task>)
    requires s != []
    ensures var x := s[|s| - 1];
            var ties := WithWeight(s, x.weight);
            ties != [] && ties[|ties| - 1] == x
  {
  }

  /** Both last elements carry the least weight, and are the last of their group of ties. */
  lemma {:induction false} SameLast(a: seq<Task>, b: seq<Task>)
    requires NaNFree(a) && NonIncreasing(a) && NonIncreasing(b) && a != [] && b != []
    requires forall w :: WithWeight(a, w) == WithWeight(b, w)
    ensures a[|a| - 1] == b[|b| - 1]
  {
    hide WithWeight;
    SameMembers(a, b);
    var m, n := |a| - 1, |b| - 1;
    var x, y := a[m], b[n];
    assert x in b && y in a;
    var i :| 0 <= i <= m && a[i] == y;
    var j :| 0 <= j <= n && b[j] == x;
    GreaterEqTotalPreorder(x.weight, y.weight, y.weight);
    assert x.weight == y.weight;
    LastWithWeight(a);
    LastWithWeight(b);
  }

  lemma {:induction false} DropLast(s: seq<Task>, t: seq<Task>, x: Task, w: Float)
    requires WithWeight(s + [x], w) == WithWeight(t + [x], w)
    ensures WithWeight(s, w) == WithWeight(t, w)
  {
    hide WithWeight;
    WithWeightPush(s, x, w);
    WithWeightPush(t, x, w);
    var c, d, last := WithWeight(s, w), WithWeight(t, w), if x.weight == w then [x] else [];
    assert c == (c + last)[..|c|] && d == (d + last)[..|d|];
  }

  /** Two non-increasing lists that agree on every group of ties are the same list. */
  lemma {:induction false} StableRankingUnique(a: seq<Task>, b: seq<Task>)
    requires NaNFree(a) && NonIncreasing(a) && NonIncreasing(b)
    requires forall w :: WithWeight(a, w) == WithWeight(b, w)
    ensures a == b
    decreases |a|
  {
    hide WithWeight;
    SameMembers(a, b);
    if a != [] {
      SameLast(a, b);
      var m, n := |a| - 1, |b| - 1;
      assert a == a[..m] + [a[m]] && b == b[..n] + [a[m]];
      forall w ensures WithWeight(a[..m], w) == WithWeight(b[..n], w) {
        DropLast(a[..m], b[..n], a[m], w);
      }
      StableRankingUnique(a[..m], b[..n]);
    }
  }

  /** The sort's result is the only stable ranking of its input. */
  lemma StableRankingIsSorted(input: seq<Task>, output: seq<Task>)
    requires NaNFree(input)
    ensures IsStableRanking(input, output) <==> output == Sorted(input, MoreWeight)
  {
    SortedIsStableRanking(input);
    if IsStableRanking(input, output) {
      SortedNonIncreasing(input, MoreWeight);
      StableRankingUnique(Sorted(input, MoreWeight), output);
    }
  }

  // ----- the weights of a ranking do not depend on the arrangement of its input

  ghost function Weights(s: seq<Task>): seq<Float> {
    seq(|s|, i requires 0 <= i < |s| => s[i].weight)
  }

  ghost function Without<T>(s: seq<T>, k: nat): seq<T>
    requires k < |s|
  {
    s[..k] + s[k + 1..]
  }

  lemma WithoutMultiset<T>(s: seq<T>, k: nat)
    requires k < |s|
    ensures multiset(s) == multiset(Without(s, k)) + multiset{s[k]}
  {
    assert s == s[..k] + [s[k]] + s[k + 1..];
  }

  /** Lists with the same elements, shortened by one occurrence of the same element. */
  lemma WithoutSame<T>(a: seq<T>, i: nat, b: seq<T>, j: nat)
    requires i < |a| && j < |b| && a[i] == b[j] && multiset(a) == multiset(b)
    ensures multiset(Without(a, i)) == multiset(Without(b, j))
  {
    WithoutMultiset(a, i);
    WithoutMultiset(b, j);
    assert multiset(Without(a, i)) == multiset(a) - multiset{a[i]};
    assert multiset(Without(b, j)) == multiset(b) - multiset{b[j]};
  }

  lemma {:induction false} WeightsPermute(a: seq<Task>, b: seq<Task>)
    requires multiset(a) == multiset(b)
    ensures multiset(Weights(a)) == multiset(Weights(b))
    decreases |a|
  {
    PermutationMembers(a, b);
    if a != [] {
      assert a[0] in b;
      var k :| 0 <= k < |b| && b[k] == a[0];
      WithoutSame(a, 0, b, k);
      WeightsPermute(Without(a, 0), Without(b, k));
      assert Weights(Without(a, 0)) == Without(Weights(a), 0);
      assert Weights(Without(b, k)) == Without(Weights(b), k);
      WithoutMultiset(Weights(a), 0);
      WithoutMultiset(Weights(b), k);
    }
  }

  ghost predicate Descending(s: seq<Float>) {
    forall i, j :: 0 <= i < j < |s| ==> GreaterEq(s[i], s[j])
  }

  lemma DescendingSameLast(a: seq<Float>, b: seq<Float>)
    requires multiset(a) == multiset(b) && Descending(a) && Descending(b) && a != []
    ensures |a| == |b| && a[|a| - 1] == b[|b| - 1]
  {
    PermutationMembers(a, b);
    var n := |a| - 1;
    assert a[n] in b && b[n] in a;
    var i :| 0 <= i <= n && a[i] == b[n];
    var j :| 0 <= j <= n && b[j] == a[n];
    if i < n && j < n {
      assert GreaterEq(b[n], a[n]) && GreaterEq(a[n], b[n]);
      GreaterEqTotalPreorder(a[n], b[n], b[n]);
    }
  }

  lemma {:induction false} DescendingUnique(a: seq<Float>, b: seq<Float>)
    requires multiset(a) == multiset(b) && Descending(a) && Descending(b)
    ensures a == b
    decreases |a|
  {
    hide GreaterEq;
    PermutationMembers(a, b);
    if a != [] {
      var n := |a| - 1;
      DescendingSameLast(a, b);
      WithoutSame(a, n, b, n);
      assert Without(a, n) == a[..n] && Without(b, n) == b[..n];
      DescendingUnique(a[..n], b[..n]);
      assert a == a[..n] + [a[n]] && b == b[..n] + [b[n]];
    }
  }

  /** Only ties can be arranged differently: two rankings of the same tasks show the same weights. */
  lemma RankingsShareWeights(a: seq<Task>, b: seq<Task>)
    requires multiset(a) == multiset(b) && NonIncreasing(a) && NonIncreasing(b)
    ensures Weights(a) == Weights(b)
  {
    WeightsPermute(a, b);
    DescendingUnique(Weights(a), Weights(b));
  }

  // ----- arrangements of lists with NaN

  ghost predicate AllNaN(s: seq<Task>) {
    forall i :: 0 <= i < |s| ==> s[i].weight.NaN?
  }

  /** Every arrangement of the tasks of s is sorted by the reflexive comparator into the same weights. */
  ghost predicate ArrangementIrrelevant(s: seq<Task>) {
    forall t :: multiset(t) == multiset(s) ==> Weights(Sorted(t, AtLeastWeight)) == Weights(Sorted(s, AtLeastWeight))
  }

  /** Nothing moves past a NaN. */
  lemma {:induction false} InsertBehindNaN(s: seq<Task>, x: Task, k: nat)
    requires k < |s| && s[k].weight.NaN?
    ensures |Insert(s, x, AtLeastWeight)| == |s| + 1 && Insert(s, x, AtLeastWeight)[..k + 1] == s[..k + 1]
  {
    InsertLength(s, x, AtLeastWeight);
    var n := |s| - 1;
    if AtLeastWeight(x, s[n]) {
      InsertBehindNaN(s[..n], x, k);
      InsertLength(s[..n], x, AtLeastWeight);
      assert Insert(s, x, AtLeastWeight)[..k + 1] == Insert(s[..n], x, AtLeastWeight)[..k + 1];
    }
  }

  lemma SortedPush(s: seq<Task>, x: Task, less: (Task, Task) -> bool)
    ensures Sorted(s + [x], less) == Insert(Sorted(s, less), x, less)
  {
    assert (s + [x])[..|s|] == s;
  }

  /** A sorted beginning that ends in NaN stays where it is. */
  lemma {:induction false} SortedBehindNaN(p: seq<Task>, rest: seq<Task>)
    requires p != [] && p[|p| - 1].weight.NaN? && Sorted(p, AtLeastWeight) == p
    ensures |Sorted(p + rest, AtLeastWeight)| == |p + rest| && Sorted(p + rest, AtLeastWeight)[..|p|] == p
  {
    hide Sorted, Insert;
    SortedLength(p + rest, AtLeastWeight);
    if rest == [] {
      assert p + rest == p;
    } else {
      var n := |rest| - 1;
      var t := Sorted(p + rest[..n], AtLeastWeight);
      SortedBehindNaN(p, rest[..n]);
      assert t[|p| - 1] == t[..|p|][|p| - 1];
      InsertBehindNaN(t, rest[n], |p| - 1);
      SortedPush(p + rest[..n], rest[n], AtLeastWeight);
      assert p + rest == p + rest[..n] + [rest[n]];
    }
  }

  lemma {:induction false} NaNFirst(n: Task, a: Task, rest: seq<Task>)
    requires n.weight.NaN? && !a.weight.NaN?
    ensures Weights(Sorted([n, a] + rest, AtLeastWeight)) != Weights(Sorted([a, n] + rest, AtLeastWeight))
  {
    assert [n] + ([a] + rest) == [n, a] + rest;
    assert [n][..0] == [] && Sorted([n], AtLeastWeight) == [n];
    SortedBehindNaN([n], [a] + rest);
    assert [a, n][..1] == [a] && [a][..0] == [];
    assert Sorted([a], AtLeastWeight) == [a] && Sorted([a, n], AtLeastWeight) == [a, n];
    SortedBehindNaN([a, n], rest);
    var s, t := Sorted([n, a] + rest, AtLeastWeight), Sorted([a, n] + rest, AtLeastWeight);
    assert s[0] == s[..1][0] == n && t[0] == t[..2][0] == a;
    assert Weights(s)[0] != Weights(t)[0];
  }

  lemma {:induction false} AllNaNWeights(s: seq<Task>, t: seq<Task>)
    requires AllNaN(s) && multiset(t) == multiset(s)
    ensures Weights(Sorted(t, AtLeastWeight)) == Weights(Sorted(s, AtLeastWeight))
  {
    var s', t' := Sorted(s, AtLeastWeight), Sorted(t, AtLeastWeight);
    SortedPermutes(s, AtLeastWeight);
    SortedPermutes(t, AtLeastWeight);
    PermutationMembers(s', s);
    PermutationMembers(t', s);
    forall i | 0 <= i < |s'| ensures s'[i].weight == NaN && t'[i].weight == NaN {
      assert s'[i] in s && t'[i] in s;
    }
  }

  lemma {:induction false} NaNFreeWeights(s: seq<Task>, t: seq<Task>)
    requires NaNFree(s) && multiset(t) == multiset(s)
    ensures Weights(Sorted(t, AtLeastWeight)) == Weights(Sorted(s, AtLeastWeight))
  {
    BothComparatorsRank();
    SortedPermutes(s, AtLeastWeight);
    SortedPermutes(t, AtLeastWeight);
    PermutationNaNFree(s, t);
    SortedNonIncreasing(s, AtLeastWeight);
    SortedNonIncreasing(t, AtLeastWeight);
    RankingsShareWeights(Sorted(t, AtLeastWeight), Sorted(s, AtLeastWeight));
  }

  /** Two chosen elements can be put in front, in either order. */
  lemma BringForward<T>(s: seq<T>, i: nat, j: nat) returns (rest: seq<T>)
    requires i < |s| && j < |s| && i != j
    ensures multiset([s[i], s[j]] + rest) == multiset(s) == multiset([s[j], s[i]] + rest)
  {
    var t := Without(s, i);
    var k := if j < i then j else j - 1;
    assert t[k] == s[j];
    rest := Without(t, k);
    WithoutMultiset(s, i);
    WithoutMultiset(t, k);
    BothInFront(s[i], s[j], rest);
  }

  lemma BothInFront<T>(x: T, y: T, rest: seq<T>)
    ensures multiset([x, y] + rest) == multiset(rest) + multiset{x} + multiset{y} == multiset([y, x] + rest)
  {
    assert [x, y] + rest == [x] + ([y] + rest) && [y, x] + rest == [y] + ([x] + rest);
  }

  /** A NaN and a number among the tasks: two arrangements that differ in their first element. */
  lemma {:induction false} MixedArrangements(s: seq<Task>, i: nat, j: nat)
    requires i < |s| && j < |s| && s[i].weight.NaN? && !s[j].weight.NaN?
    ensures !ArrangementIrrelevant(s)
  {
    hide Sorted, Weights;
    var rest := BringForward(s, i, j);
    NaNFirst(s[i], s[j], rest);
  }

  /** Exactly when the weights of the sorted list do not depend on the order in which the tasks came. */
  lemma ArrangementIrrelevantIff(s: seq<Task>)
    ensures ArrangementIrrelevant(s) <==> NaNFree(s) || AllNaN(s)
  {
    if NaNFree(s) || AllNaN(s) {
      forall t | multiset(t) == multiset(s)
        ensures Weights(Sorted(t, AtLeastWeight)) == Weights(Sorted(s, AtLeastWeight))
      {
        if NaNFree(s) {
          NaNFreeWeights(s, t);
        } else {
          AllNaNWeights(s, t);
        }
      }
    } else {
      var i :| 0 <= i < |s| && s[i].weight.NaN?;
      var j :| 0 <= j < |s| && !s[j].weight.NaN?;
      MixedArrangements(s, i, j);
    }
  }

  // ----- stable rankings of lists with NaN

  lemma {:induction false} WithWeightCounts(s: seq<Task>, x: Task)
    ensures multiset(WithWeight(s, x.weight))[x] == multiset(s)[x]
  {
    if s != [] {
      var n := |s| - 1;
      assert s == s[..n] + [s[n]];
      WithWeightCounts(s[..n], x);
    }
  }

  lemma {:induction false} SameGroupsPermute(a: seq<Task>, b: seq<Task>)
    requires forall w :: WithWeight(a, w) == WithWeight(b, w)
    ensures multiset(a) == multiset(b)
  {
    hide WithWeight;
    forall x: Task ensures multiset(a)[x] == multiset(b)[x] {
      WithWeightCounts(a, x);
      WithWeightCounts(b, x);
      assert WithWeight(a, x.weight) == WithWeight(b, x.weight);
    }
  }

  lemma {:induction false} SortedSingleton(s: seq<Task>)
    requires |s| <= 1
    ensures Sorted(s, MoreWeight) == s
  {
    if s != [] {
      assert s[..0] == [];
    }
  }

  /** A stable ranking exists unless NaN has company, and then it is what the sort delivers and nothing else. */
  lemma StableRankingIff(input: seq<Task>, output: seq<Task>)
    ensures IsStableRanking(input, output) <==>
              output == Sorted(input, MoreWeight) && (|input| <= 1 || NaNFree(input))
  {
    if IsStableRanking(input, output) {
      SameGroupsPermute(input, output);
      PermutationMembers(input, output);
      if |input| <= 1 {
        SortedSingleton(input);
        assert input != [] ==> output[0] in input;
        assert output == input;
      } else {
        NonIncreasingExcludesNaN(output);
        PermutationNaNFree(input, output);
        StableRankingIsSorted(input, output);
      }
    } else if |input| <= 1 {
      SortedSingleton(input);
    } else if NaNFree(input) {
      SortedIsStableRanking(input);
    }
  }
}
