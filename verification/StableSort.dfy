/** The in-place stable sort the strategies hand their `less` function to. */
module StableSort {

  /** x enters behind s and moves left past every element it is less than. */
  function Insert<T>(s: seq<T>, x: T, less: (T, T) -> bool): seq<T> {
    if s == [] then [x]
    else
      var n := |s| - 1;
      if less(x, s[n]) then Insert(s[..n], x, less) + [s[n]] else s + [x]
  }

  function Sorted<T>(s: seq<T>, less: (T, T) -> bool): seq<T> {
    if s == [] then []
    else Insert(Sorted(s[..|s| - 1], less), s[|s| - 1], less)
  }

  lemma InsertLength<T>(s: seq<T>, x: T, less: (T, T) -> bool)
    ensures |Insert(s, x, less)| == |s| + 1
  {
  }

  lemma SortedLength<T>(s: seq<T>, less: (T, T) -> bool)
    ensures |Sorted(s, less)| == |s|
  {
    if s != [] {
      InsertLength(Sorted(s[..|s| - 1], less), s[|s| - 1], less);
    }
  }

  /** x is on its way left: it has passed p[j..] and still has p[..j] in front of it. */
  ghost predicate Sinking<T>(p: seq<T>, x: T, less: (T, T) -> bool, j: nat)
    requires j <= |p|
  {
    Insert(p, x, less) == Insert(p[..j], x, less) + p[j..]
  }

  lemma {:induction false} SinkStep<T>(p: seq<T>, x: T, less: (T, T) -> bool, j: nat)
    requires 0 < j <= |p| && less(x, p[j - 1]) && Sinking(p, x, less, j)
    ensures Sinking(p, x, less, j - 1)
  {
    assert p[..j][..j - 1] == p[..j - 1];
    assert [p[j - 1]] + p[j..] == p[j - 1..];
  }

  lemma {:induction false} SinkEnd<T>(p: seq<T>, x: T, less: (T, T) -> bool, j: nat)
    requires j <= |p| && Sinking(p, x, less, j)
    requires j > 0 ==> !less(x, p[j - 1])
    ensures Insert(p, x, less) == p[..j] + [x] + p[j..]
  {
  }

  /** One round of insertion: a[i] sinks into the sorted prefix a[..i]. */
  method Sink<T>(a: array<T>, i: nat, less: (T, T) -> bool)
    requires i < a.Length
    modifies a
    ensures a[..i + 1] == Insert(old(a[..i]), old(a[i]), less)
    ensures a[i + 1..] == old(a[i + 1..])
  {
    hide Insert, Sinking;
    ghost var p, x := a[..i], a[i];
    var j := i;
    SinkStart(p, x, less);
    while j > 0 && less(a[j], a[j - 1])
      invariant 0 <= j <= i
      invariant a[..i + 1] == p[..j] + [x] + p[j..]
      invariant a[i + 1..] == old(a[i + 1..])
      invariant Sinking(p, x, less, j)
    {
      assert a[j] == a[..i + 1][j] == x && a[j - 1] == a[..i + 1][j - 1] == p[j - 1];
      SinkStep(p, x, less, j);
      a[j], a[j - 1] := a[j - 1], a[j];
      j := j - 1;
    }
    assert a[j] == a[..i + 1][j] && (j > 0 ==> a[j - 1] == a[..i + 1][j - 1]);
    SinkEnd(p, x, less, j);
  }

  lemma {:induction false} SinkStart<T>(p: seq<T>, x: T, less: (T, T) -> bool)
    ensures Sinking(p, x, less, |p|)
  {
    assert p[..|p|] == p;
  }

  /** Sorts in place; `less` decides who moves in front of whom. */
  method SliceStable<T>(a: array<T>, less: (T, T) -> bool)
    modifies a
    ensures a[..] == Sorted(old(a[..]), less)
  {
    var i := 0;
    while i < a.Length
      invariant 0 <= i <= a.Length
      invariant a[..i] == Sorted(old(a[..i]), less)
      invariant a[i..] == old(a[i..])
    {
      ghost var was := old(a[..]);
      assert was[..i + 1][..i] == was[..i];
      assert a[i] == was[i] == was[i..][0] && old(a[i]) == was[i];
      assert old(a[..i + 1]) == was[..i + 1];
      assert old(a[..i]) == was[..i];
      ghost var rest := a[i + 1..];
      Sink(a, i, less);
      assert rest == was[i..][1..];
      i := i + 1;
    }
    assert a[..] == a[..i] && old(a[..]) == old(a[..i]);
  }

  /** A slice of values sorted through its backing array. */
  method SortSlice<T>(s: seq<T>, less: (T, T) -> bool) returns (sorted: seq<T>)
    ensures sorted == Sorted(s, less)
  {
    var a := new T[|s|](i requires 0 <= i < |s| => s[i]);
    assert a[..] == s;
    SliceStable(a, less);
    sorted := a[..];
  }
}
