/** The library sort the repository calls: in place, by a comparison, ties in any order. */
module Sorting {

  /** A comparison sorting makes sense by: asymmetric, and ties are transitive. */
  ghost predicate Compares<T(!new)>(less: (T, T) -> bool) {
    && (forall a, b :: !(less(a, b) && less(b, a)))
    && (forall a, b, c :: less(a, c) ==> less(a, b) || less(b, c))
  }

  predicate Sorted<T>(s: seq<T>, less: (T, T) -> bool) {
    forall i, j | 0 <= i < j < |s| :: !less(s[j], s[i])
  }

  /** Insertion from the end, and the sort it makes. */
  function Insert<T>(s: seq<T>, x: T, less: (T, T) -> bool): seq<T> {
    if s == [] || !less(x, s[|s| - 1]) then s + [x]
    else Insert(s[..|s| - 1], x, less) + [s[|s| - 1]]
  }

  function Sort<T>(s: seq<T>, less: (T, T) -> bool): seq<T> {
    if s == [] then [] else Insert(Sort(s[..|s| - 1], less), s[|s| - 1], less)
  }

  lemma {:induction false} InsertAdds<T>(s: seq<T>, x: T, less: (T, T) -> bool)
    ensures multiset(Insert(s, x, less)) == multiset(s) + multiset{x}
    decreases |s|
  {
    if s != [] && less(x, s[|s| - 1]) {
      InsertAdds(s[..|s| - 1], x, less);
      assert s == s[..|s| - 1] + [s[|s| - 1]];
    }
  }

  lemma {:induction false} SortPermutes<T>(s: seq<T>, less: (T, T) -> bool)
    ensures multiset(Sort(s, less)) == multiset(s)
    decreases |s|
  {
    if s != [] {
      SortPermutes(s[..|s| - 1], less);
      InsertAdds(Sort(s[..|s| - 1], less), s[|s| - 1], less);
      assert s == s[..|s| - 1] + [s[|s| - 1]];
    }
  }

  lemma NotBefore<T(!new)>(a: T, b: T, c: T, less: (T, T) -> bool)
    requires Compares(less) && !less(a, b) && !less(b, c)
    ensures !less(a, c)
  {
  }

  lemma {:induction false} InsertSorts<T(!new)>(s: seq<T>, x: T, less: (T, T) -> bool)
    requires Compares(less) && Sorted(s, less)
    ensures Sorted(Insert(s, x, less), less)
    decreases |s|
  {
    if s == [] {
    } else if !less(x, s[|s| - 1]) {
      var last := s[|s| - 1];
      forall i | 0 <= i < |s| ensures !less(x, s[i]) {
        if i < |s| - 1 { NotBefore(x, last, s[i], less); }
      }
    } else {
      var init, last := s[..|s| - 1], s[|s| - 1];
      InsertSorts(init, x, less);
      InsertAdds(init, x, less);
      var inserted := Insert(init, x, less);
      forall i | 0 <= i < |inserted| ensures !less(last, inserted[i]) {
        assert inserted[i] in multiset(inserted);
        assert inserted[i] == x || inserted[i] in init;
      }
    }
  }

  lemma {:induction false} SortSorts<T(!new)>(s: seq<T>, less: (T, T) -> bool)
    requires Compares(less)
    ensures Sorted(Sort(s, less), less)
    decreases |s|
  {
    if s != [] {
      SortSorts(s[..|s| - 1], less);
      InsertSorts(Sort(s[..|s| - 1], less), s[|s| - 1], less);
    }
  }

  predicate NoRepeats<T(==)>(s: seq<T>) {
    forall i, j | 0 <= i < j < |s| :: s[i] != s[j]
  }

  lemma {:induction false} OnceEach<T>(s: seq<T>, x: T)
    requires NoRepeats(s)
    ensures multiset(s)[x] <= 1
    decreases |s|
  {
    if s != [] {
      assert s == [s[0]] + s[1..];
      OnceEach(s[1..], x);
      if s[0] == x {
        forall i | 0 <= i < |s[1..]| ensures s[1..][i] != x { assert s[0] != s[i + 1]; }
        assert x !in s[1..];
      }
    }
  }

  lemma CountedTwice<T>(s: seq<T>, i: nat, j: nat)
    requires i < j < |s|
    ensures s[i] == s[j] ==> multiset(s)[s[i]] >= 2
  {
    assert s == s[..i] + [s[i]] + s[i + 1..j] + [s[j]] + s[j + 1..];
  }

  /** Sorting brings no repetition. */
  lemma NoRepeatsIsOrderFree<T>(a: seq<T>, b: seq<T>)
    requires multiset(a) == multiset(b) && NoRepeats(a)
    ensures NoRepeats(b)
  {
    forall i, j | 0 <= i < j < |b| ensures b[i] != b[j] {
      CountedTwice(b, i, j);
      OnceEach(a, b[i]);
    }
  }

  lemma {:induction false} InsertAt<T>(s: seq<T>, x: T, less: (T, T) -> bool, j: nat)
    requires j <= |s|
    requires j == 0 || !less(x, s[j - 1])
    requires forall k | j <= k < |s| :: less(x, s[k])
    ensures Insert(s, x, less) == s[..j] + [x] + s[j..]
    decreases |s|
  {
    if j < |s| {
      var init := s[..|s| - 1];
      InsertAt(init, x, less, j);
      assert init[..j] == s[..j] && init[j..] + [s[|s| - 1]] == s[j..];
    }
  }

  /** Put element `n` in its place among the first `n`, shifting in place. */
  method InsertInPlace<T>(a: array<T>, less: (T, T) -> bool, n: nat)
    requires n < a.Length
    modifies a
    ensures a[..n + 1] == Insert(old(a[..n]), old(a[n]), less)
    ensures forall k | n < k < a.Length :: a[k] == old(a[k])
  {
    hide Insert;
    var x := a[n];
    var j := n;
    ghost var before := a[..n];
    while j > 0 && less(x, a[j - 1])
      invariant 0 <= j <= n
      invariant forall k | 0 <= k < j :: a[k] == before[k]
      invariant forall k | j < k <= n :: a[k] == before[k - 1]
      invariant forall k | n < k < a.Length :: a[k] == old(a[k])
      invariant forall k | j <= k < n :: less(x, before[k])
    {
      a[j] := a[j - 1];
      j := j - 1;
    }
    a[j] := x;
    InsertAt(before, x, less, j);
    assert a[..n + 1] == before[..j] + [x] + before[j..];
  }

  lemma SortStep<T>(s: seq<T>, less: (T, T) -> bool, n: nat)
    requires n < |s|
    ensures Sort(s[..n + 1], less) == Insert(Sort(s[..n], less), s[n], less)
  {
    assert s[..n + 1][..n] == s[..n];
  }

  lemma EmptySort<T>(less: (T, T) -> bool)
    ensures Sort([], less) == []
  {
  }

  /** slices.SortFunc and sort.Slice. */
  method SortInPlace<T>(a: array<T>, less: (T, T) -> bool)
    modifies a
    ensures a[..] == Sort(old(a[..]), less)
  {
    hide Insert, Sort;
    var n := 0;
    ghost var was := a[..];
    EmptySort(less);
    assert a[..0] == [] && was[..0] == [];
    while n < a.Length
      invariant 0 <= n <= a.Length
      invariant a[..n] == Sort(was[..n], less)
      invariant forall k | n <= k < a.Length :: a[k] == was[k]
    {
      SortStep(was, less, n);
      InsertInPlace(a, less, n);
      n := n + 1;
    }
    assert a[..n] == a[..] && was[..n] == was;
  }

  /** Clone, then sort the clone in place. */
  method SortClone<T(!new)>(s: seq<T>, less: (T, T) -> bool) returns (sorted: seq<T>)
    requires Compares(less)
    ensures sorted == Sort(s, less)
    ensures Sorted(sorted, less) && multiset(sorted) == multiset(s)
  {
    var clone := new T[|s|](i requires 0 <= i < |s| => s[i]);
    assert clone[..] == s;
    SortInPlace(clone, less);
    sorted := clone[..];
    SortPermutes(s, less);
    SortSorts(s, less);
  }
}
