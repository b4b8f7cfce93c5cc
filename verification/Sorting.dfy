// Rearranging in place: insertion sort by any order in which ties are transitive.
module Sorting {

  // ---------- Rearrangements ----------

  ghost predicate Perm<T>(s: seq<T>, t: seq<T>) { multiset(s) == multiset(t) }

  lemma PermSelf<T>(s: seq<T>)
    ensures Perm(s, s)
  {
  }

  lemma PermChain<T>(s: seq<T>, t: seq<T>, u: seq<T>)
    requires Perm(s, t) && Perm(t, u)
    ensures Perm(s, u)
  {
  }

  ghost function Swapped<T>(s: seq<T>, j: nat): seq<T>
    requires 0 < j < |s|
  {
    s[j - 1 := s[j]][j := s[j - 1]]
  }

  lemma SwapPerm<T>(s: seq<T>, j: nat)
    requires 0 < j < |s|
    ensures Perm(Swapped(s, j), s)
  {
  }

  lemma SwappedPrefix<T>(s: seq<T>, j: nat, n: nat)
    requires 0 < j < n <= |s|
    ensures Swapped(s, j)[..n] == Swapped(s[..n], j)
  {
  }

  // ---------- Orders ----------

  ghost predicate IsOrder<T(!new)>(ahead: (T, T) -> bool) {
    && (forall x, y :: ahead(x, y) ==> !ahead(y, x))
    && (forall x, y, z :: !ahead(y, x) && !ahead(z, y) ==> !ahead(z, x))
  }

  // Nothing comes after something it should be ahead of.
  ghost predicate Sorted<T>(s: seq<T>, ahead: (T, T) -> bool) {
    forall i, j :: 0 <= i < j < |s| ==> !ahead(s[j], s[i])
  }

  // All but the element at j are in order, and it is not behind those after it.
  ghost predicate Sliding<T>(s: seq<T>, ahead: (T, T) -> bool, j: nat) {
    && j < |s|
    && (forall p, q :: 0 <= p < q < |s| && p != j && q != j ==> !ahead(s[q], s[p]))
    && (forall q :: j < q < |s| ==> !ahead(s[q], s[j]))
  }

  lemma SlideStart<T>(s: seq<T>, ahead: (T, T) -> bool, x: T)
    requires Sorted(s, ahead)
    ensures Sliding(s + [x], ahead, |s|)
  {
  }

  lemma SlideStep<T(!new)>(s: seq<T>, ahead: (T, T) -> bool, j: nat)
    requires IsOrder(ahead) && Sliding(s, ahead, j) && j > 0 && ahead(s[j], s[j - 1])
    ensures Sliding(Swapped(s, j), ahead, j - 1)
  {
  }

  lemma SlideDone<T(!new)>(s: seq<T>, ahead: (T, T) -> bool, j: nat)
    requires IsOrder(ahead) && Sliding(s, ahead, j) && (j > 0 ==> !ahead(s[j], s[j - 1]))
    ensures Sorted(s, ahead)
  {
    forall p, q | 0 <= p < q < |s|
      ensures !ahead(s[q], s[p])
    {
      if q == j && p < j - 1 { assert !ahead(s[j - 1], s[p]); }
    }
  }

  // ---------- Insertion sort ----------

  // The first n elements are still the same ones, and element j is on its way down.
  ghost predicate Midway<T>(s: seq<T>, start: seq<T>, ahead: (T, T) -> bool, n: nat, i: nat, j: nat) {
    i < n <= |s| == |start| && j <= i && Perm(s[..n], start[..n]) && Sliding(s[..i + 1], ahead, j)
  }

  lemma MidwayStarts<T>(s: seq<T>, ahead: (T, T) -> bool, n: nat, i: nat)
    requires i < n <= |s| && Sorted(s[..i], ahead)
    ensures Midway(s, s, ahead, n, i, i)
  {
    hide Perm;
    PermSelf(s[..n]);
    SlideStart(s[..i], ahead, s[i]);
    assert s[..i + 1] == s[..i] + [s[i]];
  }

  lemma MidwayMoves<T(!new)>(s: seq<T>, start: seq<T>, ahead: (T, T) -> bool, n: nat, i: nat, j: nat)
    requires IsOrder(ahead) && Midway(s, start, ahead, n, i, j) && j > 0 && ahead(s[j], s[j - 1])
    ensures Midway(Swapped(s, j), start, ahead, n, i, j - 1)
  {
    hide Perm, Sliding, IsOrder;
    SlideStep(s[..i + 1], ahead, j);
    SwapPerm(s[..n], j);
    SwappedPrefix(s, j, n);
    SwappedPrefix(s, j, i + 1);
    PermChain(Swapped(s, j)[..n], s[..n], start[..n]);
  }

  lemma MidwayEnds<T(!new)>(s: seq<T>, start: seq<T>, ahead: (T, T) -> bool, n: nat, i: nat, j: nat)
    requires IsOrder(ahead) && Midway(s, start, ahead, n, i, j) && (j > 0 ==> !ahead(s[j], s[j - 1]))
    ensures Sorted(s[..i + 1], ahead) && Perm(s[..n], start[..n])
  {
    hide Perm, IsOrder;
    SlideDone(s[..i + 1], ahead, j);
  }

  // Element i slides down past those it is ahead of.
  method Insert<T(!new)>(a: array<T>, ahead: (T, T) -> bool, n: nat, i: nat)
    requires IsOrder(ahead) && i < n <= a.Length && Sorted(a[..i], ahead)
    modifies a
    ensures Sorted(a[..i + 1], ahead) && Perm(a[..n], old(a[..n]))
  {
    hide Midway, Sorted, Perm, IsOrder;
    var j := i;
    ghost var start := a[..];
    assert start[..i] == a[..i] && start[..n] == a[..n];
    MidwayStarts(start, ahead, n, i);
    while j > 0 && ahead(a[j], a[j - 1])
      invariant 0 <= j <= i
      invariant Midway(a[..], start, ahead, n, i, j)
    {
      ghost var s := a[..];
      MidwayMoves(s, start, ahead, n, i, j);
      a[j - 1], a[j] := a[j], a[j - 1];
      assert a[..] == Swapped(s, j);
      j := j - 1;
    }
    MidwayEnds(a[..], start, ahead, n, i, j);
    assert a[..][..i + 1] == a[..i + 1] && a[..][..n] == a[..n];
  }

  method SortPrefix<T(!new)>(a: array<T>, ahead: (T, T) -> bool, n: nat)
    requires IsOrder(ahead) && n <= a.Length
    modifies a
    ensures Sorted(a[..n], ahead) && Perm(a[..n], old(a[..n]))
  {
    assert Sorted(a[..0], ahead);
    hide Perm, IsOrder, Sorted;
    PermSelf(a[..n]);
    for i := 0 to n
      invariant Perm(a[..n], old(a[..n]))
      invariant Sorted(a[..i], ahead)
    {
      ghost var before := a[..n];
      Insert(a, ahead, n, i);
      PermChain(a[..n], before, old(a[..n]));
    }
  }
}
