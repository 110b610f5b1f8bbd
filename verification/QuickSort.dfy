/** The in-place sort of `src/shamelessly_stolen_from_libstd.rs`. */
module QuickSort {
  import opened Partition

  /** Equal elements aside, a total order. */
  ghost predicate StrictWeak<T(!new)>(less: (T, T) -> bool) {
    && (forall x, y :: less(x, y) ==> !less(y, x))
    && (forall x, y, z :: less(x, z) ==> less(x, y) || less(y, z))
  }

  /** s[lo..hi] is sorted. */
  ghost predicate Sorted<T>(s: seq<T>, lo: nat, hi: nat, less: (T, T) -> bool)
    requires hi <= |s|
  {
    forall i, j :: lo <= i < j < hi ==> !less(s[j], s[i])
  }

  // Rearranging a slice

  /** From `t` to `s` only the slice lo..hi has been rearranged. */
  ghost predicate Rearranged<T>(s: seq<T>, t: seq<T>, lo: nat, hi: nat) {
    && lo <= hi <= |s| == |t| && Permuted(s[lo..hi], t[lo..hi])
    && (forall i :: 0 <= i < |s| && !(lo <= i < hi) ==> s[i] == t[i])
  }

  lemma RearrangedTrans<T>(s: seq<T>, t: seq<T>, u: seq<T>, lo: nat, hi: nat)
    requires Rearranged(s, t, lo, hi) && Rearranged(t, u, lo, hi)
    ensures Rearranged(s, u, lo, hi)
  {
  }

  lemma RearrangedRefl<T>(s: seq<T>, lo: nat, hi: nat)
    requires lo <= hi <= |s|
    ensures Rearranged(s, s, lo, hi)
  {
  }

  lemma CutSlice<T>(s: seq<T>, lo: nat, a: nat, b: nat, hi: nat)
    requires lo <= a <= b <= hi <= |s|
    ensures s[lo..hi] == s[lo..a] + s[a..b] + s[b..hi]
  {
  }

  lemma RearrangedWithin<T>(s: seq<T>, t: seq<T>, a: nat, b: nat, lo: nat, hi: nat)
    requires Rearranged(s, t, a, b) && lo <= a && b <= hi <= |s|
    ensures Rearranged(s, t, lo, hi)
  {
    CutSlice(s, lo, a, b, hi);
    CutSlice(t, lo, a, b, hi);
    assert s[lo..a] == t[lo..a] && s[b..hi] == t[b..hi];
  }

  /** An element of the slice was in the slice before. */
  lemma RearrangedFrom<T>(s: seq<T>, t: seq<T>, lo: nat, hi: nat, i: nat) returns (k: nat)
    requires Rearranged(s, t, lo, hi) && lo <= i < hi
    ensures lo <= k < hi && t[k] == s[i]
  {
    assert s[lo..hi][i - lo] == s[i];
    assert s[i] in multiset(s[lo..hi]);
    assert s[i] in t[lo..hi];
    var j :| 0 <= j < hi - lo && t[lo..hi][j] == s[i];
    k := lo + j;
  }

  lemma Exchanged<T>(s: seq<T>, t: seq<T>, lo: nat, hi: nat, i: nat, j: nat)
    requires lo <= i < hi <= |s| == |t| && lo <= j < hi
    requires s[i] == t[j] && s[j] == t[i] && forall k :: 0 <= k < |s| && k != i && k != j ==> s[k] == t[k]
    ensures Rearranged(s, t, lo, hi)
  {
    var u := t[lo..hi];
    assert s[lo..hi] == u[i - lo := u[j - lo]][j - lo := u[i - lo]];
    SwapKeeps(u, i - lo, j - lo);
  }

  // Insertion sort

  /** Moves the last element of v[lo..tail + 1] down to its place `g`, leaving a gap on the way. */
  method Sift<T>(v: array<T>, lo: nat, tail: nat, less: (T, T) -> bool) returns (g: nat)
    requires lo < tail < v.Length && less(v[tail], v[tail - 1])
    modifies v
    ensures lo <= g < tail && Sifted(old(v[..]), v[..], lo, tail, g, less)
  {
    var sift: int := tail - 1;
    var tmp := v[tail];
    ghost var s := v[..];
    g := tail;
    while true
      invariant lo <= sift == g - 1 < tail && less(tmp, s[sift])
      invariant forall i :: 0 <= i < g ==> v[i] == s[i]
      invariant forall i :: g < i <= tail ==> v[i] == s[i - 1]
      invariant forall i :: tail < i < v.Length ==> v[i] == s[i]
      invariant forall i :: g <= i < tail ==> less(tmp, s[i])
      decreases sift
    {
      v[sift + 1] := v[sift];
      g := sift;
      if sift == lo {
        break;
      }
      sift := sift - 1;
      if !less(tmp, v[sift]) {
        break;
      }
    }
    v[g] := tmp;
  }

  /** The last element of s[lo..tail + 1] has been put in at `g`, in front of everything above it. */
  ghost predicate Sifted<T>(s: seq<T>, t: seq<T>, lo: nat, tail: nat, g: nat, less: (T, T) -> bool)
    requires lo <= g <= tail < |s|
  {
    && |t| == |s| && t[g] == s[tail]
    && (forall i :: 0 <= i < |s| && (i < g || i > tail) ==> t[i] == s[i])
    && (forall i :: g < i <= tail ==> t[i] == s[i - 1])
    && (forall i :: g <= i < tail ==> less(s[tail], s[i]))
    && (g > lo ==> !less(s[tail], s[g - 1]))
  }

  lemma SiftedSorted<T(!new)>(s: seq<T>, t: seq<T>, lo: nat, tail: nat, g: nat, less: (T, T) -> bool)
    requires lo <= g <= tail < |s| && StrictWeak(less) && Sorted(s, lo, tail, less) && Sifted(s, t, lo, tail, g, less)
    ensures |t| == |s| && Sorted(t, lo, tail + 1, less)
  {
    forall i, j | lo <= i < j < tail + 1 ensures !less(t[j], t[i]) {
      if j == g {
        assert i < g - 1 ==> !less(s[g - 1], s[i]);
      } else if i < g < j {
        assert i < j - 1 && !less(s[j - 1], s[i]);
      }
    }
  }

  lemma SiftedSlices<T>(s: seq<T>, t: seq<T>, lo: nat, tail: nat, g: nat, less: (T, T) -> bool)
    requires lo <= g <= tail < |s| && Sifted(s, t, lo, tail, g, less)
    ensures t[lo..g] == s[lo..g] && t[g + 1..tail + 1] == s[g..tail] && t[g..g + 1] == s[tail..tail + 1]
  {
  }

  lemma Moved<T>(a: seq<T>, b: seq<T>, c: seq<T>)
    ensures Permuted(a + b + c, a + c + b)
  {
  }

  lemma SiftedRearranged<T>(s: seq<T>, t: seq<T>, lo: nat, tail: nat, g: nat, less: (T, T) -> bool)
    requires lo <= g <= tail < |s| && Sifted(s, t, lo, tail, g, less)
    ensures Rearranged(t, s, lo, tail + 1)
  {
    assert Permuted(t[lo..tail + 1], s[lo..tail + 1]) by {
      hide Permuted;
      SiftedSlices(s, t, lo, tail, g, less);
      CutSlice(s, lo, g, tail, tail + 1);
      CutSlice(t, lo, g, g + 1, tail + 1);
      hide *;
      Moved(s[lo..g], s[tail..tail + 1], s[g..tail]);
    }
  }

  /** Puts the last element of v[lo..tail + 1] in its place, the rest being sorted. */
  method InsertTail<T(!new)>(v: array<T>, lo: nat, tail: nat, less: (T, T) -> bool)
    requires lo < tail < v.Length && StrictWeak(less) && Sorted(v[..], lo, tail, less)
    modifies v
    ensures Sorted(v[..], lo, tail + 1, less) && Rearranged(v[..], old(v[..]), lo, tail + 1)
  {
    ghost var was := v[..];
    if !less(v[tail], v[tail - 1]) {
      assert Sifted(was, v[..], lo, tail, tail, less);
      hide *;
      SiftedSorted(was, v[..], lo, tail, tail, less);
      SiftedRearranged(was, v[..], lo, tail, tail, less);
    } else {
      hide *;
      var g := Sift(v, lo, tail, less);
      SiftedSorted(was, v[..], lo, tail, g, less);
      SiftedRearranged(was, v[..], lo, tail, g, less);
    }
  }

  lemma SortedOne<T>(s: seq<T>, lo: nat, hi: nat, less: (T, T) -> bool)
    requires hi <= |s| && hi <= lo + 1
    ensures Sorted(s, lo, hi, less)
  {
  }

  method InsertionSort<T(!new)>(v: array<T>, lo: nat, hi: nat, less: (T, T) -> bool)
    requires lo <= hi <= v.Length && StrictWeak(less)
    modifies v
    ensures Sorted(v[..], lo, hi, less) && Rearranged(v[..], old(v[..]), lo, hi)
  {
    hide *;
    ghost var was := v[..];
    RearrangedRefl(was, lo, hi);
    if lo == hi {
      SortedOne(was, lo, hi, less);
      return;
    }
    SortedOne(was, lo, lo + 1, less);
    var i := lo + 1;
    while i < hi
      invariant lo < i <= hi
      invariant Sorted(v[..], lo, i, less)
      invariant Rearranged(v[..], was, lo, hi)
    {
      ghost var before := v[..];
      InsertTail(v, lo, i, less);
      RearrangedWithin(v[..], before, lo, i + 1, lo, hi);
      RearrangedTrans(v[..], before, was, lo, hi);
      i := i + 1;
    }
  }

  // Partition around a pivot

  /** In s[lo..hi], the elements before p belong in front of s[p], the ones behind do not. */
  ghost predicate Pivoted<T>(s: seq<T>, lo: nat, p: nat, hi: nat, less: (T, T) -> bool)
    requires lo <= p < hi <= |s|
  {
    (forall i :: lo <= i < p ==> less(s[i], s[p])) && (forall i :: p < i < hi ==> !less(s[i], s[p]))
  }

  method Exchange<T>(v: array<T>, lo: nat, hi: nat, i: nat, j: nat)
    requires lo <= i < hi <= v.Length && lo <= j < hi
    modifies v
    ensures v[i] == old(v[j]) && v[j] == old(v[i])
    ensures forall k :: 0 <= k < v.Length && k != i && k != j ==> v[k] == old(v[k])
    ensures Rearranged(v[..], old(v[..]), lo, hi)
  {
    hide Rearranged;
    ghost var was := v[..];
    v[i], v[j] := v[j], v[i];
    Exchanged(v[..], was, lo, hi, i, j);
  }

  /** Partitions everything behind the pivot, which is the first element. */
  method PartitionRest<T(!new)>(v: array<T>, lo: nat, hi: nat, less: (T, T) -> bool) returns (n: nat)
    requires lo < hi <= v.Length
    modifies v
    ensures n < hi - lo && v[lo] == old(v[lo]) && Rearranged(v[..], old(v[..]), lo, hi)
    ensures forall i :: lo < i <= lo + n ==> less(v[i], v[lo])
    ensures forall i :: lo + n < i < hi ==> !less(v[i], v[lo])
  {
    var p := v[lo];
    ghost var was := v[..];
    n := PartitionBy(v, lo + 1, hi, (x: T) => less(x, p));
    hide Permuted;
    assert v[..][lo + 1..hi] == v[lo + 1..hi] && was[lo + 1..hi] == old(v[lo + 1..hi]);
    assert Rearranged(v[..], was, lo + 1, hi);
    hide Rearranged;
    RearrangedWithin(v[..], was, lo + 1, hi, lo, hi);
  }

  /** Brings a pivot, any of the elements, to its place. */
  method PartitionPivot<T(!new)>(v: array<T>, lo: nat, hi: nat, less: (T, T) -> bool) returns (n: nat)
    requires lo < hi <= v.Length
    modifies v
    ensures n < hi - lo && Pivoted(v[..], lo, lo + n, hi, less) && Rearranged(v[..], old(v[..]), lo, hi)
  {
    hide Rearranged;
    var pivot: nat :| lo <= pivot < hi;
    ghost var s0 := v[..];
    Exchange(v, lo, hi, lo, pivot);
    ghost var s1 := v[..];
    n := PartitionRest(v, lo, hi, less);
    ghost var s2 := v[..];
    RearrangedTrans(s2, s1, s0, lo, hi);
    Exchange(v, lo, hi, lo, lo + n);
    RearrangedTrans(v[..], s2, s0, lo, hi);
  }

  // Quicksort

  const MAX_INSERTION: nat := 20

  /** Sorting both sides of a pivot sorts the slice. */
  lemma QuickSorted<T(!new)>(s0: seq<T>, s1: seq<T>, s2: seq<T>, lo: nat, p: nat, hi: nat, less: (T, T) -> bool)
    requires StrictWeak(less) && lo <= p < hi <= |s0| && Pivoted(s0, lo, p, hi, less)
    requires Rearranged(s1, s0, lo, p) && Sorted(s1, lo, p, less)
    requires Rearranged(s2, s1, p + 1, hi) && Sorted(s2, p + 1, hi, less)
    ensures Sorted(s2, lo, hi, less)
  {
    forall i | lo <= i < p ensures less(s2[i], s2[p]) {
      var k := RearrangedFrom(s1, s0, lo, p, i);
    }
    forall i | p < i < hi ensures !less(s2[i], s2[p]) {
      var k := RearrangedFrom(s2, s1, p + 1, hi, i);
    }
  }

  /** Sorts v[lo..hi], whatever pivots are chosen. The loop over the right part is written as a call. */
  method SeqQuicksort<T(!new)>(v: array<T>, lo: nat, hi: nat, less: (T, T) -> bool)
    requires lo <= hi <= v.Length && StrictWeak(less)
    modifies v
    ensures Sorted(v[..], lo, hi, less) && Rearranged(v[..], old(v[..]), lo, hi)
    decreases hi - lo
  {
    hide *;
    if hi - lo > MAX_INSERTION {
      ghost var s := v[..];
      var n := PartitionPivot(v, lo, hi, less);
      ghost var s0 := v[..];
      SeqQuicksort(v, lo, lo + n, less);
      ghost var s1 := v[..];
      RearrangedWithin(s1, s0, lo, lo + n, lo, hi);
      RearrangedTrans(s1, s0, s, lo, hi);
      SeqQuicksort(v, lo + n + 1, hi, less);
      RearrangedWithin(v[..], s1, lo + n + 1, hi, lo, hi);
      RearrangedTrans(v[..], s1, s, lo, hi);
      QuickSorted(s0, s1, v[..], lo, lo + n, hi, less);
    } else {
      InsertionSort(v, lo, hi, less);
    }
  }

  // Quicksort on the thread pool

  /** A slice given by its ends. */
  type Slice = (nat, nat)

  predicate Contains(x: Slice, i: int) {
    x.0 <= i < x.1
  }

  /** Some slice of the list holds both positions. */
  ghost predicate Together(p: seq<Slice>, i: int, j: int) {
    exists x :: x in p && Contains(x, i) && Contains(x, j)
  }

  /** s[lo..hi] is sorted but for the slices still to be done. */
  ghost predicate SortedApart<T>(s: seq<T>, lo: nat, hi: nat, p: seq<Slice>, less: (T, T) -> bool)
    requires hi <= |s|
  {
    forall i, j :: lo <= i < j < hi && !Together(p, i, j) ==> !less(s[j], s[i])
  }

  predicate Inside(p: seq<Slice>, lo: nat, hi: nat) {
    forall k :: 0 <= k < |p| ==> lo <= p[k].0 <= p[k].1 <= hi
  }

  predicate Disjoint(x: Slice, y: Slice) {
    x.1 <= y.0 || y.1 <= x.0
  }

  predicate Apart(p: seq<Slice>) {
    forall k, m :: 0 <= k < m < |p| ==> Disjoint(p[k], p[m])
  }

  /** Sorting one of the slices, but for the slices `q` inside it, leaves the others and `q` to be done. */
  lemma Refined<T>(s: seq<T>, t: seq<T>, lo: nat, hi: nat, p: seq<Slice>, p': seq<Slice>, a: nat, b: nat, q: seq<Slice>,
                   less: (T, T) -> bool)
    requires lo <= a <= b <= hi <= |s| && SortedApart(s, lo, hi, p, less)
    requires Rearranged(t, s, a, b) && SortedApart(t, a, b, q, less)
    requires forall x :: x in p ==> x == (a, b) || (x in p' && Disjoint(x, (a, b)))
    requires forall x :: x in q ==> x in p'
    ensures SortedApart(t, lo, hi, p', less)
  {
    forall i, j | lo <= i < j < hi && !Together(p', i, j) ensures !less(t[j], t[i]) {
      if a <= i && j < b {
        assert !Together(q, i, j);
      } else {
        var i', j' := i, j;
        if a <= i < b { i' := RearrangedFrom(t, s, a, b, i); }
        if a <= j < b { j' := RearrangedFrom(t, s, a, b, j); }
        assert i' < j' && t[i] == s[i'] && t[j] == s[j'];
        assert !Together(p, i', j');
      }
    }
  }

  function Weight(p: seq<Slice>): nat {
    if p == [] then 0
    else Weight(p[..|p| - 1]) + 1 + if p[|p| - 1].0 <= p[|p| - 1].1 then p[|p| - 1].1 - p[|p| - 1].0 else 0
  }

  lemma WeightSnoc(p: seq<Slice>, x: Slice)
    requires x.0 <= x.1
    ensures Weight(p + [x]) == Weight(p) + 1 + x.1 - x.0
  {
    assert (p + [x])[..|p|] == p;
  }

  lemma {:induction false} WeightConcat(p: seq<Slice>, q: seq<Slice>)
    ensures Weight(p + q) == Weight(p) + Weight(q)
    decreases |q|
  {
    if q == [] {
      assert p + q == p;
    } else {
      var n := |q| - 1;
      WeightConcat(p, q[..n]);
      assert (p + q)[..|p + q| - 1] == p + q[..n];
    }
  }

  lemma WeightWithout(p: seq<Slice>, k: nat)
    requires k < |p| && p[k].0 <= p[k].1
    ensures Weight(p) == Weight(p[..k] + p[k + 1..]) + 1 + p[k].1 - p[k].0
  {
    assert p == p[..k] + [p[k]] + p[k + 1..];
    WeightConcat(p[..k] + [p[k]], p[k + 1..]);
    WeightSnoc(p[..k], p[k]);
    WeightConcat(p[..k], p[k + 1..]);
  }

  lemma PivotedApart<T(!new)>(s: seq<T>, a: nat, p: nat, b: nat, less: (T, T) -> bool)
    requires StrictWeak(less) && a <= p < b <= |s| && Pivoted(s, a, p, b, less)
    ensures SortedApart(s, a, b, [(a, p), (p + 1, b)], less)
  {
    var q := [(a, p), (p + 1, b)];
    assert (a, p) in q && (p + 1, b) in q;
    forall i, j | a <= i < j < b && !Together(q, i, j) ensures !less(s[j], s[i]) {
      if i < p && j < p {
        assert Contains((a, p), i) && Contains((a, p), j);
      } else if i > p && j > p {
        assert Contains((p + 1, b), i) && Contains((p + 1, b), j);
      }
    }
  }

  lemma SortedIsApart<T>(s: seq<T>, a: nat, b: nat, less: (T, T) -> bool)
    requires b <= |s|
    ensures Sorted(s, a, b, less) <==> SortedApart(s, a, b, [], less)
  {
    assert forall i, j :: !Together([], i, j);
  }

  /** A slice of at most one element needs nothing done. */
  lemma ShortDone<T>(s: seq<T>, lo: nat, hi: nat, p: seq<Slice>, p': seq<Slice>, x: Slice, less: (T, T) -> bool)
    requires hi <= |s| && SortedApart(s, lo, hi, p, less) && x.1 <= x.0 + 1
    requires forall y :: y in p ==> y == x || y in p'
    ensures SortedApart(s, lo, hi, p', less)
  {
    forall i, j | lo <= i < j < hi && !Together(p', i, j) ensures !less(s[j], s[i]) {
      assert !Together(p, i, j);
    }
  }

  predicate Listed(p: seq<Slice>, lo: nat, hi: nat) {
    Inside(p, lo, hi) && Apart(p)
  }

  /** Replacing the last slice by two pieces of it. */
  lemma ListedPieces(p: seq<Slice>, x: Slice, y: Slice, z: Slice, lo: nat, hi: nat)
    requires Listed(p + [x], lo, hi) && Inside([y, z], x.0, x.1) && Disjoint(y, z)
    ensures Listed(p + [y] + [z], lo, hi) && Listed(p + [z], lo, hi)
    ensures forall u :: u in p + [x] ==> u == x || (u in p && Disjoint(u, x))
  {
    var k := |p|;
    assert (p + [x])[k] == x && [y, z][0] == y && [y, z][1] == z;
    assert forall i :: 0 <= i < k ==> (p + [x])[i] == p[i] && Disjoint(p[i], x);
    assert Apart(p);
  }

  /** One task: partitions, hands the smaller side over and goes on with the larger one. The slices handed
      over are left for later; whoever sorts them does not touch this task's slice, nor the other way round. */
  method ParRecurse<T(!new)>(v: array<T>, lo: nat, hi: nat, less: (T, T) -> bool, maxSeq: nat) returns (submits: seq<Slice>)
    requires lo <= hi <= v.Length && StrictWeak(less)
    modifies v
    ensures Listed(submits, lo, hi) && Weight(submits) <= hi - lo
    ensures SortedApart(v[..], lo, hi, submits, less) && Rearranged(v[..], old(v[..]), lo, hi)
  {
    ghost var was := v[..];
    var a, b := lo, hi;
    submits := [];
    Start(was, lo, hi, less);
    hide *;
    while b - a > maxSeq
      invariant lo <= a <= b <= hi
      invariant Listed(submits + [(a, b)], lo, hi) && Weight(submits) + b - a <= hi - lo
      invariant SortedApart(v[..], lo, hi, submits + [(a, b)], less) && Rearranged(v[..], was, lo, hi)
      decreases b - a
    {
      ghost var before := v[..];
      var n := PartitionPivot(v, a, b, less);
      RearrangedWithin(v[..], before, a, b, lo, hi);
      RearrangedTrans(v[..], before, was, lo, hi);
      PivotedApart(v[..], a, a + n, b, less);
      var left, right := (a, a + n), (a + n + 1, b);
      var small, large := if n <= b - (a + n + 1) then left else right, if n <= b - (a + n + 1) then right else left;
      TwoPieces(before, v[..], lo, hi, submits, a, n, b, small, large, less);
      WeightSnoc(submits, small);
      a, b := large.0, large.1;
      if small.1 - small.0 > 1 {
        submits := submits + [small];
      }
    }
    ghost var before := v[..];
    SeqQuicksort(v, a, b, less);
    RearrangedWithin(v[..], before, a, b, lo, hi);
    RearrangedTrans(v[..], before, was, lo, hi);
    LastPiece(before, v[..], lo, hi, submits, a, b, less);
  }

  lemma Start<T>(s: seq<T>, lo: nat, hi: nat, less: (T, T) -> bool)
    requires lo <= hi <= |s|
    ensures Listed([] + [(lo, hi)], lo, hi) && Weight([]) == 0
    ensures SortedApart(s, lo, hi, [] + [(lo, hi)], less) && Rearranged(s, s, lo, hi)
  {
    var p := [] + [(lo, hi)];
    forall i, j | lo <= i < j < hi ensures Together(p, i, j) {
      assert (lo, hi) in p && Contains((lo, hi), i) && Contains((lo, hi), j);
    }
  }

  lemma TwoPieces<T>(s: seq<T>, t: seq<T>, lo: nat, hi: nat, p: seq<Slice>, a: nat, n: nat, b: nat,
                     small: Slice, large: Slice, less: (T, T) -> bool)
    requires lo <= a && a + n < b <= hi <= |s| && Listed(p + [(a, b)], lo, hi)
    requires (small, large) == ((a, a + n), (a + n + 1, b)) || (large, small) == ((a, a + n), (a + n + 1, b))
    requires SortedApart(s, lo, hi, p + [(a, b)], less) && Rearranged(t, s, a, b)
    requires SortedApart(t, a, b, [(a, a + n), (a + n + 1, b)], less)
    ensures Listed(p + [small] + [large], lo, hi) && SortedApart(t, lo, hi, p + [small] + [large], less)
    ensures small.1 <= small.0 + 1 ==> Listed(p + [large], lo, hi) && SortedApart(t, lo, hi, p + [large], less)
  {
    ListedPieces(p, (a, b), small, large, lo, hi);
    var p' := p + [small] + [large];
    hide *;
    assert small in p' && large in p';
    Refined(s, t, lo, hi, p + [(a, b)], p', a, b, [(a, a + n), (a + n + 1, b)], less);
    if small.1 <= small.0 + 1 {
      ShortDone(t, lo, hi, p', p + [large], small, less);
    }
  }

  lemma LastPiece<T>(s: seq<T>, t: seq<T>, lo: nat, hi: nat, p: seq<Slice>, a: nat, b: nat, less: (T, T) -> bool)
    requires lo <= a <= b <= hi <= |s| && Listed(p + [(a, b)], lo, hi)
    requires SortedApart(s, lo, hi, p + [(a, b)], less) && Rearranged(t, s, a, b) && Sorted(t, a, b, less)
    ensures Listed(p, lo, hi) && SortedApart(t, lo, hi, p, less)
  {
    ListedPieces(p, (a, b), (a, a), (a, a), lo, hi);
    SortedIsApart(t, a, b, less);
    assert Listed(p, lo, hi) by {
      assert forall k :: 0 <= k < |p| ==> p[k] == (p + [(a, b)])[k];
    }
    hide *;
    Refined(s, t, lo, hi, p + [(a, b)], p, a, b, [], less);
  }

  /** The sort on the thread pool: tasks run in any order until none is left. */
  method ParQuicksort<T(!new)>(v: array<T>, lo: nat, hi: nat, less: (T, T) -> bool, maxSeq: nat)
    requires lo <= hi <= v.Length && StrictWeak(less)
    modifies v
    ensures Sorted(v[..], lo, hi, less) && Rearranged(v[..], old(v[..]), lo, hi)
  {
    ghost var was := v[..];
    var tasks: seq<Slice> := [(lo, hi)];
    Start(was, lo, hi, less);
    assert [] + tasks == tasks;
    hide *;
    while tasks != []
      invariant Listed(tasks, lo, hi) && SortedApart(v[..], lo, hi, tasks, less) && Rearranged(v[..], was, lo, hi)
      decreases Weight(tasks)
    {
      var k: nat :| k < |tasks|;
      var task := tasks[k];
      TaskIn(tasks, k, lo, hi);
      ghost var before := v[..];
      var submits := ParRecurse(v, task.0, task.1, less, maxSeq);
      RearrangedWithin(v[..], before, task.0, task.1, lo, hi);
      RearrangedTrans(v[..], before, was, lo, hi);
      TaskDone(before, v[..], lo, hi, tasks, k, submits, less);
      tasks := tasks[..k] + tasks[k + 1..] + submits;
    }
    SortedIsApart(v[..], lo, hi, less);
  }

  lemma TaskIn(p: seq<Slice>, k: nat, lo: nat, hi: nat)
    requires Listed(p, lo, hi) && k < |p|
    ensures lo <= p[k].0 <= p[k].1 <= hi
  {
  }

  lemma TaskListed(p: seq<Slice>, k: nat, q: seq<Slice>, lo: nat, hi: nat)
    requires Listed(p, lo, hi) && k < |p| && Listed(q, p[k].0, p[k].1)
    ensures Listed(p[..k] + p[k + 1..] + q, lo, hi)
    ensures forall x :: x in p ==> x == p[k] || (x in p[..k] + p[k + 1..] + q && Disjoint(x, p[k]))
  {
    var r := p[..k] + p[k + 1..];
    assert forall i :: 0 <= i < |r| ==> r[i] == p[if i < k then i else i + 1] && Disjoint(r[i], p[k]);
    assert Inside(r, lo, hi) && Apart(r);
    var w := r + q;
    forall i, j | 0 <= i < j < |w| ensures Disjoint(w[i], w[j]) {
      if i < |r| <= j {
        assert w[j] == q[j - |r|];
      }
    }
    forall x | x in p && x != p[k] ensures x in w && Disjoint(x, p[k]) {
      var i :| 0 <= i < |p| && p[i] == x;
      assert r[if i < k then i else i - 1] == x;
    }
  }

  lemma TaskDone<T>(s: seq<T>, t: seq<T>, lo: nat, hi: nat, p: seq<Slice>, k: nat, q: seq<Slice>, less: (T, T) -> bool)
    requires lo <= hi <= |s| && Listed(p, lo, hi) && SortedApart(s, lo, hi, p, less) && k < |p|
    requires lo <= p[k].0 <= p[k].1 <= hi && Listed(q, p[k].0, p[k].1) && Weight(q) <= p[k].1 - p[k].0
    requires Rearranged(t, s, p[k].0, p[k].1) && SortedApart(t, p[k].0, p[k].1, q, less)
    ensures var p' := p[..k] + p[k + 1..] + q;
      Listed(p', lo, hi) && SortedApart(t, lo, hi, p', less) && Weight(p') < Weight(p)
  {
    hide *;
    TaskListed(p, k, q, lo, hi);
    WeightWithout(p, k);
    WeightConcat(p[..k] + p[k + 1..], q);
    Refined(s, t, lo, hi, p, p[..k] + p[k + 1..] + q, p[k].0, p[k].1, q, less);
  }
}
