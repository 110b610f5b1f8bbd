/** Running a compiled tree over a part of the state vector, chunk by chunk (`src/statevector.rs`). */
module SparseRuns {
  import opened Wrappers
  import opened Controls
  import opened Merging
  import opened Partition
  import opened QuickSort
  import opened CompiledGates
  import opened SparseParts
  import opened SparseSorting

  /** The slice lo..hi of `s` holds the images of what it held in `was`; nothing else differs.
      Where `exact` holds, the images are in their old order. */
  ghost predicate RanSlice<V>(s: Part<V>, was: Part<V>, lo: nat, hi: nat, code: seq<Compiled>, rot: Rot<V>, exact: bool) {
    && lo <= hi <= |s| == |was|
    && s[..lo] == was[..lo] && s[hi..] == was[hi..]
    && Permuted(s[lo..hi], MapAll(code, rot, was[lo..hi]))
    && (exact ==> s[lo..hi] == MapAll(code, rot, was[lo..hi]))
  }

  /** Sorting afterwards restores the order if the keys of the images increase; no sorting is needed if the code
      never splits. */
  ghost predicate Restores<V>(code: seq<Compiled>, rot: Rot<V>, was: Part<V>, sort: bool, key: Element<V> -> int) {
    if sort then Increasing(MapAll(code, rot, was), key) else !SplitsAny(code)
  }

  lemma MapSlice<V>(code: seq<Compiled>, rot: Rot<V>, s: Part<V>, lo: nat, mid: nat, hi: nat)
    requires lo <= mid <= hi <= |s|
    ensures MapAll(code, rot, s[lo..hi]) == MapAll(code, rot, s[lo..mid]) + MapAll(code, rot, s[mid..hi])
  {
  }

  lemma RestoresPart<V>(code: seq<Compiled>, rot: Rot<V>, was: Part<V>, sort: bool, key: Element<V> -> int,
                        lo: nat, a: nat, b: nat, hi: nat)
    requires lo <= a <= b <= hi <= |was| && Restores(code, rot, was[lo..hi], sort, key)
    ensures Restores(code, rot, was[a..b], sort, key)
  {
    if sort {
      var m, n := MapAll(code, rot, was[lo..hi]), MapAll(code, rot, was[a..b]);
      forall i | 0 <= i < |n| ensures n[i] == m[a - lo + i] {
        assert was[a..b][i] == was[lo..hi][a - lo + i];
      }
    }
  }

  /** One chunk: run, then sort if asked. */
  method RunChunk<V(!new)>(c: Compiled, rot: Rot<V>, data: array<Element<V>>, lo: nat, hi: nat, sort: bool, key: Element<V> -> int)
    requires lo <= hi <= data.Length
    modifies data
    ensures RanSlice(data[..], old(data[..]), lo, hi, [c], rot, Restores([c], rot, old(data[..])[lo..hi], sort, key))
  {
    ghost var was := data[..];
    assert data[lo..hi] == was[lo..hi];
    Perform(c, rot, data, lo, hi);
    ghost var mid := data[..];
    assert data[lo..hi] == mid[lo..hi];
    assert mid[..lo] == was[..lo] && mid[hi..] == was[hi..];
    assert Ran([c], rot, was[lo..hi], mid[lo..hi]);
    if sort {
      ByKeyIsWeak(key);
      hide StrictWeak;
      SeqQuicksort(data, lo, hi, ByKey(key));
      ChunkSorted(data[..], mid, was, lo, hi, [c], rot, key);
    }
  }

  lemma ChunkSorted<V(!new)>(s: Part<V>, mid: Part<V>, was: Part<V>, lo: nat, hi: nat, code: seq<Compiled>, rot: Rot<V>,
                             key: Element<V> -> int)
    requires Rearranged(s, mid, lo, hi) && Sorted(s, lo, hi, ByKey(key)) && |mid| == |was|
    requires mid[..lo] == was[..lo] && mid[hi..] == was[hi..] && Ran(code, rot, was[lo..hi], mid[lo..hi])
    ensures RanSlice(s, was, lo, hi, code, rot, Restores(code, rot, was[lo..hi], true, key))
  {
    var t := MapAll(code, rot, was[lo..hi]);
    PermutedTrans(s[lo..hi], mid[lo..hi], t);
    assert s[..lo] == mid[..lo] && s[hi..] == mid[hi..];
    if Increasing(t, key) {
      assert Sorted(s[lo..hi], 0, hi - lo, ByKey(key)) by {
        assert forall i :: 0 <= i < hi - lo ==> s[lo..hi][i] == s[lo + i];
      }
      SortedUnique(s[lo..hi], t, key);
    }
  }

  lemma RanMore<V>(s: Part<V>, t: Part<V>, was: Part<V>, lo: nat, at: nat, end: nat, code: seq<Compiled>, rot: Rot<V>, exact: bool, e: bool)
    requires RanSlice(s, was, lo, at, code, rot, exact) && end <= |s| && RanSlice(t, s, at, end, code, rot, e) && (exact ==> e)
    ensures RanSlice(t, was, lo, end, code, rot, exact)
  {
    MapSlice(code, rot, was, lo, at, end);
    assert s[at..end] == was[at..][..end - at] == was[at..end];
    assert t[lo..at] == t[..at][lo..] == s[lo..at];
    assert t[lo..end] == t[lo..at] + t[at..end];
    PermutedConcat(t[lo..at], t[at..end], MapAll(code, rot, was[lo..at]), MapAll(code, rot, was[at..end]));
    assert t[..lo] == t[..at][..lo] == s[..lo];
    assert t[end..] == s[end..] == s[at..][end - at..] == was[end..];
  }

  lemma RanNothing<V>(s: Part<V>, lo: nat, code: seq<Compiled>, rot: Rot<V>, exact: bool)
    requires lo <= |s|
    ensures RanSlice(s, s, lo, lo, code, rot, exact)
  {
    assert s[lo..lo] == [] && MapAll(code, rot, []) == [];
  }

  /** A part, chunk by chunk. */
  method RunPart<V(!new)>(c: Compiled, rot: Rot<V>, data: array<Element<V>>, lo: nat, hi: nat, size: nat, sort: bool, key: Element<V> -> int)
    requires lo <= hi <= data.Length && size > 0
    modifies data
    ensures RanSlice(data[..], old(data[..]), lo, hi, [c], rot, Restores([c], rot, old(data[..])[lo..hi], sort, key))
  {
    hide *;
    ghost var was := data[..];
    ghost var exact := Restores([c], rot, was[lo..hi], sort, key);
    RanNothing(was, lo, [c], rot, exact);
    var at := lo;
    while at < hi
      invariant lo <= at <= hi && RanSlice(data[..], was, lo, at, [c], rot, exact)
    {
      var end := if at + size < hi then at + size else hi;
      ghost var s := data[..];
      RunChunk(c, rot, data, at, end, sort, key);
      RestUntouched(s, was, lo, at, end, [c], rot, exact);
      if exact {
        RestoresPart([c], rot, was, sort, key, lo, at, end, hi);
      }
      RanMore(s, data[..], was, lo, at, end, [c], rot, exact, Restores([c], rot, s[at..end], sort, key));
      at := end;
    }
  }

  lemma RestUntouched<V>(s: Part<V>, was: Part<V>, lo: nat, at: nat, end: nat, code: seq<Compiled>, rot: Rot<V>, exact: bool)
    requires RanSlice(s, was, lo, at, code, rot, exact) && at <= end <= |s|
    ensures s[at..end] == was[at..end]
  {
    assert s[at..end] == s[at..][..end - at] && was[at..end] == was[at..][..end - at];
  }

  // The three cases of `perform_sfree`

  /** Nothing is modified: the keys stay, so the parts stay sorted and on their sides. */
  lemma ConstGood<V(!new)>(p0: Part<V>, p1: Part<V>, split: Option<Qubit>, c: Compiled, rot: Rot<V>, words: nat, sort: bool)
    requires GoodParts(p0, p1, split, words) && Relabels([c], words) && WritesAll([c]) == {} && sort == SplitsAny([c])
    ensures Restores([c], rot, p0, sort, Ranked(words)) && Restores([c], rot, p1, sort, Ranked(words))
    ensures var s0, s1 := MapAll([c], rot, p0), MapAll([c], rot, p1);
      GoodParts(s0, s1, split, words) && Image(s0 + s1, p0 + p1, [c], rot)
  {
    var s0, s1 := MapAll([c], rot, p0), MapAll([c], rot, p1);
    forall e: Element<V> ensures Ranked<V>(words)(ApplyAll([c], rot, e)) == Ranked<V>(words)(e) {
      KeyKept(e, [c], rot, 0, words);
    }
    MapIncreasing(p0, [c], rot, Ranked(words));
    MapIncreasing(p1, [c], rot, Ranked(words));
    PartsImage(p0, p1, s0, s1, c, rot, words);
    if split.Some? {
      ImageSide(s0, p0, [c], rot, split.value, false);
      ImageSide(s1, p1, [c], rot, split.value, true);
    }
  }

  lemma PartsImage<V>(p0: Part<V>, p1: Part<V>, s0: Part<V>, s1: Part<V>, c: Compiled, rot: Rot<V>, words: nat)
    requires s0 == MapAll([c], rot, p0) && s1 == MapAll([c], rot, p1) && Relabels([c], words)
    requires AllFit(p0, words) && AllFit(p1, words) && NoneShared(p0, p1)
    ensures Image(s0, p0, [c], rot) && Image(s1, p1, [c], rot) && Image(s0 + s1, p0 + p1, [c], rot)
    ensures AllFit(s0, words) && AllFit(s1, words) && NoneShared(s0, s1)
  {
    MapImage(p0, [c], rot);
    MapImage(p1, [c], rot);
    ImageBoth(s0, s1, p0, p1, [c], rot);
    ImageGood(s0, s1, p0, p1, [c], rot, words);
  }

  /** One qubit is modified: with it masked out the keys stay, so a fix-up repartition is enough. */
  lemma SingleGood<V(!new)>(p0: Part<V>, p1: Part<V>, q: Qubit, c: Compiled, rot: Rot<V>, words: nat, sort: bool)
    requires GoodParts(p0, p1, Some(q), words) && Relabels([c], words) && WritesAll([c]) == {q} && sort == SplitsAny([c])
    ensures Restores([c], rot, p0, sort, Masked(q, words)) && Restores([c], rot, p1, sort, Masked(q, words))
    ensures var s0, s1 := MapAll([c], rot, p0), MapAll([c], rot, p1);
      Mergeable(s0, s1, TaskKey(Repartition(q, true), words), words) && Image(s0 + s1, p0 + p1, [c], rot)
  {
    var s0, s1 := MapAll([c], rot, p0), MapAll([c], rot, p1);
    SideOrder(p0, q, false, words);
    SideOrder(p1, q, true, words);
    forall e: Element<V> ensures Masked<V>(q, words)(ApplyAll([c], rot, e)) == Masked<V>(q, words)(e) {
      KeyKept(e, [c], rot, q, words);
    }
    MapIncreasing(p0, [c], rot, Masked(q, words));
    MapIncreasing(p1, [c], rot, Masked(q, words));
    PartsImage(p0, p1, s0, s1, c, rot, words);
  }

  /** The partition that is left after many qubits have been modified. */
  function SplitLeft(split: Option<Qubit>, modified: set<Qubit>): Option<Qubit> {
    if split.Some? && split.value in modified then None else split
  }

  /** Many qubits are modified: each part is sorted from scratch. */
  lemma ManyGood<V(!new)>(p0: Part<V>, p1: Part<V>, s0: Part<V>, s1: Part<V>, split: Option<Qubit>, c: Compiled, rot: Rot<V>, words: nat)
    requires GoodParts(p0, p1, split, words) && Relabels([c], words)
    requires Permuted(s0, MapAll([c], rot, p0)) && Sorted(s0, 0, |s0|, ByKey(Ranked(words)))
    requires Permuted(s1, MapAll([c], rot, p1)) && Sorted(s1, 0, |s1|, ByKey(Ranked(words)))
    ensures GoodParts(s0, s1, SplitLeft(split, WritesAll([c])), words) && Image(s0 + s1, p0 + p1, [c], rot)
  {
    ManySide(p0, s0, c, rot, words);
    ManySide(p1, s1, c, rot, words);
    hide Image;
    ImageBoth(s0, s1, p0, p1, [c], rot);
    ImageGood(s0, s1, p0, p1, [c], rot, words);
    if SplitLeft(split, WritesAll([c])).Some? {
      ImageSide(s0, p0, [c], rot, split.value, false);
      ImageSide(s1, p1, [c], rot, split.value, true);
    }
  }

  lemma ManySide<V(!new)>(p: Part<V>, s: Part<V>, c: Compiled, rot: Rot<V>, words: nat)
    requires Increasing(p, Ranked(words)) && AllFit(p, words) && Relabels([c], words)
    requires Permuted(s, MapAll([c], rot, p)) && Sorted(s, 0, |s|, ByKey(Ranked(words)))
    ensures Increasing(s, Ranked(words)) && Image(s, p, [c], rot)
  {
    ImagesDiffer(p, [c], rot, words);
    SortedDistinct(s, MapAll([c], rot, p), Ranked(words));
    MapImage(p, [c], rot);
    forall x ensures x in s <==> x in MapAll([c], rot, p) {
      PermutedIn(s, MapAll([c], rot, p), x);
    }
    ImagePermuted(s, MapAll([c], rot, p), p, [c], rot);
  }

  /** The relabelled vector, when the parts hold the images. */
  lemma ImageVector<V>(p0: Part<V>, p1: Part<V>, split: Option<Qubit>, s0: Part<V>, s1: Part<V>, split': Option<Qubit>,
                       c: Compiled, rot: Rot<V>, words: nat)
    requires GoodParts(p0, p1, split, words) && GoodParts(s0, s1, split', words) && Image(s0 + s1, p0 + p1, [c], rot)
    ensures Relabelled(Vector(p0, p1), Vector(s0, s1), [c], rot)
  {
    hide *;
    VectorIs(p0, p1, split, words);
    VectorIs(s0, s1, split', words);
    ImageRelabels(s0 + s1, p0 + p1, [c], rot);
  }

  lemma ConstVector<V(!new)>(p0: Part<V>, p1: Part<V>, split: Option<Qubit>, c: Compiled, rot: Rot<V>, words: nat, sort: bool)
    requires GoodParts(p0, p1, split, words) && Relabels([c], words) && WritesAll([c]) == {} && sort == SplitsAny([c])
    ensures Restores([c], rot, p0, sort, Ranked(words)) && Restores([c], rot, p1, sort, Ranked(words))
    ensures var s0, s1 := MapAll([c], rot, p0), MapAll([c], rot, p1);
      GoodParts(s0, s1, split, words) && Relabelled(Vector(p0, p1), Vector(s0, s1), [c], rot)
  {
    hide *;
    ConstGood(p0, p1, split, c, rot, words, sort);
    ImageVector(p0, p1, split, MapAll([c], rot, p0), MapAll([c], rot, p1), split, c, rot, words);
  }

  /** After the fix-up repartition of a vector with one qubit modified. */
  lemma SingleVector<V>(p0: Part<V>, p1: Part<V>, q: Qubit, s0: Part<V>, s1: Part<V>, t0: Part<V>, t1: Part<V>,
                        c: Compiled, rot: Rot<V>, words: nat)
    requires GoodParts(p0, p1, Some(q), words) && Image(s0 + s1, p0 + p1, [c], rot)
    requires GoodParts(t0, t1, Some(q), words) && SameEntries(t0 + t1, s0 + s1)
    ensures Relabelled(Vector(p0, p1), Vector(t0, t1), [c], rot)
  {
    hide *;
    ImagePermuted(t0 + t1, s0 + s1, p0 + p1, [c], rot);
    ImageVector(p0, p1, Some(q), t0, t1, Some(q), c, rot, words);
  }

  lemma ManyVector<V(!new)>(p0: Part<V>, p1: Part<V>, s0: Part<V>, s1: Part<V>, split: Option<Qubit>, c: Compiled, rot: Rot<V>, words: nat)
    requires GoodParts(p0, p1, split, words) && Relabels([c], words)
    requires Permuted(s0, MapAll([c], rot, p0)) && Sorted(s0, 0, |s0|, ByKey(Ranked(words)))
    requires Permuted(s1, MapAll([c], rot, p1)) && Sorted(s1, 0, |s1|, ByKey(Ranked(words)))
    ensures GoodParts(s0, s1, SplitLeft(split, WritesAll([c])), words) && Relabelled(Vector(p0, p1), Vector(s0, s1), [c], rot)
  {
    hide *;
    ManyGood(p0, p1, s0, s1, split, c, rot, words);
    ImageVector(p0, p1, split, s0, s1, SplitLeft(split, WritesAll([c])), c, rot, words);
  }
}
