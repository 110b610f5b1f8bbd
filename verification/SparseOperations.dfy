/**
 The operations of the state vector (`src/statevector.rs`) on its buffer: part 0 is data[..n0], part 1 is
 data[n0..n0 + n1]. An operation either works in place or returns a new buffer.
 */
module SparseOperations {
  import Angles
  import opened Wrappers
  import opened Controls
  import opened BasisOrder
  import opened Merging
  import opened Partition
  import opened QuickSort
  import opened CompiledGates
  import opened SparseParts
  import opened ChunkWriting
  import opened SparseSorting
  import opened SparseRuns
  import opened SparseMeasure

  type Buf<V> = array<Element<V>>

  // Tasks on pairs of chunks

  method RunTask<V(0)>(task: Task<V>, words: nat, data: Buf<V>, n0: nat, n1: nat, count: nat) returns (out: Buf<V>, m0: nat, m1: nat)
    requires n0 + n1 <= data.Length
    requires Increasing(data[..n0], TaskKey(task, words)) && Increasing(data[n0..n0 + n1], TaskKey(task, words))
    ensures fresh(out) && m0 + m1 <= out.Length
    ensures out[..m0] == Outcome(task, words, data[..n0], data[n0..n0 + n1], false)
    ensures out[m0..m0 + m1] == Outcome(task, words, data[..n0], data[n0..n0 + n1], true)
  {
    hide *;
    out, m0, m1 := RunChunks(task, words, data[..n0], data[n0..n0 + n1], count);
    assert out[m0..m0 + m1] == out[m0..];
  }

  /** Sorts the entries out by a qubit; a fix-up does it for parts that are sorted by the masked key. */
  method ForceRepartition<V(0)>(data: Buf<V>, n0: nat, n1: nat, words: nat, q: Qubit, isFixup: bool, count: nat)
    returns (out: Buf<V>, m0: nat, m1: nat)
    requires n0 + n1 <= data.Length && q < WORD * words
    requires Mergeable(data[..n0], data[n0..n0 + n1], TaskKey(Repartition(q, isFixup), words), words)
    ensures fresh(out) && m0 + m1 <= out.Length && GoodParts(out[..m0], out[m0..m0 + m1], Some(q), words)
    ensures SameEntries(out[..m0] + out[m0..m0 + m1], data[..n0] + data[n0..n0 + n1])
  {
    hide *;
    RepartitionGood(data[..n0], data[n0..n0 + n1], q, isFixup, words);
    MergeableSorted(data[..n0], data[n0..n0 + n1], TaskKey(Repartition(q, isFixup), words), words);
    out, m0, m1 := RunTask(Repartition(q, isFixup), words, data, n0, n1, count);
  }

  /** Nothing is done if the vector is partitioned by the qubit already. */
  method SetPartition<V(0)>(data: Buf<V>, n0: nat, n1: nat, split: Option<Qubit>, words: nat, q: Qubit, count: nat)
    returns (out: Buf<V>, m0: nat, m1: nat)
    requires n0 + n1 <= data.Length && q < WORD * words && GoodParts(data[..n0], data[n0..n0 + n1], split, words)
    ensures (out == data || fresh(out)) && m0 + m1 <= out.Length && GoodParts(out[..m0], out[m0..m0 + m1], Some(q), words)
    ensures Vector(out[..m0], out[m0..m0 + m1]) == Vector(data[..n0], data[n0..n0 + n1])
  {
    hide *;
    if split == Some(q) {
      return data, n0, n1;
    }
    GoodMergeable(data[..n0], data[n0..n0 + n1], split, q, words);
    out, m0, m1 := ForceRepartition(data, n0, n1, words, q, false, count);
    SameVector(out[..m0], out[m0..m0 + m1], data[..n0], data[n0..n0 + n1]);
  }

  method PerformU4<V(0)>(data: Buf<V>, n0: nat, n1: nat, split: Option<Qubit>, words: nat, q: Qubit, gate: U4<V>, count: nat, chunks: nat)
    returns (out: Buf<V>, m0: nat, m1: nat)
    requires n0 + n1 <= data.Length && q < WORD * words && GoodParts(data[..n0], data[n0..n0 + n1], split, words)
    ensures fresh(out) && m0 + m1 <= out.Length && GoodParts(out[..m0], out[m0..m0 + m1], Some(q), words)
    ensures IsGated(Vector(out[..m0], out[m0..m0 + m1]), Vector(data[..n0], data[n0..n0 + n1]), gate, q)
  {
    hide *;
    var mid, k0, k1 := SetPartition(data, n0, n1, split, words, q, count);
    GateReady(mid[..k0], mid[k0..k0 + k1], gate, q, words);
    GateRefines(mid[..k0], mid[k0..k0 + k1], gate, q, words);
    out, m0, m1 := RunTask(ApplyGate(q, gate), words, mid, k0, k1, chunks);
  }

  // Compiled trees

  /** Runs a compiled tree over both parts, chunk by chunk. */
  method RunParts<V(!new)>(c: Compiled, rot: Rot<V>, data: Buf<V>, n0: nat, n1: nat, size0: nat, size1: nat, sort: bool, key: Element<V> -> int)
    requires n0 + n1 <= data.Length && size0 > 0 && size1 > 0
    modifies data
    ensures Permuted(data[..n0], MapAll([c], rot, old(data[..n0])))
    ensures Permuted(data[n0..n0 + n1], MapAll([c], rot, old(data[n0..n0 + n1])))
    ensures Restores([c], rot, old(data[..n0]), sort, key) ==> data[..n0] == MapAll([c], rot, old(data[..n0]))
    ensures Restores([c], rot, old(data[n0..n0 + n1]), sort, key) ==> data[n0..n0 + n1] == MapAll([c], rot, old(data[n0..n0 + n1]))
  {
    hide *;
    ghost var s := data[..];
    RunPart(c, rot, data, 0, n0, size0, sort, key);
    ghost var t := data[..];
    RunPart(c, rot, data, n0, n0 + n1, size1, sort, key);
    ghost var u := data[..];
    assert s[0..n0] == old(data[..n0]) && s[n0..n0 + n1] == old(data[n0..n0 + n1]);
    assert u[0..n0] == data[..n0] && u[n0..n0 + n1] == data[n0..n0 + n1];
    BothRan(s, t, u, n0, n1, c, rot, sort, key);
  }

  lemma BothRan<V>(s: Part<V>, t: Part<V>, u: Part<V>, n0: nat, n1: nat, c: Compiled, rot: Rot<V>, sort: bool, key: Element<V> -> int)
    requires n0 + n1 <= |s| == |t|
    requires RanSlice(t, s, 0, n0, [c], rot, Restores([c], rot, s[0..n0], sort, key))
    requires RanSlice(u, t, n0, n0 + n1, [c], rot, Restores([c], rot, t[n0..n0 + n1], sort, key))
    ensures |u| == |s| && Permuted(u[0..n0], MapAll([c], rot, s[0..n0])) && Permuted(u[n0..n0 + n1], MapAll([c], rot, s[n0..n0 + n1]))
    ensures Restores([c], rot, s[0..n0], sort, key) ==> u[0..n0] == MapAll([c], rot, s[0..n0])
    ensures Restores([c], rot, s[n0..n0 + n1], sort, key) ==> u[n0..n0 + n1] == MapAll([c], rot, s[n0..n0 + n1])
  {
    hide Permuted, Restores;
    assert t[n0..n0 + n1] == t[n0..][..n1] == s[n0..][..n1] == s[n0..n0 + n1];
    assert u[0..n0] == u[..n0] == t[..n0] == t[0..n0];
  }

  /** Sorts both parts, each on the thread pool. */
  method SortParts<V(!new)>(data: Buf<V>, n0: nat, n1: nat, key: Element<V> -> int, maxSeq: nat)
    requires n0 + n1 <= data.Length
    modifies data
    ensures Permuted(data[..n0], old(data[..n0])) && Permuted(data[n0..n0 + n1], old(data[n0..n0 + n1]))
    ensures Sorted(data[..n0], 0, n0, ByKey(key)) && Sorted(data[n0..n0 + n1], 0, n1, ByKey(key))
  {
    hide *;
    ByKeyIsWeak(key);
    ghost var s := data[..];
    ParQuicksort(data, 0, n0, ByKey(key), maxSeq);
    ghost var t := data[..];
    ParQuicksort(data, n0, n0 + n1, ByKey(key), maxSeq);
    ghost var u := data[..];
    assert s[0..n0] == old(data[..n0]) && s[n0..n0 + n1] == old(data[n0..n0 + n1]);
    assert u[0..n0] == data[..n0] && u[n0..n0 + n1] == data[n0..n0 + n1];
    BothSorted(s, t, u, n0, n1, ByKey(key));
  }

  lemma BothSorted<T>(s: seq<T>, t: seq<T>, u: seq<T>, n0: nat, n1: nat, less: (T, T) -> bool)
    requires n0 + n1 <= |s| && Rearranged(t, s, 0, n0) && Rearranged(u, t, n0, n0 + n1)
    requires Sorted(t, 0, n0, less) && Sorted(u, n0, n0 + n1, less)
    ensures Permuted(u[0..n0], s[0..n0]) && Permuted(u[n0..n0 + n1], s[n0..n0 + n1])
    ensures Sorted(u[0..n0], 0, n0, less) && Sorted(u[n0..n0 + n1], 0, n1, less)
  {
    assert u[0..n0] == t[0..n0] && t[n0..n0 + n1] == s[n0..n0 + n1];
    SortedSlice(t, 0, n0, less);
    SortedSlice(u, n0, n0 + n1, less);
  }

  lemma SortedSlice<T>(s: seq<T>, lo: nat, hi: nat, less: (T, T) -> bool)
    requires lo <= hi <= |s| && Sorted(s, lo, hi, less)
    ensures Sorted(s[lo..hi], 0, hi - lo, less)
  {
    assert forall i :: 0 <= i < hi - lo ==> s[lo..hi][i] == s[lo + i];
  }

  /** Nothing is modified: only the order may have to be restored within the chunks. */
  method PerformConst<V(!new)>(data: Buf<V>, n0: nat, n1: nat, ghost split: Option<Qubit>, words: nat, c: Compiled, shuffle: bool,
                               rot: Rot<V>, size0: nat, size1: nat)
    requires n0 + n1 <= data.Length && size0 > 0 && size1 > 0 && GoodParts(data[..n0], data[n0..n0 + n1], split, words)
    requires Relabels([c], words) && WritesAll([c]) == {} && shuffle == SplitsAny([c])
    modifies data
    ensures GoodParts(data[..n0], data[n0..n0 + n1], split, words)
    ensures Relabelled(old(Vector(data[..n0], data[n0..n0 + n1])), Vector(data[..n0], data[n0..n0 + n1]), [c], rot)
  {
    hide *;
    ConstVector(data[..n0], data[n0..n0 + n1], split, c, rot, words, shuffle);
    RunParts(c, rot, data, n0, n1, size0, size1, shuffle, Ranked(words));
  }

  /** One qubit is modified: the vector is partitioned by it before and repartitioned by it afterwards. */
  method PerformSingle<V(0,!new)>(data: Buf<V>, n0: nat, n1: nat, split: Option<Qubit>, words: nat, c: Compiled, q: Qubit, shuffle: bool,
                                  rot: Rot<V>, size0: nat, size1: nat, count: nat, chunks: nat)
    returns (out: Buf<V>, m0: nat, m1: nat)
    requires n0 + n1 <= data.Length && size0 > 0 && size1 > 0 && GoodParts(data[..n0], data[n0..n0 + n1], split, words)
    requires q < WORD * words && Relabels([c], words) && WritesAll([c]) == {q} && shuffle == SplitsAny([c])
    modifies data
    ensures fresh(out) && m0 + m1 <= out.Length && GoodParts(out[..m0], out[m0..m0 + m1], Some(q), words)
    ensures Relabelled(old(Vector(data[..n0], data[n0..n0 + n1])), Vector(out[..m0], out[m0..m0 + m1]), [c], rot)
  {
    hide *;
    var mid, k0, k1 := SetPartition(data, n0, n1, split, words, q, count);
    ghost var p0, p1 := mid[..k0], mid[k0..k0 + k1];
    SingleGood(p0, p1, q, c, rot, words, shuffle);
    RunParts(c, rot, mid, k0, k1, size0, size1, shuffle, Masked(q, words));
    ghost var s0, s1 := mid[..k0], mid[k0..k0 + k1];
    out, m0, m1 := ForceRepartition(mid, k0, k1, words, q, true, chunks);
    SingleVector(p0, p1, q, s0, s1, out[..m0], out[m0..m0 + m1], c, rot, words);
  }

  /** Many qubits are modified: the tree is run without regard to order, and both parts are sorted from scratch. */
  method PerformMany<V(!new)>(data: Buf<V>, n0: nat, n1: nat, ghost split: Option<Qubit>, words: nat, c: Compiled,
                              rot: Rot<V>, size0: nat, size1: nat, maxSeq: nat)
    requires n0 + n1 <= data.Length && size0 > 0 && size1 > 0 && GoodParts(data[..n0], data[n0..n0 + n1], split, words)
    requires Relabels([c], words)
    modifies data
    ensures GoodParts(data[..n0], data[n0..n0 + n1], SplitLeft(split, WritesAll([c])), words)
    ensures Relabelled(old(Vector(data[..n0], data[n0..n0 + n1])), Vector(data[..n0], data[n0..n0 + n1]), [c], rot)
  {
    hide *;
    ghost var p0, p1 := data[..n0], data[n0..n0 + n1];
    RunParts(c, rot, data, n0, n1, size0, size1, false, Ranked(words));
    ghost var s0, s1 := data[..n0], data[n0..n0 + n1];
    SortParts(data, n0, n1, Ranked(words), maxSeq);
    PermutedTrans(data[..n0], s0, MapAll([c], rot, p0));
    PermutedTrans(data[n0..n0 + n1], s1, MapAll([c], rot, p1));
    ManyVector(p0, p1, data[..n0], data[n0..n0 + n1], split, c, rot, words);
  }

  /** The three cases differ in how they restore the order, not in the vector they make. */
  method PerformSfree<V(0,!new)>(data: Buf<V>, n0: nat, n1: nat, split: Option<Qubit>, words: nat, op: Option<Compiled>,
                                 shuffle: bool, modified: set<Qubit>, rot: Rot<V>,
                                 size0: nat, size1: nat, count: nat, chunks: nat, maxSeq: nat)
    returns (out: Buf<V>, m0: nat, m1: nat, split': Option<Qubit>)
    requires n0 + n1 <= data.Length && size0 > 0 && size1 > 0 && GoodParts(data[..n0], data[n0..n0 + n1], split, words)
    requires op.Some? ==> Relabels([op.value], words) && modified == WritesAll([op.value]) && shuffle == SplitsAny([op.value])
    requires forall q :: q in modified ==> q < WORD * words
    modifies data
    ensures (out == data || fresh(out)) && m0 + m1 <= out.Length && GoodParts(out[..m0], out[m0..m0 + m1], split', words)
    ensures Relabelled(old(Vector(data[..n0], data[n0..n0 + n1])), Vector(out[..m0], out[m0..m0 + m1]),
                       if op.Some? then [op.value] else [], rot)
  {
    hide *;
    out, m0, m1, split' := data, n0, n1, split;
    if op.None? {
      NotRelabelled(Vector(data[..n0], data[n0..n0 + n1]), rot);
    } else if |modified| == 0 {
      PerformConst(data, n0, n1, split, words, op.value, shuffle, rot, size0, size1);
    } else if |modified| == 1 {
      var q :| q in modified;
      OnlyElement(modified, q);
      out, m0, m1 := PerformSingle(data, n0, n1, split, words, op.value, q, shuffle, rot, size0, size1, count, chunks);
      split' := Some(q);
    } else {
      PerformMany(data, n0, n1, split, words, op.value, rot, size0, size1, maxSeq);
      SplitLeftIs(split, modified);
      if split.Some? && split.value in modified {
        split' := None;
      }
    }
  }

  lemma SplitLeftIs(split: Option<Qubit>, modified: set<Qubit>)
    ensures SplitLeft(split, modified) == if split.Some? && split.value in modified then None else split
  {
  }

  lemma OnlyElement(s: set<Qubit>, q: Qubit)
    requires |s| == 1 && q in s
    ensures s == {q}
  {
    assert |s - {q}| == 0;
  }

  lemma NotRelabelled<V>(m: map<Bits, V>, rot: Rot<V>)
    ensures Relabelled(m, m, [], rot)
  {
    assert forall b :: BitsAll([], b) == b;
  }

  // Measuring

  method Measure<V(0)>(data: Buf<V>, n0: nat, n1: nat, split: Option<Qubit>, ghost words: nat, q: Qubit, v: bool, scale: V -> V, nearOne: bool)
    returns (out: Buf<V>, m0: nat, m1: nat)
    requires n0 + n1 <= data.Length && GoodParts(data[..n0], data[n0..n0 + n1], split, words)
    modifies data
    ensures (out == data || fresh(out)) && m0 + m1 <= out.Length && GoodParts(out[..m0], out[m0..m0 + m1], split, words)
    ensures var was := old(Vector(data[..n0], data[n0..n0 + n1]));
      Vector(out[..m0], out[m0..m0 + m1])
      == Measured(was, q, v, Factor(nearOne && (split == Some(q) || Certain(was, q, v)), scale))
  {
    hide *;
    ghost var p0, p1 := data[..n0], data[n0..n0 + n1];
    ghost var kept := split == Some(q) || Certain(Vector(p0, p1), q, v);
    DroppedVector(p0, p1, split, q, v, words);
    MeasureVector(p0, p1, split, q, v, nearOne && kept, scale, words);
    out, m0, m1 := KeepMeasured(data, n0, n1, split == Some(q), q, v, scale, nearOne, kept);
  }

  // Looking up and importing

  /** Binary search in one part. */
  method Search<V>(data: Buf<V>, lo: nat, n: nat, words: nat, key: Bits) returns (r: Option<V>)
    requires lo + n <= data.Length && Increasing(data[lo..lo + n], Ranked(words)) && AllFit(data[lo..lo + n], words) && Fits(key, words)
    ensures r.Some? ==> Element(key, r.value) in data[lo..lo + n]
    ensures r.None? ==> forall e :: e in data[lo..lo + n] ==> e.bits != key
  {
    ghost var s := data[lo..lo + n];
    var a, b := 0, n;
    var rank := Rank(key, words);
    hide Rank;
    while a < b
      invariant 0 <= a <= b <= n
      invariant forall i :: 0 <= i < a ==> Ranked<V>(words)(s[i]) < rank
      invariant forall i :: b <= i < n ==> rank < Ranked<V>(words)(s[i])
    {
      var mid := (a + b) / 2;
      assert s[mid] == data[lo + mid] && s[mid] in s;
      if data[lo + mid].bits == key {
        return Some(data[lo + mid].val);
      }
      if Rank(data[lo + mid].bits, words) == rank {
        RankInjective(data[lo + mid].bits, key, words);
      }
      if Rank(data[lo + mid].bits, words) < rank {
        a := mid + 1;
      } else {
        b := mid;
      }
    }
    r := None;
  }

  /** The amplitude of a basis state. The parts are both searched, however the vector is partitioned. */
  method LookupEntry<V>(data: Buf<V>, n0: nat, n1: nat, ghost split: Option<Qubit>, words: nat, key: Bits) returns (r: Option<V>)
    requires n0 + n1 <= data.Length && GoodParts(data[..n0], data[n0..n0 + n1], split, words) && Fits(key, words)
    ensures r == Lookup(Vector(data[..n0], data[n0..n0 + n1]), key)
  {
    assert data[0..0 + n0] == data[..n0];
    r := Search(data, 0, n0, words, key);
    if r.None? {
      r := Search(data, n0, n1, words, key);
    }
    hide Rank;
    FoundIs(data[..n0], data[n0..n0 + n1], split, words, key, r);
  }

  lemma FoundIs<V>(p0: Part<V>, p1: Part<V>, split: Option<Qubit>, words: nat, key: Bits, r: Option<V>)
    requires GoodParts(p0, p1, split, words)
    requires r.Some? ==> Element(key, r.value) in p0 || Element(key, r.value) in p1
    requires r.None? ==> forall e :: e in p0 || e in p1 ==> e.bits != key
    ensures r == Lookup(Vector(p0, p1), key)
  {
    VectorIs(p0, p1, split, words);
    hide GoodParts;
    MeaningHas(p0 + p1, key);
    if r.Some? {
      LookupIs(p0 + p1, Element(key, r.value));
    }
  }

  /** The entries of a dense vector that are worth keeping, all in part 0. */
  method DenseCopy<V(0)>(vals: seq<V>, want: V -> bool) returns (out: Buf<V>)
    ensures fresh(out) && out[..] == DenseEntries(vals, want, |vals|)
  {
    var n := 0;
    for i := 0 to |vals|
      invariant n == |DenseEntries(vals, want, i)|
    {
      if want(vals[i]) {
        n := n + 1;
      }
    }
    out := new Element<V>[n];
    var chunk := new WriteChunk(out, 0, n);
    hide FromIndex;
    for i := 0 to |vals|
      invariant chunk.buf == out && chunk.end == n == out.Length
      invariant chunk.pos == |DenseEntries(vals, want, i)| <= n
      invariant out[..chunk.pos] == DenseEntries(vals, want, i)
    {
      DenseRises(vals, want, i + 1);
      if want(vals[i]) {
        chunk.PushUnchecked(Element(FromIndex(i), vals[i]));
        assert out[..chunk.pos] == out[..][..chunk.pos];
      }
    }
  }

  lemma {:induction false} DenseRises<V>(vals: seq<V>, want: V -> bool, i: nat)
    requires i <= |vals|
    ensures |DenseEntries(vals, want, i)| <= |DenseEntries(vals, want, |vals|)|
    decreases |vals| - i
  {
    if i < |vals| {
      DenseRises(vals, want, i + 1);
    }
  }

  /** The vector `m` holds the dense vector, without the amplitudes that are not worth an entry. */
  ghost predicate IsDense<V>(m: map<Bits, V>, vals: seq<V>, want: V -> bool) {
    && (forall i: nat :: i < |vals| ==> Lookup(m, FromIndex(i)) == if want(vals[i]) then Some(vals[i]) else None)
    && (forall b :: b in m ==> exists i: nat :: i < |vals| && b == FromIndex(i))
  }

  lemma DenseVector<V>(vals: seq<V>, want: V -> bool, words: nat)
    requires |vals| <= Angles.Pow2(WORD) && words > 0
    ensures var s := DenseEntries(vals, want, |vals|);
      GoodParts(s, [], None, words) && IsDense(Vector(s, []), vals, want)
  {
    var s := DenseEntries(vals, want, |vals|);
    DenseGood(vals, want, |vals|, words);
    VectorIs(s, [], None, words);
    assert s + [] == s;
    hide FromIndex, GoodParts, DenseEntries;
    forall i: nat | i < |vals| ensures Lookup(Meaning(s), FromIndex(i)) == if want(vals[i]) then Some(vals[i]) else None {
      DenseAt(vals, want, words, i);
    }
    forall b | b in Meaning(s) ensures exists i: nat :: i < |vals| && b == FromIndex(i) {
      MeaningHas(s, b);
      var e :| e in s && e.bits == b;
      DenseIn(vals, want, |vals|, e);
    }
  }

  lemma DenseAt<V>(vals: seq<V>, want: V -> bool, words: nat, i: nat)
    requires i < |vals| <= Angles.Pow2(WORD) && words > 0 && Unique(DenseEntries(vals, want, |vals|))
    ensures Lookup(Meaning(DenseEntries(vals, want, |vals|)), FromIndex(i)) == if want(vals[i]) then Some(vals[i]) else None
  {
    var s := DenseEntries(vals, want, |vals|);
    MeaningHas(s, FromIndex(i));
    hide *;
    if want(vals[i]) {
      DenseIn(vals, want, |vals|, Element(FromIndex(i), vals[i]));
      LookupIs(s, Element(FromIndex(i), vals[i]));
    } else {
      forall e | e in s ensures e.bits != FromIndex(i) {
        DenseOther(vals, want, words, i, e);
      }
      LookupMissing(Meaning(s), FromIndex(i));
    }
  }

  lemma LookupMissing<V>(m: map<Bits, V>, b: Bits)
    requires b !in m
    ensures Lookup(m, b) == None
  {
  }

  lemma DenseOther<V>(vals: seq<V>, want: V -> bool, words: nat, i: nat, e: Element<V>)
    requires i < |vals| <= Angles.Pow2(WORD) && words > 0 && !want(vals[i]) && e in DenseEntries(vals, want, |vals|)
    ensures e.bits != FromIndex(i)
  {
    hide *;
    DenseIn(vals, want, |vals|, e);
    var j: nat :| j < |vals| && want(vals[j]) && e == Element(FromIndex(j), vals[j]);
    if j < i { IndexOrder(j, i, words); } else { IndexOrder(i, j, words); }
  }

  /** A dense vector: all its entries are in part 0. */
  method ImportDense<V(0)>(vals: seq<V>, want: V -> bool, ghost words: nat) returns (out: Buf<V>, m0: nat, m1: nat)
    requires words > 0 && |vals| <= Angles.Pow2(WORD)
    ensures fresh(out) && m0 + m1 <= out.Length && GoodParts(out[..m0], out[m0..m0 + m1], None, words)
    ensures IsDense(Vector(out[..m0], out[m0..m0 + m1]), vals, want)
  {
    hide *;
    out := DenseCopy(vals, want);
    m0, m1 := out.Length, 0;
    assert out[..m0] == out[..] && out[m0..m0 + m1] == [];
    DenseVector(vals, want, words);
  }

  /** The entries of another vector, as they are ordered and partitioned there. */
  method Import<V(0)>(from: Buf<V>, n0: nat, n1: nat, split: Option<Qubit>, ghost fromWords: nat, ghost words: nat) returns (out: Buf<V>)
    requires n0 + n1 <= from.Length && GoodParts(from[..n0], from[n0..n0 + n1], split, fromWords)
    requires AllFit(from[..n0], words) && AllFit(from[n0..n0 + n1], words) && (split.Some? ==> split.value < WORD * words)
    ensures fresh(out) && out.Length == n0 + n1
    ensures GoodParts(out[..n0], out[n0..n0 + n1], split, words)
    ensures Vector(out[..n0], out[n0..n0 + n1]) == Vector(from[..n0], from[n0..n0 + n1])
  {
    hide *;
    GoodWords(from[..n0], from[n0..n0 + n1], split, fromWords, words);
    out := new Element<V>[n0 + n1];
    for i := 0 to n0 + n1
      invariant forall k :: 0 <= k < i ==> out[k] == from[k]
    {
      out[i] := from[i];
    }
    assert out[..n0] == from[..n0] && out[n0..n0 + n1] == from[n0..n0 + n1];
  }
}
