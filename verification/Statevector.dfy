/**
 The sparse state vector as the simulator sees it (`src/statevector.rs`). Amplitudes are of any type; a gate says
 how it makes and adds them. How work is cut into chunks is left open everywhere.
 */
module SparseStatevector {
  import Angles
  import opened Wrappers
  import opened Controls
  import opened Ops
  import opened BasisOrder
  import opened CompiledGates
  import opened SparseParts
  import opened SparseSorting
  import opened SparseMeasure
  import O = SparseOperations

  class Statevector<V(0,!new)> {
    const words: nat
    var data: O.Buf<V>
    var n0: nat
    var n1: nat
    var partitionedBy: Option<Qubit>

    /** See `GoodParts`. */
    ghost predicate Valid()
      reads this, data
    {
      words > 0 && n0 + n1 <= data.Length && GoodParts(data[..n0], data[n0..n0 + n1], partitionedBy, words)
    }

    /** The amplitude of every basis state that has an entry. */
    ghost function Contents(): map<Bits, V>
      requires n0 + n1 <= data.Length
      reads this, data
    {
      Vector(data[..n0], data[n0..n0 + n1])
    }

    /** The all-zero state with amplitude `one`, partitioned by qubit 0. */
    constructor (words: nat, one: V)
      requires words > 0
      ensures Valid() && fresh(data) && this.words == words
      ensures Contents() == map[{} := one]
    {
      this.words := words;
      data := new Element<V>[1](_ => Element({}, one));
      n0, n1 := 1, 0;
      partitionedBy := Some(0);
      new;
      assert data[..1] == [Element({}, one)] && data[1..1] == [];
      assert data[..1] + data[1..1] == [Element({}, one)];
    }

    /** Applies a single-qubit gate to the dense vector. */
    method PerformU4(q: Qubit, gate: U4<V>, count: nat, chunks: nat)
      requires Valid() && q < WORD * words
      modifies this`data, this`n0, this`n1, this`partitionedBy
      ensures Valid() && partitionedBy == Some(q) && fresh(data)
      ensures IsGated(Contents(), old(Contents()), gate, q)
    {
      hide GoodParts, Vector, IsGated;
      data, n0, n1 := O.PerformU4(data, n0, n1, partitionedBy, words, q, gate, count, chunks);
      partitionedBy := Some(q);
    }

    /** Relabels the basis states and turns the amplitudes as a compiled tree says; no tree means no change.
        The three cases differ in how they restore the order, not in the vector they make. */
    method PerformCompiled(op: Option<Compiled>, shuffle: bool, modified: set<Qubit>, rot: Rot<V>,
                           size0: nat, size1: nat, count: nat, chunks: nat, maxSeq: nat)
      requires Valid() && size0 > 0 && size1 > 0
      requires op.Some? ==> Relabels([op.value], words) && modified == WritesAll([op.value]) && shuffle == SplitsAny([op.value])
      requires forall q :: q in modified ==> q < WORD * words
      modifies this`data, this`n0, this`n1, this`partitionedBy, data
      ensures Valid() && (data == old(data) || fresh(data))
      ensures Relabelled(old(Contents()), Contents(), if op.Some? then [op.value] else [], rot)
    {
      hide GoodParts, Relabels, Relabelled, Vector;
      data, n0, n1, partitionedBy := O.PerformSfree(data, n0, n1, partitionedBy, words, op, shuffle, modified, rot,
                                                   size0, size1, count, chunks, maxSeq);
    }

    /** A measurement that gave `v` keeps the entries with that value, scaled. */
    method Measure(q: Qubit, v: bool, scale: V -> V, nearOne: bool)
      requires Valid()
      modifies this`data, this`n0, this`n1, data
      ensures Valid() && partitionedBy == old(partitionedBy) && (data == old(data) || fresh(data))
      ensures var skip := nearOne && (old(partitionedBy) == Some(q) || Certain(old(Contents()), q, v));
        Contents() == Measured(old(Contents()), q, v, Factor(skip, scale))
    {
      hide GoodParts, Vector, Measured, Certain, Factor;
      data, n0, n1 := O.Measure(data, n0, n1, partitionedBy, words, q, v, scale, nearOne);
    }

    method LookupEntry(key: Bits) returns (r: Option<V>)
      requires Valid() && Fits(key, words)
      ensures r == Lookup(Contents(), key)
    {
      hide GoodParts, Vector, Fits;
      r := O.LookupEntry(data, n0, n1, partitionedBy, words, key);
    }

    /** Takes over the entries of a vector with another number of words, as they are ordered and partitioned there. */
    method Import(other: Statevector<V>)
      requires other.Valid() && words > 0
      requires AllFit(other.data[..other.n0], words) && AllFit(other.data[other.n0..other.n0 + other.n1], words)
      requires other.partitionedBy.Some? ==> other.partitionedBy.value < WORD * words
      modifies this`data, this`n0, this`n1, this`partitionedBy
      ensures Valid() && fresh(data) && partitionedBy == old(other.partitionedBy) && Contents() == old(other.Contents())
    {
      hide GoodParts, AllFit, Vector;
      data := O.Import(other.data, other.n0, other.n1, other.partitionedBy, other.words, words);
      n0, n1, partitionedBy := other.n0, other.n1, other.partitionedBy;
    }

    /** Takes over a dense vector; amplitudes that are not worth an entry are left out. */
    method ImportDense(vals: seq<V>, want: V -> bool)
      requires words > 0 && |vals| <= Angles.Pow2(WORD)
      modifies this`data, this`n0, this`n1, this`partitionedBy
      ensures Valid() && fresh(data) && partitionedBy == None
      ensures O.IsDense(Contents(), vals, want)
    {
      hide GoodParts, Vector, O.IsDense;
      data, n0, n1 := O.ImportDense(vals, want, words);
      partitionedBy := None;
    }
  }
}
