# Verified model of the qblaze simulator core

qblaze is a sparse state-vector quantum simulator. This project models its discrete core in Dafny and proves that each
fast mechanism does what its simple specification says. Everything is stated for all inputs, all widths, any number of
threads and every schedule.

How the parts fit together:

* **Gate compiler** (`Angles`, `Controls`, `Ops`, `Partition`, `Compiled`, `CompileQueue`). A queue of controlled
  X, swap and phase operations is compiled to a tree, with X gates carried along as toggles and runs of operations split
  on a shared control. The specification is to run the operations one by one on a basis state. One contract covers every
  precision: the phase error is at most 2^(64-prec) for each operation and each control item, and zero where all phases
  are multiples of 2^(64-prec), the angles that rounding leaves alone.
* **Sparse vector** (`Merging`, `QuickSort`, `BasisOrder`, `SparseParts`, `ChunkWriting`, `SparseSorting`, `SparseRuns`,
  `SparseMeasure`, `SparseOperations`, `Statevector`, `SfreeUpdate`). Two sorted parts are merged in chunks, first
  counting, then writing. The specification is a map from basis states to amplitudes, of any type.
* **Thread pool** (`ThreadPool*`). The futex protocol as atomic steps of n threads with one invariant kept by every step.
  The spinning version is shown to reach only states that the futex version reaches. From every reachable state of either
  version the threads can bring the scope to its return, and work that waits while threads are idle is always seen by one
  of them or about to be shown to one.
* **Reversible arithmetic** (`Registers`, `ModularArithmetic`, `Shor*`). The adder, comparator, modular adder and in-place
  modular multiplier of Shor's algorithm, for every width. Their gates are operations of the compiler, so the compiled
  multiplier multiplies too (`ShorCompiled`).
* **Single-qubit gates** (`Complexes`, `Circuits`, `CircuitRules`, `U3`, `U3Matrices`, `U3Composition`, `U3Decompositions`,
  `U3NormalForms`, `U3Numeric`, `U3Exactness`). Gates are Euler angles; the specification is 2x2 matrices up to a phase.
  Composition is the matrix product, its floating-point path exactly if the angles taken from the arctangents fit; a gate
  has one normal form, and each decomposition succeeds exactly if the parts exist.
* **Lazy simulator** (`PendingGates`, `DenseVectors`, `Masses`, `Measurements`, `BornRule`, `LazyStates`, `LazySimulator`,
  `LazyRuns`). The logical state is a circuit: what the stored vector has gone through, then the queue, then one pending
  gate per qubit. Every call keeps it equal to immediate execution up to global phase, and a final flush brings the stored
  vector there. Measured weights are the sums of |amplitude| squared, they add up to one in every run from the all-zero
  state, and the reported outcome is drawn in proportion to them.

Rounding comes in twice. The simulator rounds angles in order to test them. A gate is *plain* if no such test takes an angle
for a quarter turn that it is not; all angles on the grid (multiples of 2^(64-prec)) are plain, and all that are further than
half a unit from every quarter turn. A call is exact if the waiting gates are plain, and `u3` is exact for every gate unless
it composes on the floating-point path. The compiler drops phases that round to nothing. What the stored vector has gone
through therefore contains, after the operations of each flushed queue, a turn of every basis state by an angle within the
drift bound; on the grid these turns are zero. The ghost field `fine` of the simulator says that all angles have been on the
grid so far, and whole runs state exactly when it stays true. Circuits of Clifford gates, controlled x and swaps, multiply
controlled phases on the grid, and measurements always keep it.

Conventions: a basis state is the set of qubits that are 1, in place of an array of words. An angle is an integer below
2^64. `Circle` is a function h with h(x+y) = h(x)h(y), h(2^63) = i and values of absolute value one,
such as h(x) = exp(i pi x / 2^64); it replaces the floating-point sine and cosine. `U.Numeric` replaces the floating-point path of
`U3::compose`; where it matters, a statement asks that its value is exact for the angles at hand. Randomness, the choice
of chunk sizes, schedules and heuristics are parameters or arbitrary choices.

Where the code and its documentation disagree, the code is followed: `Angle::mid` is documented by its name only, and as
written returns a + (a-b)/2 rather than the midpoint (`src/angle.rs:113-116`). The drift bound holds nevertheless, since
`mid` is only used on angles whose difference rounds to zero.

## Model

| member | source | states |
|---|---|---|
| Angles.RoundNear | src/angle.rs:74-90 | rounding to `prec` bits moves an angle by at most half a unit on the circle, at every precision |
| Angles.RoundOnGrid | src/angle.rs:74-90 | the rounded angle is a multiple of 2^(64-prec), and rounding leaves an angle alone if and only if it is one already |
| Angles.RoundTies | src/angle.rs:74-90 | an angle halfway between two multiples goes to the even one, which is on the grid of one bit less |
| Angles.RoundDetermined | src/angle.rs:74-90 | these laws determine the result: a nearest multiple, and the even one of two, is what rounding returns |
| Angles.PlainAngles | src/angle.rs:74-90 | angles on the grid, and angles further than half a unit from every quarter turn, are not taken for a quarter turn that they are not |
| Angles.MidNear | src/angle.rs:113-116 | `mid` as written stays within one unit of both angles whenever their difference rounds to zero |
| Angles.MidHalves | src/angle.rs:113-116 | twice the result of `mid` is 2a + (a-b), the difference read as a signed number, to within one |
| Controls.WithoutQubit | src/qubit.rs:234-252 | splits an item off a control: the control holds exactly if the qubit has that value and the rest holds; nothing if the qubit is not controlled |
| Controls.WithQubit | src/qubit.rs:205-224 | adds an item to a sorted control: holds exactly if the old one does and the qubit has the value |
| Controls.ToggleIf | src/qubit.rs:226-232 | the toggled control reads a state as the old one reads the flipped state |
| Ops.RunBack | src/sfree/queue.rs:109-123 | running valid operations backwards undoes them, on every state |
| Ops.RunInjective | src/sfree/queue.rs:109-123 | a valid sequence maps distinct basis states to distinct basis states |
| Partition.PartitionBy | src/shamelessly_stolen_from_libstd.rs:77-121 | the gap-cycle partition returns the number of matching elements, puts exactly those first and permutes the slice |
| CompiledGates.MaskMeansHolds | src/sfree/gates.rs:195-218 | testing a state by mask and wanted bits is the control holding |
| CompiledGates.SeqKeepsOthers | src/sfree/compiler.rs:53-96 | compiled code leaves every qubit outside its recorded writes alone |
| CompiledGates.PermutedMap | src/sfree/compiler.rs:74-96 | mapping a permuted slice permutes the mapped slice, so splits may reorder elements |
| CompiledGates.Perform | src/sfree/compiler.rs:16-18 | a compiled tree run on a slice leaves a permutation of the per-element images, in order if it has no split, and touches nothing outside the slice |
| CompiledGates.PerformSplit | src/sfree/compiler.rs:74-96 | partitioning a slice in place and running a branch on each side is the per-element meaning of the split |
| CompileQueue.PhaseMeans | src/sfree/queue.rs:209-223 | the emitted named gate or phase acts as the requested phase within half a unit, exactly if the phase is on the grid, and changes no bit |
| CompileQueue.PushToggleMany | src/sfree/queue.rs:231-247 | the emitted code flips exactly the given qubits, whether one by one or with one mask |
| CompileQueue.EvalControl | src/sfree/queue.rs:126-150 | finds the best score of any prefix of the operations for a qubit, among those that end before a write of it and on whose way the running score has stayed above the failure threshold, and the shortest prefix that has it |
| CompileQueue.SelectControl | src/sfree/queue.rs:152-163 | picks a control item none of the others beats |
| CompileQueue.TryPartition | src/sfree/queue.rs:165-196 | splits a run of operations on one control into two branches that behave like the run on their side, each with fewer control items |
| CompileQueue.CompileSplit | src/sfree/queue.rs:281-352 | compiling both branches and reconciling their toggles and phases simulates the run of operations that was split, within the drift bound |
| CompileQueue.Reconcile | src/sfree/queue.rs:301-352 | left-over toggles and phases of the two branches are released or merged without changing what is simulated beyond one unit |
| CompileQueue.CompileSeq | src/sfree/queue.rs:256-352 | for every valid sequence, incoming toggle set and precision: the code, then the outgoing toggles, then the outgoing phase, is the incoming toggles and then the operations one by one, up to 2^(64-prec) per operation and control item; it terminates, its toggles and writes stay among the written qubits, and the statistics describe it |
| CompileQueue.ExactOnGrid | src/sfree/queue.rs:256-352 | at every precision, where all phases are multiples of 2^(64-prec) the compiled code gives exactly the bits and the phase of the operations on every state |
| Ops.AllOnGridAt64 | src/angle.rs:74-90 | from precision 64 on every phase is on the grid |
| CompileQueue.CodeInjective | src/sfree/queue.rs:96-106 | compiled code maps distinct states to distinct states |
| CompileQueue.Queue.CtlSwap | src/sfree/queue.rs:65-72 | the operation is queued and the read and write sets still describe the queue |
| CompileQueue.Queue.Compile | src/sfree/queue.rs:96-106 | the queue is emptied into at most one tree that simulates it up to one dropped global phase and writes no other qubits |
| Merging.MergeBoundaries | src/util.rs:4-49 | for strictly increasing keys and any target up to the total length: terminates, its two assertions hold, and it returns a split of total target or target - 1 that separates the keys and divides no equal pair |
| Merging.MergeChunkPairs | src/util.rs:51-73 | at most `count` pairs that concatenate to the inputs, all keys of one pair below those of the next, each of at most ceil(n/count)+1 entries |
| Merging.MergeDistinct | src/util.rs:75-104 | the loop writes the interleaving of the two runs |
| Merging.InterleavedHas | src/util.rs:75-104 | the interleaving holds exactly the elements of both runs |
| Merging.InterleavedInOrder | src/util.rs:75-104 | the interleaving is in order: keys never decrease, and equal keys are one element of each run, that of the first run first |
| Merging.ChunkedMergeDistinct | src/util.rs:51-104 | merging chunk pair by chunk pair gives the unchunked sequence |
| Merging.MergeEq | src/util.rs:106-145 | the loop reports the matching of the two runs |
| Merging.MatchedMeans | src/util.rs:106-145 | a reported match is a pair of equal keys, or an element whose key the other run does not have |
| Merging.MatchedCovers | src/util.rs:106-145 | every element is reported |
| Merging.ChunkedMergeEq | src/util.rs:51-145 | matching chunk pair by chunk pair gives the unchunked sequence |
| QuickSort.InsertTail | src/shamelessly_stolen_from_libstd.rs:34-62 | sifting the tail into a sorted run sorts and permutes it |
| QuickSort.InsertionSort | src/shamelessly_stolen_from_libstd.rs:64-75 | sorts and permutes the slice |
| QuickSort.PartitionPivot | src/shamelessly_stolen_from_libstd.rs:187-216 | for any pivot: everything before it is less, nothing after it is, and the slice is permuted |
| QuickSort.SeqQuicksort | src/shamelessly_stolen_from_libstd.rs:218-240 | terminates with a sorted permutation for every strict weak order and any pivot choice |
| QuickSort.ParRecurse | src/shamelessly_stolen_from_libstd.rs:242-270 | the slices left to other tasks are disjoint, and once each is sorted the whole is |
| QuickSort.ParQuicksort | src/shamelessly_stolen_from_libstd.rs:242-275 | running the submitted slices in any order gives a sorted permutation |
| BasisOrder.RankIsLexicographic | src/bitset.rs:67-68 | the numbering of states is the order of word arrays compared word by word |
| BasisOrder.RankInjective | src/bitset.rs:67-68 | distinct states have distinct numbers |
| BasisOrder.MaskKeepsOrder | src/statevector.rs:246-258 | among states that agree on a qubit, masking it out does not change the order |
| SparseParts.ChunkedOutcome | src/statevector.rs:246-258 | running a merge job on chunk pairs gives what it gives on the whole parts |
| SparseParts.RepartitionGood | src/statevector.rs:198-313 | repartitioning keeps the entries and establishes the invariant for the new qubit |
| SparseParts.GateRefines | src/statevector.rs:316-408 | the merged gate pass denotes the 2x2 combination of every masked pair, an entry being absent only where there was none or the sum was dropped, and keeps the invariant |
| ChunkWriting.WriteChunk.PushUnchecked | src/buffer.rs:254-264 | writes the next place of the chunk and nothing else |
| ChunkWriting.DoU4Count | src/statevector.rs:316-355 | counts exactly what the writing pass writes on each side |
| ChunkWriting.DoU4Write | src/statevector.rs:357-408 | writes exactly that, filling its two chunks, without leaving them |
| ChunkWriting.DoRepartitionCount | src/statevector.rs:260-274 | counts exactly what the repartitioning pass writes |
| ChunkWriting.DoRepartitionWrite | src/statevector.rs:276-313 | writes exactly that, in order |
| ChunkWriting.RunChunks | src/buffer.rs:317-360 | counting, reserving and then writing the chunks in any order fills the buffer with the unchunked outcome, every chunk receiving exactly its counted number of writes |
| SparseSorting.SortedUnique | src/shamelessly_stolen_from_libstd.rs:218-240 | two sorted permutations with distinct keys are equal, so it does not matter how a part is sorted |
| SparseSorting.ImageRelabels | src/sfree/compiler.rs:16-18 | the images of all entries are the relabelled vector |
| SparseRuns.RunPart | src/statevector.rs:462-487 | running a tree on chunks of a part, sorted afterwards or not, gives the images of the part |
| SparseRuns.ConstVector | src/statevector.rs:698-716 | the path that changes no qubit denotes the relabelled vector and keeps the invariant |
| SparseRuns.SingleVector | src/statevector.rs:718-743 | so does the path that changes one qubit, with its masked sort and fix-up repartition |
| SparseRuns.ManyVector | src/statevector.rs:745-777 | so does the path that changes many qubits and sorts everything |
| SparseMeasure.KeptMeaning | src/statevector.rs:577-643 | the kept entries are exactly the measured side of the vector, scaled |
| SparseMeasure.MeasureCopy | src/statevector.rs:444-460 | copies exactly the entries with the outcome, scaled, filling its chunk |
| SparseMeasure.GoodWords | src/statevector.rs:798-828 | the invariant does not depend on the number of words, so a vector may grow |
| SparseMeasure.DenseGood | src/statevector.rs:830-866 | the entries of a dense vector come out strictly sorted |
| SparseStatevector.Statevector.constructor | src/statevector.rs:54-70 | the new vector is the all-zero state and satisfies the invariant |
| SparseOperations.SetPartition | src/statevector.rs:190-244 | changes how the vector is partitioned and not what it denotes |
| SparseStatevector.Statevector.PerformU4 | src/statevector.rs:645-684 | for every qubit, chunk count and schedule: the dense gate, with the invariant kept and the vector partitioned by the qubit |
| SparseStatevector.Statevector.PerformCompiled | src/statevector.rs:686-777 | all three paths denote the relabelled vector and keep the invariant |
| SparseStatevector.Statevector.Measure | src/statevector.rs:577-643 | keeps exactly the side of the outcome, scaled unless the scale is one and nothing is dropped |
| SparseStatevector.Statevector.LookupEntry | src/statevector.rs:98-106 | binary search in both parts finds the amplitude exactly if there is one |
| SparseStatevector.Statevector.Import | src/statevector.rs:798-828 | takes over the vector unchanged |
| SparseStatevector.Statevector.ImportDense | src/statevector.rs:830-866 | the stored vector has exactly the wanted amplitudes of the dense one |
| SfreeUpdate.PerformSfree | src/statevector.rs:686-777 | compiling the queue and applying it: at any precision the vector is relabelled as the operations run one by one say, up to one phase and a turn of each basis state that is within the drift bound, and zero where all phases are on the grid |
| SfreeUpdate.RelabelledIsApplied | src/statevector.rs:686-777 | code that simulates the operations applies them to the vector, with a turn of each basis state within the allowed drift |
| ThreadPoolRuns.RunKeeps | src/threading/sync_impl.futex.rs:24-40 | one invariant holds in every state of every run, for any number of threads and any jobs |
| ThreadPoolRuns.WordMeaning | src/threading/sync_impl.futex.rs:11-36 | before `stop`, the idle field is the number of idle threads, the lock bit is set exactly while one thread holds the lock, and an unlocked word shows work exactly if the stack is not empty |
| ThreadPoolRuns.ZeroMeansStopped | src/threading/sync_impl.futex.rs:116-182 | a waiting thread reads zero only after `stop` and leaves only then |
| ThreadPoolRuns.SleepersRemembered | src/threading/sync_impl.futex.rs:47-113 | a thread sleeps on the lock only with the contention flag set, a wake pending or a woken contender running; thread 0 sleeps on the all-idle word only with its wake pending |
| ThreadPoolWakes.WorkIsSeen | src/threading/sync_impl.futex.rs:92-113 | before `stop`, while the word shows work and somebody idle, some thread is about to wake an idle one, or is an idle one awake that will read the word or already takes the lock |
| ThreadPoolWakes.SpinWorkIsSeen | src/threading/sync_impl.spin.rs:35-108 | the same for the spinning version |
| ThreadPoolRuns.NoDeadlock | src/threading/sync_impl.futex.rs:47-213 | until everybody has left, some thread can take a step that is not a spurious wake |
| ThreadPoolRuns.UnitsConserved | src/threading.rs:175-262 | every submitted closure and `for_each` item is on the stack, carried by one thread, or done, as often as it was submitted |
| ThreadPoolRuns.ScopeReturns | src/threading.rs:377-397 | when a scope returns, the stack is empty, nothing is carried or running, and exactly the submitted units have been done, each as often as it was submitted |
| ThreadPoolRuns.StopAsserts | src/threading/sync_impl.futex.rs:116-123 | the assertions of `stop` hold |
| ThreadPoolSpin.SpinRefines | src/threading/sync_impl.spin.rs:35-138 | every state of every run of the spinning version is the last state of a run of the futex version in which nobody sleeps |
| ThreadPoolSpin.SpinWordMeaning | src/threading/sync_impl.spin.rs:15-22 | the word means the same there, without a contention flag |
| ThreadPoolSpin.SpinZeroMeansStopped | src/threading/sync_impl.spin.rs:69-108 | zero is read by a waiting thread only after `stop` |
| ThreadPoolSpin.SpinScopeReturns | src/threading/sync_impl.spin.rs:110-130 | a scope returns only when everything submitted is done |
| ThreadPoolSpin.SpinNeverBlocks | src/threading/sync_impl.spin.rs:35-138 | every thread that has not left can always take a step, if only by reading the word again |
| ThreadPoolProgress.CanAlwaysEnd | src/threading/sync_impl.futex.rs:47-213 | from every reachable state of a pool in use, with user code ending and nothing more submitted, some steps without spurious wakes lead to a state where the scope has returned, the stack is empty and everything submitted is done; once `stop` has begun, to one where everybody has left |
| ThreadPoolProgress.SpinCanAlwaysEnd | src/threading/sync_impl.spin.rs:35-138 | the same for the spinning version |
| ModularArithmetic.NegInverseIffCoprime | examples/py/shor.py:173-173 | `pow(-a, -1, mod)` exists exactly if a is coprime to the modulus |
| ShorAdder.IntAdd | examples/py/shor.py:30-89 | for every width and every state with a clear ancilla: q becomes (q+a) mod 2^n, the carry qubit is XORed with the carry-out, everything else is restored |
| ShorAdder.BitsAddUp | examples/py/shor.py:64-89 | the ripple of carry and sum bits is integer addition |
| ShorAdder.UpStep | examples/py/shor.py:68-71 | the carry invariant of the upward loop |
| ShorAdder.DownStep | examples/py/shor.py:81-84 | the undo invariant of the downward loop |
| ShorCompare.IntGeq | examples/py/shor.py:91-133 | for every constant, including 0, those beyond the width and trailing ones: XORs the output with ctl and q >= a and restores everything else |
| ShorCompare.IntXor | examples/py/shor.py:24-28 | XORs the constant into the register under the control |
| ShorModular.AddendMeans | examples/py/shor.py:142-151 | the two XORed constants add a below the modulus and a - m above it |
| ShorModular.ModAdd | examples/py/shor.py:136-156 | for q < m and a < m: q becomes (q+a) mod m under the control, with argument, flag and ancilla back at zero, in the short and in the full branch |
| ShorModular.Gain | examples/py/shor.py:165-168 | a multiply-accumulate loop adds multiplier times register to the accumulator modulo m |
| ShorModular.Exchange | examples/py/shor.py:170-171 | swaps the two registers under the control |
| ShorModular.ModMul | examples/py/shor.py:164-177 | for every modulus of n bits, a coprime to it and q < m: q becomes a q mod m under the control and is unchanged otherwise, with accumulator and all ancillas back at zero |
| ShorCompiled.CompiledMultiplies | examples/py/shor.py:164-177 | compiling the multiplier at any precision gives code that multiplies in place |
| CircuitRules.FreeCommutes | src/sfree/queue.rs:74-86 | a gate commutes with an operation that does not touch its qubit |
| CircuitRules.DiagonalCommutes | src/sfree/queue.rs:74-86 | a diagonal gate commutes with an operation that does not write its qubit |
| CircuitRules.RxCommutes | src/simulator.rs:309-325 | a rotation about X commutes with a controlled x on its qubit |
| CircuitRules.AntidiagonalInverts | src/simulator.rs:594-609 | an operation controlled by a flipped qubit is the one with that item inverted before the flip |
| CircuitRules.XBecomesPhase | src/simulator.rs:112-124 | a controlled x after rz; h is a controlled z before it, with the new item inverted where an x came between |
| CircuitRules.PhaseBecomesX | src/simulator.rs:147-162 | a controlled z after h; rz is a controlled x before it |
| U3Composition.NewAlike | src/u3.rs:30-43 | `U3::new` normalises angles without changing the gate, up to global phase |
| U3Composition.FromYzyAlike | src/u3.rs:67-121 | every branch of `from_yzy` but the floating-point one is exact, for all angles it applies to |
| U3Composition.ComposeIsProduct | src/u3.rs:123-132 | composing two gates is multiplying their matrices up to global phase, given that the floating-point branch is exact where it is taken |
| U3Composition.CliffordsCompose | src/u3.rs:67-132 | composing Clifford gates never takes the floating-point branch and gives a Clifford gate |
| U3Composition.ElementaryIsExact | src/u3.rs:67-132 | whatever the floating-point path does: composing is exact if either gate has theta 0 or a half turn, if the angle between the two y rotations is 0 or a half turn, or if both are quarter turns |
| U3Composition.RyAfterRy | src/u3.rs:67-71 | ry after ry is ry of the sum, for all angles |
| U3Composition.RyAroundHalfTurn | src/u3.rs:72-76 | a half turn about Z between two ry is composed exactly, for all angles |
| U3Composition.ComposesNormal | src/u3.rs:30-43 | gates are made and composed in normal form: theta is at most a half turn, and lambda is zero where theta is 0 or a half turn |
| U3NormalForms.NormalIsUnique | src/u3.rs:30-43 | two gates in normal form have the same matrix up to phase if and only if all their angles are equal |
| U3NormalForms.ShapeIff | src/u3.rs:140-142 | the matrix is diagonal exactly for theta 0 and antidiagonal exactly for a half turn |
| U3NormalForms.ComposeAssociates | src/u3.rs:123-132 | where the compositions are exact, bracketing does not matter: the resulting angles are identical |
| U3NormalForms.AdjointUndoes | src/u3.rs:134-137 | composing a gate and its adjoint in either order gives the identity, without the floating-point path, and the adjoint of the adjoint is the gate |
| U3Numeric.HalfSinCosIs | src/angle.rs:148-169 | reducing to angles of at most a quarter turn and back gives the sine and cosine of half the angle, in every quadrant |
| U3Numeric.HalfDiffIs | src/angle.rs:171-185 | the sine and cosine of half a difference are those of the difference of the balanced angles, for every pair |
| U3Numeric.YzyRows | src/u3.rs:109-114 | rotating about Y, Z and Y has, up to a phase, the second row that the code combines from the half sum and the half difference |
| U3Numeric.EntriesScale | src/u3.rs:90-114 | the entries of all three branches are that row up to one real factor, the root of a half that two branches leave out |
| U3Numeric.PolarIsExactIff | src/u3.rs:90-121 | the floating-point path, over real numbers, is exact if and only if the entries that its returned angles stand for are those computed, up to one real factor |
| U3Decompositions.ComposeIsFine | src/u3.rs:67-132 | composing gates with angles on the grid of a precision stays on it, if the floating-point branch does where it is taken |
| U3Decompositions.PartsOnGrid | src/u3.rs:144-180 | so do all parts of the decompositions |
| U3Decompositions.CxRzProduct | src/u3.rs:144-150 | if theta rounds to itself: `to_cx_rz` gives an optional x and an rz whose product is the gate |
| U3Decompositions.RzRxProduct | src/u3.rs:152-172 | for plain gates: `to_rz_rx` gives an rz and an rx whose product is the gate, in all four branches |
| U3Decompositions.PartsMissing | src/u3.rs:152-172 | for plain gates: without an rz part the gate commutes with x, without an rx part it is diagonal |
| U3Decompositions.RzHRzProduct | src/u3.rs:174-180 | for plain gates: `to_rz_h_rz` gives an rz and an h; rz whose product is the gate |
| U3Decompositions.FineIsPlain | src/u3.rs:144-180 | gates with angles on the grid of a precision of at least two bits are plain |
| U3Exactness.RzRxIff | src/u3.rs:152-172 | for every gate in normal form: the parts that `to_rz_rx` gives multiply to the gate if and only if the angle its branch tests is the one it rounds to |
| U3Exactness.RzHRzIff | src/u3.rs:174-180 | the parts that `to_rz_h_rz` gives multiply to the gate if and only if theta is a quarter turn |
| U3Exactness.PartsFound | src/u3.rs:144-180 | for plain gates in normal form: each of the three decompositions succeeds if and only if the gate is such a product for any angles at all |
| U3Exactness.QueuedIff | src/simulator.rs:273-307 | for every gate that rounds to one without superposition: what is queued for it does what it does, on every vector, if and only if theta rounds to itself and the rz, where it rounds to nothing, is zero |
| U3Exactness.SmallRotationIsLost | src/simulator.rs:273-307 | at 32 bits the smallest rotation about Y is taken for nothing, and is not |
| PendingGates.UnblockedPasses | src/sfree/queue.rs:74-86 | if the queue does not block a plain pending gate, the gate commutes with the entire queue, for any queue |
| U3Exactness.BlockedIff | src/sfree/queue.rs:74-86 | a plain gate in normal form is blocked exactly if the queue reads its qubit and the gate is not diagonal, or writes it and the gate does not commute with x |
| U3Exactness.BlockedForAReason | src/sfree/queue.rs:74-86 | which is to say: exactly if some controlled turn of a qubit that is read, or some controlled x of one that is written, does not commute with it |
| PendingGates.PassXRetargeted | src/simulator.rs:112-124 | x onto a qubit with a pending h, controlled by another one with a pending h, is x onto the latter before all pending gates |
| PendingGates.PassControls | src/simulator.rs:236-271 | an operation passes all pending gates on its controls and elsewhere, its items inverted where x is pending |
| DenseVectors.DenotesGate | src/u4.rs:13-31 | the gate made from the matrix acts on the stored vector as the matrix does on the dense one |
| DenseVectors.DenotesOps | src/statevector.rs:686-777 | emptying the queue into the stored vector appends the queued operations, and the drift, to the circuit it denotes |
| Masses.NormIsProduct | src/statevector.rs:418-418 | the weight of an amplitude is its product with its conjugate; it is multiplicative, and one exactly on the unit circle |
| Masses.GatesKeepNorm | src/u4.rs:13-31 | the matrix of every gate keeps the weight of every pair of amplitudes |
| Masses.GateKeepsMass | src/statevector.rs:645-684 | applying such a gate keeps the sum of all weights |
| Masses.RelabelKeepsMass | src/statevector.rs:686-777 | so does applying compiled code |
| Masses.MeasuredMass | src/statevector.rs:577-643 | after a measurement the sum is that of the kept side times the weight of the scale |
| Measurements.WeightIsMass | src/statevector.rs:545-575 | the weights added up over the two parts are the sums of |amplitude| squared over the two sides of the vector |
| BornRule.WeightsOfLogical | src/simulator.rs:173-184 | they are the weights of the two sides of the logical vector as well, on the other side where x is pending |
| LazyStates.HPasses | src/simulator.rs:109-130 | after preflush and flush, x onto a pending h is the controlled z, or the retargeted x, that the code queues |
| LazyStates.RxMatches | src/simulator.rs:309-325 | the gate is the rz that is queued and a rotation that commutes with x |
| LazyStates.HMatches | src/simulator.rs:327-358 | the gate is the rz that is queued and an h; rz that turns phases into flips, and the two forms that turn flips into phases |
| LazySimulator.Simulator.constructor | src/simulator.rs:36-52 | nothing waits, and the stored vector is the all-zero state, of weight one |
| LazySimulator.Simulator.Preflush | src/simulator.rs:273-361 | for each kind: if the gates are plain, the logical state is unchanged; the qubit is free, has a pending gate of the matched form, or is marked, which happens only to a gate of none of the forms; a Clifford gate stays one |
| LazySimulator.Simulator.PreflushCtl | src/simulator.rs:236-246 | if the gates are plain, the logical state is unchanged, and the returned control is inverted exactly on the qubits where x is pending |
| LazySimulator.Simulator.PreflushCtlH | src/simulator.rs:248-271 | the same, with at most one item that asks for 1 split off whose qubit has h; rz pending |
| LazySimulator.Simulator.MaybeEagerFlush | src/simulator.rs:376-407 | whatever it decides, the logical state is unchanged if the gate is plain, and gates that only relabel or turn are never applied early |
| LazySimulator.Simulator.EnsureQubit | src/simulator.rs:363-374 | the vector gets room for the qubit and denotes the same |
| LazySimulator.Simulator.Flush | src/simulator.rs:409-500 | the logical state is unchanged if the gates are plain; marked gates are gone, reordered and superposition-free ones stay, no mark is left, the queue is empty if asked for, and kept if nothing is marked or blocked |
| LazySimulator.Simulator.U3 | src/simulator.rs:84-101 | the logical state is the old one and then the gate, for every gate and precision, unless the composition takes the floating-point path and that is not exact; on a free qubit exactly this gate is pending. The angles stay on the grid if and only if the gate is on it and the composition, if there is one, does not take that path, or it is exact and stays on the grid |
| LazySimulator.Simulator.CtlX | src/simulator.rs:103-130 | the logical state is the old one and then the controlled x, through every rewrite, if the waiting gates are plain or there is no control; angles stay on the grid and Clifford gates stay Clifford |
| LazySimulator.Simulator.CtlSwap | src/simulator.rs:132-145 | the same for the controlled swap |
| LazySimulator.Simulator.CtlPhase | src/simulator.rs:147-170 | the same for the controlled phase: outright for at most one control, and for several if the waiting gates and the angle are plain; the angles stay on the grid if and only if this one is on it or there is no control |
| LazySimulator.Simulator.FlushAll | src/simulator.rs:502-510 | nothing waits any more, and the logical state is unchanged if the gates are plain |
| LazySimulator.Simulator.Premeasure | src/simulator.rs:173-184 | if the gates are plain, what is left pending on the qubit at most flips it, as reported; the two weights are the sums of |amplitude| squared over the two sides of the stored vector, or 1 and 0 where the vector has no room for the qubit; a side without weight has only zero amplitudes |
| LazySimulator.Simulator.Measure | src/simulator.rs:190-222 | the reported probabilities add up to one; 1 is reported only for a bias above p0 2^64 - 1 and 0 only for one below p0 2^64, and the outcome has some probability; if the gates are plain, the logical state is the old one projected onto the outcome and scaled, also under a pending x; the scale is applied to the weight of the kept side, and left out if nothing is dropped. On the grid the probability is the share of that side in the logical state |
| Measurements.MeasuredLog | src/simulator.rs:190-222 | projecting the stored vector is projecting the logical state, onto the other side where x is pending |
| Measurements.DrawnHasWeight | src/simulator.rs:202-206 | for every bias, the drawn side has some weight |
| Measurements.FairDraw | src/simulator.rs:202-206 | of all biases, those that report 1 are the share of 1, to within one, under a pending x too |
| LazyRuns.Play | src/simulator.rs:84-222 | any sequence of calls, measurements included, and a flush: if in each call the waiting gates were plain, compositions exact and the angle of a multiply controlled phase plain, the circuit that the stored vector has gone through is immediate execution of the calls in order, up to global phase and the drift of the queued phases; with all angles on the grid, which holds if and only if they were before, those of the calls are, and every new composition avoided the floating-point path or had it exact and on the grid, the stored vector is exactly that; it always is for Clifford calls on Clifford gates |
| LazyRuns.PlayFromZeros | src/simulator.rs:46-222 | the same from the all-zero state, for a precision of at least two bits: every circuit of Clifford gates, swaps and multiply controlled x and grid phases with measurements leaves the stored vector of immediate execution; and if measurements rescale by the reciprocal square root, every run leaves weight one and every measurement sees it |
| LazyRuns.PlayCalls | src/simulator.rs:84-222 | the same before the final flush: if each call meets its condition, the logical state is immediate execution of the calls; while all angles are on the grid they do meet it; and weight one is kept |
| LazyRuns.FineDecides | src/simulator.rs:84-222 | while the angles are on the grid every call meets the condition under which it is exact |
| LazyRuns.NoneNumeric | src/u3.rs:67-132 | compositions that do not take the floating-point path are exact for every precision |

## Left out

- Floating point: amplitudes are exact complex numbers, the threshold in `accumulate` is zero for the lazy simulator and an arbitrary predicate for the sparse vector, and sine, cosine, arctangent and square root are functions that the statements are about.
- LazyRuns.Play: nothing is said about the logical state after a call in which rounding took an angle for a quarter turn that it is not; `U3Exactness` says exactly for which gates the decompositions and what is queued are then wrong. The drift of phases off the grid is bounded as an angle for each basis state and flushed queue, not as a distance of vectors.
- LazySimulator.Simulator.U3: the statement is about any function in place of the floating-point path; `U3Numeric` says when that path is exact, with the arctangents and square roots as any function of the two entries.
- LazySimulator.Simulator.Measure: the weights are exact sums, and the scale is an arbitrary function of the kept weight; only the statements on weight one ask that it is the reciprocal square root. That the probability is the share in the logical state is stated where no drift has occurred.
- LazySimulator.Simulator.MaybeEagerFlush: sampling the stored vector (`collapse_delta`) is an arbitrary choice.
- LazySimulator.Simulator.PreflushRotation: the part of `_preflush` for gates that superpose is a method of its own.
- `PreflushConst` (`src/simulator.rs:633-643`) is not used by any caller. It would accept rz but not x; rz, and `_preflush` would then queue the x and keep it pending as well.
- CompileQueue.PushToggleMany: the order in which toggled qubits are visited is arbitrary.
- QuickSort.SeqQuicksort: the loop over the right part is written as a second call, and the pivot is arbitrary. The library sort used by `do_sort` is this quicksort.
- ChunkWriting.RunChunks: one buffer holds both sides, and the chunk-size formulas (`for_common`, `for_chunks`) are left as free parameters.
- ChunkWriting.WriteChunk.PushUnchecked: the chunk is a window of an array in place of raw pointers, and its bounds are a precondition.
- Running out of memory, on which the source clears the vector, and the arena and raw buffers.
- BasisOrder.RankIsLexicographic: words are sets of qubits, so the word-level operators of `src/bitset.rs` and `src/qubit_set.rs` are not modelled.
- Weak memory and the futex system call: steps are atomic, a spurious failure of an exchange is a step that fails, and wait is an atomic compare-and-sleep.
- ThreadPoolRuns.RunKeeps: closures are numbered units, and the condition-variable version of the lock (`src/threading/sync_impl.rs`) is not modelled.
- `PoolRef::map`, thread creation, and the tracing and performance macros.
- The C interface, the Python bindings, `python/qblaze/qiskit.py` and the build scripts.
- `examples/qiskit/shor.py`, which builds the same circuits, and in `examples/py/shor.py` the measurement loop, `mod_sub` and the classical post-processing.
- ShorModular.ModMul: the inverse that Python's `pow(-a, -1, mod)` computes is picked by its property; `NegInverseIffCoprime` shows that there is one exactly for a coprime to the modulus.
- `from_radians`, `from_turns` and the display of angles and gates.
