/** The two parts of a sparse state vector, and what a chunk task makes of a pair of chunks (`src/statevector.rs`). */
module SparseParts {
  import opened Wrappers
  import opened Controls
  import opened BasisOrder
  import opened Merging
  import opened CompiledGates

  type Part<V> = seq<Element<V>>

  /** The sort key of an entry, and the key with one qubit masked out. */
  function Ranked<V>(words: nat): Element<V> -> int {
    (e: Element<V>) => Rank(e.bits, words)
  }

  function Masked<V>(q: Qubit, words: nat): Element<V> -> int {
    (e: Element<V>) => Rank(e.bits - {q}, words)
  }

  ghost predicate AllFit<V>(s: Part<V>, words: nat) {
    forall e :: e in s ==> Fits(e.bits, words)
  }

  ghost predicate OnSide<V>(s: Part<V>, q: Qubit, side: bool) {
    forall e :: e in s ==> (q in e.bits) == side
  }

  /** No basis state has an entry in both parts. */
  ghost predicate NoneShared<V>(s: Part<V>, t: Part<V>) {
    forall e, f :: e in s && f in t ==> e.bits != f.bits
  }

  /** The invariant of the state vector: both parts strictly sorted, no basis state in both, and, where the
      vector is partitioned by a qubit, exactly the states with that qubit set are in part 1. */
  ghost predicate GoodParts<V>(p0: Part<V>, p1: Part<V>, split: Option<Qubit>, words: nat) {
    && Increasing(p0, Ranked(words)) && Increasing(p1, Ranked(words))
    && AllFit(p0, words) && AllFit(p1, words) && NoneShared(p0, p1)
    && (split.Some? ==> split.value < WORD * words && OnSide(p0, split.value, false) && OnSide(p1, split.value, true))
  }

  // What the parts mean

  /** At most one entry for each basis state. */
  ghost predicate Unique<V>(s: Part<V>) {
    forall e, f :: e in s && f in s && e.bits == f.bits ==> e == f
  }

  /** The amplitude of every basis state that has one. */
  ghost function Meaning<V>(s: Part<V>): map<Bits, V>
    requires Unique(s)
  {
    map e | e in s :: e.bits := e.val
  }

  function Lookup<V>(m: map<Bits, V>, b: Bits): Option<V> {
    if b in m then Some(m[b]) else None
  }

  lemma MeaningHas<V>(s: Part<V>, b: Bits)
    requires Unique(s)
    ensures b in Meaning(s) <==> exists e :: e in s && e.bits == b
    ensures forall e :: e in s ==> e.bits in Meaning(s) && Meaning(s)[e.bits] == e.val
  {
  }

  /** Entries with increasing keys are unique, even across two parts. */
  lemma GoodUnique<V>(p0: Part<V>, p1: Part<V>, split: Option<Qubit>, words: nat)
    requires GoodParts(p0, p1, split, words)
    ensures Unique(p0 + p1)
  {
    forall e, f | e in p0 + p1 && f in p0 + p1 && e.bits == f.bits ensures e == f {
      if e in p0 && f in p0 {
        SameKey(p0, e, f, Ranked(words));
      } else if e in p1 && f in p1 {
        SameKey(p1, e, f, Ranked(words));
      }
    }
  }

  /** The same entries, in whatever order. */
  ghost predicate SameEntries<V>(s: Part<V>, t: Part<V>) {
    (forall e :: e in s ==> e in t) && (forall e :: e in t ==> e in s)
  }

  /** The vector that two parts make. */
  ghost function Vector<V>(p0: Part<V>, p1: Part<V>): map<Bits, V> {
    if Unique(p0 + p1) then Meaning(p0 + p1) else map[]
  }

  lemma VectorIs<V>(p0: Part<V>, p1: Part<V>, split: Option<Qubit>, words: nat)
    requires GoodParts(p0, p1, split, words)
    ensures Unique(p0 + p1) && Vector(p0, p1) == Meaning(p0 + p1)
  {
    GoodUnique(p0, p1, split, words);
  }

  /** Moving entries between the parts does not change the vector. */
  lemma SameVector<V>(s0: Part<V>, s1: Part<V>, t0: Part<V>, t1: Part<V>)
    requires SameEntries(s0 + s1, t0 + t1)
    ensures Vector(s0, s1) == Vector(t0, t1)
  {
    var s, t := s0 + s1, t0 + t1;
    assert Unique(s) <==> Unique(t);
    if Unique(s) {
      forall b ensures b in Meaning(s) <==> b in Meaning(t) {
        MeaningHas(s, b);
        MeaningHas(t, b);
      }
      forall b | b in Meaning(s) ensures Meaning(s)[b] == Meaning(t)[b] {
        MeaningHas(s, b);
        MeaningHas(t, b);
      }
    }
  }

  lemma SameKey<T>(s: seq<T>, e: T, f: T, key: T -> int)
    requires Increasing(s, key) && e in s && f in s && key(e) == key(f)
    ensures e == f
  {
    var i :| 0 <= i < |s| && s[i] == e;
    var j :| 0 <= j < |s| && s[j] == f;
    assert i == j;
  }

  /** On one side of a qubit, sorting by the masked key is sorting. */
  lemma SideOrder<V>(s: Part<V>, q: Qubit, side: bool, words: nat)
    requires q < WORD * words && OnSide(s, q, side)
    ensures Increasing(s, Ranked(words)) <==> Increasing(s, Masked(q, words))
  {
    forall i, j | 0 <= i < j < |s|
      ensures Ranked(words)(s[i]) < Ranked(words)(s[j]) <==> Masked(q, words)(s[i]) < Masked(q, words)(s[j]) {
      assert s[i] in s && s[j] in s;
      MaskKeepsOrder(s[i].bits, s[j].bits, q, words);
    }
  }

  lemma MaskedEqual<V>(e: Element<V>, f: Element<V>, q: Qubit, words: nat)
    requires Fits(e.bits, words) && Fits(f.bits, words) && Masked(q, words)(e) == Masked(q, words)(f)
    ensures e.bits - {q} == f.bits - {q}
  {
    RankInjective(e.bits - {q}, f.bits - {q}, words);
  }

  // Picking one side

  function Picked<T>(s: seq<T>, p: T -> bool): seq<T> {
    if s == [] then [] else Picked(s[..|s| - 1], p) + if p(s[|s| - 1]) then [s[|s| - 1]] else []
  }

  function Side<V>(q: Qubit, side: bool): Element<V> -> bool {
    (e: Element<V>) => (q in e.bits) == side
  }

  lemma {:induction false} PickedIn<T>(s: seq<T>, p: T -> bool, x: T)
    ensures x in Picked(s, p) <==> x in s && p(x)
    decreases |s|
  {
    if s != [] {
      var n := |s| - 1;
      PickedIn(s[..n], p, x);
      assert s == s[..n] + [s[n]];
    }
  }

  lemma {:induction false} PickedConcat<T>(s: seq<T>, t: seq<T>, p: T -> bool)
    ensures Picked(s + t, p) == Picked(s, p) + Picked(t, p)
    decreases |t|
  {
    if t == [] {
      assert s + t == s;
    } else {
      var n := |t| - 1;
      PickedConcat(s, t[..n], p);
      assert (s + t)[..|s + t| - 1] == s + t[..n];
    }
  }

  /** Where picked elements never tie, the picked ones are strictly sorted. */
  lemma {:induction false} PickedIncreasing<T>(s: seq<T>, p: T -> bool, key: T -> int)
    requires forall i, j :: 0 <= i < j < |s| && p(s[i]) && p(s[j]) ==> key(s[i]) < key(s[j])
    ensures Increasing(Picked(s, p), key)
    decreases |s|
  {
    if s != [] {
      var n := |s| - 1;
      PickedIncreasing(s[..n], p, key);
      if p(s[n]) {
        forall x | x in Picked(s[..n], p) ensures key(x) < key(s[n]) {
          PickedIn(s[..n], p, x);
          var i :| 0 <= i < n && s[..n][i] == x;
          assert s[i] == x;
        }
      }
    }
  }

  // Gates

  /** A single-qubit gate: the two amplitudes it makes of one, first the one that keeps the qubit's value;
      and how two amplitudes are added, with whether the sum is worth an entry. */
  datatype U4<!V> = U4(apply: (bool, V) -> (V, V), accumulate: (V, V) -> (bool, V))

  /** What the gate writes to one side for one match: the qubit is 0 in `Lhs` entries and 1 in `Rhs` ones. */
  function GateSide<V>(m: Merge<Element<V>>, gate: U4<V>, q: Qubit, side: bool): Part<V> {
    match m
    case Lhs(e) =>
      var (p0, p1) := gate.apply(false, e.val);
      if side then [Element(Flip(e.bits, {q}), p1)] else [Element(e.bits, p0)]
    case Rhs(e) =>
      var (p1, p0) := gate.apply(true, e.val);
      if side then [Element(e.bits, p1)] else [Element(Flip(e.bits, {q}), p0)]
    case Both(e0, e1) =>
      var (r0a, r1a) := gate.apply(false, e0.val);
      var (r1b, r0b) := gate.apply(true, e1.val);
      var (keep, r) := if side then gate.accumulate(r1a, r1b) else gate.accumulate(r0a, r0b);
      if !keep then [] else [Element(if side then e1.bits else e0.bits, r)]
  }

  function GateOut<V>(ms: seq<Merge<Element<V>>>, gate: U4<V>, q: Qubit, side: bool): Part<V> {
    if ms == [] then [] else GateOut(ms[..|ms| - 1], gate, q, side) + GateSide(ms[|ms| - 1], gate, q, side)
  }

  lemma ConcatConcat<T>(a: seq<T>, b: seq<T>, c: seq<T>)
    ensures a + b + c == a + (b + c)
  {
  }

  lemma {:induction false} GateOutConcat<V>(s: seq<Merge<Element<V>>>, t: seq<Merge<Element<V>>>, gate: U4<V>, q: Qubit, side: bool)
    ensures GateOut(s + t, gate, q, side) == GateOut(s, gate, q, side) + GateOut(t, gate, q, side)
    decreases |t|
  {
    if t == [] {
      assert s + t == s;
    } else {
      var n := |t| - 1;
      hide GateSide;
      GateOutConcat(s, t[..n], gate, q, side);
      assert (s + t)[..|s + t| - 1] == s + t[..n];
      ConcatConcat(GateOut(s, gate, q, side), GateOut(t[..n], gate, q, side), GateSide(t[n], gate, q, side));
    }
  }

  // Chunk tasks

  /** What is done to each pair of chunks: apply a gate, or sort the entries out by a qubit, which after a
      gate on that qubit is done in the order of the masked keys. */
  datatype Task<!V> = ApplyGate(q: Qubit, gate: U4<V>) | Repartition(q: Qubit, isFixup: bool)

  /** The key by which the chunks are cut and merged. */
  function TaskKey<V>(task: Task<V>, words: nat): Element<V> -> int {
    if task.Repartition? && !task.isFixup then Ranked(words) else Masked(task.q, words)
  }

  /** What a task writes to one side for a pair of chunks. */
  function Outcome<V>(task: Task<V>, words: nat, c0: Part<V>, c1: Part<V>, side: bool): Part<V> {
    var key := TaskKey(task, words);
    match task
    case ApplyGate(q, gate) => GateOut(Matched(c0, c1, key), gate, q, side)
    case Repartition(q, _) => Picked(Interleaved(c0, c1, key), Side(q, side))
  }

  /** All the pairs one by one. */
  function Outcomes<V>(task: Task<V>, words: nat, r: seq<Pair<Element<V>>>, side: bool): Part<V> {
    if r == [] then []
    else Outcomes(task, words, r[..|r| - 1], side) + Outcome(task, words, r[|r| - 1].0, r[|r| - 1].1, side)
  }

  /** Working chunk by chunk gives what working on the whole parts gives. */
  lemma {:induction false} ChunkedOutcome<V>(task: Task<V>, words: nat, r: seq<Pair<Element<V>>>, side: bool)
    requires Staged(r, TaskKey(task, words))
    ensures Outcomes(task, words, r, side) == Outcome(task, words, Firsts(r), Seconds(r), side)
    decreases |r|
  {
    var key := TaskKey(task, words);
    if r != [] {
      var n := |r| - 1;
      var a0, a1 := Firsts(r[..n]), Seconds(r[..n]);
      ChunkedOutcome(task, words, r[..n], side);
      match task {
        case ApplyGate(q, gate) =>
          MatchedSplit(a0, a1, r[n].0, r[n].1, key);
          GateOutConcat(Matched(a0, a1, key), Matched(r[n].0, r[n].1, key), gate, q, side);
        case Repartition(q, _) =>
          InterleavedSplit(a0, a1, r[n].0, r[n].1, key);
          PickedConcat(Interleaved(a0, a1, key), Interleaved(r[n].0, r[n].1, key), Side(q, side));
      }
    }
  }

  // Sorting out by a qubit

  /** The parts before a repartition: each sorted by the task's key, no state twice. */
  ghost predicate Mergeable<V>(p0: Part<V>, p1: Part<V>, key: Element<V> -> int, words: nat) {
    Increasing(p0, key) && Increasing(p1, key) && AllFit(p0, words) && AllFit(p1, words) && NoneShared(p0, p1)
  }

  lemma MergeableSorted<V>(p0: Part<V>, p1: Part<V>, key: Element<V> -> int, words: nat)
    requires Mergeable(p0, p1, key, words)
    ensures Increasing(p0, key) && Increasing(p1, key)
  {
  }

  lemma GoodMergeable<V>(p0: Part<V>, p1: Part<V>, split: Option<Qubit>, q: Qubit, words: nat)
    requires GoodParts(p0, p1, split, words)
    ensures Mergeable(p0, p1, TaskKey(Repartition(q, false), words), words)
  {
  }

  /** Between them the two sides have every entry. */
  lemma BothPicked<V>(s: Part<V>, q: Qubit)
    ensures SameEntries(Picked(s, Side(q, false)) + Picked(s, Side(q, true)), s)
  {
    var a, b := Picked(s, Side(q, false)), Picked(s, Side(q, true));
    forall e | e in a + b ensures e in s {
      PickedIn(s, Side(q, false), e);
      PickedIn(s, Side(q, true), e);
    }
    forall e | e in s ensures e in a + b {
      PickedIn(s, Side(q, false), e);
      PickedIn(s, Side(q, true), e);
    }
  }

  lemma EntriesMerged<V>(p0: Part<V>, p1: Part<V>, q: Qubit, isFixup: bool, words: nat)
    ensures var task := Repartition(q, isFixup);
      SameEntries(Outcome(task, words, p0, p1, false) + Outcome(task, words, p0, p1, true), p0 + p1)
  {
    var key := TaskKey(Repartition(q, isFixup), words);
    var s, out := Interleaved(p0, p1, key), Picked(Interleaved(p0, p1, key), Side(q, false)) + Picked(Interleaved(p0, p1, key), Side(q, true));
    BothPicked(s, q);
    InterleavedHas(p0, p1, key);
    hide Interleaved, Picked;
    forall e | e in out ensures e in p0 + p1 {
      assert e in s;
    }
    forall e | e in p0 + p1 ensures e in out {
      assert e in s;
    }
  }

  lemma SidesShareNone<V>(s: Part<V>, t: Part<V>, q: Qubit)
    requires OnSide(s, q, false) && OnSide(t, q, true)
    ensures NoneShared(s, t)
  {
  }

  /** Sorting out by a qubit moves every entry to its side and keeps the sides strictly sorted. */
  lemma RepartitionGood<V>(p0: Part<V>, p1: Part<V>, q: Qubit, isFixup: bool, words: nat)
    requires q < WORD * words
    requires Mergeable(p0, p1, TaskKey(Repartition(q, isFixup), words), words)
    ensures var task := Repartition(q, isFixup);
      var n0, n1 := Outcome(task, words, p0, p1, false), Outcome(task, words, p0, p1, true);
      GoodParts(n0, n1, Some(q), words) && SameEntries(n0 + n1, p0 + p1)
  {
    SideGood(p0, p1, q, isFixup, words, false);
    SideGood(p0, p1, q, isFixup, words, true);
    EntriesMerged(p0, p1, q, isFixup, words);
    var task := Repartition(q, isFixup);
    hide Outcome, OnSide;
    SidesShareNone(Outcome(task, words, p0, p1, false), Outcome(task, words, p0, p1, true), q);
  }

  /** Entries of both parts on the same side never have the same key. */
  lemma NoTies<V>(e: Element<V>, f: Element<V>, q: Qubit, isFixup: bool, words: nat)
    requires Fits(e.bits, words) && Fits(f.bits, words) && e.bits != f.bits && (q in e.bits <==> q in f.bits)
    ensures var key := TaskKey<V>(Repartition(q, isFixup), words); key(e) != key(f)
  {
    var key := TaskKey<V>(Repartition(q, isFixup), words);
    if key(e) == key(f) {
      if isFixup {
        MaskedEqual(e, f, q, words);
        SameSide(e.bits, f.bits, q);
      } else {
        RankInjective(e.bits, f.bits, words);
      }
    }
  }

  lemma PickedOnSide<V>(s: Part<V>, q: Qubit, side: bool, words: nat)
    requires AllFit(s, words)
    ensures OnSide(Picked(s, Side(q, side)), q, side) && AllFit(Picked(s, Side(q, side)), words)
  {
    forall e | e in Picked(s, Side(q, side)) ensures (q in e.bits) == side && e in s {
      PickedIn(s, Side(q, side), e);
    }
  }

  /** Merged entries on one side are strictly in order. */
  lemma SideStrict<V>(p0: Part<V>, p1: Part<V>, q: Qubit, isFixup: bool, words: nat, s: Part<V>, i: nat, j: nat)
    requires var key := TaskKey<V>(Repartition(q, isFixup), words);
      Mergeable(p0, p1, key, words) && s == Interleaved(p0, p1, key) && InOrder(s, p0, p1, key)
    requires i < j < |s| && (q in s[i].bits <==> q in s[j].bits)
    ensures var key := TaskKey<V>(Repartition(q, isFixup), words); key(s[i]) < key(s[j])
  {
    var key := TaskKey<V>(Repartition(q, isFixup), words);
    if key(s[i]) == key(s[j]) {
      assert s[i] in p0 && s[j] in p1;
      NoTies(s[i], s[j], q, isFixup, words);
    }
  }

  lemma SideGood<V>(p0: Part<V>, p1: Part<V>, q: Qubit, isFixup: bool, words: nat, side: bool)
    requires q < WORD * words
    requires Mergeable(p0, p1, TaskKey(Repartition(q, isFixup), words), words)
    ensures var n := Outcome(Repartition(q, isFixup), words, p0, p1, side);
      Increasing(n, Ranked(words)) && AllFit(n, words) && OnSide(n, q, side)
  {
    var key := TaskKey(Repartition(q, isFixup), words);
    var s := Interleaved(p0, p1, key);
    var pick := Side(q, side);
    InterleavedHas(p0, p1, key);
    InterleavedInOrder(p0, p1, key);
    assert AllFit(s, words);
    forall i, j | 0 <= i < j < |s| && pick(s[i]) && pick(s[j]) ensures key(s[i]) < key(s[j]) {
      SideStrict(p0, p1, q, isFixup, words, s, i, j);
    }
    hide *;
    PickedIncreasing(s, pick, key);
    PickedOnSide(s, q, side, words);
    SideOrder(Picked(s, pick), q, side, words);
    OutcomeIs(p0, p1, q, isFixup, words, side);
  }

  lemma OutcomeIs<V>(p0: Part<V>, p1: Part<V>, q: Qubit, isFixup: bool, words: nat, side: bool)
    ensures var task := Repartition(q, isFixup);
      && Outcome(task, words, p0, p1, side) == Picked(Interleaved(p0, p1, TaskKey(task, words)), Side(q, side))
      && TaskKey(task, words) == if isFixup then Masked(q, words) else Ranked(words)
  {
  }

  lemma SameSide(b: Bits, c: Bits, q: Qubit)
    requires b - {q} == c - {q} && (q in b <==> q in c)
    ensures b == c
  {
    forall x ensures x in b <==> x in c {
      assert x != q ==> (x in b <==> x in b - {q}) && (x in c <==> x in c - {q});
    }
  }

  // Applying a gate

  /** The gate on the dense vector: the 2x2 combination of the amplitudes of `b` with the qubit 0 and 1,
      without an entry where there was none or where the sum was found to cancel. */
  function Gated<V>(m: map<Bits, V>, gate: U4<V>, q: Qubit, b: Bits): Option<V> {
    match (Lookup(m, b - {q}), Lookup(m, b + {q}))
    case (None, None) => None
    case (Some(v), None) => Some(if q in b then gate.apply(false, v).1 else gate.apply(false, v).0)
    case (None, Some(w)) => Some(if q in b then gate.apply(true, w).0 else gate.apply(true, w).1)
    case (Some(v), Some(w)) =>
      var (keep, r) := if q in b then gate.accumulate(gate.apply(false, v).1, gate.apply(true, w).0)
                       else gate.accumulate(gate.apply(false, v).0, gate.apply(true, w).1);
      if keep then Some(r) else None
  }

  /** The vector `m'` is the gate applied to the vector `m`. */
  ghost predicate IsGated<V>(m': map<Bits, V>, m: map<Bits, V>, gate: U4<V>, q: Qubit) {
    forall b :: Lookup(m', b) == Gated(m, gate, q, b)
  }

  /** The state of a match with the qubit masked out. */
  function Base<V>(m: Merge<Element<V>>, q: Qubit): Bits {
    (if m.Both? then m.e1 else m.e).bits - {q}
  }

  /** The match is what the vector holds for its two states. */
  ghost predicate Faithful<V>(m: Merge<Element<V>>, all: map<Bits, V>, q: Qubit) {
    var b := Base(m, q);
    match m
    case Lhs(e) => e.bits == b && Lookup(all, b) == Some(e.val) && Lookup(all, b + {q}) == None
    case Rhs(e) => e.bits == b + {q} && Lookup(all, b) == None && Lookup(all, b + {q}) == Some(e.val)
    case Both(e0, e1) =>
      e0.bits == b && e1.bits == b + {q} && Lookup(all, b) == Some(e0.val) && Lookup(all, b + {q}) == Some(e1.val)
  }

  lemma LookupIs<V>(s: Part<V>, e: Element<V>)
    requires Unique(s) && e in s
    ensures Lookup(Meaning(s), e.bits) == Some(e.val)
  {
    MeaningHas(s, e.bits);
  }

  /** With no key of its own in a part, a state has no entry there. */
  lemma LookupNone<V>(p0: Part<V>, p1: Part<V>, q: Qubit, words: nat, b: Bits)
    requires GoodParts(p0, p1, Some(q), words) && Unique(p0 + p1)
    requires !HasKey(if q in b then p1 else p0, Rank(b - {q}, words), Masked(q, words))
    ensures Lookup(Meaning(p0 + p1), b) == None
  {
    MeaningHas(p0 + p1, b);
    forall e | e in p0 + p1 ensures e.bits != b {
      if e in p0 {
        assert Masked(q, words)(e) == Rank(e.bits - {q}, words);
      }
    }
  }

  lemma MatchFaithful<V>(m: Merge<Element<V>>, p0: Part<V>, p1: Part<V>, q: Qubit, words: nat)
    requires GoodParts(p0, p1, Some(q), words) && Unique(p0 + p1) && Matches(m, p0, p1, Masked(q, words))
    ensures Faithful(m, Meaning(p0 + p1), q) && KeyOf(m, Masked(q, words)) == Rank(Base(m, q), words)
  {
    var b := Base(m, q);
    assert b - {q} == b && (b + {q}) - {q} == b;
    match m
    case Lhs(e) =>
      assert e.bits == b;
      LookupIs(p0 + p1, e);
      LookupNone(p0, p1, q, words, b + {q});
    case Rhs(e) =>
      assert e.bits == b + {q};
      LookupIs(p0 + p1, e);
      LookupNone(p0, p1, q, words, b);
    case Both(e0, e1) =>
      MaskedEqual(e0, e1, q, words);
      assert e0.bits == b && e1.bits == b + {q};
      LookupIs(p0 + p1, e0);
      LookupIs(p0 + p1, e1);
  }

  /** What is written for a match is exactly the gate applied to its two states. */
  lemma GateSideIs<V>(m: Merge<Element<V>>, gate: U4<V>, q: Qubit, side: bool, all: map<Bits, V>)
    requires Faithful(m, all, q)
    ensures var b := if side then Base(m, q) + {q} else Base(m, q);
      GateSide(m, gate, q, side) == match Gated(all, gate, q, b) case None => [] case Some(v) => [Element(b, v)]
  {
    var b0 := Base(m, q);
    var b := if side then b0 + {q} else b0;
    assert b - {q} == b0 && b + {q} == b0 + {q};
    assert m.Lhs? ==> Flip(m.e.bits, {q}) == b0 + {q};
    assert m.Rhs? ==> Flip(m.e.bits, {q}) == b0;
  }

  lemma {:induction false} GateOutIn<V>(ms: seq<Merge<Element<V>>>, gate: U4<V>, q: Qubit, side: bool, e: Element<V>)
    ensures e in GateOut(ms, gate, q, side) <==> exists m :: m in ms && e in GateSide(m, gate, q, side)
    decreases |ms|
  {
    hide GateSide;
    if ms != [] {
      var n := |ms| - 1;
      GateOutIn(ms[..n], gate, q, side, e);
      assert ms == ms[..n] + [ms[n]];
    }
  }

  /** All matches are faithful, one for each masked state that has an entry. */
  ghost predicate AllFaithful<V>(ms: seq<Merge<Element<V>>>, all: map<Bits, V>, q: Qubit, words: nat) {
    && (forall m :: m in ms ==> Faithful(m, all, q) && KeyOf(m, Masked(q, words)) == Rank(Base(m, q), words))
    && KeysIncrease(ms, Masked(q, words))
  }

  lemma {:induction false} GateOutSorted<V>(ms: seq<Merge<Element<V>>>, gate: U4<V>, q: Qubit, side: bool, all: map<Bits, V>, words: nat)
    requires AllFaithful(ms, all, q, words)
    ensures Increasing(GateOut(ms, gate, q, side), Masked(q, words))
    decreases |ms|
  {
    hide GateSide, Faithful, Gated;
    if ms != [] {
      var n := |ms| - 1;
      assert forall i :: 0 <= i < n ==> ms[..n][i] == ms[i];
      GateOutSorted(ms[..n], gate, q, side, all, words);
      var key := Masked<V>(q, words);
      GateSideIs(ms[n], gate, q, side, all);
      SideKeys(ms[n], gate, q, side, all, words);
      forall x | x in GateOut(ms[..n], gate, q, side) ensures key(x) < KeyOf(ms[n], key) {
        GateOutIn(ms[..n], gate, q, side, x);
        var m :| m in ms[..n] && x in GateSide(m, gate, q, side);
        SideKeys(m, gate, q, side, all, words);
      }
    }
  }

  /** What is written for a match has the match's key, and its side. */
  lemma SideKeys<V>(m: Merge<Element<V>>, gate: U4<V>, q: Qubit, side: bool, all: map<Bits, V>, words: nat)
    requires Faithful(m, all, q) && KeyOf(m, Masked(q, words)) == Rank(Base(m, q), words)
    ensures forall e :: e in GateSide(m, gate, q, side) ==> Masked(q, words)(e) == KeyOf(m, Masked(q, words))
    ensures forall e :: e in GateSide(m, gate, q, side) ==> (q in e.bits) == side && e.bits - {q} == Base(m, q)
    ensures forall e :: e in GateSide(m, gate, q, side) ==> Gated(all, gate, q, e.bits) == Some(e.val)
  {
    GateSideIs(m, gate, q, side, all);
    var b0 := Base(m, q);
    assert b0 - {q} == b0 && (b0 + {q}) - {q} == b0;
  }

  lemma AllMatchesFaithful<V>(p0: Part<V>, p1: Part<V>, q: Qubit, words: nat)
    requires GoodParts(p0, p1, Some(q), words) && Unique(p0 + p1)
    ensures AllFaithful(Matched(p0, p1, Masked(q, words)), Meaning(p0 + p1), q, words)
  {
    var key := Masked<V>(q, words);
    var ms := Matched(p0, p1, key);
    SideOrder(p0, q, false, words);
    SideOrder(p1, q, true, words);
    var k := -1;
    assert p0 != [] ==> k < key(p0[0]);
    assert p1 != [] ==> k < key(p1[0]);
    MatchedFrom(p0, p1, key, k);
    forall m | m in ms ensures Faithful(m, Meaning(p0 + p1), q) && KeyOf(m, key) == Rank(Base(m, q), words) {
      MatchedMeans(p0, p1, key, m);
      MatchFaithful(m, p0, p1, q, words);
    }
  }

  /** One side of the gate's result: strictly sorted, on its side, and what the gate says, entry by entry. */
  lemma GateSideGood<V>(p0: Part<V>, p1: Part<V>, gate: U4<V>, q: Qubit, words: nat, side: bool)
    requires GoodParts(p0, p1, Some(q), words) && Unique(p0 + p1)
    ensures var n := Outcome(ApplyGate(q, gate), words, p0, p1, side);
      && Increasing(n, Ranked(words)) && AllFit(n, words) && OnSide(n, q, side)
      && (forall e :: e in n ==> Gated(Meaning(p0 + p1), gate, q, e.bits) == Some(e.val))
  {
    var ms, all := Matched(p0, p1, Masked(q, words)), Meaning(p0 + p1);
    AllMatchesFaithful(p0, p1, q, words);
    GateOutSorted(ms, gate, q, side, all, words);
    var n := GateOut(ms, gate, q, side);
    assert n == Outcome(ApplyGate(q, gate), words, p0, p1, side);
    assert q < WORD * words;
    forall e | e in n
      ensures Fits(e.bits, words) && (q in e.bits) == side && Gated(all, gate, q, e.bits) == Some(e.val) {
      GateEntry(p0, p1, gate, q, words, side, e);
    }
    hide *;
    SideOrder(n, q, side, words);
  }

  lemma FaithfulMatch<V>(p0: Part<V>, p1: Part<V>, gate: U4<V>, q: Qubit, words: nat, side: bool, e: Element<V>)
    returns (m: Merge<Element<V>>)
    requires GoodParts(p0, p1, Some(q), words) && Unique(p0 + p1)
    requires e in GateOut(Matched(p0, p1, Masked(q, words)), gate, q, side)
    ensures e in GateSide(m, gate, q, side) && Fits(Base(m, q), words)
    ensures Faithful(m, Meaning(p0 + p1), q) && KeyOf(m, Masked(q, words)) == Rank(Base(m, q), words)
  {
    var ms := Matched(p0, p1, Masked(q, words));
    AllMatchesFaithful(p0, p1, q, words);
    GateOutIn(ms, gate, q, side, e);
    hide GoodParts, GateSide, Faithful, Matched, GateOut;
    m :| m in ms && e in GateSide(m, gate, q, side);
    BaseFits(m, p0, p1, q, words);
  }

  lemma GateEntry<V>(p0: Part<V>, p1: Part<V>, gate: U4<V>, q: Qubit, words: nat, side: bool, e: Element<V>)
    requires q < WORD * words && GoodParts(p0, p1, Some(q), words) && Unique(p0 + p1)
    requires e in GateOut(Matched(p0, p1, Masked(q, words)), gate, q, side)
    ensures Fits(e.bits, words) && (q in e.bits) == side && Gated(Meaning(p0 + p1), gate, q, e.bits) == Some(e.val)
  {
    hide GoodParts, Gated, GateSide, Faithful;
    var m := FaithfulMatch(p0, p1, gate, q, words, side, e);
    SideKeys(m, gate, q, side, Meaning(p0 + p1), words);
    assert forall x :: x in e.bits ==> x == q || x in e.bits - {q};
  }

  lemma BaseFits<V>(m: Merge<Element<V>>, p0: Part<V>, p1: Part<V>, q: Qubit, words: nat)
    requires GoodParts(p0, p1, Some(q), words) && m in Matched(p0, p1, Masked(q, words))
    ensures Fits(Base(m, q), words)
  {
    SideOrder(p0, q, false, words);
    SideOrder(p1, q, true, words);
    MatchedMeans(p0, p1, Masked(q, words), m);
  }

  /** The gate calls for an entry only where one of the two states has one. */
  lemma GatedFrom<V>(s: Part<V>, gate: U4<V>, q: Qubit, b: Bits) returns (e: Element<V>)
    requires Unique(s) && Gated(Meaning(s), gate, q, b).Some?
    ensures e in s && e.bits - {q} == b - {q}
  {
    MeaningHas(s, b - {q});
    MeaningHas(s, b + {q});
    e :| e in s && (e.bits == b - {q} || e.bits == b + {q});
  }

  lemma MatchOf<V>(p0: Part<V>, p1: Part<V>, q: Qubit, words: nat, e: Element<V>) returns (m: Merge<Element<V>>)
    requires GoodParts(p0, p1, Some(q), words) && e in p0 + p1
    ensures m in Matched(p0, p1, Masked(q, words)) && Base(m, q) == e.bits - {q}
  {
    var key := Masked<V>(q, words);
    SideOrder(p0, q, false, words);
    SideOrder(p1, q, true, words);
    m := MatchedCovers(p0, p1, key, e);
    BaseFits(m, p0, p1, q, words);
    MatchedMeans(p0, p1, key, m);
    RankInjective(Base(m, q), e.bits - {q}, words);
  }

  /** Every entry the gate calls for is written. */
  lemma GateComplete<V>(p0: Part<V>, p1: Part<V>, gate: U4<V>, q: Qubit, words: nat, b: Bits)
    requires GoodParts(p0, p1, Some(q), words) && Unique(p0 + p1)
    requires Gated(Meaning(p0 + p1), gate, q, b).Some?
    ensures Element(b, Gated(Meaning(p0 + p1), gate, q, b).value) in Outcome(ApplyGate(q, gate), words, p0, p1, q in b)
  {
    var all := Meaning(p0 + p1);
    var ms := Matched(p0, p1, Masked(q, words));
    AllMatchesFaithful(p0, p1, q, words);
    var e := GatedFrom(p0 + p1, gate, q, b);
    var m := MatchOf(p0, p1, q, words, e);
    hide GoodParts, Gated;
    GateSideIs(m, gate, q, q in b, all);
    assert b == if q in b then Base(m, q) + {q} else Base(m, q);
    GateOutIn(ms, gate, q, q in b, Element(b, Gated(all, gate, q, b).value));
  }

  lemma GateReady<V>(p0: Part<V>, p1: Part<V>, gate: U4<V>, q: Qubit, words: nat)
    requires GoodParts(p0, p1, Some(q), words)
    ensures Increasing(p0, TaskKey(ApplyGate(q, gate), words)) && Increasing(p1, TaskKey(ApplyGate(q, gate), words))
  {
    SideOrder(p0, q, false, words);
    SideOrder(p1, q, true, words);
  }

  /** The gate task refines the gate on the dense vector, and keeps the invariant. */
  lemma GateRefines<V>(p0: Part<V>, p1: Part<V>, gate: U4<V>, q: Qubit, words: nat)
    requires GoodParts(p0, p1, Some(q), words)
    ensures var n0, n1 := Outcome(ApplyGate(q, gate), words, p0, p1, false), Outcome(ApplyGate(q, gate), words, p0, p1, true);
      GoodParts(n0, n1, Some(q), words) && IsGated(Vector(n0, n1), Vector(p0, p1), gate, q)
  {
    VectorIs(p0, p1, Some(q), words);
    GateSideGood(p0, p1, gate, q, words, false);
    GateSideGood(p0, p1, gate, q, words, true);
    var n0, n1 := Outcome(ApplyGate(q, gate), words, p0, p1, false), Outcome(ApplyGate(q, gate), words, p0, p1, true);
    var all := Meaning(p0 + p1);
    assert GoodParts(n0, n1, Some(q), words);
    VectorIs(n0, n1, Some(q), words);
    forall b ensures Lookup(Meaning(n0 + n1), b) == Gated(all, gate, q, b) {
      MeaningHas(n0 + n1, b);
      if Gated(all, gate, q, b).Some? {
        GateComplete(p0, p1, gate, q, words, b);
        LookupIs(n0 + n1, Element(b, Gated(all, gate, q, b).value));
      }
    }
  }
}
