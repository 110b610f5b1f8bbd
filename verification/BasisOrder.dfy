/**
 The order of basis states (`src/bitset.rs`): a state is an array of 64-bit words, and arrays are
 compared word by word from the first one. `Rank` numbers the states in that order.
 */
module BasisOrder {
  import opened Angles
  import opened Controls
  import opened Registers

  const WORD: nat := 64

  /** The qubits of one word, least significant bit first. */
  function Word(k: nat): (r: Register)
    ensures |r| == WORD && forall i :: 0 <= i < WORD ==> r[i] == WORD * k + i
  {
    seq(WORD, i => WORD * k + i)
  }

  /** The qubits of the words from `k` on, the last word being the least significant. */
  function From(k: nat, words: nat): Register
    decreases words - k
  {
    if k >= words then [] else From(k + 1, words) + Word(k)
  }

  /** Only qubits that fit into the words are used. */
  ghost predicate Fits(b: Bits, words: nat) {
    forall q :: q in b ==> q < WORD * words
  }

  /** The number of a basis state. */
  function Rank(b: Bits, words: nat): nat {
    Val(b, From(0, words))
  }

  /** The value of one word. */
  function WordVal(b: Bits, k: nat): nat {
    Val(b, Word(k))
  }

  lemma {:induction false} FromHas(k: nat, words: nat)
    ensures |From(k, words)| == if k < words then WORD * (words - k) else 0
    ensures forall q :: q in From(k, words) <==> WORD * k <= q < WORD * words
    ensures Distinct(From(k, words))
    decreases words - k
  {
    if k < words {
      FromHas(k + 1, words);
      var high, w := From(k + 1, words), Word(k);
      forall q ensures q in w <==> WORD * k <= q < WORD * (k + 1) {
        if WORD * k <= q < WORD * (k + 1) {
          assert w[q - WORD * k] == q;
        }
      }
      DistinctConcat(high, w);
    }
  }

  lemma DistinctConcat(q: Register, r: Register)
    requires Distinct(q) && Distinct(r) && forall x :: x in q ==> x !in r
    ensures Distinct(q + r)
  {
    var s := q + r;
    forall i, j | 0 <= i < j < |s| ensures s[i] != s[j] {
      if i < |q| <= j {
        assert s[i] in q && s[j] in r;
      }
    }
  }

  lemma {:induction false} ValAppend(b: Bits, q: Register, r: Register)
    ensures Val(b, q + r) == Val(b, q) + Pow2(|q|) * Val(b, r)
    decreases |r|
  {
    if r == [] {
      assert q + r == q;
    } else {
      var n := |r| - 1;
      ValAppend(b, q, r[..n]);
      assert q + r == q + r[..n] + [r[n]];
      ValSnoc(b, q + r[..n], r[n]);
      Pow2Add(|q|, n);
      Spread(Pow2(|q|), Val(b, r[..n]), Pow2(n));
    }
  }

  lemma Spread(p: nat, x: nat, y: nat)
    ensures p * (x + y) == p * x + p * y
  {
  }

  /** The first word counts most. */
  lemma RankFrom(b: Bits, k: nat, words: nat)
    requires k < words
    ensures Val(b, From(k, words)) == Val(b, From(k + 1, words)) + Pow2(WORD * (words - k - 1)) * WordVal(b, k)
    ensures Val(b, From(k + 1, words)) < Pow2(WORD * (words - k - 1))
  {
    FromHas(k + 1, words);
    ValAppend(b, From(k + 1, words), Word(k));
    ValBelow(b, From(k + 1, words));
  }

  /** A smaller leading part decides; an equal one leaves it to the rest. */
  lemma Leading(p: nat, x: nat, y: nat, u: nat, v: nat)
    requires x < p && y < p
    ensures u < v ==> x + p * u < y + p * v
    ensures u == v ==> (x + p * u < y + p * v <==> x < y)
  {
    if u < v {
      Registers.MulLe(p, u + 1, v);
      Spread(p, u, 1);
    }
  }

  /** The states differ first in word `i`, where `b` has the smaller value. */
  ghost predicate LessAt(b: Bits, c: Bits, k: nat, i: nat) {
    k <= i && WordVal(b, i) < WordVal(c, i) && forall j :: k <= j < i ==> WordVal(b, j) == WordVal(c, j)
  }

  lemma LessFrom(b: Bits, c: Bits, k: nat, l: nat, words: nat)
    requires k < words && l == k + 1
    ensures (exists i: nat :: i < words && LessAt(b, c, k, i)) <==>
      WordVal(b, k) < WordVal(c, k) || (WordVal(b, k) == WordVal(c, k) && exists i: nat :: i < words && LessAt(b, c, l, i))
  {
    hide WordVal;
    if WordVal(b, k) == WordVal(c, k) {
      assert forall i: nat :: LessAt(b, c, l, i) <==> LessAt(b, c, k, i);
    } else if WordVal(b, k) < WordVal(c, k) {
      assert LessAt(b, c, k, k);
    }
  }

  lemma {:induction false} RankOrderFrom(b: Bits, c: Bits, k: nat, words: nat)
    ensures Val(b, From(k, words)) < Val(c, From(k, words)) <==> exists i: nat :: i < words && LessAt(b, c, k, i)
    decreases words - k
  {
    if k < words {
      RankOrderFrom(b, c, k + 1, words);
      RankFrom(b, k, words);
      RankFrom(c, k, words);
      var p := Pow2(WORD * (words - k - 1));
      var x, y := Val(b, From(k + 1, words)), Val(c, From(k + 1, words));
      Leading(p, x, y, WordVal(b, k), WordVal(c, k));
      Leading(p, y, x, WordVal(c, k), WordVal(b, k));
      hide Val, WordVal, From, Pow2;
      LessFrom(b, c, k, k + 1, words);
    }
  }

  /** Ranks order the states as the derived comparison of their word arrays does. */
  lemma RankIsLexicographic(b: Bits, c: Bits, words: nat)
    ensures Rank(b, words) < Rank(c, words) <==> exists i: nat :: i < words && LessAt(b, c, 0, i)
  {
    RankOrderFrom(b, c, 0, words);
  }

  /** Different states have different ranks. */
  lemma RankInjective(b: Bits, c: Bits, words: nat)
    requires Fits(b, words) && Fits(c, words) && Rank(b, words) == Rank(c, words)
    ensures b == c
  {
    FromHas(0, words);
    SameState(b, c, From(0, words));
  }

  lemma {:induction false} ValWithout(b: Bits, r: Register, i: nat)
    requires Distinct(r) && i < |r|
    ensures Val(b, r) == Val(b - {r[i]}, r) + if r[i] in b then Pow2(i) else 0
    decreases |r|
  {
    var n := |r| - 1;
    if i == n {
      ValFrame(b, b - {r[i]}, r[..n]);
    } else {
      ValWithout(b, r[..n], i);
    }
  }

  /** The weight of a qubit in the rank. */
  ghost function QubitWeight(q: Qubit, words: nat): (w: nat)
    requires q < WORD * words
  {
    FromHas(0, words);
    var r := From(0, words);
    assert q in r;
    var i: nat :| i < |r| && r[i] == q;
    Pow2(i)
  }

  /** Masking a qubit out takes its weight off the rank. */
  lemma RankWithout(b: Bits, q: Qubit, words: nat)
    requires q < WORD * words
    ensures Rank(b, words) == Rank(b - {q}, words) + if q in b then QubitWeight(q, words) else 0
  {
    FromHas(0, words);
    var r := From(0, words);
    assert q in r;
    var i: nat :| i < |r| && r[i] == q && QubitWeight(q, words) == Pow2(i);
    ValWithout(b, r, i);
  }

  /** Among states with the same value of a qubit, masking it out does not change the order. */
  lemma MaskKeepsOrder(b: Bits, c: Bits, q: Qubit, words: nat)
    requires q < WORD * words && (q in b <==> q in c)
    ensures Rank(b, words) < Rank(c, words) <==> Rank(b - {q}, words) < Rank(c - {q}, words)
  {
    RankWithout(b, q, words);
    RankWithout(c, q, words);
  }

  /** `from_index`: the bits of the number in the first word. */
  function FromIndex(i: nat): Bits {
    set q | 0 <= q < WORD && Bit(i, q) :: q
  }

  /** States made from indices are in the order of the indices. */
  lemma FromIndexRank(i: nat, words: nat)
    requires i < Pow2(WORD) && words > 0
    ensures Fits(FromIndex(i), words) && Rank(FromIndex(i), words) == Pow2(WORD * (words - 1)) * i
  {
    var b := FromIndex(i);
    assert Rank(b, words) == Val(b, From(0, words)) && words - 0 - 1 == words - 1;
    IndexBeyond(i, words);
    hide *;
    RankFrom(b, 0, words);
    NothingSet(b, From(1, words));
    FromIndexWord(i);
  }

  lemma IndexBeyond(i: nat, words: nat)
    requires words > 0
    ensures Fits(FromIndex(i), words) && forall q :: q in From(1, words) ==> q !in FromIndex(i)
  {
    FromHas(1, words);
    hide From, Bit;
  }

  lemma FromIndexWord(i: nat)
    requires i < Pow2(WORD)
    ensures WordVal(FromIndex(i), 0) == i
  {
    hide Bit;
    ValOfBits(FromIndex(i), Word(0), i);
    SmallMod(i, Pow2(WORD));
  }

  lemma SmallMod(i: nat, p: nat)
    requires i < p
    ensures i % p == i
  {
    DivUnique(i, p, 0, i);
  }

  lemma {:induction false} NothingSet(b: Bits, r: Register)
    requires forall q :: q in r ==> q !in b
    ensures Val(b, r) == 0
    decreases |r|
  {
    if r != [] {
      NothingSet(b, r[..|r| - 1]);
    }
  }
}
