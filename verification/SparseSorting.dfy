/** Running compiled gates over sorted slices: what sorting afterwards restores (`src/statevector.rs`). */
module SparseSorting {
  import opened Controls
  import opened BasisOrder
  import opened Merging
  import opened Partition
  import opened QuickSort
  import opened CompiledGates
  import opened SparseParts

  function ByKey<T>(key: T -> int): (T, T) -> bool {
    (x: T, y: T) => key(x) < key(y)
  }

  lemma ByKeyIsWeak<T(!new)>(key: T -> int)
    ensures StrictWeak(ByKey(key))
  {
  }

  lemma PermutedIn<T>(s: seq<T>, t: seq<T>, x: T)
    requires Permuted(s, t)
    ensures |s| == |t| && (x in s <==> x in t)
  {
    assert |multiset(s)| == |multiset(t)|;
    assert x in multiset(s) <==> x in multiset(t);
  }

  lemma DropLast<T>(s: seq<T>, t: seq<T>)
    requires Permuted(s, t) && |s| == |t| > 0 && s[|s| - 1] == t[|t| - 1]
    ensures Permuted(s[..|s| - 1], t[..|t| - 1])
  {
    var n := |s| - 1;
    assert s == s[..n] + [s[n]] && t == t[..n] + [t[n]];
    assert multiset(s[..n]) == multiset(s) - multiset{s[n]};
    assert multiset(t[..n]) == multiset(t) - multiset{t[n]};
  }

  /** A slice with strictly increasing keys is the only sorted arrangement of its elements. */
  lemma {:induction false} SortedUnique<T(!new)>(s: seq<T>, t: seq<T>, key: T -> int)
    requires Permuted(s, t) && Increasing(t, key) && Sorted(s, 0, |s|, ByKey(key))
    ensures s == t
    decreases |s|
  {
    if s == [] {
      EmptyPermuted(s, t);
    } else {
      var n := |s| - 1;
      PermutedIn(s, t, s[n]);
      PermutedIn(s, t, t[n]);
      var i :| 0 <= i <= n && s[i] == t[n];
      var j :| 0 <= j <= n && t[j] == s[n];
      assert !ByKey(key)(s[n], s[i]);
      assert j == n;
      DropLast(s, t);
      SortedUnique(s[..n], t[..n], key);
    }
  }

  /** No element twice. */
  ghost predicate Once<T>(s: seq<T>) {
    forall i, j :: 0 <= i < j < |s| ==> s[i] != s[j]
  }

  lemma {:induction false} OnceCount<T>(s: seq<T>, x: T)
    requires Once(s)
    ensures multiset(s)[x] <= 1
    decreases |s|
  {
    if s != [] {
      var n := |s| - 1;
      assert s == s[..n] + [s[n]];
      OnceCount(s[..n], x);
    }
  }

  lemma TwiceCount<T>(s: seq<T>, i: nat, j: nat)
    requires i < j < |s| && s[i] == s[j]
    ensures multiset(s)[s[i]] >= 2
  {
    assert s == s[..j] + [s[j]] + s[j + 1..];
    assert s[i] in s[..j];
    assert multiset(s[..j])[s[i]] >= 1;
  }

  /** Sorting elements that differ in their keys makes the keys strictly increase. */
  lemma SortedDistinct<T(!new)>(s: seq<T>, t: seq<T>, key: T -> int)
    requires Permuted(s, t) && Once(t) && Sorted(s, 0, |s|, ByKey(key))
    requires forall x, y :: x in t && y in t && key(x) == key(y) ==> x == y
    ensures Increasing(s, key)
  {
    forall i, j | 0 <= i < j < |s| ensures key(s[i]) < key(s[j]) {
      assert !ByKey(key)(s[j], s[i]);
      PermutedIn(s, t, s[i]);
      PermutedIn(s, t, s[j]);
      if key(s[i]) == key(s[j]) {
        TwiceCount(s, i, j);
        OnceCount(t, s[i]);
      }
    }
  }

  // Running compiled gates

  /** The code maps different basis states to different ones, and stays within the words. */
  ghost predicate Relabels(code: seq<Compiled>, words: nat) {
    && (forall b, c :: BitsAll(code, b) == BitsAll(code, c) ==> b == c)
    && (forall b :: Fits(b, words) ==> Fits(BitsAll(code, b), words))
  }

  /** Every entry of `s` is the image of an entry of `t`, and the other way round. */
  ghost predicate Image<V>(s: Part<V>, t: Part<V>, code: seq<Compiled>, rot: Rot<V>) {
    && (forall e :: e in t ==> ApplyAll(code, rot, e) in s)
    && (forall f :: f in s ==> exists e :: e in t && ApplyAll(code, rot, e) == f)
  }

  lemma MapImage<V>(t: Part<V>, code: seq<Compiled>, rot: Rot<V>)
    ensures Image(MapAll(code, rot, t), t, code, rot)
  {
    var s := MapAll(code, rot, t);
    forall e | e in t ensures ApplyAll(code, rot, e) in s {
      var i :| 0 <= i < |t| && t[i] == e;
      assert s[i] == ApplyAll(code, rot, e);
    }
  }

  lemma ImagePermuted<V>(s: Part<V>, u: Part<V>, t: Part<V>, code: seq<Compiled>, rot: Rot<V>)
    requires Image(u, t, code, rot) && SameEntries(s, u)
    ensures Image(s, t, code, rot)
  {
  }

  lemma ImageBoth<V>(s0: Part<V>, s1: Part<V>, t0: Part<V>, t1: Part<V>, code: seq<Compiled>, rot: Rot<V>)
    requires Image(s0, t0, code, rot) && Image(s1, t1, code, rot)
    ensures Image(s0 + s1, t0 + t1, code, rot)
  {
    forall f | f in s0 + s1 ensures exists e :: e in t0 + t1 && ApplyAll(code, rot, e) == f {
      if f in s0 {
        var e :| e in t0 && ApplyAll(code, rot, e) == f;
        assert e in t0 + t1;
      } else {
        var e :| e in t1 && ApplyAll(code, rot, e) == f;
        assert e in t0 + t1;
      }
    }
  }

  /** Images of entries in range with different states: in range, with different states. */
  lemma ImageGood<V>(s0: Part<V>, s1: Part<V>, t0: Part<V>, t1: Part<V>, code: seq<Compiled>, rot: Rot<V>, words: nat)
    requires Image(s0, t0, code, rot) && Image(s1, t1, code, rot) && Relabels(code, words)
    requires AllFit(t0, words) && AllFit(t1, words) && NoneShared(t0, t1)
    ensures AllFit(s0, words) && AllFit(s1, words) && NoneShared(s0, s1)
  {
    ImageFits(s0, t0, code, rot, words);
    ImageFits(s1, t1, code, rot, words);
    forall f, g | f in s0 && g in s1 ensures f.bits != g.bits {
      var e :| e in t0 && ApplyAll(code, rot, e) == f;
      var d :| d in t1 && ApplyAll(code, rot, d) == g;
      assert BitsAll(code, e.bits) == f.bits && BitsAll(code, d.bits) == g.bits;
    }
  }

  lemma ImageFits<V>(s: Part<V>, t: Part<V>, code: seq<Compiled>, rot: Rot<V>, words: nat)
    requires Image(s, t, code, rot) && Relabels(code, words) && AllFit(t, words)
    ensures AllFit(s, words)
  {
    forall f | f in s ensures Fits(f.bits, words) {
      var e :| e in t && ApplyAll(code, rot, e) == f;
      assert Fits(BitsAll(code, e.bits), words);
    }
  }

  /** A key that the code does not change still increases over the images. */
  lemma MapIncreasing<V>(t: Part<V>, code: seq<Compiled>, rot: Rot<V>, key: Element<V> -> int)
    requires Increasing(t, key) && forall e :: e in t ==> key(ApplyAll(code, rot, e)) == key(e)
    ensures Increasing(MapAll(code, rot, t), key)
  {
    assert forall i :: 0 <= i < |t| ==> t[i] in t;
  }

  /** Qubits that the code does not write keep their side. */
  lemma ImageSide<V>(s: Part<V>, t: Part<V>, code: seq<Compiled>, rot: Rot<V>, q: Qubit, side: bool)
    requires Image(s, t, code, rot) && q !in WritesAll(code) && OnSide(t, q, side)
    ensures OnSide(s, q, side)
  {
    forall f | f in s ensures (q in f.bits) == side {
      var e :| e in t && ApplyAll(code, rot, e) == f;
      SeqKeepsOthers(code, e.bits, q);
    }
  }

  /** Code that writes nothing keeps the key; code that writes one qubit keeps the key with it masked out. */
  lemma KeyKept<V>(e: Element<V>, code: seq<Compiled>, rot: Rot<V>, q: Qubit, words: nat)
    ensures WritesAll(code) == {} ==> Ranked<V>(words)(ApplyAll(code, rot, e)) == Ranked<V>(words)(e)
    ensures WritesAll(code) == {q} ==> Masked<V>(q, words)(ApplyAll(code, rot, e)) == Masked<V>(q, words)(e)
  {
    var b, c := e.bits, BitsAll(code, e.bits);
    if WritesAll(code) <= {q} {
      forall x | x != q || WritesAll(code) == {} ensures x in b <==> x in c {
        SeqKeepsOthers(code, b, x);
      }
      assert b - {q} == c - {q};
      assert WritesAll(code) == {} ==> b == c;
    }
  }

  /** The images of increasing entries are all different, with different keys. */
  lemma ImagesDiffer<V>(t: Part<V>, code: seq<Compiled>, rot: Rot<V>, words: nat)
    requires Increasing(t, Ranked(words)) && AllFit(t, words) && Relabels(code, words)
    ensures Once(MapAll(code, rot, t))
    ensures var u := MapAll(code, rot, t);
      forall x, y :: x in u && y in u && Ranked(words)(x) == Ranked(words)(y) ==> x == y
  {
    var u := MapAll(code, rot, t);
    MapImage(t, code, rot);
    ImageFits(u, t, code, rot, words);
    forall i, j | 0 <= i < j < |u| ensures u[i].bits != u[j].bits {
      assert u[i].bits == BitsAll(code, t[i].bits) && u[j].bits == BitsAll(code, t[j].bits);
      assert Ranked(words)(t[i]) < Ranked(words)(t[j]);
    }
    forall x, y | x in u && y in u && Ranked(words)(x) == Ranked(words)(y) ensures x == y {
      RankInjective(x.bits, y.bits, words);
      var i :| 0 <= i < |u| && u[i] == x;
      var j :| 0 <= j < |u| && u[j] == y;
    }
  }

  // Relabelled vectors

  /** The vector `m` with every state replaced by its image and every amplitude rotated by the code's phases. */
  ghost predicate Relabelled<V>(m: map<Bits, V>, m': map<Bits, V>, code: seq<Compiled>, rot: Rot<V>) {
    && (forall b :: b in m ==> BitsAll(code, b) in m' && m'[BitsAll(code, b)] == Rotate(rot, PhasesAll(code, b), m[b]))
    && (forall c :: c in m' ==> exists b :: b in m && BitsAll(code, b) == c)
  }

  lemma ImageForward<V>(s: Part<V>, t: Part<V>, code: seq<Compiled>, rot: Rot<V>, b: Bits)
    requires Image(s, t, code, rot) && Unique(s) && Unique(t) && b in Meaning(t)
    ensures BitsAll(code, b) in Meaning(s)
    ensures Meaning(s)[BitsAll(code, b)] == Rotate(rot, PhasesAll(code, b), Meaning(t)[b])
  {
    MeaningHas(t, b);
    MeaningHas(s, b);
    hide Meaning, Rotate, BitsAll, PhasesAll;
    var e :| e in t && e.bits == b;
    assert ApplyAll(code, rot, e) in s;
  }

  lemma ImageBackward<V>(s: Part<V>, t: Part<V>, code: seq<Compiled>, rot: Rot<V>, c: Bits)
    requires Image(s, t, code, rot) && Unique(s) && Unique(t) && c in Meaning(s)
    ensures exists b :: b in Meaning(t) && BitsAll(code, b) == c
  {
    MeaningHas(s, c);
    MeaningHas(t, c);
    hide Meaning, Rotate, BitsAll, PhasesAll;
    var f :| f in s && f.bits == c;
    var e :| e in t && ApplyAll(code, rot, e) == f;
    assert e.bits in Meaning(t);
  }

  lemma ImageRelabels<V>(s: Part<V>, t: Part<V>, code: seq<Compiled>, rot: Rot<V>)
    requires Image(s, t, code, rot) && Unique(s) && Unique(t)
    ensures Relabelled(Meaning(t), Meaning(s), code, rot)
  {
    hide Image, Unique, Meaning, Rotate, BitsAll, PhasesAll;
    var m, m' := Meaning(t), Meaning(s);
    forall b | b in m ensures BitsAll(code, b) in m' && m'[BitsAll(code, b)] == Rotate(rot, PhasesAll(code, b), m[b]) {
      ImageForward(s, t, code, rot, b);
    }
    forall c | c in m' ensures exists b :: b in m && BitsAll(code, b) == c {
      ImageBackward(s, t, code, rot, c);
    }
  }
}
