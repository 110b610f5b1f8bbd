/** Splitting and merging two sorted slices (`src/util.rs`). */
module Merging {

  /** Strictly increasing keys. */
  ghost predicate Increasing<T>(s: seq<T>, key: T -> int) {
    forall i, j :: 0 <= i < j < |s| ==> key(s[i]) < key(s[j])
  }

  /** Every key of `s` is below every key of `t`. */
  ghost predicate Below<T>(s: seq<T>, t: seq<T>, key: T -> int) {
    forall x, y :: x in s && y in t ==> key(x) < key(y)
  }

  /** The first n0 and n1 elements can be merged on their own: no key of theirs is met again later. */
  ghost predicate Separates<T>(c0: seq<T>, c1: seq<T>, n0: nat, n1: nat, key: T -> int)
    requires n0 <= |c0| && n1 <= |c1|
  {
    && Below(c0[..n0], c0[n0..], key) && Below(c0[..n0], c1[n1..], key)
    && Below(c1[..n1], c1[n1..], key) && Below(c1[..n1], c0[n0..], key)
  }

  // Finding a split

  lemma BelowSelf<T>(s: seq<T>, n: nat, key: T -> int)
    requires Increasing(s, key) && n <= |s|
    ensures Below(s[..n], s[n..], key)
  {
    forall x, y | x in s[..n] && y in s[n..] ensures key(x) < key(y) {
      var i :| 0 <= i < n && s[i] == x;
      var j :| 0 <= j < |s| - n && s[n..][j] == y;
      assert s[n + j] == y;
    }
  }

  /** Where the two keys at the seam are in order, so are all keys across it. */
  lemma BelowAcross<T>(s: seq<T>, t: seq<T>, n: nat, m: nat, key: T -> int)
    requires Increasing(s, key) && Increasing(t, key) && n <= |s| && m <= |t|
    requires n > 0 && m < |t| ==> key(s[n - 1]) < key(t[m])
    ensures Below(s[..n], t[m..], key)
  {
    forall x, y | x in s[..n] && y in t[m..] ensures key(x) < key(y) {
      var i :| 0 <= i < n && s[i] == x;
      var j :| 0 <= j < |t| - m && t[m..][j] == y;
      assert t[m + j] == y;
      assert key(s[i]) <= key(s[n - 1]) && key(t[m]) <= key(t[m + j]);
    }
  }

  lemma SeamSeparates<T>(c0: seq<T>, c1: seq<T>, n0: nat, n1: nat, key: T -> int)
    requires Increasing(c0, key) && Increasing(c1, key) && n0 <= |c0| && n1 <= |c1|
    requires n0 > 0 && n1 < |c1| ==> key(c0[n0 - 1]) < key(c1[n1])
    requires n1 > 0 && n0 < |c0| ==> key(c1[n1 - 1]) < key(c0[n0])
    ensures Separates(c0, c1, n0, n1, key)
  {
    BelowSelf(c0, n0, key);
    BelowSelf(c1, n1, key);
    BelowAcross(c0, c1, n0, n1, key);
    BelowAcross(c1, c0, n1, n0, key);
  }

  /** The last element in front of a seam is left out where its key comes again behind it. */
  lemma EqualSeam<T>(c0: seq<T>, c1: seq<T>, n0: nat, n1: nat, key: T -> int)
    requires Increasing(c0, key) && Increasing(c1, key) && 0 < n0 <= |c0| && n1 < |c1|
    requires key(c0[n0 - 1]) == key(c1[n1])
    ensures Separates(c0, c1, n0 - 1, n1, key) && Separates(c1, c0, n1, n0 - 1, key)
  {
    SeamSeparates(c0, c1, n0 - 1, n1, key);
  }

  /** Binary search for a split of the two slices into `target` elements, or one less where that would
      divide a pair of equal keys. Neither assertion in the loop can fail. */
  method MergeBoundaries<T>(c0: seq<T>, c1: seq<T>, target: nat, key: T -> int) returns (n0: nat, n1: nat)
    requires Increasing(c0, key) && Increasing(c1, key) && target <= |c0| + |c1|
    ensures n0 <= |c0| && n1 <= |c1| && Separates(c0, c1, n0, n1, key)
    ensures n0 + n1 == target || (n0 + n1 == target - 1 && n0 < |c0| && n1 < |c1| && key(c0[n0]) == key(c1[n1]))
  {
    hide Separates, Increasing;
    var min: nat := if target >= |c1| then target - |c1| else 0;
    var max: nat := if |c0| <= target then |c0| else target;
    ghost var least, most := min, max;
    while true
      invariant least <= min <= max <= most
      invariant min == least || (target - min < |c1| && key(c0[min - 1]) < key(c1[target - min]))
      invariant max == most || (target - max - 1 >= 0 && key(c1[target - max - 1]) < key(c0[max]))
      decreases max - min
    {
      n0 := (min + max) / 2;
      n1 := target - n0;
      if n0 > 0 && n1 < |c1| {
        if key(c0[n0 - 1]) == key(c1[n1]) {
          EqualSeam(c0, c1, n0, n1, key);
          n0 := n0 - 1;
          return;
        } else if key(c0[n0 - 1]) > key(c1[n1]) {
          max := n0 - 1;
          assert min <= max;
          continue;
        }
      }
      if n1 > 0 && n0 < |c0| {
        if key(c0[n0]) == key(c1[n1 - 1]) {
          EqualSeam(c1, c0, n1, n0, key);
          n1 := n1 - 1;
          return;
        } else if key(c0[n0]) < key(c1[n1 - 1]) {
          min := n0 + 1;
          assert min <= max;
          continue;
        }
      }
      SeamSeparates(c0, c1, n0, n1, key);
      return;
    }
  }

  // Splitting into chunks

  type Pair<T> = (seq<T>, seq<T>)

  function Firsts<T>(r: seq<Pair<T>>): seq<T> {
    if r == [] then [] else Firsts(r[..|r| - 1]) + r[|r| - 1].0
  }

  function Seconds<T>(r: seq<Pair<T>>): seq<T> {
    if r == [] then [] else Seconds(r[..|r| - 1]) + r[|r| - 1].1
  }

  /** The last pair lies above all that came before. */
  ghost predicate Staged<T>(r: seq<Pair<T>>, key: T -> int) {
    r == [] ||
    (Staged(r[..|r| - 1], key)
     && Below(Firsts(r[..|r| - 1]), r[|r| - 1].0, key) && Below(Firsts(r[..|r| - 1]), r[|r| - 1].1, key)
     && Below(Seconds(r[..|r| - 1]), r[|r| - 1].0, key) && Below(Seconds(r[..|r| - 1]), r[|r| - 1].1, key))
  }

  lemma PairsSnoc<T>(r: seq<Pair<T>>, p: Pair<T>)
    ensures Firsts(r + [p]) == Firsts(r) + p.0 && Seconds(r + [p]) == Seconds(r) + p.1
  {
    assert (r + [p])[..|r|] == r;
  }

  lemma StagedSnoc<T>(r: seq<Pair<T>>, p: Pair<T>, key: T -> int)
    requires Staged(r, key)
    requires Below(Firsts(r), p.0, key) && Below(Firsts(r), p.1, key)
    requires Below(Seconds(r), p.0, key) && Below(Seconds(r), p.1, key)
    ensures Staged(r + [p], key)
  {
    assert (r + [p])[..|r|] == r;
  }

  function Share(n: nat, i: nat, count: nat): nat
    requires count > 0
  {
    n * i / count
  }

  function CeilDiv(n: nat, count: nat): nat
    requires count > 0
  {
    (n + count - 1) / count
  }

  lemma MulMono(c: nat, x: nat, y: nat)
    requires x <= y
    ensures c * x <= c * y && x * c <= y * c
  {
  }

  lemma DivLess(z: nat, c: nat, k: nat)
    requires c > 0 && z < c * k
    ensures z / c < k
  {
    if z / c >= k {
      MulMono(c, k, z / c);
    }
  }

  lemma MulNext(c: nat, d: nat)
    ensures c * (d + 1) == c * d + c
  {
  }

  lemma DivExact(c: nat, q: nat)
    requires c > 0
    ensures c * q / c == q
  {
    var d := c * q / c;
    MulNext(c, q);
    DivLess(c * q, c, q + 1);
    MulNext(c, d);
    if d < q {
      MulMono(c, d + 1, q);
    }
  }

  lemma DivBounds(x: nat, c: nat)
    requires c > 0
    ensures x / c >= 0 && c * (x / c) <= x < c * (x / c) + c
  {
  }

  lemma QuotientBetween(x: nat, y: nat, z: nat, c: nat)
    requires c > 0 && z <= x + y
    ensures z / c <= x / c + (y + c - 1) / c
  {
    DivBounds(x, c);
    DivBounds(y + c - 1, c);
    SumBelow(x, y, z, c, x / c, (y + c - 1) / c);
  }

  lemma SumBelow(x: nat, y: nat, z: nat, c: nat, qx: nat, qy: nat)
    requires c > 0 && z <= x + y && x < c * qx + c && y <= c * qy
    ensures z / c <= qx + qy
  {
    assert c * (qx + qy + 1) == c * qx + c * qy + c;
    DivLess(z, c, qx + qy + 1);
  }

  lemma DivMono(x: nat, y: nat, c: nat)
    requires x <= y && c > 0
    ensures x / c <= y / c
  {
    assert c * (y / c + 1) == c * (y / c) + c;
    DivLess(x, c, y / c + 1);
  }

  /** Consecutive shares differ by at most the rounded-up chunk size. */
  lemma ShareStep(n: nat, i: nat, count: nat)
    requires count > 0
    ensures Share(n, i, count) <= Share(n, i + 1, count) <= Share(n, i, count) + CeilDiv(n, count)
    ensures i + 1 <= count ==> Share(n, i + 1, count) <= n
    ensures Share(n, count, count) == n && Share(n, 0, count) == 0
  {
    assert n * (i + 1) == n * i + n;
    DivMono(n * i, n * (i + 1), count);
    QuotientBetween(n * i, n, n * (i + 1), count);
    WholeShare(n, count);
    if i + 1 <= count {
      MulMono(n, i + 1, count);
      DivMono(n * (i + 1), n * count, count);
    }
  }

  lemma WholeShare(n: nat, count: nat)
    requires count > 0
    ensures n * count / count == n && n * 0 / count == 0
  {
    DivExact(count, n);
    assert n * count == count * n;
  }

  /** A pair that is the next piece of both slices, up to a split. */
  lemma NextPair<T>(c0: seq<T>, c1: seq<T>, at0: nat, at1: nat, n0: nat, n1: nat, r: seq<Pair<T>>, key: T -> int)
    requires Increasing(c0, key) && Increasing(c1, key)
    requires at0 + n0 <= |c0| && at1 + n1 <= |c1| && Separates(c0, c1, at0, at1, key)
    requires Firsts(r) == c0[..at0] && Seconds(r) == c1[..at1] && Staged(r, key)
    ensures var p := (c0[at0..at0 + n0], c1[at1..at1 + n1]);
      && Staged(r + [p], key) && Firsts(r + [p]) == c0[..at0 + n0] && Seconds(r + [p]) == c1[..at1 + n1]
  {
    var p := (c0[at0..at0 + n0], c1[at1..at1 + n1]);
    PairsSnoc(r, p);
    assert c0[..at0] + p.0 == c0[..at0 + n0] && c1[..at1] + p.1 == c1[..at1 + n1];
    assert forall x :: x in p.0 ==> x in c0[at0..];
    assert forall x :: x in p.1 ==> x in c1[at1..];
    StagedSnoc(r, p, key);
  }

  /** A split of the rest is a split of the whole. */
  lemma SplitOfRest<T>(c0: seq<T>, c1: seq<T>, at0: nat, at1: nat, n0: nat, n1: nat, key: T -> int)
    requires Increasing(c0, key) && Increasing(c1, key)
    requires at0 + n0 <= |c0| && at1 + n1 <= |c1|
    requires Separates(c0, c1, at0, at1, key) && Separates(c0[at0..], c1[at1..], n0, n1, key)
    ensures Separates(c0, c1, at0 + n0, at1 + n1, key)
  {
    BelowSelf(c0, at0 + n0, key);
    BelowSelf(c1, at1 + n1, key);
    RestBelow(c0, c1, at0, at1, n0, n1, key);
    RestBelow(c1, c0, at1, at0, n1, n0, key);
  }

  lemma RestBelow<T>(s: seq<T>, t: seq<T>, at: nat, bt: nat, n: nat, m: nat, key: T -> int)
    requires at + n <= |s| && bt + m <= |t|
    requires Below(s[..at], t[bt..], key) && Below(s[at..][..n], t[bt..][m..], key)
    ensures Below(s[..at + n], t[bt + m..], key)
  {
    assert t[bt..][m..] == t[bt + m..];
    assert s[..at + n] == s[..at] + s[at..][..n];
    assert forall y :: y in t[bt + m..] ==> y in t[bt..];
  }

  lemma IncreasingRest<T>(s: seq<T>, lo: nat, key: T -> int)
    requires Increasing(s, key) && lo <= |s|
    ensures Increasing(s[lo..], key)
  {
  }

  /** The pairs so far are the front of both slices, and what is left lies above. */
  ghost predicate CutAt<T>(c0: seq<T>, c1: seq<T>, at0: nat, at1: nat, r: seq<Pair<T>>, key: T -> int) {
    && at0 <= |c0| && at1 <= |c1| && Separates(c0, c1, at0, at1, key)
    && Firsts(r) == c0[..at0] && Seconds(r) == c1[..at1] && Staged(r, key)
  }

  ghost predicate Small<T>(r: seq<Pair<T>>, most: nat) {
    forall i :: 0 <= i < |r| ==> |r[i].0| + |r[i].1| <= most
  }

  lemma SmallSnoc<T>(r: seq<Pair<T>>, p: Pair<T>, most: nat)
    requires Small(r, most) && |p.0| + |p.1| <= most
    ensures Small(r + [p], most)
  {
  }

  lemma CutNext<T>(c0: seq<T>, c1: seq<T>, at0: nat, at1: nat, n0: nat, n1: nat, r: seq<Pair<T>>, key: T -> int)
    requires Increasing(c0, key) && Increasing(c1, key) && CutAt(c0, c1, at0, at1, r, key)
    requires n0 <= |c0| - at0 && n1 <= |c1| - at1 && Separates(c0[at0..], c1[at1..], n0, n1, key)
    ensures CutAt(c0, c1, at0 + n0, at1 + n1, r + [(c0[at0..at0 + n0], c1[at1..at1 + n1])], key)
  {
    NextPair(c0, c1, at0, at1, n0, n1, r, key);
    SplitOfRest(c0, c1, at0, at1, n0, n1, key);
  }

  lemma CutRest<T>(c0: seq<T>, c1: seq<T>, at0: nat, at1: nat, r: seq<Pair<T>>, key: T -> int)
    requires Increasing(c0, key) && Increasing(c1, key) && CutAt(c0, c1, at0, at1, r, key)
    ensures CutAt(c0, c1, |c0|, |c1|, r + [(c0[at0..], c1[at1..])], key)
  {
    CutNext(c0, c1, at0, at1, |c0| - at0, |c1| - at1, r, key);
    assert c0[at0..at0 + (|c0| - at0)] == c0[at0..] && c1[at1..at1 + (|c1| - at1)] == c1[at1..];
  }

  lemma CutStart<T>(c0: seq<T>, c1: seq<T>, key: T -> int)
    ensures CutAt(c0, c1, 0, 0, [], key)
  {
  }

  lemma CutEnd<T>(c0: seq<T>, c1: seq<T>, r: seq<Pair<T>>, key: T -> int)
    requires CutAt(c0, c1, |c0|, |c1|, r, key)
    ensures Firsts(r) == c0 && Seconds(r) == c1 && Staged(r, key)
  {
    assert c0[..|c0|] == c0 && c1[..|c1|] == c1;
  }

  /** Cuts two sorted slices into at most `count` pairs of about equal total size that can be merged
      independently, in order. */
  method MergeChunkPairs<T>(c0: seq<T>, c1: seq<T>, count: nat, key: T -> int) returns (r: seq<Pair<T>>)
    requires Increasing(c0, key) && Increasing(c1, key)
    ensures Firsts(r) == c0 && Seconds(r) == c1 && Staged(r, key)
    ensures |r| <= if count == 0 then 1 else count
    ensures count > 0 ==> Small(r, CeilDiv(|c0| + |c1|, count) + 1)
  {
    hide *;
    r := [];
    var n := |c0| + |c1|;
    var at0: nat, at1: nat := 0, 0;
    CutStart(c0, c1, key);
    ghost var most := 0;
    if count > 0 {
      most := CeilDiv(n, count) + 1;
      ShareStep(n, 0, count);
      assert Small(r, most) by {
        NoPairs<T>(most);
      }
    }
    var i := 1;
    while i < count
      invariant 1 <= i && (if count > 0 then i <= count else i == 1)
      invariant at0 <= |c0| && at1 <= |c1| && CutAt(c0, c1, at0, at1, r, key)
      invariant |r| <= i - 1
      invariant count > 0 ==> Share(n, i - 1, count) - 1 <= at0 + at1 <= Share(n, i - 1, count)
      invariant count > 0 ==> Small(r, most)
    {
      ShareStep(n, i - 1, count);
      var target := Share(n, i, count);
      if target > at0 + at1 {
        IncreasingRest(c0, at0, key);
        IncreasingRest(c1, at1, key);
        var n0, n1 := MergeBoundaries(c0[at0..], c1[at1..], target - (at0 + at1), key);
        CutNext(c0, c1, at0, at1, n0, n1, r, key);
        SmallSnoc(r, (c0[at0..at0 + n0], c1[at1..at1 + n1]), most);
        r := r + [(c0[at0..at0 + n0], c1[at1..at1 + n1])];
        at0, at1 := at0 + n0, at1 + n1;
      }
      i := i + 1;
    }
    if at0 < |c0| || at1 < |c1| {
      if count > 0 {
        ShareStep(n, count - 1, count);
        SmallSnoc(r, (c0[at0..], c1[at1..]), most);
      }
      CutRest(c0, c1, at0, at1, r, key);
      r := r + [(c0[at0..], c1[at1..])];
    }
    CutEnd(c0, c1, r, key);
  }

  lemma NoPairs<T>(most: nat)
    ensures Small<T>([], most)
  {
  }

  // Merging everything

  /** Both slices in order of their keys, the first slice first where keys are equal. */
  function Interleaved<T>(v1: seq<T>, v2: seq<T>, key: T -> int): seq<T>
    decreases |v1| + |v2|
  {
    if v1 == [] then v2
    else if v2 == [] then v1
    else if key(v1[0]) <= key(v2[0]) then [v1[0]] + Interleaved(v1[1..], v2, key)
    else [v2[0]] + Interleaved(v1, v2[1..], key)
  }

  /** Merges two slices; `out` is what the callback is called with, in order. */
  method MergeDistinct<T>(v1: seq<T>, v2: seq<T>, key: T -> int) returns (out: seq<T>)
    ensures out == Interleaved(v1, v2, key)
  {
    var r1, r2 := v1, v2;
    out := [];
    while r1 != [] && r2 != []
      invariant out + Interleaved(r1, r2, key) == Interleaved(v1, v2, key)
      decreases |r1| + |r2|
    {
      ghost var rest := Interleaved(r1, r2, key);
      if key(r1[0]) <= key(r2[0]) {
        assert out + rest == out + [r1[0]] + Interleaved(r1[1..], r2, key);
        out, r1 := out + [r1[0]], r1[1..];
      } else {
        assert out + rest == out + [r2[0]] + Interleaved(r1, r2[1..], key);
        out, r2 := out + [r2[0]], r2[1..];
      }
    }
    out := out + r1 + r2;
  }

  lemma {:induction false} InterleavedHas<T>(v1: seq<T>, v2: seq<T>, key: T -> int)
    ensures |Interleaved(v1, v2, key)| == |v1| + |v2|
    ensures forall x :: x in Interleaved(v1, v2, key) <==> x in v1 || x in v2
    decreases |v1| + |v2|
  {
    if v1 != [] && v2 != [] {
      if key(v1[0]) <= key(v2[0]) {
        InterleavedHas(v1[1..], v2, key);
        assert v1 == [v1[0]] + v1[1..];
      } else {
        InterleavedHas(v1, v2[1..], key);
        assert v2 == [v2[0]] + v2[1..];
      }
    }
  }

  /** `s` is in order; elements with equal keys come one from each slice, that of `v1` first. */
  ghost predicate InOrder<T>(s: seq<T>, v1: seq<T>, v2: seq<T>, key: T -> int) {
    forall i, j :: 0 <= i < j < |s| ==>
      key(s[i]) < key(s[j]) || (key(s[i]) == key(s[j]) && s[i] in v1 && s[j] in v2)
  }

  lemma {:induction false} InterleavedInOrder<T>(v1: seq<T>, v2: seq<T>, key: T -> int)
    requires Increasing(v1, key) && Increasing(v2, key)
    ensures InOrder(Interleaved(v1, v2, key), v1, v2, key)
    decreases |v1| + |v2|
  {
    if v1 != [] && v2 != [] {
      if key(v1[0]) <= key(v2[0]) {
        InterleavedInOrder(v1[1..], v2, key);
        InOrderCons(v1[0], Interleaved(v1[1..], v2, key), v1, v2, key, v1[1..], v2);
      } else {
        InterleavedInOrder(v1, v2[1..], key);
        InOrderCons(v2[0], Interleaved(v1, v2[1..], key), v1, v2, key, v1, v2[1..]);
      }
    }
  }

  lemma InOrderCons<T>(x: T, s: seq<T>, v1: seq<T>, v2: seq<T>, key: T -> int, w1: seq<T>, w2: seq<T>)
    requires Increasing(v1, key) && Increasing(v2, key) && v1 != [] && v2 != []
    requires || (w1 == v1[1..] && w2 == v2 && x == v1[0] && key(v1[0]) <= key(v2[0]))
             || (w1 == v1 && w2 == v2[1..] && x == v2[0] && key(v2[0]) < key(v1[0]))
    requires s == Interleaved(w1, w2, key) && InOrder(s, w1, w2, key)
    ensures InOrder([x] + s, v1, v2, key)
  {
    InterleavedHas(w1, w2, key);
    forall j | 0 <= j < |s| ensures key(x) < key(s[j]) || (key(x) == key(s[j]) && x in v1 && s[j] in v2) {
      if s[j] in w1 {
        var i :| 0 <= i < |w1| && w1[i] == s[j];
        if w1 == v1 { assert v1[i] == s[j]; } else { assert v1[i + 1] == s[j]; }
      } else {
        var i :| 0 <= i < |w2| && w2[i] == s[j];
        if w2 == v2 { assert v2[i] == s[j]; } else { assert v2[i + 1] == s[j]; }
      }
    }
    var t := [x] + s;
    forall i, j | 0 <= i < j < |t| ensures key(t[i]) < key(t[j]) || (key(t[i]) == key(t[j]) && t[i] in v1 && t[j] in v2) {
      assert t[j] == s[j - 1];
      if i > 0 {
        assert t[i] == s[i - 1];
        assert forall y :: y in w1 ==> y in v1;
        assert forall y :: y in w2 ==> y in v2;
      }
    }
  }

  lemma BelowTail<T>(s: seq<T>, t: seq<T>, key: T -> int)
    requires Below(s, t, key) && s != []
    ensures Below(s[1..], t, key)
    ensures forall y :: y in t ==> key(s[0]) < key(y)
  {
    assert forall x :: x in s[1..] ==> x in s;
    assert s[0] in s;
  }

  lemma PrependConcat<T>(x: T, s: seq<T>, t: seq<T>)
    ensures [x] + (s + t) == [x] + s + t
  {
  }

  /** The merge takes the head of the first slice next. */
  predicate TakesFirst<T>(v1: seq<T>, v2: seq<T>, key: T -> int) {
    v1 != [] && (v2 == [] || key(v1[0]) <= key(v2[0]))
  }

  lemma SameTaken<T>(a1: seq<T>, b1: seq<T>, a2: seq<T>, b2: seq<T>, key: T -> int)
    requires Below(a1, b2, key) && Below(b1, a2, key) && (a1 != [] || b1 != [])
    ensures TakesFirst(a1 + a2, b1 + b2, key) == TakesFirst(a1, b1, key)
    ensures if TakesFirst(a1, b1, key) then a1 != [] else b1 != []
  {
    if a1 != [] { BelowTail(a1, b2, key); }
    if b1 != [] { BelowTail(b1, a2, key); }
    assert a1 == [] ==> a1 + a2 == a2;
    assert b1 == [] ==> b1 + b2 == b2;
  }

  lemma TakenNext<T>(v1: seq<T>, v2: seq<T>, key: T -> int)
    requires v1 != [] || v2 != []
    ensures Interleaved(v1, v2, key) ==
      if TakesFirst(v1, v2, key) then [v1[0]] + Interleaved(v1[1..], v2, key) else [v2[0]] + Interleaved(v1, v2[1..], key)
  {
    if v2 == [] {
      assert v1 == [v1[0]] + v1[1..];
    } else if v1 == [] {
      assert v2 == [v2[0]] + v2[1..];
    }
  }

  lemma ConcatTail<T>(s: seq<T>, t: seq<T>)
    requires s != []
    ensures s + t != [] && (s + t)[0] == s[0] && (s + t)[1..] == s[1..] + t
  {
  }

  lemma Regroup<T>(x: T, s: seq<T>, t: seq<T>, l: seq<T>, r: seq<T>)
    requires l == [x] + s && r == [x] + (s + t)
    ensures r == l + t
  {
    PrependConcat(x, s, t);
  }

  lemma FirstOfTwo<T>(a1: seq<T>, b1: seq<T>, a2: seq<T>, b2: seq<T>, key: T -> int)
    requires a1 != [] && TakesFirst(a1, b1, key) && TakesFirst(a1 + a2, b1 + b2, key)
    requires Interleaved(a1[1..] + a2, b1 + b2, key) == Interleaved(a1[1..], b1, key) + Interleaved(a2, b2, key)
    ensures Interleaved(a1 + a2, b1 + b2, key) == Interleaved(a1, b1, key) + Interleaved(a2, b2, key)
  {
    var l, r := Interleaved(a1, b1, key), Interleaved(a1 + a2, b1 + b2, key);
    hide *;
    TakenNext(a1, b1, key);
    ConcatTail(a1, a2);
    TakenNext(a1 + a2, b1 + b2, key);
    Regroup(a1[0], Interleaved(a1[1..], b1, key), Interleaved(a2, b2, key), l, r);
  }

  lemma SecondOfTwo<T>(a1: seq<T>, b1: seq<T>, a2: seq<T>, b2: seq<T>, key: T -> int)
    requires b1 != [] && !TakesFirst(a1, b1, key) && !TakesFirst(a1 + a2, b1 + b2, key)
    requires Interleaved(a1 + a2, b1[1..] + b2, key) == Interleaved(a1, b1[1..], key) + Interleaved(a2, b2, key)
    ensures Interleaved(a1 + a2, b1 + b2, key) == Interleaved(a1, b1, key) + Interleaved(a2, b2, key)
  {
    var l, r := Interleaved(a1, b1, key), Interleaved(a1 + a2, b1 + b2, key);
    hide *;
    TakenNext(a1, b1, key);
    ConcatTail(b1, b2);
    TakenNext(a1 + a2, b1 + b2, key);
    Regroup(b1[0], Interleaved(a1, b1[1..], key), Interleaved(a2, b2, key), l, r);
  }

  /** Two stages can be merged one after the other. */
  lemma {:induction false} InterleavedSplit<T>(a1: seq<T>, b1: seq<T>, a2: seq<T>, b2: seq<T>, key: T -> int)
    requires Below(a1, b2, key) && Below(b1, a2, key)
    ensures Interleaved(a1 + a2, b1 + b2, key) == Interleaved(a1, b1, key) + Interleaved(a2, b2, key)
    decreases |a1| + |b1|
  {
    if a1 == [] && b1 == [] {
      assert a1 + a2 == a2 && b1 + b2 == b2;
    } else {
      SameTaken(a1, b1, a2, b2, key);
      hide *;
      if TakesFirst(a1, b1, key) {
        BelowTail(a1, b2, key);
        InterleavedSplit(a1[1..], b1, a2, b2, key);
        FirstOfTwo(a1, b1, a2, b2, key);
      } else {
        BelowTail(b1, a2, key);
        InterleavedSplit(a1, b1[1..], a2, b2, key);
        SecondOfTwo(a1, b1, a2, b2, key);
      }
    }
  }

  /** What merging the pairs one by one yields, in order. */
  function InterleavedPairs<T>(r: seq<Pair<T>>, key: T -> int): seq<T> {
    if r == [] then []
    else InterleavedPairs(r[..|r| - 1], key) + Interleaved(r[|r| - 1].0, r[|r| - 1].1, key)
  }

  /** Merging chunk by chunk is merging the whole. */
  lemma {:induction false} ChunkedMergeDistinct<T>(r: seq<Pair<T>>, key: T -> int)
    requires Staged(r, key)
    ensures InterleavedPairs(r, key) == Interleaved(Firsts(r), Seconds(r), key)
    decreases |r|
  {
    if r != [] {
      var n := |r| - 1;
      ChunkedMergeDistinct(r[..n], key);
      InterleavedSplit(Firsts(r[..n]), Seconds(r[..n]), r[n].0, r[n].1, key);
    }
  }

  // Merging equal keys

  datatype Merge<T> = Lhs(e: T) | Rhs(e: T) | Both(e1: T, e2: T)

  /** The two slices matched up by their keys. */
  function Matched<T>(v1: seq<T>, v2: seq<T>, key: T -> int): seq<Merge<T>>
    decreases |v1| + |v2|
  {
    if v1 == [] && v2 == [] then []
    else if v2 == [] || (v1 != [] && key(v1[0]) < key(v2[0])) then [Lhs(v1[0])] + Matched(v1[1..], v2, key)
    else if v1 == [] || key(v2[0]) < key(v1[0]) then [Rhs(v2[0])] + Matched(v1, v2[1..], key)
    else [Both(v1[0], v2[0])] + Matched(v1[1..], v2[1..], key)
  }

  function HeadMatch<T>(v1: seq<T>, v2: seq<T>, key: T -> int): Merge<T>
    requires v1 != [] || v2 != []
  {
    if v2 == [] || (v1 != [] && key(v1[0]) < key(v2[0])) then Lhs(v1[0])
    else if v1 == [] || key(v2[0]) < key(v1[0]) then Rhs(v2[0])
    else Both(v1[0], v2[0])
  }

  lemma MatchedHead<T>(v1: seq<T>, v2: seq<T>, key: T -> int)
    requires v1 != [] || v2 != []
    ensures var m := HeadMatch(v1, v2, key);
      Matched(v1, v2, key) == [m] + Matched(if m.Rhs? then v1 else v1[1..], if m.Lhs? then v2 else v2[1..], key)
  {
  }

  lemma Emits<T>(out: seq<Merge<T>>, v1: seq<T>, v2: seq<T>, key: T -> int)
    requires v1 != [] || v2 != []
    ensures var m := HeadMatch(v1, v2, key);
      out + Matched(v1, v2, key) == out + [m] + Matched(if m.Rhs? then v1 else v1[1..], if m.Lhs? then v2 else v2[1..], key)
  {
    MatchedHead(v1, v2, key);
    hide Matched, HeadMatch;
    var m := HeadMatch(v1, v2, key);
    var rest := Matched(if m.Rhs? then v1 else v1[1..], if m.Lhs? then v2 else v2[1..], key);
    assert out + ([m] + rest) == out + [m] + rest;
  }

  /** Matches up two slices; `out` is what the callback is called with, in order. */
  method MergeEq<T>(v1: seq<T>, v2: seq<T>, key: T -> int) returns (out: seq<Merge<T>>)
    ensures out == Matched(v1, v2, key)
  {
    var r1, r2 := v1, v2;
    out := [];
    while r1 != [] && r2 != []
      invariant out + Matched(r1, r2, key) == Matched(v1, v2, key)
      decreases |r1| + |r2|
    {
      hide Matched;
      Emits(out, r1, r2, key);
      if key(r1[0]) == key(r2[0]) {
        out, r1, r2 := out + [Both(r1[0], r2[0])], r1[1..], r2[1..];
      } else if key(r1[0]) < key(r2[0]) {
        out, r1 := out + [Lhs(r1[0])], r1[1..];
      } else {
        out, r2 := out + [Rhs(r2[0])], r2[1..];
      }
    }
    while r1 != []
      invariant r1 == [] || r2 == []
      invariant out + Matched(r1, r2, key) == Matched(v1, v2, key)
    {
      hide Matched;
      Emits(out, r1, r2, key);
      out, r1 := out + [Lhs(r1[0])], r1[1..];
    }
    while r2 != []
      invariant r1 == []
      invariant out + Matched(r1, r2, key) == Matched(v1, v2, key)
    {
      hide Matched;
      Emits(out, r1, r2, key);
      out, r2 := out + [Rhs(r2[0])], r2[1..];
    }
  }

  function KeyOf<T>(m: Merge<T>, key: T -> int): int {
    if m.Both? then key(m.e1) else key(m.e)
  }

  ghost predicate HasKey<T>(s: seq<T>, k: int, key: T -> int) {
    exists x :: x in s && key(x) == k
  }

  /** What a match says about the two slices. */
  ghost predicate Matches<T>(m: Merge<T>, v1: seq<T>, v2: seq<T>, key: T -> int) {
    match m
    case Lhs(e) => e in v1 && !HasKey(v2, key(e), key)
    case Rhs(e) => e in v2 && !HasKey(v1, key(e), key)
    case Both(e1, e2) => e1 in v1 && e2 in v2 && key(e1) == key(e2)
  }

  /** The matches come in strictly increasing order of their keys. */
  ghost predicate KeysIncrease<T>(ms: seq<Merge<T>>, key: T -> int) {
    forall i, j :: 0 <= i < j < |ms| ==> KeyOf(ms[i], key) < KeyOf(ms[j], key)
  }

  lemma TailFacts<T>(v: seq<T>, key: T -> int)
    requires Increasing(v, key) && v != []
    ensures Increasing(v[1..], key)
    ensures forall x :: x in v <==> x == v[0] || x in v[1..]
    ensures forall x :: x in v[1..] ==> key(v[0]) < key(x)
  {
    assert v == [v[0]] + v[1..];
  }

  /** The keys of the matches are the keys of the slices. */
  lemma {:induction false} MatchedFrom<T>(v1: seq<T>, v2: seq<T>, key: T -> int, k: int)
    requires Increasing(v1, key) && Increasing(v2, key)
    requires (v1 != [] ==> k < key(v1[0])) && (v2 != [] ==> k < key(v2[0]))
    ensures forall m :: m in Matched(v1, v2, key) ==> k < KeyOf(m, key)
    ensures KeysIncrease(Matched(v1, v2, key), key)
    decreases |v1| + |v2|
  {
    if v1 != [] || v2 != [] {
      var ms := Matched(v1, v2, key);
      var h := KeyOf(ms[0], key);
      var w1 := if ms[0].Rhs? then v1 else v1[1..];
      var w2 := if ms[0].Lhs? then v2 else v2[1..];
      if v1 != [] { TailFacts(v1, key); }
      if v2 != [] { TailFacts(v2, key); }
      MatchedFrom(w1, w2, key, h);
      KeysCons(ms[0], Matched(w1, w2, key), key);
    }
  }

  lemma KeysCons<T>(m: Merge<T>, ms: seq<Merge<T>>, key: T -> int)
    requires KeysIncrease(ms, key) && forall x :: x in ms ==> KeyOf(m, key) < KeyOf(x, key)
    ensures KeysIncrease([m] + ms, key)
  {
    var t := [m] + ms;
    forall i, j | 0 <= i < j < |t| ensures KeyOf(t[i], key) < KeyOf(t[j], key) {
      assert t[j] == ms[j - 1];
      if i > 0 {
        assert t[i] == ms[i - 1];
      }
    }
  }

  /** Every match says the truth about the slices. */
  lemma {:induction false} MatchedMeans<T>(v1: seq<T>, v2: seq<T>, key: T -> int, m: Merge<T>)
    requires Increasing(v1, key) && Increasing(v2, key) && m in Matched(v1, v2, key)
    ensures Matches(m, v1, v2, key)
    decreases |v1| + |v2|
  {
    var ms := Matched(v1, v2, key);
    var w1 := if ms[0].Rhs? then v1 else v1[1..];
    var w2 := if ms[0].Lhs? then v2 else v2[1..];
    assert ms == [ms[0]] + Matched(w1, w2, key);
    if v1 != [] { TailFacts(v1, key); }
    if v2 != [] { TailFacts(v2, key); }
    if m != ms[0] {
      MatchedMeans(w1, w2, key, m);
      MatchesMore(m, v1, v2, w1, w2, key);
    }
  }

  lemma MatchesMore<T>(m: Merge<T>, v1: seq<T>, v2: seq<T>, w1: seq<T>, w2: seq<T>, key: T -> int)
    requires Increasing(v1, key) && Increasing(v2, key) && (v1 != [] || v2 != [])
    requires var h := Matched(v1, v2, key)[0]; w1 == (if h.Rhs? then v1 else v1[1..]) && w2 == (if h.Lhs? then v2 else v2[1..])
    requires Matches(m, w1, w2, key)
    ensures Matches(m, v1, v2, key)
  {
    HeadBelow(v1, v2, w1, w2, key);
    if v1 != [] { TailFacts(v1, key); }
    if v2 != [] { TailFacts(v2, key); }
    hide Matched, Increasing;
  }

  /** The keys after the first match are larger than its own. */
  lemma HeadBelow<T>(v1: seq<T>, v2: seq<T>, w1: seq<T>, w2: seq<T>, key: T -> int)
    requires Increasing(v1, key) && Increasing(v2, key) && (v1 != [] || v2 != [])
    requires var h := Matched(v1, v2, key)[0]; w1 == (if h.Rhs? then v1 else v1[1..]) && w2 == (if h.Lhs? then v2 else v2[1..])
    ensures var h := Matched(v1, v2, key)[0];
      && (forall x :: x in w1 || x in w2 ==> KeyOf(h, key) < key(x))
      && (!h.Rhs? ==> v1 != [] && key(v1[0]) == KeyOf(h, key)) && (!h.Lhs? ==> v2 != [] && key(v2[0]) == KeyOf(h, key))
  {
    if v1 != [] { TailFacts(v1, key); }
    if v2 != [] { TailFacts(v2, key); }
    hide Increasing;
  }

  /** Every element of the first slice is in a match, and so is every element of the second. */
  lemma {:induction false} MatchedCovers<T>(v1: seq<T>, v2: seq<T>, key: T -> int, x: T) returns (m: Merge<T>)
    requires Increasing(v1, key) && Increasing(v2, key) && (x in v1 || x in v2)
    ensures m in Matched(v1, v2, key) && KeyOf(m, key) == key(x)
    decreases |v1| + |v2|
  {
    var ms := Matched(v1, v2, key);
    var w1 := if ms[0].Rhs? then v1 else v1[1..];
    var w2 := if ms[0].Lhs? then v2 else v2[1..];
    if v1 != [] { TailFacts(v1, key); }
    if v2 != [] { TailFacts(v2, key); }
    if x in w1 || x in w2 {
      m := MatchedCovers(w1, w2, key, x);
      assert ms == [ms[0]] + Matched(w1, w2, key);
    } else {
      m := ms[0];
    }
  }

  /** Two stages can be matched up one after the other. */
  lemma {:induction false} MatchedSplit<T>(a1: seq<T>, b1: seq<T>, a2: seq<T>, b2: seq<T>, key: T -> int)
    requires Below(a1, b2, key) && Below(b1, a2, key)
    ensures Matched(a1 + a2, b1 + b2, key) == Matched(a1, b1, key) + Matched(a2, b2, key)
    decreases |a1| + |b1|
  {
    hide Below;
    if a1 == [] && b1 == [] {
      assert a1 + a2 == a2 && b1 + b2 == b2;
    } else {
      SameHead(a1, b1, a2, b2, key);
      if a1 != [] { BelowTail(a1, b2, key); }
      if b1 != [] { BelowTail(b1, a2, key); }
      var m := HeadMatch(a1, b1, key);
      hide HeadMatch;
      var x1, x2 := if m.Rhs? then a1 else a1[1..], if m.Lhs? then b1 else b1[1..];
      MatchedSplit(x1, x2, a2, b2, key);
      hide Matched;
      assert !m.Rhs? ==> (a1 + a2)[1..] == x1 + a2;
      assert !m.Lhs? ==> (b1 + b2)[1..] == x2 + b2;
      MatchedHead(a1, b1, key);
      MatchedHead(a1 + a2, b1 + b2, key);
      PrependConcat(m, Matched(x1, x2, key), Matched(a2, b2, key));
    }
  }

  lemma SameHead<T>(a1: seq<T>, b1: seq<T>, a2: seq<T>, b2: seq<T>, key: T -> int)
    requires Below(a1, b2, key) && Below(b1, a2, key) && (a1 != [] || b1 != [])
    ensures HeadMatch(a1 + a2, b1 + b2, key) == HeadMatch(a1, b1, key)
    ensures var m := HeadMatch(a1, b1, key); (!m.Rhs? ==> a1 != []) && (!m.Lhs? ==> b1 != [])
  {
    if a1 != [] { BelowTail(a1, b2, key); }
    if b1 != [] { BelowTail(b1, a2, key); }
    assert a1 == [] ==> a1 + a2 == a2;
    assert b1 == [] ==> b1 + b2 == b2;
  }

  /** What matching up the pairs one by one yields, in order. */
  function MatchedPairs<T>(r: seq<Pair<T>>, key: T -> int): seq<Merge<T>> {
    if r == [] then []
    else MatchedPairs(r[..|r| - 1], key) + Matched(r[|r| - 1].0, r[|r| - 1].1, key)
  }

  /** Matching chunk by chunk is matching the whole. */
  lemma {:induction false} ChunkedMergeEq<T>(r: seq<Pair<T>>, key: T -> int)
    requires Staged(r, key)
    ensures MatchedPairs(r, key) == Matched(Firsts(r), Seconds(r), key)
    decreases |r|
  {
    if r != [] {
      var n := |r| - 1;
      ChunkedMergeEq(r[..n], key);
      MatchedSplit(Firsts(r[..n]), Seconds(r[..n]), r[n].0, r[n].1, key);
    }
  }
}
