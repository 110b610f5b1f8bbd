/** The in-place partition of `src/shamelessly_stolen_from_libstd.rs`, which moves a gap instead of swapping. */
module Partition {

  /** The slices hold the same elements, each as often. */
  ghost predicate Permuted<T>(s: seq<T>, t: seq<T>) {
    multiset(s) == multiset(t)
  }

  lemma PermutedTrans<T>(s: seq<T>, t: seq<T>, u: seq<T>)
    requires Permuted(s, t) && Permuted(t, u)
    ensures Permuted(s, u)
  {
  }

  lemma PermutedRefl<T>(s: seq<T>, t: seq<T>)
    requires s == t
    ensures Permuted(s, t)
  {
  }

  /** The slice `s` with its gap, if there is one, filled by the value taken out first. */
  function Filled<T>(s: seq<T>, gap: int, taken: T): (r: seq<T>)
    ensures |r| == |s|
  {
    if 0 <= gap < |s| then s[gap := taken] else s
  }

  /** One turn of the cycle: the left element fills the gap, and the right one moves left. */
  lemma GapMoves<T>(s: seq<T>, t: seq<T>, gap: int, taken: T, left: nat, right: nat)
    requires left < right < |s| == |t|
    requires gap < 0 || right < gap < |s|
    requires forall i :: 0 <= i < |s| ==> t[i] == if i == left then s[right] else if i == gap then s[left] else s[i]
    ensures Permuted(Filled(t, right, if gap < 0 then s[left] else taken), Filled(s, gap, taken))
  {
    if gap >= 0 {
      var f := s[gap := taken];
      SwapKeeps(f, left, right);
      var g := f[left := f[right]][right := f[left]];
      SwapKeeps(g, right, gap);
      assert t[right := taken] == g[right := g[gap]][gap := g[right]];
    } else {
      SwapKeeps(s, left, right);
      assert t[right := s[left]] == s[left := s[right]][right := s[left]];
    }
  }

  lemma SwapKeeps<T>(s: seq<T>, i: nat, j: nat)
    requires i < |s| && j < |s|
    ensures Permuted(s[i := s[j]][j := s[i]], s)
  {
  }

  /** The array outside of the slice lo..hi is as it was. */
  twostate predicate OnlySlice<T>(v: array<T>, lo: nat, hi: nat)
    reads v
  {
    forall i :: 0 <= i < v.Length && !(lo <= i < hi) ==> v[i] == old(v[i])
  }

  /** The loop of the partition; `gap` is -1 until the first element has been taken out. */
  ghost predicate Cycling<T>(v: array<T>, lo: nat, hi: nat, left: int, right: int, gap: int, taken: T, p: T -> bool)
    requires hi <= v.Length
    reads v
  {
    && lo <= left <= right <= hi
    && (gap == -1 || right <= gap < hi)
    && (forall i :: lo <= i < left ==> p(v[i]))
    && (gap != -1 ==> !p(taken))
    && (forall i :: right <= i < hi && i != gap ==> !p(v[i]))
  }

  /** One turn of the cycle on the array. */
  method MoveGap<T>(v: array<T>, lo: nat, hi: nat, left: int, right: int, gap: int, taken: T, p: T -> bool)
    returns (gap': int, taken': T)
    requires hi <= v.Length && left < right
    requires Cycling(v, lo, hi, left, right + 1, gap, taken, p) && gap != right
    requires !p(v[left]) && p(v[right])
    modifies v
    ensures Cycling(v, lo, hi, left + 1, right, gap', taken', p)
    ensures OnlySlice(v, lo, hi)
    ensures gap' == right && taken' == if gap == -1 then old(v[left]) else taken
    ensures forall i :: lo <= i < hi ==>
      v[i] == if i == left then old(v[right]) else if i == gap then old(v[left]) else old(v[i])
  {
    taken' := taken;
    if gap == -1 {
      taken' := v[left];
    } else {
      v[gap] := v[left];
    }
    v[left] := v[right];
    gap' := right;
  }

  /** One turn of the cycle keeps the elements, the gap being filled. */
  method Turn<T>(v: array<T>, lo: nat, hi: nat, left: int, right: int, gap: int, taken: T, p: T -> bool)
    returns (gap': int, taken': T)
    requires hi <= v.Length && left < right
    requires Cycling(v, lo, hi, left, right + 1, gap, taken, p)
    requires !p(v[left]) && p(v[right])
    modifies v
    ensures Cycling(v, lo, hi, left + 1, right, gap', taken', p)
    ensures OnlySlice(v, lo, hi)
    ensures Permuted(Filled(v[lo..hi], gap' - lo, taken'), Filled(old(v[lo..hi]), gap - lo, taken))
  {
    hide Permuted;
    ghost var s := v[lo..hi];
    gap', taken' := MoveGap(v, lo, hi, left, right, gap, taken, p);
    GapMoves(s, v[lo..hi], gap - lo, taken, left - lo, right - lo);
  }

  /** The left pointer moves over the elements that satisfy `p`. */
  method SkipRight<T>(v: array<T>, left: nat, right: nat, p: T -> bool) returns (l: nat)
    requires left <= right <= v.Length
    ensures left <= l <= right
    ensures forall i :: left <= i < l ==> p(v[i])
    ensures l < right ==> !p(v[l])
  {
    l := left;
    while l < right && p(v[l])
      invariant left <= l <= right
      invariant forall i :: left <= i < l ==> p(v[i])
    {
      l := l + 1;
    }
  }

  /** The right pointer steps back once, then over the elements that do not satisfy `p`. */
  method SkipLeft<T>(v: array<T>, left: nat, right: nat, p: T -> bool) returns (r: int)
    requires left <= right <= v.Length
    requires left < right ==> !p(v[left])
    ensures left - 1 <= r < right
    ensures forall i :: r < i < right ==> !p(v[i])
    ensures left < r ==> p(v[r])
    ensures left >= r ==> forall i :: left <= i < right ==> !p(v[i])
  {
    r := right - 1;
    while left < r && !p(v[r])
      invariant left - 1 <= r < right
      invariant forall i :: r < i < right ==> !p(v[i])
    {
      r := r - 1;
    }
  }

  /** Moves the elements satisfying `p` to the front of v[lo..hi], and counts them. */
  method PartitionBy<T>(v: array<T>, lo: nat, hi: nat, p: T -> bool) returns (n: nat)
    requires lo <= hi <= v.Length
    modifies v
    ensures n <= hi - lo
    ensures forall i :: lo <= i < lo + n ==> p(v[i])
    ensures forall i :: lo + n <= i < hi ==> !p(v[i])
    ensures Permuted(v[lo..hi], old(v[lo..hi]))
    ensures OnlySlice(v, lo, hi)
  {
    hide Permuted;
    if lo == hi {
      PermutedRefl(v[lo..hi], old(v[lo..hi]));
      return 0;
    }
    var taken, gap: int := v[lo], -1;
    var left, right: int := lo, hi;
    ghost var was := v[lo..hi];
    PermutedRefl(Filled(was, gap - lo, taken), was);
    while true
      invariant Cycling(v, lo, hi, left, right, gap, taken, p)
      invariant Permuted(Filled(v[lo..hi], gap - lo, taken), was)
      invariant OnlySlice(v, lo, hi)
      decreases right - left
    {
      left := SkipRight(v, left, right, p);
      right := SkipLeft(v, left, right, p);
      if left >= right {
        break;
      }
      ghost var s := Filled(v[lo..hi], gap - lo, taken);
      gap, taken := Turn(v, lo, hi, left, right, gap, taken, p);
      PermutedTrans(Filled(v[lo..hi], gap - lo, taken), s, was);
      left := left + 1;
    }
    ghost var t := Filled(v[lo..hi], gap - lo, taken);
    if gap != -1 {
      v[gap] := taken;
    }
    assert v[lo..hi] == t;
    n := left - lo;
  }
}
