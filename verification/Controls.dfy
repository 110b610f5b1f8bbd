/**
 Basis states as the set of qubits that are 1, and `Control` (`src/qubit.rs`): a list of
 (qubit, value) items, strictly increasing in the qubit.
 */
module Controls {
  import opened Wrappers

  type Qubit = nat
  type Bits = set<Qubit>

  /** The basis state (or the `toggled` set) `b` with every qubit of `t` flipped. */
  function Flip(b: Bits, t: set<Qubit>): (r: Bits)
    ensures forall q :: q in r <==> (q in b) != (q in t)
  {
    (b - t) + (t - b)
  }

  datatype ControlItem = ControlItem(qubit: Qubit, value: bool) {
    function Invert(): ControlItem {
      ControlItem(qubit, !value)
    }
  }

  type Control = seq<ControlItem>

  predicate ValidControl(c: Control) {
    forall i, j :: 0 <= i < j < |c| ==> c[i].qubit < c[j].qubit
  }

  predicate Uses(c: Control, q: Qubit) {
    exists i :: 0 <= i < |c| && c[i].qubit == q
  }

  /** The control is met by the basis state. */
  predicate Holds(c: Control, b: Bits) {
    forall i :: 0 <= i < |c| ==> ((c[i].qubit in b) == c[i].value)
  }

  /** The position of `q`, as `binary_search_by` reports it: found, or where to insert. */
  method Search(c: Control, q: Qubit) returns (found: bool, at: nat)
    requires ValidControl(c)
    ensures at <= |c|
    ensures found <==> Uses(c, q)
    ensures found ==> at < |c| && c[at].qubit == q
    ensures !found ==> forall i :: 0 <= i < |c| ==> if i < at then c[i].qubit < q else q < c[i].qubit
  {
    var lo, hi := 0, |c|;
    while lo < hi
      invariant lo <= hi <= |c|
      invariant forall i :: 0 <= i < lo ==> c[i].qubit < q
      invariant forall i :: hi <= i < |c| ==> q < c[i].qubit
    {
      var mid := (lo + hi) / 2;
      if c[mid].qubit == q {
        return true, mid;
      } else if c[mid].qubit < q {
        lo := mid + 1;
      } else {
        hi := mid;
      }
    }
    return false, lo;
  }

  /** Split a control on one of its qubits: the control holds exactly if that qubit has the
      returned value and the rest holds. */
  method WithoutQubit(c: Control, q: Qubit) returns (r: Option<(bool, Control)>)
    requires ValidControl(c)
    ensures r.None? <==> !Uses(c, q)
    ensures r.Some? ==>
      && ValidControl(r.value.1) && |r.value.1| == |c| - 1
      && (forall p :: Uses(r.value.1, p) <==> Uses(c, p) && p != q)
      && (forall b: Bits :: Holds(c, b) <==> ((q in b) == r.value.0) && Holds(r.value.1, b))
  {
    var found, at := Search(c, q);
    if !found {
      return None;
    }
    var rest := c[..at] + c[at + 1..];
    RemovedMeans(c, at, rest);
    return Some((c[at].value, rest));
  }

  lemma RemovedMeans(c: Control, at: nat, rest: Control)
    requires ValidControl(c) && at < |c| && rest == c[..at] + c[at + 1..]
    ensures ValidControl(rest)
    ensures forall p :: Uses(rest, p) <==> Uses(c, p) && p != c[at].qubit
    ensures forall b: Bits :: Holds(c, b) <==> ((c[at].qubit in b) == c[at].value) && Holds(rest, b)
  {
    forall p ensures Uses(rest, p) <==> Uses(c, p) && p != c[at].qubit {
      if Uses(c, p) && p != c[at].qubit {
        var i :| 0 <= i < |c| && c[i].qubit == p;
        assert rest[if i < at then i else i - 1].qubit == p;
      }
    }
    forall b: Bits ensures Holds(c, b) <==> ((c[at].qubit in b) == c[at].value) && Holds(rest, b) {
      if Holds(rest, b) && ((c[at].qubit in b) == c[at].value) {
        forall i | 0 <= i < |c| ensures (c[i].qubit in b) == c[i].value {
          if i != at {
            assert rest[if i < at then i else i - 1] == c[i];
          }
        }
      }
    }
  }

  /** Add one item; the source panics if the qubit is already controlled. */
  method WithQubit(c: Control, q: Qubit, v: bool) returns (r: Control)
    requires ValidControl(c) && !Uses(c, q)
    ensures ValidControl(r) && |r| == |c| + 1
    ensures forall p :: Uses(r, p) <==> Uses(c, p) || p == q
    ensures forall b: Bits :: Holds(r, b) <==> ((q in b) == v) && Holds(c, b)
  {
    var found, at := Search(c, q);
    r := c[..at] + [ControlItem(q, v)] + c[at..];
    assert r[..at] + r[at + 1..] == c;
    RemovedMeans(r, at, c);
    assert Uses(r, q) by { assert r[at].qubit == q; }
  }

  /** Invert the items on the qubits of `t`: the control then reads the flipped state. */
  method ToggleIf(c: Control, t: set<Qubit>) returns (r: Control)
    requires ValidControl(c)
    ensures ValidControl(r) && |r| == |c|
    ensures forall i :: 0 <= i < |c| ==> r[i].qubit == c[i].qubit
    ensures forall p :: Uses(r, p) <==> Uses(c, p)
    ensures forall b: Bits :: Holds(r, b) <==> Holds(c, Flip(b, t))
  {
    r := c;
    for i := 0 to |c|
      invariant |r| == |c|
      invariant forall j :: 0 <= j < |c| ==> r[j] == if j < i && c[j].qubit in t then c[j].Invert() else c[j]
    {
      if r[i].qubit in t {
        r := r[i := r[i].Invert()];
      }
    }
    forall b: Bits ensures Holds(r, b) <==> Holds(c, Flip(b, t)) {
      assert forall j :: 0 <= j < |c| ==>
        ((r[j].qubit in b) == r[j].value <==> (c[j].qubit in Flip(b, t)) == c[j].value);
    }
  }
}
