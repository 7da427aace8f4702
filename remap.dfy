/** The RX lane remapper: the PHY list, indexed in physical order, is rearranged into the
    logical order listed by the RX order map. */
module Remap {
  import opened Faults

  /** A list subscript with Python's list-subscript rules: an entry in [0, len) selects that
      position, an entry in [-len, 0) counts from the end, anything else raises. */
  function PyIndex(entry: int, len: nat): (r: Option<nat>)
    ensures r.Some? <==> -(len as int) <= entry < len
    ensures r.Some? ==> r.value < len
    ensures r.Some? && entry >= 0 ==> r.value == entry
    ensures r.Some? && entry < 0 ==> r.value == entry + len
  {
    if 0 <= entry < len then Some(entry)
    else if -(len as int) <= entry < 0 then Some(entry + len)
    else None
  }

  /** [phys[n] for n in order], evaluated left to right: the first entry that cannot be
      subscripted raises IndexError. */
  function Reorder<T>(phys: seq<T>, order: seq<int>): (r: Result<seq<T>>)
    ensures r.Ok? <==> forall i :: 0 <= i < |order| ==> -|phys| <= order[i] < |phys|
    ensures r.Ok? ==> |r.value| == |order|
    ensures r.Ok? ==> forall i :: 0 <= i < |order| ==>
              PyIndex(order[i], |phys|).Some? && r.value[i] == phys[PyIndex(order[i], |phys|).value]
    ensures r.Err? ==> r.fault.IndexError? && r.fault.entry in order
                       && !(-|phys| <= r.fault.entry < |phys|)
    decreases |order|
  {
    if |order| == 0 then Ok([])
    else
      match PyIndex(order[0], |phys|)
      case None => Err(IndexError(order[0]))
      case Some(j) =>
        match Reorder(phys, order[1..])
        case Err(f) => Err(f)
        case Ok(rest) =>
          assert forall i :: 1 <= i < |order| ==> order[i] == order[1..][i - 1];
          Ok([phys[j]] + rest)
  }

  /** An order map of length n holding each of 0..n-1 once. */
  predicate IsPermutation(order: seq<int>, n: nat)
  {
    && |order| == n
    && (forall i :: 0 <= i < n ==> 0 <= order[i] < n)
    && (forall i, j :: 0 <= i < j < n ==> order[i] != order[j])
  }

  /** The elements of phys at the listed (non-negative, in-range) positions. */
  function Gather<T>(phys: seq<T>, idx: seq<int>): (r: seq<T>)
    requires forall i :: 0 <= i < |idx| ==> 0 <= idx[i] < |phys|
    ensures |r| == |idx|
  {
    seq(|idx|, i requires 0 <= i < |idx| => phys[idx[i]])
  }

  /** The lanes 0..n-1 in identity order. */
  function Identity(n: nat): (r: seq<int>)
    ensures |r| == n && forall i :: 0 <= i < n ==> r[i] == i
  {
    seq(n, i requires 0 <= i < n => i)
  }

  /** With non-negative entries below the lane count, element i is phys[order[i]]. */
  lemma ReorderInRange<T>(phys: seq<T>, order: seq<int>)
    requires forall i :: 0 <= i < |order| ==> 0 <= order[i] < |phys|
    ensures Reorder(phys, order) == Ok(Gather(phys, order))
  {
    var r := Reorder(phys, order);
    assert r.Ok?;
    forall i | 0 <= i < |order|
      ensures r.value[i] == Gather(phys, order)[i]
    {
      assert PyIndex(order[i], |phys|).value == order[i];
    }
    assert r.value == Gather(phys, order);
  }

  /** Gathering along a permutation rearranges without adding or losing anything. */
  lemma {:induction false} GatherPermutes<T>(phys: seq<T>, order: seq<int>)
    requires IsPermutation(order, |phys|)
    ensures multiset(Gather(phys, order)) == multiset(phys)
    decreases |phys|
  {
    var n := |phys|;
    if n > 0 {
      // Take out the physical lane that the last logical position selects, and
      // renumber the remaining entries to close the gap it leaves.
      var m := order[n - 1];
      var rest := phys[..m] + phys[m + 1..];
      assert forall i :: 0 <= i < n - 1 ==> order[i] != m;
      var order' := seq(n - 1, i requires 0 <= i < n - 1 =>
                          if order[i] < m then order[i] else order[i] - 1);
      assert IsPermutation(order', n - 1);
      GatherPermutes(rest, order');
      assert Gather(rest, order') == Gather(phys, order[..n - 1]);
      assert Gather(phys, order) == Gather(phys, order[..n - 1]) + [phys[m]];
      assert phys == phys[..m] + [phys[m]] + phys[m + 1..];
    }
  }

  /** Every lane 0..n-1 appears in a permutation order map. */
  lemma PermutationCoversEveryLane(order: seq<int>, n: nat)
    requires IsPermutation(order, n)
    ensures forall j :: 0 <= j < n ==> j in order
  {
    GatherPermutes(Identity(n), order);
    assert Gather(Identity(n), order) == order;
    forall j | 0 <= j < n
      ensures j in order
    {
      assert Identity(n)[j] == j;
      assert j in multiset(Identity(n));
    }
  }

  /** Along a permutation the reordered list holds the same lanes, each physical lane is
      present, and distinct lanes stay distinct: every lane appears exactly once. */
  lemma ReorderPermutes<T>(phys: seq<T>, order: seq<int>)
    requires IsPermutation(order, |phys|)
    ensures Reorder(phys, order).Ok?
    ensures multiset(Reorder(phys, order).value) == multiset(phys)
    ensures forall j :: 0 <= j < |phys| ==> phys[j] in Reorder(phys, order).value
    ensures (forall i, j :: 0 <= i < j < |phys| ==> phys[i] != phys[j]) ==>
            (forall i, j :: 0 <= i < j < |phys| ==>
               Reorder(phys, order).value[i] != Reorder(phys, order).value[j])
  {
    ReorderInRange(phys, order);
    GatherPermutes(phys, order);
    var r := Gather(phys, order);
    forall j | 0 <= j < |phys|
      ensures phys[j] in r
    {
      assert phys[j] in multiset(phys);
    }
  }

  /** Position of x in s, or |s| when absent. */
  function IndexOf(s: seq<int>, x: int): (k: nat)
    ensures k <= |s|
    ensures k < |s| ==> s[k] == x
    ensures x in s ==> k < |s|
    ensures forall j :: 0 <= j < k ==> s[j] != x
    decreases |s|
  {
    if |s| == 0 then 0
    else if s[0] == x then 0
    else 1 + IndexOf(s[1..], x)
  }

  /** The inverse order map: logical position of each physical lane. */
  function Inverse(order: seq<int>): (inv: seq<int>)
    ensures |inv| == |order|
  {
    seq(|order|, j requires 0 <= j < |order| => IndexOf(order, j) as int)
  }

  /** The inverse of a permutation is a permutation, and undoes it on both sides. */
  lemma InverseIsPermutation(order: seq<int>, n: nat)
    requires IsPermutation(order, n)
    ensures IsPermutation(Inverse(order), n)
    ensures forall i :: 0 <= i < n ==> Inverse(order)[order[i]] == i
    ensures forall j :: 0 <= j < n ==> order[Inverse(order)[j]] == j
  {
    PermutationCoversEveryLane(order, n);
    var inv := Inverse(order);
    forall i | 0 <= i < n
      ensures inv[order[i]] == i
    {
      var k := IndexOf(order, order[i]);
      assert order[i] in order;
      assert order[k] == order[i];
    }
  }

  /** Reordering and then applying the inverse map gives back the physical order. */
  lemma ReorderRoundTrip<T>(phys: seq<T>, order: seq<int>)
    requires IsPermutation(order, |phys|)
    ensures Reorder(phys, order).Ok?
    ensures Reorder(Reorder(phys, order).value, Inverse(order)) == Ok(phys)
  {
    var n := |phys|;
    InverseIsPermutation(order, n);
    ReorderInRange(phys, order);
    var inv := Inverse(order);
    var r := Gather(phys, order);
    ReorderInRange(r, inv);
    forall j | 0 <= j < n
      ensures Gather(r, inv)[j] == phys[j]
    {
      assert r[inv[j]] == phys[order[inv[j]]];
    }
    assert Gather(r, inv) == phys;
  }

  /** Applying the inverse first and the order map second is the identity too. */
  lemma InverseRoundTrip<T>(phys: seq<T>, order: seq<int>)
    requires IsPermutation(order, |phys|)
    ensures Reorder(phys, Inverse(order)).Ok?
    ensures Reorder(Reorder(phys, Inverse(order)).value, order) == Ok(phys)
  {
    var n := |phys|;
    InverseIsPermutation(order, n);
    ReorderInRange(phys, Inverse(order));
    var inv := Inverse(order);
    var r := Gather(phys, inv);
    ReorderInRange(r, order);
    forall i | 0 <= i < n
      ensures Gather(r, order)[i] == phys[i]
    {
      assert r[order[i]] == phys[inv[order[i]]];
    }
    assert Gather(r, order) == phys;
  }

  /** Reordering the identity-ordered lanes yields the order map itself, and the inverse
      map brings it back to identity order. */
  lemma IdentityRoundTrip(order: seq<int>, n: nat)
    requires IsPermutation(order, n)
    ensures Reorder(Identity(n), order) == Ok(order)
    ensures Reorder(order, Inverse(order)) == Ok(Identity(n))
  {
    ReorderInRange(Identity(n), order);
    assert Gather(Identity(n), order) == order;
    ReorderRoundTrip(Identity(n), order);
  }
}
