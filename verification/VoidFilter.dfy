/** Which input slots feed the callable: the index sequence computed from the
    input types, and the parameter list obtained by dropping the void types. */
module VoidFilter {
  import opened Graphs

  /** The parameter types of the callable. */
  function RemoveVoids(ts: seq<Ty>): seq<Ty> {
    if ts == [] then [] else (if ts[0].Void? then [] else [ts[0]]) + RemoveVoids(ts[1..])
  }

  /** The non-void positions from i on, in order. */
  function KeptFrom(ts: seq<Ty>, i: nat): seq<nat>
    requires i <= |ts|
    decreases |ts| - i
  {
    if i == |ts| then [] else (if ts[i].Void? then [] else [i]) + KeptFrom(ts, i + 1)
  }

  function Kept(ts: seq<Ty>): seq<nat> { KeptFrom(ts, 0) }

  ghost predicate Increasing(r: seq<nat>) {
    forall a, b :: 0 <= a < b < |r| ==> r[a] < r[b]
  }

  ghost predicate ExactlyNonVoid(ts: seq<Ty>, from: nat, r: seq<nat>) {
    && Increasing(r)
    && (forall p :: p in r <==> from <= p < |ts| && !ts[p].Void?)
  }

  lemma {:induction false} KeptIsExact(ts: seq<Ty>, i: nat)
    requires i <= |ts|
    ensures ExactlyNonVoid(ts, i, KeptFrom(ts, i))
    decreases |ts| - i
  {
    if i < |ts| {
      KeptIsExact(ts, i + 1);
      var rest := KeptFrom(ts, i + 1);
      assert KeptFrom(ts, i) == (if ts[i].Void? then [] else [i]) + rest;
      hide KeptFrom;
      if !ts[i].Void? { PrependSmaller(ts, i, rest); }
    }
  }

  lemma PrependSmaller(ts: seq<Ty>, i: nat, rest: seq<nat>)
    requires i < |ts| && !ts[i].Void? && ExactlyNonVoid(ts, i + 1, rest)
    ensures ExactlyNonVoid(ts, i, [i] + rest)
  {
    assert forall a :: 0 <= a < |rest| ==> rest[a] in rest;
    assert forall p :: p in [i] + rest <==> p == i || p in rest;
  }

  /** An increasing list is determined by its members. */
  lemma {:induction false} IncreasingUnique(a: seq<nat>, b: seq<nat>)
    requires Increasing(a) && Increasing(b)
    requires forall p :: p in a <==> p in b
    ensures a == b
    decreases |a|
  {
    assert b != [] ==> b[0] in b;
    if a != [] {
      assert a[0] in a && a[0] in b;
      assert b[0] in b && b[0] in a;
      assert a[0] == b[0];
      forall p ensures p in a[1..] <==> p in b[1..] {
        assert p in a[1..] <==> p in a && p != a[0];
        assert p in b[1..] <==> p in b && p != b[0];
      }
      IncreasingUnique(a[1..], b[1..]);
      assert a == [a[0]] + a[1..] && b == [b[0]] + b[1..];
    }
  }

  /** The k-th parameter type is the type at the k-th kept index, and the two
      lists have the same length. */
  lemma {:induction false} KeptAlignsWithRemoveVoids(ts: seq<Ty>, i: nat)
    requires i <= |ts|
    ensures |KeptFrom(ts, i)| == |RemoveVoids(ts[i..])|
    ensures forall k :: 0 <= k < |KeptFrom(ts, i)| ==>
      KeptFrom(ts, i)[k] < |ts| && RemoveVoids(ts[i..])[k] == ts[KeptFrom(ts, i)[k]]
    decreases |ts| - i
  {
    if i < |ts| {
      KeptAlignsWithRemoveVoids(ts, i + 1);
      assert ts[i..][0] == ts[i] && ts[i..][1..] == ts[i + 1..];
    }
  }

  /** The buffer-and-count computation of the kept indices. */
  method CreateFilteredSequence(ts: seq<Ty>) returns (indices: seq<nat>)
    requires ts != []
    ensures ExactlyNonVoid(ts, 0, indices)
    ensures |indices| == |RemoveVoids(ts)|
    ensures forall k :: 0 <= k < |indices| ==> indices[k] < |ts| && RemoveVoids(ts)[k] == ts[indices[k]]
  {
    var buffer := new nat[|ts|](_ => 0);
    var count := 0;
    for idx := 0 to |ts|
      invariant count <= idx
      invariant Kept(ts) == buffer[..count] + KeptFrom(ts, idx)
    {
      if !ts[idx].Void? {
        ghost var before := buffer[..count];
        buffer[count] := idx;
        count := count + 1;
        assert buffer[..count] == before + [idx];
      }
    }
    var total := 0;
    for idx := 0 to |ts|
      invariant |Kept(ts)| == total + |KeptFrom(ts, idx)|
    {
      if !ts[idx].Void? { total := total + 1; }
    }
    indices := buffer[..total];
    KeptIsExact(ts, 0);
    KeptAlignsWithRemoveVoids(ts, 0);
    assert ts[0..] == ts && indices == Kept(ts);
  }

  // ------------------------------------------------- values of a node's slots

  function TypesOf(slots: seq<Slot>): seq<Ty> { seq(|slots|, i requires 0 <= i < |slots| => slots[i].ty) }

  /** The slots whose values are passed to the callable of v, in order. */
  function KeptOf(g: Graph, v: Tid): seq<nat> { Kept(TypesOf(Slots(g, v))) }

  /** The arguments read through the kept indices are the order-preserving
      filter that recursive evaluation passes. */
  lemma {:induction false} KeptReadsEvalArgs(g: Graph, rank: Tid -> nat, fn: Callables, v: Tid, i: nat)
    requires Dag(g, rank) && v in g && i <= |Slots(g, v)|
    ensures var kept := KeptFrom(TypesOf(Slots(g, v)), i);
      && |kept| == |EvalArgs(g, rank, fn, v, i)|
      && forall k :: 0 <= k < |kept| ==>
        kept[k] < |Slots(g, v)| && EvalArgs(g, rank, fn, v, i)[k] == EvalSlot(g, rank, fn, v, kept[k])
    decreases |Slots(g, v)| - i
  {
    if i < |Slots(g, v)| { KeptReadsEvalArgs(g, rank, fn, v, i + 1); }
  }
}
