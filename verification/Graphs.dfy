/** Values of the model: typed slots, task graphs, and the two reference
    definitions every other module is measured against: the recursive depth of
    a node and the recursive evaluation of a task. */
module Graphs {

  datatype Option<+T> = None | Some(value: T)

  /** A node address; the traversal marker of the source stores exactly these. */
  type Tid = nat

  /** A slot or result type: void, or some data type known by a code. */
  datatype Ty = Void | Data(code: nat)

  /** A value of a data type. */
  datatype Val = Val(ty: Ty, bits: int)

  /** The value-initialised object of a type, used for a null slot. */
  function DefaultOf(ty: Ty): Val { Val(ty, 0) }

  /** One declared input: its type and the producing node, if an edge is set. */
  datatype Slot = Slot(ty: Ty, from: Option<Tid>)

  datatype NodeSpec = NodeSpec(out: Ty, slots: seq<Slot>)

  type Graph = map<Tid, NodeSpec>

  type Callables = (Tid, seq<Val>) -> Val

  function Slots(g: Graph, v: Tid): seq<Slot> { if v in g then g[v].slots else [] }

  function Src(g: Graph, v: Tid, i: nat): Option<Tid> {
    if i < |Slots(g, v)| then Slots(g, v)[i].from else None
  }

  /** u is a direct dependency of v. */
  predicate DependsOn(g: Graph, v: Tid, u: Tid) {
    exists i :: 0 <= i < |Slots(g, v)| && Src(g, v, i) == Some(u)
  }

  /** path[0] depends on path[1], which depends on path[2], and so on. */
  ghost predicate DependencyPath(g: Graph, path: seq<Tid>) {
    path != [] && forall a :: 0 <= a < |path| - 1 ==> DependsOn(g, path[a], path[a + 1])
  }

  /** v is u or depends on it, directly or through others. */
  ghost predicate Reaches(g: Graph, v: Tid, u: Tid) {
    exists path :: DependencyPath(g, path) && path[0] == v && path[|path| - 1] == u
  }

  lemma TailIsPath(g: Graph, path: seq<Tid>)
    requires DependencyPath(g, path) && |path| > 1
    ensures DependsOn(g, path[0], path[1]) && DependencyPath(g, path[1..])
  {
    hide DependsOn;
    forall a | 0 <= a < |path[1..]| - 1 ensures DependsOn(g, path[1..][a], path[1..][a + 1]) {
      assert DependsOn(g, path[a + 1], path[a + 2]);
    }
  }

  lemma ConsIsPath(g: Graph, v: Tid, path: seq<Tid>)
    requires DependencyPath(g, path) && DependsOn(g, v, path[0])
    ensures DependencyPath(g, [v] + path)
  {
    hide DependsOn;
    var longer := [v] + path;
    forall a | 0 <= a < |longer| - 1 ensures DependsOn(g, longer[a], longer[a + 1]) {
      if a > 0 { assert longer[a] == path[a - 1] && longer[a + 1] == path[a]; }
    }
  }

  lemma ReachesSelf(g: Graph, v: Tid)
    ensures Reaches(g, v, v)
  {
    assert DependencyPath(g, [v]);
  }

  lemma ReachesStep(g: Graph, v: Tid, w: Tid, u: Tid)
    requires DependsOn(g, v, w) && Reaches(g, w, u)
    ensures Reaches(g, v, u)
  {
    var path :| DependencyPath(g, path) && path[0] == w && path[|path| - 1] == u;
    ConsIsPath(g, v, path);
    assert ([v] + path)[|path|] == u;
  }

  /** A set closed under dependencies that holds v holds all that v reaches. */
  lemma {:induction false} ClosedHoldsReached(g: Graph, inside: set<Tid>, path: seq<Tid>)
    requires DependencyPath(g, path) && path[0] in inside
    requires forall x, y :: x in inside && DependsOn(g, x, y) ==> y in inside
    ensures path[|path| - 1] in inside
    decreases |path|
  {
    if |path| > 1 {
      TailIsPath(g, path);
      ClosedHoldsReached(g, inside, path[1..]);
    }
  }

  /** Every edge leads to a node of the graph and carries the slot's type. */
  ghost predicate Closed(g: Graph) {
    forall v, i :: v in g && 0 <= i < |Slots(g, v)| && Src(g, v, i).Some? ==>
      Src(g, v, i).value in g && g[Src(g, v, i).value].out == Slots(g, v)[i].ty
  }

  /** rank witnesses that the graph has no cycle. */
  ghost predicate Ranked(g: Graph, rank: Tid -> nat) {
    forall v, i :: v in g && 0 <= i < |Slots(g, v)| && Src(g, v, i).Some? ==>
      rank(Src(g, v, i).value) < rank(v)
  }

  ghost predicate Dag(g: Graph, rank: Tid -> nat) { Closed(g) && Ranked(g, rank) }

  // ---------------------------------------------------------------- tickets

  /** The tickets from lo up to hi. */
  function Tickets(lo: nat, hi: nat): (r: set<nat>)
    ensures forall x :: x in r <==> lo <= x < hi
    decreases hi - lo
  {
    if lo >= hi then {} else {lo} + Tickets(lo + 1, hi)
  }

  /** The submission index of the front of a queue that is a suffix of the
      submissions. */
  function FrontTicket(submitted: seq<Tid>, queue: seq<Tid>): nat {
    if |queue| <= |submitted| then |submitted| - |queue| else 0
  }

  // ------------------------------------------------------------------ depth

  function Max(a: int, b: int): int { if a < b then b else a }

  /** The recursive depth: 0 without declared inputs, otherwise one more than
      the largest slot, a null slot counting 0. */
  ghost function Depth(g: Graph, rank: Tid -> nat, v: Tid): nat
    requires Dag(g, rank) && v in g
    decreases rank(v), 1, 0
  {
    if Slots(g, v) == [] then 0 else 1 + MaxDepth(g, rank, v, |Slots(g, v)|)
  }

  ghost function SlotDepth(g: Graph, rank: Tid -> nat, v: Tid, i: nat): nat
    requires Dag(g, rank) && v in g && i < |Slots(g, v)|
    decreases rank(v), 0, 0
  {
    match Src(g, v, i) case None => 0 case Some(u) => Depth(g, rank, u)
  }

  ghost function MaxDepth(g: Graph, rank: Tid -> nat, v: Tid, n: nat): nat
    requires Dag(g, rank) && v in g && n <= |Slots(g, v)|
    decreases rank(v), 0, n + 1
  {
    if n == 0 then 0 else Max(MaxDepth(g, rank, v, n - 1), SlotDepth(g, rank, v, n - 1))
  }

  lemma {:induction false} MaxDepthBounds(g: Graph, rank: Tid -> nat, v: Tid, n: nat, i: nat)
    requires Dag(g, rank) && v in g && i < n <= |Slots(g, v)|
    ensures SlotDepth(g, rank, v, i) <= MaxDepth(g, rank, v, n)
  {
    if i < n - 1 { MaxDepthBounds(g, rank, v, n - 1, i); }
  }

  lemma {:induction false} MaxDepthAttained(g: Graph, rank: Tid -> nat, v: Tid, n: nat) returns (i: nat)
    requires Dag(g, rank) && v in g && 0 < n <= |Slots(g, v)|
    ensures i < n && SlotDepth(g, rank, v, i) == MaxDepth(g, rank, v, n)
  {
    if n == 1 || SlotDepth(g, rank, v, n - 1) >= MaxDepth(g, rank, v, n - 1) {
      i := n - 1;
    } else {
      i := MaxDepthAttained(g, rank, v, n - 1);
    }
  }

  /** A dependency is strictly shallower than its dependent. */
  lemma DepthDrops(g: Graph, rank: Tid -> nat, v: Tid, u: Tid)
    requires Dag(g, rank) && v in g && DependsOn(g, v, u)
    ensures u in g && Depth(g, rank, u) < Depth(g, rank, v)
  {
    var i :| 0 <= i < |Slots(g, v)| && Src(g, v, i) == Some(u);
    MaxDepthBounds(g, rank, v, |Slots(g, v)|, i);
  }

  /** There are at least as many nodes as the depth of any of them. */
  lemma {:induction false} DepthChain(g: Graph, rank: Tid -> nat, v: Tid) returns (chain: set<Tid>)
    requires Dag(g, rank) && v in g
    ensures chain <= g.Keys && |chain| == Depth(g, rank, v)
    ensures forall x :: x in chain ==> Depth(g, rank, x) <= Depth(g, rank, v)
    decreases Depth(g, rank, v)
  {
    if Depth(g, rank, v) == 0 { return {}; }
    var i := MaxDepthAttained(g, rank, v, |Slots(g, v)|);
    if Src(g, v, i).Some? {
      chain := DepthChain(g, rank, Src(g, v, i).value);
    } else {
      chain := {};
    }
    assert v !in chain;
    chain := chain + {v};
  }

  lemma DepthBound(g: Graph, rank: Tid -> nat, v: Tid)
    requires Dag(g, rank) && v in g
    ensures Depth(g, rank, v) <= |g|
  {
    var chain := DepthChain(g, rank, v);
    SubsetSize(chain, g.Keys);
  }

  lemma {:induction false} SubsetSize(a: set<Tid>, b: set<Tid>)
    requires a <= b
    ensures |a| <= |b|
    decreases a
  {
    if a != {} {
      var x :| x in a;
      SubsetSize(a - {x}, b - {x});
    }
  }

  /** The depth does not depend on the witness of acyclicity. */
  lemma {:induction false} DepthUnique(g: Graph, r1: Tid -> nat, r2: Tid -> nat, v: Tid)
    requires Dag(g, r1) && Dag(g, r2) && v in g
    ensures Depth(g, r1, v) == Depth(g, r2, v)
    decreases r1(v), 1, 0
  {
    if Slots(g, v) != [] { MaxDepthUnique(g, r1, r2, v, |Slots(g, v)|); }
  }

  lemma {:induction false} MaxDepthUnique(g: Graph, r1: Tid -> nat, r2: Tid -> nat, v: Tid, n: nat)
    requires Dag(g, r1) && Dag(g, r2) && v in g && n <= |Slots(g, v)|
    ensures MaxDepth(g, r1, v, n) == MaxDepth(g, r2, v, n)
    decreases r1(v), 0, n
  {
    if n > 0 {
      MaxDepthUnique(g, r1, r2, v, n - 1);
      if Src(g, v, n - 1).Some? { DepthUnique(g, r1, r2, Src(g, v, n - 1).value); }
    }
  }

  // ------------------------------------------------------------- evaluation

  /** Plain recursive evaluation: the callable applied to the values of the
      non-void slots in order. */
  ghost function Eval(g: Graph, rank: Tid -> nat, fn: Callables, v: Tid): Val
    requires Dag(g, rank) && v in g
    decreases rank(v), 1, 0
  {
    fn(v, EvalArgs(g, rank, fn, v, 0))
  }

  ghost function EvalSlot(g: Graph, rank: Tid -> nat, fn: Callables, v: Tid, i: nat): Val
    requires Dag(g, rank) && v in g && i < |Slots(g, v)|
    decreases rank(v), 0, 0
  {
    match Src(g, v, i)
    case None => DefaultOf(Slots(g, v)[i].ty)
    case Some(u) => Eval(g, rank, fn, u)
  }

  ghost function EvalArgs(g: Graph, rank: Tid -> nat, fn: Callables, v: Tid, i: nat): seq<Val>
    requires Dag(g, rank) && v in g && i <= |Slots(g, v)|
    decreases rank(v), 0, |Slots(g, v)| - i + 1
  {
    if i == |Slots(g, v)| then []
    else (if Slots(g, v)[i].ty.Void? then [] else [EvalSlot(g, rank, fn, v, i)])
         + EvalArgs(g, rank, fn, v, i + 1)
  }
}
