/** The task objects and the depth-first search over them.  A Task is the Node,
    ITask and Task parts of one object of the source; the zero-input
    specialisation is the case of an empty list of input types. */
module Tasks {
  import opened Graphs
  import opened VoidFilter
  import opened Search
  import opened Latches
  import Machine

  /** The steady clock: every reading is later than the one before. */
  class Clock {
    var now: nat

    constructor ()
      ensures now == 0
    {
      now := 0;
    }

    method Read() returns (t: nat)
      modifies this
      ensures t == old(now) && now > t
    {
      t := now;
      now := now + 1;
    }

    /** Time goes by. */
    method Pass(ticks: nat)
      modifies this
      ensures now == old(now) + ticks
    {
      now := now + ticks;
    }
  }

  class Edge {
    const owner: Task
    const ty: Ty
    var data: Val
    var retrievable: bool

    constructor (owner: Task, ty: Ty)
      ensures this.owner == owner && this.ty == ty && data == DefaultOf(ty) && !retrievable
    {
      this.owner, this.ty, data, retrievable := owner, ty, DefaultOf(ty), false;
    }

    /** Stores the data, unless the edge is void, and then raises the flag. */
    method SetData(v: Val)
      modifies this
      ensures retrievable && data == if ty.Void? then old(data) else v
    {
      if !ty.Void? { data := v; }
      retrievable := true;
    }

    function GetData(): Val
      reads this
    {
      data
    }
  }

  /** The set of visited addresses shared by one traversal, and the order in
      which their visits ended. */
  class Marker {
    var seen: set<nat>
    ghost var ended: seq<nat>

    constructor ()
      ensures seen == {} && ended == []
    {
      seen, ended := {}, [];
    }
  }

  /** The objects of a traversal: the tasks, the task each address leads to, and
      the in-edges of each. */
  datatype Memory = Memory(nodes: set<Task>, at: map<nat, Task>, wires: map<nat, seq<Edge?>>)

  /** The in-edges are still the ones of the memory. */
  ghost predicate Wired(mem: Memory)
    reads mem.nodes`inEdges
  {
    forall a :: a in mem.at ==> a in mem.wires && mem.at[a] in mem.nodes && mem.at[a].inEdges == mem.wires[a]
  }

  /** Every task has its address, and every set in-edge belongs to a task of the
      memory and has the type of its slot and of its owner's result. */
  ghost predicate WellFormed(mem: Memory) {
    && mem.at.Keys == mem.wires.Keys
    && (forall t :: t in mem.nodes ==> t.address in mem.at && mem.at[t.address] == t)
    && (forall a :: a in mem.at ==>
          mem.at[a] in mem.nodes && mem.at[a].address == a && |mem.wires[a]| == |mem.at[a].types|)
    && (forall a, i :: a in mem.at && 0 <= i < |mem.wires[a]| && mem.wires[a][i] != null ==>
          WiredSlot(mem, mem.at[a], mem.wires[a][i], i))
  }

  ghost predicate WiredSlot(mem: Memory, t: Task, e: Edge, i: nat) {
    && e.owner.address in mem.at && mem.at[e.owner.address] == e.owner
    && i < |t.types| && t.types[i] == e.owner.out
  }

  ghost function SlotsOf(types: seq<Ty>, edges: seq<Edge?>): seq<Slot> {
    seq(if |edges| <= |types| then |edges| else |types|, i requires 0 <= i < |edges| && i < |types| =>
      Slot(types[i], if edges[i] == null then None else Some(edges[i].owner.address)))
  }

  /** The graph the objects form. */
  ghost function GraphOf(mem: Memory): Graph {
    map a | a in mem.at && a in mem.wires :: NodeSpec(mem.at[a].out, SlotsOf(mem.at[a].types, mem.wires[a]))
  }

  lemma GraphClosed(mem: Memory)
    requires WellFormed(mem)
    ensures Closed(GraphOf(mem)) && GraphOf(mem).Keys == mem.at.Keys
  {
    var g := GraphOf(mem);
    forall v, i | v in g && 0 <= i < |Slots(g, v)| && Src(g, v, i).Some?
      ensures Src(g, v, i).value in g && g[Src(g, v, i).value].out == Slots(g, v)[i].ty
    {
      assert WiredSlot(mem, mem.at[v], mem.wires[v][i], i);
    }
  }

  lemma NodeOf(mem: Memory, a: nat)
    requires WellFormed(mem) && a in mem.at
    ensures a in GraphOf(mem) && |Slots(GraphOf(mem), a)| == |mem.at[a].types|
    ensures mem.at[a] in mem.nodes && a in mem.wires && |mem.wires[a]| == |mem.at[a].types|
  {}

  lemma AddressOf(mem: Memory, b: nat)
    requires WellFormed(mem) && b in mem.at
    ensures mem.at[b] in mem.nodes && mem.at[b].address == b
  {}

  lemma InputOf(mem: Memory, a: nat, i: nat)
    requires WellFormed(mem) && a in mem.at && a in mem.wires && i < |mem.wires[a]|
    ensures i < |Slots(GraphOf(mem), a)|
    ensures mem.wires[a][i] == null ==> Src(GraphOf(mem), a, i).None?
    ensures mem.wires[a][i] != null ==> var t := mem.wires[a][i].owner;
      Src(GraphOf(mem), a, i) == Some(t.address) && t.address in mem.at && mem.at[t.address] == t && t in mem.nodes
      && t.address in GraphOf(mem)
  {
    if mem.wires[a][i] != null { assert WiredSlot(mem, mem.at[a], mem.wires[a][i], i); }
  }

  lemma WiredOne(mem: Memory, a: nat)
    requires Wired(mem) && a in mem.at
    ensures a in mem.wires && mem.at[a].inEdges == mem.wires[a]
  {}

  // ------------------------------------------------ the depth-first search

  /** The marker and the reachabilities as values. */
  ghost function Snap(mem: Memory, marker: Marker): Progress
    reads marker, mem.nodes`reachability
  {
    Progress(marker.seen, marker.ended,
             map a | a in mem.at && mem.at[a] in mem.nodes :: mem.at[a].GetReachability())
  }

  /** Nothing has been stored yet. */
  ghost predicate AllZero(mem: Memory)
    reads mem.nodes`reachability
  {
    forall a :: a in mem.at && mem.at[a] in mem.nodes ==> mem.at[a].GetReachability() == 0
  }

  method MaxElement(a: seq<int>) returns (r: int)
    requires a != []
    ensures r in a && forall j :: 0 <= j < |a| ==> a[j] <= r
  {
    r := a[0];
    for i := 1 to |a|
      invariant r in a && forall j :: 0 <= j < i ==> a[j] <= r
    {
      if r < a[i] { r := a[i]; }
    }
  }

  class Task {
    const address: nat
    const types: seq<Ty>
    const out: Ty
    const callable: seq<Val> -> Val
    var inEdges: seq<Edge?>
    var outEdge: Edge?
    var reachability: nat
    var phase: Machine.TaskState
    var result: Val
    var start: nat
    var end: nat

    constructor (address: nat, types: seq<Ty>, out: Ty, callable: seq<Val> -> Val)
      ensures this.address == address && this.types == types && this.out == out && this.callable == callable
      ensures |inEdges| == |types| && forall i :: 0 <= i < |types| ==> inEdges[i] == null
      ensures outEdge != null && fresh(outEdge) && outEdge.owner == this && outEdge.ty == out && !outEdge.retrievable
      ensures reachability == 0 && phase.Incomplete?
    {
      this.address, this.types, this.out, this.callable := address, types, out, callable;
      inEdges := seq(|types|, _ => null);
      outEdge := null;
      reachability, phase, result, start, end := 0, Machine.Incomplete, DefaultOf(out), 0, 0;
      new;
      outEdge := new Edge(this, out);
    }

    /** Stores an edge in slot idx, whatever was there before. */
    method AddInwardEdge(idx: nat, edge: Edge?)
      requires |inEdges| == |types| && idx < |types| && (edge != null ==> edge.ty == types[idx])
      modifies this`inEdges
      ensures inEdges == old(inEdges)[idx := edge]
    {
      inEdges := inEdges[idx := edge];
    }

    function GetReachability(): nat
      reads this`reachability
    {
      if |types| == 0 then 0 else reachability
    }

    /** operator<: strictly smaller reachability. */
    predicate Less(other: Task)
      reads this`reachability, other`reachability
    {
      GetReachability() < other.GetReachability()
    }

    // -------------------------------------------------------------- running

    /** The out edge is this task's own. */
    ghost predicate OwnsOutEdge()
      reads this`outEdge
    {
      outEdge != null && outEdge.owner == this && outEdge.ty == out
    }

    /** A set edge that is not published makes run wait. */
    predicate Blocked()
      reads this, inEdges
    {
      exists i :: 0 <= i < |inEdges| && inEdges[i] != null && !inEdges[i].retrievable
    }

    /** The data of the edge, or the default value of the type for a null slot. */
    function GetInwardEdgeValue(i: nat): (v: Val)
      requires i < |inEdges| && i < |types|
      reads this, inEdges
      ensures inEdges[i] == null ==> v.ty == types[i] && v.bits == 0
      ensures inEdges[i] != null ==> v == inEdges[i].data
    {
      if inEdges[i] == null then DefaultOf(types[i]) else inEdges[i].GetData()
    }

    /** The values of the slots at the given indices, in order. */
    function ArgsAt(indices: seq<nat>): seq<Val>
      requires |inEdges| == |types| && forall k :: 0 <= k < |indices| ==> indices[k] < |types|
      reads this, inEdges
    {
      seq(|indices|, k
        requires 0 <= k < |indices| && indices[k] < |inEdges| && indices[k] < |types|
        reads this, inEdges => GetInwardEdgeValue(indices[k]))
    }

    /** One call of the callable, which takes so many ticks of the clock. */
    method Invoke(args: seq<Val>, clock: Clock, ticks: nat) returns (r: Val)
      modifies clock
      ensures r == callable(args) && clock.now == old(clock.now) + ticks
    {
      r := callable(args);
      clock.Pass(ticks);
    }

    /** Reads the inputs through the indices and calls the callable. */
    method RunImpl(indices: seq<nat>, clock: Clock, ticks: nat) returns (r: Val)
      requires |inEdges| == |types| && forall k :: 0 <= k < |indices| ==> indices[k] < |types|
      modifies clock
      ensures r == callable(old(ArgsAt(indices))) && clock.now == old(clock.now) + ticks
    {
      var values: seq<Val> := [];
      for k := 0 to |indices|
        invariant |values| == k && forall j :: 0 <= j < k ==> values[j] == GetInwardEdgeValue(indices[j])
      {
        values := values + [GetInwardEdgeValue(indices[k])];
      }
      assert values == ArgsAt(indices);
      r := Invoke(values, clock, ticks);
    }

    lemma KeptInRange()
      ensures forall k :: 0 <= k < |Kept(types)| ==> Kept(types)[k] < |types|
      ensures |Kept(types)| == |RemoveVoids(types)|
    {
      KeptAlignsWithRemoveVoids(types, 0);
      assert types[0..] == types;
    }

    /** The arguments of the callable: the values of the non-void slots, in order. */
    ghost function Arguments(): seq<Val>
      requires |inEdges| == |types|
      reads this, inEdges
    {
      KeptInRange();
      ArgsAt(Kept(types))
    }

    /** If the set in-edges hold data of the types of their slots, the callable gets one
        argument of each parameter type, and a zero of it for a null slot. */
    lemma ArgumentsTyped()
      requires |inEdges| == |types|
      requires forall i :: 0 <= i < |types| && inEdges[i] != null ==> inEdges[i].data.ty == types[i]
      ensures |Arguments()| == |RemoveVoids(types)|
      ensures forall k :: 0 <= k < |Arguments()| ==>
        Arguments()[k].ty == RemoveVoids(types)[k] && k < |Kept(types)| && Kept(types)[k] < |types|
        && (inEdges[Kept(types)[k]] == null ==> Arguments()[k].bits == 0)
    {
      KeptAlignsWithRemoveVoids(types, 0);
      assert types[0..] == types;
      KeptInRange();
      forall k | 0 <= k < |Kept(types)|
        ensures Arguments()[k] == GetInwardEdgeValue(Kept(types)[k]) && Arguments()[k].ty == RemoveVoids(types)[k]
      {
        assert RemoveVoids(types)[k] == types[Kept(types)[k]];
      }
    }

    /** Calls the callable: at once without inputs, otherwise on the non-void ones. */
    method Call(clock: Clock, ticks: nat) returns (r: Val)
      requires |inEdges| == |types|
      modifies clock
      ensures r == callable(old(Arguments())) && clock.now == old(clock.now) + ticks
    {
      KeptIsExact(types, 0);
      KeptInRange();
      if |types| == 0 {
        assert Arguments() == [];
        r := Invoke([], clock, ticks);
      } else {
        var indices := CreateFilteredSequence(types);
        IncreasingUnique(indices, Kept(types));
        r := RunImpl(indices, clock, ticks);
      }
    }

    /** Task::run by a thread nobody disturbs: it stays in its waits while an input
        is unpublished, and otherwise runs to the end.  The callable takes so many
        ticks of the clock, which lie between the two stamps. */
    method Run(clock: Clock, ticks: nat) returns (ran: bool)
      requires |inEdges| == |types| && OwnsOutEdge()
      modifies this`phase, this`start, this`end, this`result, outEdge, clock
      ensures ran == !old(Blocked())
      ensures !ran ==> unchanged(this) && unchanged(outEdge) && unchanged(clock)
      ensures ran ==> phase.Complete? && old(clock.now) <= start && start + ticks < end < clock.now
      ensures ran && !out.Void? ==> result == callable(old(Arguments())) && outEdge.data == result
      ensures ran && out.Void? ==> result == old(result) && outEdge.data == old(outEdge.data)
      ensures ran ==> outEdge.retrievable
    {
      for i := 0 to |inEdges|
        invariant forall j :: 0 <= j < i && inEdges[j] != null ==> inEdges[j].retrievable
      {
        if inEdges[i] != null && !inEdges[i].retrievable { return false; }
      }
      phase := Machine.Running;
      start := clock.Read();
      assert Arguments() == old(Arguments()) by {
        KeptInRange();
        assert ArgsAt(Kept(types)) == old(ArgsAt(Kept(types)));
      }
      var r := Call(clock, ticks);
      if !out.Void? { result := r; }
      end := clock.Read();
      outEdge.SetData(r);
      phase := Machine.Complete;
      ran := true;
    }

    // ------------------------------------------------------------ reachability

    /** Visits input i of this node, unless its slot is null, and returns the
        value the input contributes. */
    method VisitInput(i: nat, marker: Marker, ghost mem: Memory, ghost rank: Tid -> nat) returns (current: nat)
      requires Wired(mem) && WellFormed(mem) && address in mem.at && mem.at[address] == this && i < |types|
      requires InputReady(GraphOf(mem), rank, Snap(mem, marker), address, i)
      modifies marker, mem.nodes`reachability
      ensures Wired(mem)
      ensures InputDone(GraphOf(mem), rank, old(Snap(mem, marker)), Snap(mem, marker), address, i, current)
      decreases mem.at.Keys - marker.seen, 1
    {
      hide WellFormed, GraphOf, Snap, VisitOk, FinalOrOnStack, Ok, Src;
      current := 0;
      NodeOf(mem, address);
      WiredOne(mem, address);
      InputOf(mem, address, i);
      if inEdges[i] != null {
        var node := inEdges[i].owner;
        node.SetReachabilityShared(marker, mem, rank);
        current := node.GetReachability();
        SnapParts(mem, marker);
      }
    }

    /** Visits the inputs in order and returns the largest of their values. */
    method VisitInputs(marker: Marker, ghost mem: Memory, ghost rank: Tid -> nat) returns (best: int)
      requires Wired(mem) && WellFormed(mem) && address in mem.at && mem.at[address] == this && |types| > 0
      requires Ok(GraphOf(mem), Snap(mem, marker))
      requires FinalOrOnStack(GraphOf(mem), rank, Snap(mem, marker), rank(address))
      modifies marker, mem.nodes`reachability
      ensures Wired(mem)
      ensures InputsDone(GraphOf(mem), rank, old(Snap(mem, marker)), Snap(mem, marker), address, best)
      decreases mem.at.Keys - marker.seen, 2
    {
      hide WellFormed, GraphOf, Snap, Wired, VisitOk, InputReady, InputDone, InputsRead, FinalOrOnStack, WithinPlace,
        MaxDepth, Dag, Ok, Depth,
        ToInt, DependsOn;
      ghost var g := GraphOf(mem);
      ghost var s0 := Snap(mem, marker);
      ghost var zeroed := Small(g) && WithinPlace(s0);
      NodeOf(mem, address);
      NothingNew(g, rank, s0, address);
      NothingRead(g, rank, s0, address, zeroed);
      SnapParts(mem, marker);
      var reaches := seq(|types|, _ => 0);
      assert reaches[..0] == [];
      for i := 0 to |types|
        invariant Wired(mem) && |reaches| == |types|
        invariant Ok(g, Snap(mem, marker)) && s0.seen <= Snap(mem, marker).seen
        invariant VisitOk(g, rank, s0, Snap(mem, marker), address)
        invariant InputsRead(g, rank, Snap(mem, marker), address, reaches[..i], zeroed)
      {
        ghost var s1 := Snap(mem, marker);
        SnapParts(mem, marker);
        BeforeInput(g, rank, s0, s1, address, i);
        var current := VisitInput(i, marker, mem, rank);
        InputTurn(g, rank, s0, s1, Snap(mem, marker), address, reaches[..i], current, zeroed);
        assert reaches[i := ToInt(current)][..i + 1] == reaches[..i] + [ToInt(current)];
        reaches := reaches[i := ToInt(current)];
      }
      best := MaxElement(reaches);
      assert reaches[..|types|] == reaches;
      SnapParts(mem, marker);
      InputsReadAll(g, rank, Snap(mem, marker), address, reaches, best, zeroed);
    }

    /** Stores one more than the largest input, unless there is none, which ends the
        visit to this node. */
    method StoreReachability(best: int, marker: Marker, ghost mem: Memory)
      requires Wired(mem) && WellFormed(mem) && address in mem.at && mem.at[address] == this
      modifies marker`ended, this`reachability
      ensures Wired(mem) && marker.ended == old(marker.ended) + [address]
      ensures GetReachability() == if |types| == 0 then 0 else OneMore(best)
      ensures |types| == 0 ==> reachability == old(reachability)
      ensures Snap(mem, marker) == Stored(old(Snap(mem, marker)), address, GetReachability())
    {
      hide WellFormed, GraphOf, Snap, Stored, OneMore;
      ghost var s2 := Snap(mem, marker);
      SnapParts(mem, marker);
      if |types| > 0 { reachability := OneMore(best); }
      marker.ended := marker.ended + [address];
      forall b | b in mem.at && b != address ensures mem.at[b].GetReachability() == s2.reach[b] {
        AddressOf(mem, b);
      }
      SnapStored(mem, marker, s2, address);
    }

    /** Visits this node unless the marker holds it already. */
    method SetReachabilityShared(marker: Marker, ghost mem: Memory, ghost rank: Tid -> nat)
      requires Wired(mem) && WellFormed(mem) && address in mem.at && mem.at[address] == this
      requires Ok(GraphOf(mem), Snap(mem, marker))
      requires FinalOrOnStack(GraphOf(mem), rank, Snap(mem, marker), rank(address) + 1)
      modifies marker, mem.nodes`reachability
      ensures Wired(mem)
      ensures VisitOk(GraphOf(mem), rank, old(Snap(mem, marker)), Snap(mem, marker), address)
      ensures address in marker.seen
      decreases mem.at.Keys - marker.seen, 0
    {
      hide WellFormed, GraphOf, Snap, Wired, VisitOk, InputsDone, FinalOrOnStack, Dag, Ok, Depth, DependsOn, Stored,
        OneMore, WithinPlace;
      ghost var g := GraphOf(mem);
      ghost var s0 := Snap(mem, marker);
      NodeOf(mem, address);
      SnapParts(mem, marker);
      NothingNew(g, rank, s0, address);
      if address in marker.seen { return; }
      marker.seen := marker.seen + {address};
      ghost var s1 := s0.(seen := s0.seen + {address});
      SnapIs(mem, marker, s1);
      RootMarked(g, rank, s0, address);
      var best := 0;
      if |types| > 0 { best := VisitInputs(marker, mem, rank); }
      ghost var s2 := Snap(mem, marker);
      SnapParts(mem, marker);
      StoreReachability(best, marker, mem);
      RootTurn(g, rank, s0, s2, address, best, GetReachability());
      assert |types| > 0 && Small(g) && (Dag(g, rank) || WithinPlace(s0)) ==> best + 1 < 0x8000_0000;
    }

    /** Visits this node with a marker of its own, which never holds the node
        itself unless a cycle leads back to it; then the node is expanded twice, and
        may get one more than the number of nodes. */
    method SetReachability(ghost mem: Memory, ghost rank: Tid -> nat)
      requires Wired(mem) && WellFormed(mem) && address in mem.at && mem.at[address] == this
      modifies mem.nodes`reachability
      ensures forall a :: a in mem.at && !Reaches(GraphOf(mem), address, a) ==>
        mem.at[a] in mem.nodes && mem.at[a].GetReachability() == old(mem.at[a].GetReachability())
      ensures Dag(GraphOf(mem), rank) && Small(GraphOf(mem)) ==>
        forall a :: a in mem.at && Reaches(GraphOf(mem), address, a) ==>
          a in GraphOf(mem) && mem.at[a] in mem.nodes && mem.at[a].GetReachability() == Depth(GraphOf(mem), rank, a)
      ensures |GraphOf(mem)| < 0x7fff_ffff && old(AllZero(mem)) ==>
        forall a :: a in mem.at ==> mem.at[a] in mem.nodes && mem.at[a].GetReachability() <= |GraphOf(mem)| + 1
    {
      hide WellFormed, GraphOf, Snap, Wired, VisitOk, InputsDone, Dag, Ok, Depth, DependsOn, OneMore, Reaches,
        WithinPlace, AllZero;
      ghost var g := GraphOf(mem);
      GraphClosed(mem);
      NodeOf(mem, address);
      if |types| == 0 {
        LoneNode(g, rank, address);
        ZeroAll(mem);
        forall a | a in mem.at ensures mem.at[a] in mem.nodes { AddressOf(mem, a); }
        return;
      }
      var marker := new Marker();
      ghost var s0 := Snap(mem, marker);
      SnapParts(mem, marker);
      FreshMarker(g, rank, s0, rank(address));
      ZeroSnap(mem, marker);
      var best := VisitInputs(marker, mem, rank);
      ghost var s2 := Snap(mem, marker);
      SnapParts(mem, marker);
      UnmarkedVisited(g, rank, s0, s2, address, best);
      reachability := OneMore(best);
      ReachesSelf(g, address);
      forall a | a in mem.at
        ensures mem.at[a] in mem.nodes
        ensures mem.at[a].GetReachability() == if a == address then OneMore(best) else s2.reach[a]
      {
        AddressOf(mem, a);
      }
    }
  }

  // --------------------------------------------------- what a run starts from

  /** Every task owns its out edge, and every set in-edge is the out edge of its
      owner, the one that the run of the owner publishes. */
  ghost predicate OwnEdges(mem: Memory)
    reads mem.nodes`outEdge
  {
    && (forall a :: a in mem.at && mem.at[a] in mem.nodes ==> mem.at[a].OwnsOutEdge())
    && (forall a, i :: a in mem.wires && 0 <= i < |mem.wires[a]| && mem.wires[a][i] != null ==>
          mem.wires[a][i].owner in mem.nodes && mem.wires[a][i].owner.outEdge == mem.wires[a][i])
  }

  /** No task has run: nothing is published, every task is Incomplete, and fn says
      what the callables compute. */
  ghost predicate BeforeRun(mem: Memory, fn: Callables)
    reads mem.nodes`outEdge, mem.nodes`phase
    reads (set t | t in mem.nodes :: t.outEdge)`retrievable
  {
    && OwnEdges(mem)
    && (forall a :: a in mem.at && mem.at[a] in mem.nodes ==>
          mem.at[a].phase.Incomplete? && mem.at[a].outEdge != null && !mem.at[a].outEdge.retrievable)
    && (forall a, args :: a in mem.at ==> fn(a, args) == mem.at[a].callable(args))
  }

  /** The flags and the phases of the objects are those of a state of the step
      system. */
  ghost predicate Shows(mem: Memory, st: Machine.Store)
    reads mem.nodes`outEdge, mem.nodes`phase
    reads (set t | t in mem.nodes :: t.outEdge)`retrievable
  {
    forall a :: a in mem.at && mem.at[a] in mem.nodes ==>
      && Machine.PhaseOf(st, a) == mem.at[a].phase
      && (mem.at[a].outEdge != null ==> (mem.at[a].outEdge.retrievable <==> a in st.flag))
  }

  /** Then a task object would wait exactly if its worker would. */
  lemma BlockedAgrees(c: Machine.Config, mem: Memory, st: Machine.Store, a: nat)
    requires WellFormed(mem) && Wired(mem) && OwnEdges(mem) && Shows(mem, st) && c.g == GraphOf(mem) && a in mem.at
    ensures mem.at[a].Blocked() <==> !FlagsUpTo(c, st.flag, a, |Slots(c.g, a)|)
  {
    NodeOf(mem, a);
    WiredOne(mem, a);
    forall i | 0 <= i < |mem.wires[a]|
      ensures Src(c.g, a, i).Some? == (mem.wires[a][i] != null)
      ensures mem.wires[a][i] != null ==> (Src(c.g, a, i).value in st.flag <==> mem.wires[a][i].retrievable)
    {
      InputOf(mem, a, i);
    }
  }

  /** The non-void in-edges of t hold what recursive evaluation gives their owners. */
  ghost predicate InputsEvaluated(mem: Memory, rank: Tid -> nat, fn: Callables, t: Task)
    requires Dag(GraphOf(mem), rank) && |t.inEdges| == |t.types|
    reads t, t.inEdges
  {
    forall i :: 0 <= i < |t.inEdges| && t.inEdges[i] != null && !t.types[i].Void? ==>
      t.inEdges[i].owner.address in GraphOf(mem)
      && t.inEdges[i].data == Eval(GraphOf(mem), rank, fn, t.inEdges[i].owner.address)
  }

  /** What a task then reads is what recursive evaluation passes to its callable,
      so that running it yields its recursive value. */
  lemma ReadingEvaluates(mem: Memory, rank: Tid -> nat, fn: Callables, t: Task)
    requires WellFormed(mem) && Wired(mem) && Dag(GraphOf(mem), rank) && t.address in mem.at && mem.at[t.address] == t
    requires |t.inEdges| == |t.types| && InputsEvaluated(mem, rank, fn, t)
    requires t.callable(t.Arguments()) == fn(t.address, t.Arguments())
    ensures t.address in GraphOf(mem) && t.callable(t.Arguments()) == Eval(GraphOf(mem), rank, fn, t.address)
  {
    var g := GraphOf(mem);
    NodeOf(mem, t.address);
    assert TypesOf(Slots(g, t.address)) == t.types;
    KeptReadsEvalArgs(g, rank, fn, t.address, 0);
    KeptIsExact(t.types, 0);
    t.KeptInRange();
    forall k | 0 <= k < |Kept(t.types)| ensures t.Arguments()[k] == EvalArgs(g, rank, fn, t.address, 0)[k] {
      assert Kept(t.types)[k] in Kept(t.types);
      InputOf(mem, t.address, Kept(t.types)[k]);
    }
    assert t.Arguments() == EvalArgs(g, rank, fn, t.address, 0);
  }

  ghost function RootsOf(tasks: seq<Task?>): set<nat> {
    set i | 0 <= i < |tasks| && tasks[i] != null :: tasks[i].address
  }

  ghost predicate TasksOf(mem: Memory, tasks: seq<Task?>) {
    forall i :: 0 <= i < |tasks| && tasks[i] != null ==>
      tasks[i].address in mem.at && mem.at[tasks[i].address] == tasks[i]
  }

  /** Visits every task of the list with the same marker. */
  method VisitAll(tasks: seq<Task?>, marker: Marker, ghost mem: Memory, ghost rank: Tid -> nat)
    requires Wired(mem) && WellFormed(mem) && TasksOf(mem, tasks)
    requires Swept(GraphOf(mem), rank, Snap(mem, marker), Snap(mem, marker), {})
    modifies marker, mem.nodes`reachability
    ensures Swept(GraphOf(mem), rank, old(Snap(mem, marker)), Snap(mem, marker), RootsOf(tasks))
  {
    hide WellFormed, GraphOf, Snap, Wired, VisitOk, Swept, Dag, Ok, FinalOrOnStack;
    ghost var g := GraphOf(mem);
    ghost var s0 := Snap(mem, marker);
    assert RootsOf(tasks[..0]) == {};
    for i := 0 to |tasks|
      invariant Wired(mem)
      invariant Swept(g, rank, s0, Snap(mem, marker), RootsOf(tasks[..i]))
    {
      ghost var s1 := Snap(mem, marker);
      RootsMore(tasks, i);
      if tasks[i] != null {
        SweepReady(g, rank, s0, s1, RootsOf(tasks[..i]), rank(tasks[i].address) + 1);
        tasks[i].SetReachabilityShared(marker, mem, rank);
        SnapParts(mem, marker);
        SweepTurn(g, rank, s0, s1, Snap(mem, marker), RootsOf(tasks[..i]), tasks[i].address);
      }
    }
    assert tasks[..|tasks|] == tasks;
  }

  /** Visits every task of the list, null entries aside, with one marker for all;
      order lists the visited nodes as their visits end.  Exactly the nodes the
      tasks depend on are visited, each once, and no other is changed.  On an
      acyclic graph each visited node gets its depth, whatever was stored before;
      on any graph, if nothing was stored before, it gets at most its place. */
  method ComputeReachability(tasks: seq<Task?>, ghost mem: Memory, ghost rank: Tid -> nat)
    returns (ghost order: seq<nat>)
    requires Wired(mem) && WellFormed(mem) && TasksOf(mem, tasks)
    modifies mem.nodes`reachability
    ensures forall a, b :: 0 <= a < b < |order| ==> order[a] != order[b]
    ensures forall a :: a in order <==> ReachedFrom(GraphOf(mem), RootsOf(tasks), a)
    ensures forall a :: a in mem.at ==> mem.at[a] in mem.nodes && a in GraphOf(mem)
    ensures forall a :: a in order ==> a in mem.at
    ensures forall a :: a in mem.at && a !in order ==> mem.at[a].GetReachability() == old(mem.at[a].GetReachability())
    ensures Dag(GraphOf(mem), rank) && Small(GraphOf(mem)) ==>
      forall a :: a in order ==> mem.at[a].GetReachability() == Depth(GraphOf(mem), rank, a)
    ensures Small(GraphOf(mem)) && old(AllZero(mem)) ==>
      forall n :: 0 <= n < |order| ==> Placed(mem.at[order[n]].GetReachability(), n, |GraphOf(mem)|)
  {
    hide WellFormed, GraphOf, Snap, Wired, Swept, Dag, Ok, Depth, ReachedFrom, FinalOrOnStack, TasksOf, RootsOf,
      Closed, Slots, Src, WithinPlace, AllZero;
    ghost var g := GraphOf(mem);
    GraphClosed(mem);
    forall a | a in mem.at ensures mem.at[a] in mem.nodes { AddressOf(mem, a); }
    var marker := new Marker();
    ghost var s0 := Snap(mem, marker);
    SnapParts(mem, marker);
    FreshMarker(g, rank, s0, 0);
    ZeroSnap(mem, marker);
    SweepBegins(g, rank, s0);
    VisitAll(tasks, marker, mem, rank);
    order := marker.ended;
    SnapParts(mem, marker);
    SweepEnds(g, rank, s0, Snap(mem, marker), RootsOf(tasks));
  }

  lemma RootsMore(tasks: seq<Task?>, i: nat)
    requires i < |tasks|
    ensures RootsOf(tasks[..i + 1]) ==
      if tasks[i] == null then RootsOf(tasks[..i]) else RootsOf(tasks[..i]) + {tasks[i].address}
  {
    var more := tasks[..i + 1];
    forall x ensures x in RootsOf(more) <==> x in RootsOf(tasks[..i]) || (tasks[i] != null && x == tasks[i].address) {
      if x in RootsOf(tasks[..i]) {
        var j :| 0 <= j < i && tasks[j] != null && tasks[..i][j].address == x;
        assert more[j] == tasks[j];
      }
      if tasks[i] != null && x == tasks[i].address { assert more[i] == tasks[i]; }
    }
  }

  /** The parts of a snapshot. */
  lemma SnapParts(mem: Memory, marker: Marker)
    requires WellFormed(mem)
    ensures var s := Snap(mem, marker);
      s.seen == marker.seen && s.ended == marker.ended && s.reach.Keys == mem.at.Keys
      && forall b :: b in mem.at ==> s.reach[b] == mem.at[b].GetReachability()
  {}

  lemma ZeroAll(mem: Memory)
    requires WellFormed(mem)
    ensures AllZero(mem) ==> forall a :: a in mem.at ==> mem.at[a] in mem.nodes && mem.at[a].GetReachability() == 0
  {}

  lemma ZeroSnap(mem: Memory, marker: Marker)
    requires marker.ended == []
    ensures var s := Snap(mem, marker);
      AllZero(mem) ==> WithinPlace(s) && forall a :: a in s.reach ==> s.reach[a] == 0
  {}

  lemma SnapIs(mem: Memory, marker: Marker, s: Progress)
    requires WellFormed(mem) && s.seen == marker.seen && s.ended == marker.ended && s.reach.Keys == mem.at.Keys
    requires forall b :: b in mem.at ==> s.reach[b] == mem.at[b].GetReachability()
    ensures Snap(mem, marker) == s
  {}

  lemma SnapStored(mem: Memory, marker: Marker, s: Progress, a: nat)
    requires WellFormed(mem) && a in mem.at && s.reach.Keys == mem.at.Keys
    requires marker.seen == s.seen && marker.ended == s.ended + [a]
    requires forall b :: b in mem.at && b != a ==> mem.at[b].GetReachability() == s.reach[b]
    ensures Snap(mem, marker) == Stored(s, a, mem.at[a].GetReachability())
  {}
}
