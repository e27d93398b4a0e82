/** Type soundness: what is stored and what a callable is called with has the declared
    types, in every state of every run, and a null slot contributes a zero. */
module Typing {
  import opened Graphs
  import opened VoidFilter
  import opened Machine
  import opened Locks

  /** The parameter types of the callable of t. */
  function ParamsOf(g: Graph, t: Tid): seq<Ty> { RemoveVoids(TypesOf(Slots(g, t))) }

  predicate Fits(args: seq<Val>, params: seq<Ty>) {
    |args| == |params| && forall k :: 0 <= k < |args| ==> args[k].ty == params[k]
  }

  /** A callable given arguments of its parameter types returns its result type. */
  ghost predicate CallablesTyped(g: Graph, fn: Callables) {
    forall t, args :: t in g && Fits(args, ParamsOf(g, t)) ==> fn(t, args).ty == g[t].out
  }

  /** The arguments read so far: of the parameter types, zeros at null slots. */
  ghost predicate ArgsTyped(g: Graph, t: Tid, args: seq<Val>) {
    && |args| <= |KeptOf(g, t)| == |ParamsOf(g, t)|
    && forall k :: 0 <= k < |args| ==>
      args[k].ty == ParamsOf(g, t)[k] && (Src(g, t, KeptOf(g, t)[k]).None? ==> args[k].bits == 0)
  }

  ghost predicate StoreTyped(g: Graph, st: Store) {
    && (forall t :: t in st.data ==> t in g && !g[t].out.Void? && st.data[t].ty == g[t].out)
    && (forall t :: t in st.result && t in g ==> st.result[t].ty == g[t].out)
  }

  ghost predicate ThreadTyped(g: Graph, p: Pc) { p.Work? && p.k.Read? ==> ArgsTyped(g, p.t, p.k.args) }

  ghost predicate TypeInv(c: Config, s: State) {
    && StoreTyped(c.g, s.store)
    && forall j :: 0 <= j < |s.threads| ==> ThreadTyped(c.g, s.threads[j])
  }

  /** The k-th parameter type is the type of the k-th kept slot. */
  lemma ParamIsSlot(g: Graph, t: Tid)
    ensures |KeptOf(g, t)| == |ParamsOf(g, t)|
    ensures forall k :: 0 <= k < |KeptOf(g, t)| ==>
      KeptOf(g, t)[k] < |Slots(g, t)| && ParamsOf(g, t)[k] == Slots(g, t)[KeptOf(g, t)[k]].ty
  {
    var ts := TypesOf(Slots(g, t));
    KeptAlignsWithRemoveVoids(ts, 0);
    assert ts[0..] == ts;
  }

  /** A getter call returns a value of the type of its slot. */
  lemma SlotTyped(c: Config, st: Store, t: Tid, i: nat)
    requires Closed(c.g) && StoreTyped(c.g, st) && i < |Slots(c.g, t)|
    ensures SlotValue(c, st, t, i).ty == Slots(c.g, t)[i].ty
    ensures Src(c.g, t, i).None? ==> SlotValue(c, st, t, i).bits == 0
  {
    assert t in c.g;
    if Src(c.g, t, i).Some? { assert Src(c.g, t, i).value in c.g; }
  }

  lemma ReadTyped(c: Config, st: Store, t: Tid, args: seq<Val>)
    requires Closed(c.g) && StoreTyped(c.g, st) && ArgsTyped(c.g, t, args) && |args| < |KeptOf(c.g, t)|
    ensures ArgsTyped(c.g, t, args + [SlotValue(c, st, t, KeptOf(c.g, t)[|args|])])
  {
    hide Closed, StoreTyped, SlotValue, KeptOf, ParamsOf, Slots, Src;
    ParamIsSlot(c.g, t);
    SlotTyped(c, st, t, KeptOf(c.g, t)[|args|]);
  }

  lemma NoneRead(g: Graph, t: Tid)
    ensures ArgsTyped(g, t, [])
  {
    ParamIsSlot(g, t);
  }

  lemma WorkTyped(c: Config, s: State, x: nat, t: Tid, k: WorkAt)
    requires Closed(c.g) && CallablesTyped(c.g, c.fn) && StoreTyped(c.g, s.store) && ThreadTyped(c.g, Work(x, t, k))
    ensures StoreTyped(c.g, StoreWork(c, s.store, t, k)) && ThreadTyped(c.g, AfterWork(c, s, x, t, k))
  {
    hide KeptOf, ParamsOf, SlotValue, Closed, ArgsTyped;
    if k.StampStart? { NoneRead(c.g, t); }
    if k.Read? {
      if |k.args| < |KeptOf(c.g, t)| { ReadTyped(c, s.store, t, k.args); } else { AllRead(c.g, t, k.args); }
    }
  }

  lemma AllRead(g: Graph, t: Tid, args: seq<Val>)
    requires ArgsTyped(g, t, args) && |args| >= |KeptOf(g, t)|
    ensures Fits(args, ParamsOf(g, t))
  {}

  lemma OthersTyped(c: Config, s: State, p: Pc)
    requires StoreTyped(c.g, s.store) && !p.Work?
    ensures StoreTyped(c.g, StoreAfter(c, s, p)) && ThreadTyped(c.g, Next(c, s, p))
  {
    hide StoreWork, ArgsTyped;
    assert !(Next(c, s, p).Work? && Next(c, s, p).k.Read?);
  }

  lemma WorkMoves(c: Config, s: State, p: Pc)
    requires p.Work?
    ensures Next(c, s, p) == AfterWork(c, s, p.x, p.t, p.k) && StoreAfter(c, s, p) == StoreWork(c, s.store, p.t, p.k)
  {
    hide AfterWork, StoreWork;
  }

  lemma WakeTyped(c: Config, p: Pc)
    requires SleepsOn(c, p).Some?
    ensures ThreadTyped(c.g, WakeUp(p))
  {}

  lemma TypeStep(c: Config, s: State, l: Label)
    requires Closed(c.g) && CallablesTyped(c.g, c.fn) && TypeInv(c, s) && Enabled(c, s, l)
    ensures TypeInv(c, Apply(c, s, l))
  {
    hide Apply, Enabled, Next, StoreAfter, StoreWork, AfterWork, StoreTyped, ThreadTyped, CallablesTyped, Closed,
      QueueAfter, CountAfter, StopAfter, LogAfter, SleepsOn;
    SharedAfter(c, s, l);
    if l.Go? {
      var p := s.threads[l.i];
      if p.Work? { WorkMoves(c, s, p); WorkTyped(c, s, p.x, p.t, p.k); } else { OthersTyped(c, s, p); }
    }
    forall j | 0 <= j < |s.threads| ensures ThreadTyped(c.g, Apply(c, s, l).threads[j]) {
      OthersAfter(c, s, l, j);
      if SleepsOn(c, s.threads[j]).Some? { WakeTyped(c, s.threads[j]); }
    }
  }

  lemma {:induction false} TypeSteps(c: Config, s: State, ls: seq<Label>, s': State)
    requires Closed(c.g) && CallablesTyped(c.g, c.fn) && TypeInv(c, s) && Steps(c, s, ls, s')
    ensures TypeInv(c, s')
    decreases |ls|
  {
    if ls != [] {
      assert Enabled(c, s, ls[0]) && Steps(c, Apply(c, s, ls[0]), ls[1..], s');
      hide Apply, Enabled, Steps, TypeInv, Closed, CallablesTyped;
      TypeStep(c, s, ls[0]);
      TypeSteps(c, Apply(c, s, ls[0]), ls[1..], s');
    }
  }

  lemma TypeStart(c: Config)
    ensures TypeInv(c, Start(c))
  {}

  /** In every state of every run, on any graph whose edges have the types of their
      slots, also a cyclic one: the data of edges and results have the type of their
      task, void edges hold none, and a worker holds arguments of the parameter types of its callable, zeros for
      null slots. */
  lemma TypeSoundness(c: Config, s: State)
    requires Closed(c.g) && CallablesTyped(c.g, c.fn) && Reachable(c, s)
    ensures forall t :: t in s.store.data ==> t in c.g && !c.g[t].out.Void? && s.store.data[t].ty == c.g[t].out
    ensures forall t :: t in s.store.result && t in c.g ==> s.store.result[t].ty == c.g[t].out
    ensures forall j :: 0 <= j < |s.threads| && s.threads[j].Work? && s.threads[j].k.Read? ==>
      ArgsTyped(c.g, s.threads[j].t, s.threads[j].k.args)
  {
    hide Steps, Start, Closed, CallablesTyped, ArgsTyped;
    var ls :| Steps(c, Start(c), ls, s);
    TypeStart(c);
    TypeSteps(c, Start(c), ls, s);
    assert forall j :: 0 <= j < |s.threads| ==> ThreadTyped(c.g, s.threads[j]);
  }

  /** The same of recursive evaluation. */
  lemma {:induction false} EvalTyped(g: Graph, rank: Tid -> nat, fn: Callables, v: Tid)
    requires Dag(g, rank) && CallablesTyped(g, fn) && v in g
    ensures ArgsTyped(g, v, EvalArgs(g, rank, fn, v, 0)) && Fits(EvalArgs(g, rank, fn, v, 0), ParamsOf(g, v))
    ensures Eval(g, rank, fn, v).ty == g[v].out
    decreases rank(v)
  {
    ParamIsSlot(g, v);
    KeptReadsEvalArgs(g, rank, fn, v, 0);
    hide KeptOf, ParamsOf;
    forall k | 0 <= k < |KeptOf(g, v)|
      ensures KeptOf(g, v)[k] < |Slots(g, v)|
      ensures EvalSlot(g, rank, fn, v, KeptOf(g, v)[k]).ty == Slots(g, v)[KeptOf(g, v)[k]].ty
      ensures Src(g, v, KeptOf(g, v)[k]).None? ==> EvalSlot(g, rank, fn, v, KeptOf(g, v)[k]).bits == 0
    {
      if Src(g, v, KeptOf(g, v)[k]).Some? { EvalTyped(g, rank, fn, Src(g, v, KeptOf(g, v)[k]).value); }
    }
  }
}
