/** Whatever the number of workers and the interleaving, every published edge and
    every completed task holds the value of plain recursive evaluation. */
module Values {
  import opened Graphs
  import opened VoidFilter
  import opened Machine
  import opened Locks
  import opened Latches

  predicate Carries(c: Config, t: Tid) { t in c.g && !c.g[t].out.Void? }

  ghost predicate StoreOk(c: Config, rank: Tid -> nat, st: Store)
    requires Dag(c.g, rank)
  {
    && (forall t :: t in st.data && t in c.g ==> st.data[t] == Eval(c.g, rank, c.fn, t))
    && (forall t :: t in st.result && t in c.g ==> st.result[t] == Eval(c.g, rank, c.fn, t))
    && (forall t :: t in st.flag && Carries(c, t) ==> t in st.data)
    && (forall t :: PhaseOf(st, t).Complete? ==> t in st.result && t in st.flag)
  }

  /** The arguments read so far are the values of the kept slots. */
  ghost predicate ArgsOk(c: Config, rank: Tid -> nat, t: Tid, args: seq<Val>)
    requires Dag(c.g, rank)
  {
    t in c.g ==>
      && |args| <= |EvalArgs(c.g, rank, c.fn, t, 0)|
      && args == EvalArgs(c.g, rank, c.fn, t, 0)[..|args|]
  }

  ghost predicate ThreadOk(c: Config, rank: Tid -> nat, st: Store, p: Pc)
    requires Dag(c.g, rank)
  {
    match p
    case Work(_, t, k) =>
      && (k.Read? ==> ArgsOk(c, rank, t, k.args))
      && (k.StampEnd? || k.Write? ==> t in st.result)
    case Publish(_, t, u) =>
      && t in st.result
      && (Carries(c, t) ==> t in st.data)
      && (u.EdgeUnlock? || u.EdgeNotify? || u.Finish? || u.TaskLock? || u.TaskNotify? || u.TaskUnlock? ==> t in st.flag)
    case _ => true
  }

  ghost predicate ValueInv(c: Config, rank: Tid -> nat, s: State)
    requires Dag(c.g, rank)
  {
    && StoreOk(c, rank, s.store)
    && forall j :: 0 <= j < |s.threads| ==> ThreadOk(c, rank, s.store, s.threads[j])
  }

  /** One getter call yields the evaluated value once the input is published. */
  lemma ReadOk(c: Config, rank: Tid -> nat, st: Store, t: Tid, args: seq<Val>)
    requires Dag(c.g, rank) && StoreOk(c, rank, st) && t in c.g
    requires FlagsUpTo(c, st.flag, t, |Slots(c.g, t)|)
    requires ArgsOk(c, rank, t, args) && |args| < |KeptOf(c.g, t)|
    ensures ArgsOk(c, rank, t, args + [SlotValue(c, st, t, KeptOf(c.g, t)[|args|])])
  {
    hide Eval, EvalArgs, EvalSlot, KeptOf, SlotValue, StoreOk, FlagsUpTo, Dag;
    var i := KeptOf(c.g, t)[|args|];
    KeptSlot(c, rank, t, |args|);
    SlotRead(c, rank, st, t, i);
  }

  lemma KeptSlot(c: Config, rank: Tid -> nat, t: Tid, k: nat)
    requires Dag(c.g, rank) && t in c.g && k < |KeptOf(c.g, t)|
    ensures k < |EvalArgs(c.g, rank, c.fn, t, 0)|
    ensures var i := KeptOf(c.g, t)[k];
      && i < |Slots(c.g, t)| && !Slots(c.g, t)[i].ty.Void?
      && EvalArgs(c.g, rank, c.fn, t, 0)[k] == EvalSlot(c.g, rank, c.fn, t, i)
  {
    hide Eval, EvalArgs, EvalSlot;
    KeptReadsEvalArgs(c.g, rank, c.fn, t, 0);
    KeptIsExact(TypesOf(Slots(c.g, t)), 0);
    assert KeptOf(c.g, t)[k] in KeptOf(c.g, t);
  }

  lemma SlotRead(c: Config, rank: Tid -> nat, st: Store, t: Tid, i: nat)
    requires Dag(c.g, rank) && StoreOk(c, rank, st) && t in c.g && i < |Slots(c.g, t)| && !Slots(c.g, t)[i].ty.Void?
    requires FlagsUpTo(c, st.flag, t, |Slots(c.g, t)|)
    ensures SlotValue(c, st, t, i) == EvalSlot(c.g, rank, c.fn, t, i)
  {
    hide Eval;
    if Src(c.g, t, i).Some? {
      var u := Src(c.g, t, i).value;
      assert u in st.flag && u in c.g && c.g[u].out == Slots(c.g, t)[i].ty;
      assert Carries(c, u);
    }
  }

  /** The callable is applied to exactly the evaluated arguments. */
  lemma CallOk(c: Config, rank: Tid -> nat, t: Tid, args: seq<Val>)
    requires Dag(c.g, rank) && t in c.g && ArgsOk(c, rank, t, args) && |args| >= |KeptOf(c.g, t)|
    ensures c.fn(t, args) == Eval(c.g, rank, c.fn, t)
  {
    KeptReadsEvalArgs(c.g, rank, c.fn, t, 0);
    assert args == EvalArgs(c.g, rank, c.fn, t, 0);
  }

  lemma ReadStepOk(c: Config, rank: Tid -> nat, s: State, x: nat, t: Tid, args: seq<Val>)
    requires Dag(c.g, rank) && StoreOk(c, rank, s.store) && ArgsOk(c, rank, t, args)
    requires FlagsUpTo(c, s.store.flag, t, |Slots(c.g, t)|)
    ensures StoreOk(c, rank, StoreWork(c, s.store, t, Read(args)))
    ensures ThreadOk(c, rank, StoreWork(c, s.store, t, Read(args)), AfterWork(c, s, x, t, Read(args)))
  {
    if t in c.g {
      if |args| < |KeptOf(c.g, t)| { ReadOk(c, rank, s.store, t, args); } else { CallOk(c, rank, t, args); }
    }
    hide KeptOf, Eval, EvalArgs, EvalSlot, SlotValue;
  }

  lemma WorkStepOk(c: Config, rank: Tid -> nat, s: State, x: nat, t: Tid, k: WorkAt)
    requires Dag(c.g, rank) && StoreOk(c, rank, s.store) && ThreadOk(c, rank, s.store, Work(x, t, k)) && !k.Read?
    ensures StoreOk(c, rank, StoreWork(c, s.store, t, k))
    ensures ThreadOk(c, rank, StoreWork(c, s.store, t, k), AfterWork(c, s, x, t, k))
  {
    hide KeptOf, Eval, EvalArgs, EvalSlot;
  }

  lemma WorkOk(c: Config, rank: Tid -> nat, s: State, x: nat, t: Tid, k: WorkAt)
    requires Dag(c.g, rank) && StoreOk(c, rank, s.store) && ThreadOk(c, rank, s.store, Work(x, t, k))
    requires DepThread(c, s.store.flag, Work(x, t, k))
    ensures StoreOk(c, rank, StoreAfter(c, s, Work(x, t, k)))
    ensures ThreadOk(c, rank, StoreAfter(c, s, Work(x, t, k)), Next(c, s, Work(x, t, k)))
  {
    hide StoreWork, AfterWork, StoreOk;
    if k.Read? { ReadStepOk(c, rank, s, x, t, k.args); } else { WorkStepOk(c, rank, s, x, t, k); }
  }

  lemma PublishNext(c: Config, s: State, p: Pc)
    requires p.Publish?
    ensures Next(c, s, p) == AfterPublish(p.x, p.t, p.u)
    ensures StoreAfter(c, s, p) == match p.u
      case EdgeSet => s.store.(flag := s.store.flag + {p.t})
      case Finish => s.store.(phase := s.store.phase[p.t := Complete])
      case _ => s.store
  {}

  lemma PublishOk(c: Config, rank: Tid -> nat, s: State, p: Pc)
    requires Dag(c.g, rank) && StoreOk(c, rank, s.store) && ThreadOk(c, rank, s.store, p) && p.Publish?
    ensures StoreOk(c, rank, StoreAfter(c, s, p)) && ThreadOk(c, rank, StoreAfter(c, s, p), Next(c, s, p))
  {
    hide Eval, Dag, Next, StoreAfter, ArgsOk;
    PublishNext(c, s, p);
  }

  lemma QuietOk(c: Config, rank: Tid -> nat, s: State, p: Pc)
    requires Dag(c.g, rank) && !p.Work? && !p.Publish?
    ensures StoreAfter(c, s, p) == s.store && ThreadOk(c, rank, s.store, Next(c, s, p))
  {
    hide Eval, Dag, ArgsOk;
  }

  lemma OtherOk(c: Config, rank: Tid -> nat, s: State, p: Pc)
    requires Dag(c.g, rank) && StoreOk(c, rank, s.store) && ThreadOk(c, rank, s.store, p) && !p.Work?
    ensures StoreOk(c, rank, StoreAfter(c, s, p)) && ThreadOk(c, rank, StoreAfter(c, s, p), Next(c, s, p))
  {
    hide *;
    if p.Publish? { PublishOk(c, rank, s, p); } else { QuietOk(c, rank, s, p); }
  }

  lemma WorkGrows(c: Config, st: Store, t: Tid, k: WorkAt)
    ensures var st' := StoreWork(c, st, t, k);
      st.flag <= st'.flag && st.data.Keys <= st'.data.Keys && st.result.Keys <= st'.result.Keys
  {
    hide KeptOf;
  }

  lemma StoreGrows(c: Config, s: State, p: Pc)
    ensures var st := StoreAfter(c, s, p);
      s.store.flag <= st.flag && s.store.data.Keys <= st.data.Keys && s.store.result.Keys <= st.result.Keys
  {
    hide StoreWork;
    if p.Work? { WorkGrows(c, s.store, p.t, p.k); }
  }

  lemma ValueStep(c: Config, rank: Tid -> nat, s: State, l: Label)
    requires Dag(c.g, rank) && DepInv(c, s) && ValueInv(c, rank, s) && Enabled(c, s, l)
    ensures ValueInv(c, rank, Apply(c, s, l))
  {
    assert l.i < |s.threads|;
    var p := s.threads[l.i];
    var s' := Apply(c, s, l);
    assert l.Spurious? ==> s'.store == s.store;
    hide Apply, Enabled, Next, StoreAfter, DepThread, StoreOk;
    assert ThreadOk(c, rank, s.store, p) && DepThread(c, s.store.flag, p);
    if l.Go? {
      ApplyParts(c, s, l.i, l.pick);
      StoreGrows(c, s, p);
      if p.Work? { WorkOk(c, rank, s, p.x, p.t, p.k); } else { OtherOk(c, rank, s, p); }
    }
    OthersAfter(c, s, l, l.i);
    forall j | 0 <= j < |s'.threads| ensures ThreadOk(c, rank, s'.store, s'.threads[j]) {
      OthersAfter(c, s, l, j);
      assert ThreadOk(c, rank, s.store, s.threads[j]);
    }
  }

  lemma ValueStart(c: Config, rank: Tid -> nat)
    requires Dag(c.g, rank)
    ensures ValueInv(c, rank, Start(c))
  {}
}
