/** The one-shot edge latch and the completion variable of a task: what a thread
    past its input waits knows, and who still owes a sleeper its wake-up. */
module Latches {
  import opened Graphs
  import opened VoidFilter
  import opened Machine
  import opened Locks

  /** The inputs before slot n are published. */
  ghost predicate FlagsUpTo(c: Config, flag: set<Tid>, t: Tid, n: nat) {
    forall m :: 0 <= m < n && Src(c.g, t, m).Some? ==> Src(c.g, t, m).value in flag
  }

  /** How many slots of its task a worker has waited for. */
  function Waited(c: Config, p: Pc): nat {
    match p
    case Fetch(_, _, n, _) => n
    case Work(_, t, _) => |Slots(c.g, t)|
    case Publish(_, t, _) => |Slots(c.g, t)|
    case _ => 0
  }

  function TaskOf(p: Pc): Tid {
    match p
    case Fetch(_, t, _, _) => t
    case Work(_, t, _) => t
    case Publish(_, t, _) => t
    case Tail(_, t, _) => t
    case _ => 0
  }

  ghost predicate DepThread(c: Config, flag: set<Tid>, p: Pc) {
    && FlagsUpTo(c, flag, TaskOf(p), Waited(c, p))
    && (p.Fetch? && p.w.Release? && Src(c.g, p.t, p.n).Some? ==> Src(c.g, p.t, p.n).value in flag)
  }

  ghost predicate StartedFlagged(c: Config, st: Store) {
    forall t :: t in st.start || !PhaseOf(st, t).Incomplete? ==> FlagsUpTo(c, st.flag, t, |Slots(c.g, t)|)
  }

  /** A task is Running, and stamped as started, only after all its inputs are
      published. */
  ghost predicate DepInv(c: Config, s: State) {
    && (forall j :: 0 <= j < |s.threads| ==> DepThread(c, s.store.flag, s.threads[j]))
    && StartedFlagged(c, s.store)
  }

  /** Only a worker past its waits starts a task, its own. */
  lemma NewlyStarted(c: Config, s: State, p: Pc)
    ensures forall t :: t in StoreAfter(c, s, p).start || !PhaseOf(StoreAfter(c, s, p), t).Incomplete? ==>
      t in s.store.start || !PhaseOf(s.store, t).Incomplete? || ((p.Work? || p.Publish?) && t == TaskOf(p))
  {
    hide KeptOf;
  }

  lemma StartMoves(c: Config, s: State, p: Pc)
    requires StartedFlagged(c, s.store) && DepThread(c, s.store.flag, p)
    ensures StartedFlagged(c, StoreAfter(c, s, p))
  {
    hide StoreAfter;
    FlagGrows(c, s, p);
    NewlyStarted(c, s, p);
  }

  lemma FlagGrows(c: Config, s: State, p: Pc)
    ensures s.store.flag <= StoreAfter(c, s, p).flag
    ensures StoreAfter(c, s, p).flag <= s.store.flag + (if p.Publish? && p.u.EdgeSet? then {p.t} else {})
  {
    hide KeptOf;
  }

  lemma DepNext(c: Config, s: State, p: Pc)
    requires DepThread(c, s.store.flag, p) && SleepsOn(c, p).None?
    ensures DepThread(c, StoreAfter(c, s, p).flag, Next(c, s, p))
  {
    FlagGrows(c, s, p);
    match p {
      case Fetch(x, t, n, w) =>
        if n >= |Slots(c.g, t)| {
          assert Next(c, s, p) == Work(x, t, Begin);
        } else if w.Release? || Src(c.g, t, n).None? {
          assert Next(c, s, p) == Fetch(x, t, n + 1, Want);
        }
      case Work(x, t, k) =>
      case Publish(x, t, u) =>
      case Client(rest, call) =>
      case _ =>
    }
  }

  lemma DepStep(c: Config, s: State, l: Label)
    requires DepInv(c, s) && Enabled(c, s, l)
    ensures DepInv(c, Apply(c, s, l))
  {
    assert l.i < |s.threads|;
    var p := s.threads[l.i];
    if l.Go? {
      assert SleepsOn(c, p).None?;
      DepNext(c, s, p);
      StartMoves(c, s, p);
      ApplyParts(c, s, l.i, l.pick);
      FlagGrows(c, s, p);
    }
    assert l.Spurious? ==> Apply(c, s, l).store == s.store;
    hide Apply, Enabled, Next, StoreAfter, StartedFlagged;
    forall j | 0 <= j < |Apply(c, s, l).threads|
      ensures DepThread(c, Apply(c, s, l).store.flag, Apply(c, s, l).threads[j])
    {
      OthersAfter(c, s, l, j);
      assert DepThread(c, s.store.flag, s.threads[j]);
      if SleepsOn(c, s.threads[j]).Some? { DepWake(c, Apply(c, s, l).store.flag, s.threads[j]); }
    }
    OthersAfter(c, s, l, l.i);
  }

  lemma DepWake(c: Config, flag: set<Tid>, p: Pc)
    requires SleepsOn(c, p).Some?
    ensures DepThread(c, flag, p) ==> DepThread(c, flag, WakeUp(p))
  {}

  // -------------------------------------------------------------- edge latch

  predicate Owes(p: Pc, u: Tid) { p.Publish? && p.t == u && (p.u.EdgeUnlock? || p.u.EdgeNotify?) }

  ghost predicate NotifierOf(s: State, u: Tid) { exists q :: 0 <= q < |s.threads| && Owes(s.threads[q], u) }

  /** The point of the wait for input u of the worker at p, if it is in one. */
  function InputWait(c: Config, p: Pc): Option<(Tid, Wt)> {
    match p
    case Fetch(_, t, n, w) =>
      (match Src(c.g, t, n) case None => None case Some(u) => Some((u, w)))
    case _ => None
  }

  /** A parking consumer has just seen the flag down; a sleeping consumer of a
      raised flag is still to be notified. */
  ghost predicate LatchThread(c: Config, s: State, p: Pc) {
    match InputWait(c, p)
    case Some((u, Parking)) => u !in s.store.flag
    case Some((u, Sleeping)) => u in s.store.flag ==> NotifierOf(s, u)
    case _ => true
  }

  ghost predicate LatchInv(c: Config, s: State) {
    forall j :: 0 <= j < |s.threads| ==> LatchThread(c, s, s.threads[j])
  }

  lemma LatchNext(c: Config, s: State, p: Pc)
    requires SleepsOn(c, p).None?
    ensures match InputWait(c, Next(c, s, p))
      case Some((u, Parking)) => u !in s.store.flag && !p.Publish?
      case Some((u, Sleeping)) => InputWait(c, p) == Some((u, Parking)) && !p.Publish?
      case _ => true
  {}

  /** A notifier stays a notifier until it has notified. */
  lemma NotifierKept(c: Config, s: State, l: Label, u: Tid)
    requires Enabled(c, s, l) && NotifierOf(s, u)
    requires l.Go? ==> Wakes(s.threads[l.i]) != All(EdgeCv(u))
    ensures NotifierOf(Apply(c, s, l), u)
  {
    var q :| 0 <= q < |s.threads| && Owes(s.threads[q], u);
    OthersAfter(c, s, l, q);
    assert Owes(Apply(c, s, l).threads[q], u);
  }

  lemma RaiserOwes(c: Config, s: State, i: nat, pick: nat)
    requires Enabled(c, s, Go(i, pick)) && s.threads[i].Publish? && s.threads[i].u.EdgeSet?
    ensures NotifierOf(Apply(c, s, Go(i, pick)), s.threads[i].t)
  {
    OthersAfter(c, s, Go(i, pick), i);
    assert Owes(Apply(c, s, Go(i, pick)).threads[i], s.threads[i].t);
  }

  lemma LatchOther(c: Config, s: State, l: Label, j: nat)
    requires LockInv(c, s) && LatchInv(c, s) && Enabled(c, s, l) && j < |s.threads| && j != l.i
    ensures |Apply(c, s, l).threads| == |s.threads| && LatchThread(c, Apply(c, s, l), Apply(c, s, l).threads[j])
  {
    assert l.i < |s.threads|;
    var p := s.threads[l.i];
    if l.Go? { ApplyParts(c, s, l.i, l.pick); FlagGrows(c, s, p); }
    assert l.Spurious? ==> Apply(c, s, l).store == s.store;
    hide Apply, Enabled, Next, StoreAfter;
    OthersAfter(c, s, l, j);
    assert LatchThread(c, s, s.threads[j]);
    match InputWait(c, s.threads[j]) {
      case Some((u, Parking)) =>
        assert Holds(c, s.threads[j], EdgeMtx(u));
        if l.Go? && p.Publish? && p.u.EdgeSet? && p.t == u {
          assert Holds(c, p, EdgeMtx(u));
          OneHolder(c, s, l.i, j, EdgeMtx(u));
        }
      case Some((u, Sleeping)) =>
        if l.Go? && p.Publish? && p.u.EdgeSet? && p.t == u {
          RaiserOwes(c, s, l.i, l.pick);
        } else if u in s.store.flag && !(l.Go? && Wakes(p) == All(EdgeCv(u))) {
          NotifierKept(c, s, l, u);
        } else if u in s.store.flag {
          assert SleepsOn(c, s.threads[j]) == Some(EdgeCv(u));
        }
      case _ =>
    }
  }

  lemma LatchStep(c: Config, s: State, l: Label)
    requires LockInv(c, s) && LatchInv(c, s) && Enabled(c, s, l)
    ensures LatchInv(c, Apply(c, s, l))
  {
    assert l.i < |s.threads|;
    var p := s.threads[l.i];
    if l.Go? { assert SleepsOn(c, p).None?; LatchNext(c, s, p); ApplyParts(c, s, l.i, l.pick); FlagGrows(c, s, p); }
    hide Apply, Enabled, Next, StoreAfter;
    OthersAfter(c, s, l, l.i);
    assert LatchThread(c, s, p);
    assert LatchThread(c, Apply(c, s, l), Apply(c, s, l).threads[l.i]);
    forall j | 0 <= j < |s.threads| ensures LatchThread(c, Apply(c, s, l), Apply(c, s, l).threads[j]) {
      if j != l.i { LatchOther(c, s, l, j); }
    }
  }

  lemma LatchStart(c: Config)
    ensures DepInv(c, Start(c)) && LatchInv(c, Start(c))
  {}
}
