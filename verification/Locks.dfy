/** Which mutex a thread holds at which point, and that the mutexes of the state
    agree with the program counters in every reachable state. */
module Locks {
  import opened Graphs
  import opened Machine

  predicate PlainHolds(p: Pc, m: Mutex) {
    match p
    case Publish(_, t, u) =>
      (m == EdgeMtx(t) && (u.EdgeSet? || u.EdgeUnlock?)) || (m == TaskMtx(t) && (u.TaskNotify? || u.TaskUnlock?))
    case Tail(_, _, d) => m == WaitMtx && !d.WantWait?
    case Client(_, Adding(_, a)) =>
      || (m == WorkerMtx && !a.AddWantW? && !a.AddNotify?)
      || (m == TasksMtx && (a.AddEmplace? || a.AddCount? || a.AddRelT?))
    case Client(_, Clearing(e)) => m == TasksMtx && !e.ClWant?
    case Client(_, Destroying(d)) => m == WorkerMtx && (d.DtSet? || d.DtRel?)
    case _ => false
  }

  predicate Holds(c: Config, p: Pc, m: Mutex) {
    match SiteOf(c, p)
    case None => PlainHolds(p, m)
    case Some(site) => m == site.m && (site.w.Test? || site.w.Parking? || site.w.Release?)
  }

  /** The mutex map says exactly who is inside which section. */
  ghost predicate LockInv(c: Config, s: State) {
    && (forall j, m :: 0 <= j < |s.threads| ==> (Holds(c, s.threads[j], m) <==> m in s.locks && s.locks[m] == j))
    && (forall m :: m in s.locks ==> s.locks[m] < |s.threads|)
  }

  lemma OneHolder(c: Config, s: State, i: nat, j: nat, m: Mutex)
    requires LockInv(c, s) && i < |s.threads| && j < |s.threads|
    requires Holds(c, s.threads[i], m) && Holds(c, s.threads[j], m)
    ensures i == j
  {
    hide Holds;
    assert s.locks[m] == i && s.locks[m] == j;
  }

  /** What a thread holds after doing a. */
  predicate HeldAfter(a: LockAct, held: bool, m: Mutex) {
    match a case Keep => held case Take(k) => m == k || held case Drop(k) => m != k && held
  }

  lemma PlainNextHolds(c: Config, s: State, p: Pc, m: Mutex)
    requires SiteOf(c, p).None?
    ensures Holds(c, Plain(c, s, p), m) <==> HeldAfter(PlainAction(p), PlainHolds(p, m), m)
    ensures PlainAction(p).Drop? ==> PlainHolds(p, PlainAction(p).m)
  {}

  /** After one step a thread holds what its lock action says. */
  lemma NextHolds(c: Config, s: State, p: Pc, m: Mutex)
    requires SleepsOn(c, p).None?
    ensures Holds(c, Next(c, s, p), m) <==> HeldAfter(Action(c, p), Holds(c, p, m), m)
    ensures Action(c, p).Drop? ==> Holds(c, p, Action(c, p).m)
  {
    if SiteOf(c, p).None? {
      PlainNextHolds(c, s, p, m);
    } else if SiteOf(c, p).value.w.Release? && p.Fetch? {
      assert Resume(p) == Fetch(p.x, p.t, p.n + 1, Want);
    }
  }

  lemma WakeHolds(c: Config, p: Pc, m: Mutex)
    requires SleepsOn(c, p).Some?
    ensures !Holds(c, p, m) && !Holds(c, WakeUp(p), m)
  {}

  /** Every thread other than the mover is unchanged, or was asleep and is woken. */
  lemma OthersAfter(c: Config, s: State, l: Label, j: nat)
    requires Enabled(c, s, l) && j < |s.threads|
    ensures |Apply(c, s, l).threads| == |s.threads|
    ensures j == l.i && l.Go? ==> Apply(c, s, l).threads[j] == Next(c, s, s.threads[j])
    ensures j == l.i && l.Spurious? ==>
      SleepsOn(c, s.threads[j]).Some? && Apply(c, s, l).threads[j] == WakeUp(s.threads[j])
    ensures j != l.i && Apply(c, s, l).threads[j] != s.threads[j] ==>
      l.Go? && SleepsOn(c, s.threads[j]).Some? && Apply(c, s, l).threads[j] == WakeUp(s.threads[j])
      && (Wakes(s.threads[l.i]) == All(SleepsOn(c, s.threads[j]).value)
          || (Wakes(s.threads[l.i]) == One(SleepsOn(c, s.threads[j]).value) && l.pick == j))
    ensures (j != l.i && l.Go? && SleepsOn(c, s.threads[j]).Some?
             && Wakes(s.threads[l.i]) == All(SleepsOn(c, s.threads[j]).value)) ==>
      Apply(c, s, l).threads[j] == WakeUp(s.threads[j])
  {}

  lemma ApplyParts(c: Config, s: State, i: nat, pick: nat)
    requires i < |s.threads|
    ensures var s' := Apply(c, s, Go(i, pick)); var p := s.threads[i];
      && s'.queue == QueueAfter(s, p) && s'.count == CountAfter(s, p) && s'.log == LogAfter(s, i, p)
      && s'.stop == StopAfter(s, p) && s'.store == StoreAfter(c, s, p)
  {}

  /** What a step does to the shared state. */
  lemma SharedAfter(c: Config, s: State, l: Label)
    requires Enabled(c, s, l)
    ensures l.i < |s.threads| && |Apply(c, s, l).threads| == |s.threads|
    ensures l.Spurious? ==> Apply(c, s, l).(threads := s.threads) == s
    ensures l.Go? ==> SleepsOn(c, s.threads[l.i]).None?
    ensures l.Go? ==> var s' := Apply(c, s, l); var p := s.threads[l.i];
      && s'.queue == QueueAfter(s, p) && s'.count == CountAfter(s, p) && s'.log == LogAfter(s, l.i, p)
      && s'.stop == StopAfter(s, p) && s'.store == StoreAfter(c, s, p)
  {
    hide Next, QueueAfter, CountAfter, LogAfter, StopAfter, StoreAfter;
  }

  lemma LocksAfter(c: Config, s: State, l: Label)
    requires Enabled(c, s, l)
    ensures l.i < |s.threads| && |Apply(c, s, l).threads| == |s.threads|
    ensures Apply(c, s, l).locks == if l.Go? then DoLock(s.locks, l.i, Action(c, s.threads[l.i])) else s.locks
    ensures l.Go? ==> SleepsOn(c, s.threads[l.i]).None?
    ensures l.Go? && Action(c, s.threads[l.i]).Take? ==> Action(c, s.threads[l.i]).m !in s.locks
  {}

  lemma LockStepOther(c: Config, s: State, l: Label, j: nat, m: Mutex)
    requires LockInv(c, s) && Enabled(c, s, l) && j < |s.threads| && j != l.i
    ensures |Apply(c, s, l).threads| == |s.threads|
    ensures Holds(c, Apply(c, s, l).threads[j], m) <==>
      m in Apply(c, s, l).locks && Apply(c, s, l).locks[m] == j
  {
    assert l.i < |s.threads|;
    hide Apply, Enabled, Action, Holds, SleepsOn, WakeUp, Next, HeldAfter, Wakes;
    LocksAfter(c, s, l);
    OthersAfter(c, s, l, j);
    if SleepsOn(c, s.threads[j]).Some? { WakeHolds(c, s.threads[j], m); }
    assert Holds(c, Apply(c, s, l).threads[j], m) <==> Holds(c, s.threads[j], m);
    if l.Go? && Action(c, s.threads[l.i]).Drop? {
      var k := Action(c, s.threads[l.i]).m;
      NextHolds(c, s, s.threads[l.i], k);
      assert s.locks[k] == l.i;
    }
  }

  lemma LockStepSelf(c: Config, s: State, l: Label, m: Mutex)
    requires LockInv(c, s) && Enabled(c, s, l)
    ensures |Apply(c, s, l).threads| == |s.threads|
    ensures Holds(c, Apply(c, s, l).threads[l.i], m) <==>
      m in Apply(c, s, l).locks && Apply(c, s, l).locks[m] == l.i
  {
    LocksAfter(c, s, l);
    OthersAfter(c, s, l, l.i);
    if l.Go? { NextHolds(c, s, s.threads[l.i], m); } else { WakeHolds(c, s.threads[l.i], m); }
    hide Apply, Enabled, Action, Holds, SleepsOn, WakeUp, Next;
    assert Holds(c, s.threads[l.i], m) <==> m in s.locks && s.locks[m] == l.i;
  }

  lemma LockStep(c: Config, s: State, l: Label)
    requires LockInv(c, s) && Enabled(c, s, l)
    ensures LockInv(c, Apply(c, s, l))
  {
    hide Apply, Enabled, Action, Holds, DoLock;
    LocksAfter(c, s, l);
    forall j, m | 0 <= j < |s.threads|
      ensures Holds(c, Apply(c, s, l).threads[j], m) <==> m in Apply(c, s, l).locks && Apply(c, s, l).locks[m] == j
    {
      if j != l.i { LockStepOther(c, s, l, j, m); } else { LockStepSelf(c, s, l, m); }
    }
    HoldersInRange(s, l.i, if l.Go? then Action(c, s.threads[l.i]) else Keep);
  }

  lemma HoldersInRange(s: State, i: nat, a: LockAct)
    requires i < |s.threads| && forall m :: m in s.locks ==> s.locks[m] < |s.threads|
    ensures forall m :: m in DoLock(s.locks, i, a) ==> DoLock(s.locks, i, a)[m] < |s.threads|
  {}

  lemma LockStart(c: Config)
    ensures LockInv(c, Start(c))
  {
    var s := Start(c);
    forall j, m | 0 <= j < |s.threads| ensures !Holds(c, s.threads[j], m) {}
  }
}
