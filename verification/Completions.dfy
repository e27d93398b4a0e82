/** The wait of a task, which is woken by notify_one, and the shutdown of
    sleeping workers, which are woken by notify_all. */
module Completions {
  import opened Graphs
  import opened VoidFilter
  import opened Machine
  import opened Locks
  import opened Programs
  import opened Wakeups

  // ---------------------------------------------------------- Task::wait

  /** At most one client ever waits on t. */
  ghost predicate OneWaiter(c: Config, t: Tid) {
    forall a, b :: 0 <= a < b < |c.progs| && TaskWait(t) in c.progs[a] ==> TaskWait(t) !in c.progs[b]
  }

  predicate Finishes(p: Pc, t: Tid) { p.Publish? && p.t == t && (p.u.TaskLock? || p.u.TaskNotify?) }

  ghost predicate FinisherOf(s: State, t: Tid) { exists q :: 0 <= q < |s.threads| && Finishes(s.threads[q], t) }

  predicate ParkedOnTask(p: Pc) { p.Client? && p.call.TaskWaiting? && (p.call.w.Parking? || p.call.w.Sleeping?) }

  /** The only waiter of a completed task still has its notification coming. */
  ghost predicate CompletionThread(c: Config, s: State, p: Pc) {
    ParkedOnTask(p) && OneWaiter(c, p.call.t) && PhaseOf(s.store, p.call.t).Complete? ==> FinisherOf(s, p.call.t)
  }

  ghost predicate CompletionInv(c: Config, s: State) {
    forall j :: 0 <= j < |s.threads| ==> CompletionThread(c, s, s.threads[j])
  }

  lemma FinisherKept(c: Config, s: State, l: Label, t: Tid)
    requires Enabled(c, s, l) && FinisherOf(s, t)
    requires l.Go? ==> Wakes(s.threads[l.i]) != One(TaskCv(t))
    ensures FinisherOf(Apply(c, s, l), t)
  {
    var q :| 0 <= q < |s.threads| && Finishes(s.threads[q], t);
    OthersAfter(c, s, l, q);
    assert Finishes(Apply(c, s, l).threads[q], t);
  }

  /** Only the worker that has run t completes it, and it then owes the
      notification. */
  lemma CompleteOwes(c: Config, s: State, i: nat, pick: nat, t: Tid)
    requires Enabled(c, s, Go(i, pick))
    requires PhaseOf(Apply(c, s, Go(i, pick)).store, t).Complete?
    ensures PhaseOf(s.store, t).Complete? || FinisherOf(Apply(c, s, Go(i, pick)), t)
  {
    hide KeptOf;
    var p := s.threads[i];
    ApplyParts(c, s, i, pick);
    OthersAfter(c, s, Go(i, pick), i);
    if p.Publish? && p.u.Finish? {
      assert Apply(c, s, Go(i, pick)).threads[i] == Publish(p.x, p.t, TaskLock);
      assert Finishes(Apply(c, s, Go(i, pick)).threads[i], p.t);
    }
  }

  /** The notification of t reaches its only waiter. */
  lemma NotifyReaches(c: Config, s: State, i: nat, pick: nat, j: nat)
    requires ShapeInv(c, s) && LockInv(c, s) && Enabled(c, s, Go(i, pick))
    requires j < |s.threads| && j != i && ParkedOnTask(s.threads[j]) && OneWaiter(c, s.threads[j].call.t)
    requires Wakes(s.threads[i]) == One(TaskCv(s.threads[j].call.t))
    ensures |Apply(c, s, Go(i, pick)).threads| == |s.threads| && !ParkedOnTask(Apply(c, s, Go(i, pick)).threads[j])
  {
    var t := s.threads[j].call.t;
    CallInProgram(c, s, j, TaskWait(t));
    if s.threads[j].call.w.Parking? {
      assert Holds(c, s.threads[j], TaskMtx(t)) && Holds(c, s.threads[i], TaskMtx(t));
      OneHolder(c, s, i, j, TaskMtx(t));
    } else {
      assert SleepsOn(c, s.threads[j]) == Some(TaskCv(t));
      assert SomeSleeper(c, s.threads, TaskCv(t));
      assert SleepsOn(c, s.threads[pick]) == Some(TaskCv(t));
      SleeperIsWaiter(c, s.threads[pick], t);
      CallInProgram(c, s, pick, TaskWait(t));
    }
  }

  lemma SleeperIsWaiter(c: Config, p: Pc, t: Tid)
    requires SleepsOn(c, p) == Some(TaskCv(t))
    ensures p.Client? && p.call == TaskWaiting(t, Sleeping)
  {}

  lemma ParkedNext(c: Config, s: State, p: Pc)
    requires SleepsOn(c, p).None? && ParkedOnTask(Next(c, s, p))
    ensures p.Client? && p.call.TaskWaiting? && p.call.t == Next(c, s, p).call.t
    ensures (p.call.w.Test? && !PhaseOf(s.store, p.call.t).Complete?) || ParkedOnTask(p)
  {
    hide KeptOf;
  }

  lemma CompletionStep(c: Config, s: State, l: Label)
    requires ShapeInv(c, s) && LockInv(c, s) && CompletionInv(c, s) && Enabled(c, s, l)
    ensures CompletionInv(c, Apply(c, s, l))
  {
    assert l.i < |s.threads|;
    var s' := Apply(c, s, l);
    var p := s.threads[l.i];
    assert l.Spurious? ==> s'.store == s.store;
    assert l.Go? ==> SleepsOn(c, p).None?;
    assert p.Client? ==> StoreAfter(c, s, p) == s.store;
    assert p.Client? ==> Wakes(p) == NoWake || Wakes(p).cv == WorkerCv;
    hide Enabled, Next, LockInv, ShapeInv, OneWaiter;
    if l.Go? { ApplyParts(c, s, l.i, l.pick); }
    hide Apply, StoreAfter;
    OthersAfter(c, s, l, l.i);
    forall j | 0 <= j < |s'.threads| ensures CompletionThread(c, s', s'.threads[j]) {
      OthersAfter(c, s, l, j);
      assert CompletionThread(c, s, s.threads[j]);
      if ParkedOnTask(s'.threads[j]) && OneWaiter(c, s'.threads[j].call.t)
        && PhaseOf(s'.store, s'.threads[j].call.t).Complete?
      {
        var t := s'.threads[j].call.t;
        if j == l.i { ParkedNext(c, s, p); }
        if l.Go? {
          CompleteOwes(c, s, l.i, l.pick, t);
          if PhaseOf(s.store, t).Complete? && j != l.i && Wakes(p) == One(TaskCv(t)) {
            NotifyReaches(c, s, l.i, l.pick, j);
          }
        }
        if FinisherOf(s, t) && !(l.Go? && Wakes(p) == One(TaskCv(t))) { FinisherKept(c, s, l, t); }
      }
    }
  }

  // ------------------------------------------------------------- shutdown

  predicate OwesShutdown(p: Pc) { p.Client? && p.call.Destroying? && (p.call.d.DtRel? || p.call.d.DtNotify?) }

  /** A worker asleep after the flag was raised will still be notified, and only
      a destructor raises the flag. */
  ghost predicate ShutdownInv(c: Config, s: State) {
    && (s.stop && SomeWorkerAsleep(s) ==> exists q :: 0 <= q < |s.threads| && OwesShutdown(s.threads[q]))
    && (Never(c, Destroy) ==> !s.stop)
  }

  /** A worker asleep after the step was asleep before it, unless it just parked,
      which it does only with the flag down; a notification leaves none asleep. */
  lemma SleeperAfter(c: Config, s: State, l: Label, j: nat)
    requires ParkInv(s) && Enabled(c, s, l) && j < |Apply(c, s, l).threads|
    requires Apply(c, s, l).threads[j] == Idle(Sleeping)
    ensures j < |s.threads| && l.i < |s.threads|
    ensures s.stop ==> s.threads[j] == Idle(Sleeping) && !(l.Go? && Wakes(s.threads[l.i]) == All(WorkerCv))
  {
    var p := s.threads[l.i];
    if l.Go? { assert SleepsOn(c, p).None?; SleepingNext(c, s, p); }
    hide Apply, Enabled, Next;
    OthersAfter(c, s, l, l.i);
    OthersAfter(c, s, l, j);
    if SleepsOn(c, s.threads[j]).Some? { WokenComing(c, s.threads[j]); }
  }

  lemma ShutdownStep(c: Config, s: State, l: Label)
    requires ShapeInv(c, s) && ParkInv(s) && ShutdownInv(c, s) && Enabled(c, s, l)
    ensures ShutdownInv(c, Apply(c, s, l))
  {
    assert l.i < |s.threads|;
    var s' := Apply(c, s, l);
    var p := s.threads[l.i];
    assert s'.stop ==>
      s.stop || (l.Go? && p.Client? && p.call == Destroying(DtSet)
                 && Next(c, s, p) == Client(p.rest, Destroying(DtRel)));
    assert l.Go? && OwesShutdown(p) ==> OwesShutdown(Next(c, s, p)) || Wakes(p) == All(WorkerCv);
    assert OwesShutdown(p) ==> SleepsOn(c, p).None?;
    hide Apply, Enabled, Next, ShapeInv, ParkInv;
    if p.Client? && p.call == Destroying(DtSet) { CallInProgram(c, s, l.i, Destroy); }
    OthersAfter(c, s, l, l.i);
    if s'.stop && SomeWorkerAsleep(s') {
      var j :| 0 <= j < |s'.threads| && s'.threads[j] == Idle(Sleeping);
      SleeperAfter(c, s, l, j);
      if !s.stop {
        assert OwesShutdown(s'.threads[l.i]);
      } else {
        var q :| 0 <= q < |s.threads| && OwesShutdown(s.threads[q]);
        OthersAfter(c, s, l, q);
        assert OwesShutdown(s'.threads[q]);
      }
    }
  }

  lemma SleepingNext(c: Config, s: State, p: Pc)
    requires SleepsOn(c, p).None?
    ensures Next(c, s, p) == Idle(Sleeping) ==> p == Idle(Parking)
  {
    hide KeptOf;
  }

  lemma CompletionStart(c: Config)
    ensures CompletionInv(c, Start(c)) && ShutdownInv(c, Start(c))
  {}
}
