/** What a run looks like when no thread can move any more, if the tasks were
    submitted in a topological order. */
module RunsEnd {
  import opened Graphs
  import opened Machine
  import opened Locks
  import opened Accounts
  import opened Programs
  import opened Wakeups
  import opened Latches
  import opened PoolWait
  import opened Completions
  import opened Stages
  import opened Invariant
  import L = Ledgers
  import Sums

  /** A thread that is live and not kept out by a mutex can take a step. */
  lemma CanGo(c: Config, s: State, i: nat) returns (pick: nat)
    requires i < |s.threads| && Live(c, s, s.threads[i]) && Unblocked(c, s, s.threads[i])
    ensures Enabled(c, s, Go(i, pick))
  {
    pick := 0;
    if Wakes(s.threads[i]).One? && SomeSleeper(c, s.threads, Wakes(s.threads[i]).cv) {
      pick :| 0 <= pick < |s.threads| && SleepsOn(c, s.threads[pick]) == Some(Wakes(s.threads[i]).cv);
    }
  }

  /** A thread holding a mutex is live, and waits at most for the task mutex,
      holding the worker mutex. */
  lemma HolderActs(c: Config, s: State, p: Pc, m: Mutex)
    requires Holds(c, p, m)
    ensures Live(c, s, p) && !p.WantTasks?
    ensures Action(c, p).Take? ==> m == WorkerMtx && Action(c, p).m == TasksMtx
    ensures p == Idle(Test) ==> m == WorkerMtx
  {}

  /** When nothing can move, no mutex is held. */
  lemma NoMutexHeld(c: Config, s: State)
    requires LockInv(c, s) && Terminal(c, s)
    ensures s.locks == map[]
  {
    hide Enabled, Holds, Live, Action;
    if TasksMtx in s.locks { HolderMoves(c, s, TasksMtx); }
    forall m | m in s.locks ensures false {
      HolderMoves(c, s, m);
    }
  }

  lemma HolderMoves(c: Config, s: State, m: Mutex)
    requires LockInv(c, s) && m in s.locks && (m == TasksMtx || TasksMtx !in s.locks)
    ensures exists l: Label :: l.Go? && Enabled(c, s, l)
  {
    hide Enabled, Holds, Live, Action;
    var i := s.locks[m];
    assert Holds(c, s.threads[i], m);
    HolderActs(c, s, s.threads[i], m);
    var pick := CanGo(c, s, i);
    assert Enabled(c, s, Go(i, pick));
  }

  /** Then every thread is asleep, at its end, or joining a live worker. */
  lemma NobodyLive(c: Config, s: State, i: nat)
    requires LockInv(c, s) && Terminal(c, s) && i < |s.threads|
    ensures !Live(c, s, s.threads[i])
  {
    hide Enabled, LockInv, Live;
    NoMutexHeld(c, s);
    if Live(c, s, s.threads[i]) {
      var pick := CanGo(c, s, i);
    }
  }

  /** Distinct submissions in topological order, popped without a gap. */
  ghost predicate Orderly(c: Config, s: State) {
    Distinct(s.log.submitted) && Topological(c.g, s.log.submitted) && InSequence(s)
  }

  /** So it is in the runs of the executor, whatever is cleared, ... */
  lemma ExecOrderly(c: Config, s: State)
    requires Executor(c) && Topological(c.g, c.order) && ExecInv(c, s)
    ensures Orderly(c, s) && PoolInv(c, s) && s.log.submitted == c.order
  {
    hide PoolInv;
  }

  /** ... and in those of any pool if nothing is cleared. */
  lemma GaplessOrderly(c: Config, s: State)
    requires PoolInv(c, s) && Never(c, Clear) && Distinct(s.log.submitted) && Topological(c.g, s.log.submitted)
    ensures Orderly(c, s)
  {}

  /** In a final state every popped task is finished: the earliest unfinished one
      could only wait for an earlier, hence finished and published, one. */
  lemma {:induction false} PoppedAreFinished(c: Config, s: State, x: nat)
    requires Orderly(c, s) && PoolInv(c, s) && Terminal(c, s) && x < |s.log.popped|
    ensures x < |s.log.submitted| && x in s.log.finished && Done(s.store, s.log.submitted[x])
    decreases x
  {
    assert AccountsInv(s) && LockInv(c, s) && LatchInv(c, s) && StageInv(s);
    hide PoolInv, Terminal, LockInv, LatchInv;
    OwnedArePopped(s, x);
    OwnerCarries(s, x);
    TicketsSubmitted(s);
    hide AccountsInv;
    assert Stage(s, x);
    if x !in s.log.finished {
      var i := s.log.owner[x];
      NobodyLive(c, s, i);
      CarrierIsOwner(s, i);
      var u := CarrierWaits(c, s, i);
      assert DependsOn(c.g, s.log.submitted[x], u);
      var y :| 0 <= y < x && s.log.submitted[y] == u;
      PoppedAreFinished(c, s, y);
      WaitedIsUnpublished(c, s, i, u);
    }
  }

  /** A carrier that cannot move sleeps on an input of its task. */
  lemma CarrierWaits(c: Config, s: State, i: nat) returns (u: Tid)
    requires i < |s.threads| && BadgeOf(s.threads[i]).Carry? && !Live(c, s, s.threads[i])
    ensures InputWait(c, s.threads[i]) == Some((u, Sleeping))
    ensures DependsOn(c.g, BadgeOf(s.threads[i]).t, u)
  {
    var p := s.threads[i];
    u := Src(c.g, p.t, p.n).value;
    assert p.n < |Slots(c.g, p.t)|;
  }

  lemma WaitedIsUnpublished(c: Config, s: State, i: nat, u: Tid)
    requires LockInv(c, s) && LatchInv(c, s) && Terminal(c, s)
    requires i < |s.threads| && InputWait(c, s.threads[i]) == Some((u, Sleeping))
    ensures u !in s.store.flag
  {
    hide Terminal, LockInv;
    assert LatchThread(c, s, s.threads[i]);
    if NotifierOf(s, u) {
      var q :| 0 <= q < |s.threads| && Owes(s.threads[q], u);
      NobodyLive(c, s, q);
    }
  }

  /** No thread carries a task any more, or is half-way through an add or clear. */
  lemma AllFree(c: Config, s: State, i: nat)
    requires Orderly(c, s) && PoolInv(c, s) && Terminal(c, s) && i < |s.threads|
    ensures BadgeOf(s.threads[i]).Free?
  {
    assert AccountsInv(s) && LockInv(c, s);
    hide Terminal, LockInv, PoolInv, Topological;
    NobodyLive(c, s, i);
    if BadgeOf(s.threads[i]).Carry? {
      CarrierIsOwner(s, i);
      OwnedArePopped(s, BadgeOf(s.threads[i]).x);
      PoppedAreFinished(c, s, BadgeOf(s.threads[i]).x);
    }
  }

  predicate AtRest(p: Pc) {
    p.Client?
    && (p.call.Ready? || (p.call.Waiting? && p.call.w.Sleeping?) || (p.call.TaskWaiting? && p.call.w.Sleeping?))
  }

  /** A running pool ends with an empty queue and its workers asleep. */
  lemma IdlePool(c: Config, s: State)
    requires Orderly(c, s) && c.k >= 1 && PoolInv(c, s) && Terminal(c, s) && !s.stop
    ensures s.queue == [] && s.count == 0
    ensures forall i :: 0 <= i < c.k ==> i < |s.threads| && s.threads[i] == Idle(Sleeping)
    ensures forall i :: 0 <= i < |s.threads| ==> Coming(s.threads[i]) == 0 && !InSection(s.threads[i])
  {
    assert ShapeInv(c, s) && LockInv(c, s) && AccountsInv(s) && ParkInv(s) && NoLostWakeup(s);
    hide PoolInv, Orderly, Terminal, LockInv;
    forall i | 0 <= i < |s.threads|
      ensures Coming(s.threads[i]) == 0 && !InSection(s.threads[i])
      ensures i < c.k ==> s.threads[i] == Idle(Sleeping)
      ensures LedgerOf(s).b[i].Free?
    {
      NobodyLive(c, s, i);
      AllFree(c, s, i);
      assert ThreadShape(c, i, s.threads[i]);
      RestingThread(c, s, s.threads[i]);
    }
    assert s.threads[0] == Idle(Sleeping);
    Sums.Zero(ComingOf(s.threads));
    Sums.Zero(L.Debts(LedgerOf(s).b));
  }

  lemma RestingThread(c: Config, s: State, p: Pc)
    requires !Live(c, s, p) && BadgeOf(p).Free?
    ensures Coming(p) == 0 && !InSection(p)
    ensures !p.Client? ==> p == Idle(Sleeping) || p == Exited
  {}

  /** A pool shut down ends with all workers gone. */
  lemma StoppedPool(c: Config, s: State)
    requires Orderly(c, s) && PoolInv(c, s) && Terminal(c, s) && s.stop
    ensures forall i :: 0 <= i < c.k ==> i < |s.threads| && s.threads[i] == Exited
  {
    assert ShapeInv(c, s) && LockInv(c, s) && ShutdownInv(c, s);
    hide PoolInv, Orderly, Terminal, LockInv, Live, BadgeOf;
    if SomeWorkerAsleep(s) { ShutdownPast(c, s); }
    forall i | 0 <= i < c.k ensures s.threads[i] == Exited {
      NobodyLive(c, s, i);
      AllFree(c, s, i);
      assert ThreadShape(c, i, s.threads[i]);
      RestingThread(c, s, s.threads[i]);
    }
  }

  lemma ShutdownPast(c: Config, s: State)
    requires LockInv(c, s) && Terminal(c, s)
    ensures !exists q :: 0 <= q < |s.threads| && OwesShutdown(s.threads[q])
  {
    hide Terminal, LockInv;
    forall q | 0 <= q < |s.threads| && OwesShutdown(s.threads[q]) ensures false { NobodyLive(c, s, q); }
  }

  /** Every client has run its program to the end or sleeps in a wait. */
  lemma ClientsAtRest(c: Config, s: State, j: nat)
    requires Orderly(c, s) && c.k >= 1 && PoolInv(c, s) && Terminal(c, s)
    requires c.k <= j < |s.threads|
    ensures AtRest(s.threads[j]) && (s.threads[j].call.Ready? ==> s.threads[j].rest == [])
  {
    assert ShapeInv(c, s) && LockInv(c, s) && ParkInv(s);
    assert ThreadShape(c, j, s.threads[j]);
    if s.stop { StoppedPool(c, s); }
    hide PoolInv, Orderly, Terminal, LockInv, ShapeInv;
    NobodyLive(c, s, j);
    assert Stopping(s.threads[j]) ==> s.stop;
  }

  /** A pool wait sleeps for ever only if a clear took the counter to 0; if nothing
      is added, never one called after a clear had emptied the queue. */
  lemma StrandedWaiter(c: Config, s: State, j: nat)
    requires Orderly(c, s) && c.k >= 1 && PoolInv(c, s) && Terminal(c, s) && !s.stop
    requires j < |s.threads| && s.threads[j].Client? && s.threads[j].call.Waiting? && AtRest(s.threads[j])
    ensures s.log.zeroed && (NoAdds(c) ==> !s.threads[j].call.late)
  {
    assert WaitInv(c, s);
    IdlePool(c, s);
    hide PoolInv, Orderly, Terminal, NoAdds;
    assert WaitThread(c, s, s.threads[j]);
  }

  /** The only waiter of a task sleeps for ever only if the task never completes. */
  lemma StrandedTaskWaiter(c: Config, s: State, j: nat)
    requires PoolInv(c, s) && Terminal(c, s)
    requires j < |s.threads| && s.threads[j].Client? && s.threads[j].call.TaskWaiting? && AtRest(s.threads[j])
    requires OneWaiter(c, s.threads[j].call.t)
    ensures !PhaseOf(s.store, s.threads[j].call.t).Complete?
  {
    assert LockInv(c, s) && CompletionInv(c, s);
    hide PoolInv, Terminal, LockInv, OneWaiter;
    assert CompletionThread(c, s, s.threads[j]);
    if FinisherOf(s, s.threads[j].call.t) { NoFinisherLeft(c, s, s.threads[j].call.t); }
  }

  lemma NoFinisherLeft(c: Config, s: State, t: Tid)
    requires LockInv(c, s) && Terminal(c, s)
    ensures !FinisherOf(s, t)
  {
    hide Terminal, LockInv;
    if FinisherOf(s, t) {
      var q :| 0 <= q < |s.threads| && Finishes(s.threads[q], t);
      NobodyLive(c, s, q);
      FinisherLives(c, s, s.threads[q], t);
    }
  }

  lemma FinisherLives(c: Config, s: State, p: Pc, t: Tid)
    requires Finishes(p, t)
    ensures Live(c, s, p)
  {}
}
