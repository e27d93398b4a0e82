/** Which programs of the clients let every wait return.  Once a wait of the pool has
    returned, and nothing is added, the pool is idle for good: later clears strand
    nobody, and a later wait for a task finds it complete. */
module Returns {
  import opened Graphs
  import opened Machine
  import opened Locks
  import opened Accounts
  import opened Programs
  import opened PoolWait
  import opened Completions
  import opened Cancels
  import opened Stages
  import opened Latches
  import opened Precedence
  import opened Adders
  import opened Invariant
  import opened RunsEnd
  import opened ExecutorTheorems
  import opened Stranding
  import opened TaskWaiters

  // ------------------------------------------------------------ idle for good

  /** This client has returned from a wait, or is about to. */
  predicate HasWaited(c: Config, j: nat, p: Pc) {
    ThreadShape(c, j, p) && p.Client? && (Wait in Returned(c, j, p) || (p.call.Waiting? && p.call.w.Release?))
  }

  ghost predicate WaitedInv(c: Config, s: State) {
    forall j :: 0 <= j < |s.threads| && HasWaited(c, j, s.threads[j]) ==> s.count == 0
  }

  lemma QuietCount(s: State, p: Pc)
    requires !BadgeOf(p).Carry? && !(p.Client? && p.call.Adding?) && (EventOf(p).Subtract? ==> s.queue == [])
    ensures CountAfter(s, p) == s.count
  {}

  /** If nothing is added, an idle pool stays idle. */
  lemma IdleStays(c: Config, s: State, l: Label)
    requires NoAdds(c) && PoolInv(c, s) && Enabled(c, s, l) && s.count == 0
    ensures Apply(c, s, l).count == 0
  {
    assert ShapeInv(c, s) && LockInv(c, s) && AccountsInv(s);
    hide PoolInv, NoAdds, LockInv, AccountsInv, ShapeInv, Apply, Enabled, Next, BadgeOf, EventOf,
      QueueAfter, CountAfter, StopAfter, StoreAfter, LogAfter;
    SharedAfter(c, s, l);
    if l.Go? {
      IdleFacts(c, s, l.i);
      NothingAdded(c, s, l.i);
      QuietCount(s, s.threads[l.i]);
    }
  }

  lemma WakeReturned(c: Config, j: nat, p: Pc)
    requires SleepsOn(c, p).Some? && HasWaited(c, j, WakeUp(p))
    ensures HasWaited(c, j, p)
  {}

  /** A client that has waited after its step had before, or found the pool idle. */
  lemma WaitedNext(c: Config, s: State, j: nat, p: Pc)
    requires ThreadShape(c, j, p) && SleepsOn(c, p).None? && HasWaited(c, j, Next(c, s, p))
    ensures HasWaited(c, j, p) || s.count == 0
  {
    var q := Next(c, s, p);
    ShapeNext(c, s, j, p);
    WaitingNext(c, s, p);
    hide Next, Returned, SleepsOn;
    if p.Client? { ReturnedNext(c, s, j, p.rest, p.call); }
  }

  lemma WaitedStep(c: Config, s: State, l: Label)
    requires NoAdds(c) && PoolInv(c, s) && WaitedInv(c, s) && Enabled(c, s, l)
    ensures WaitedInv(c, Apply(c, s, l))
  {
    assert ShapeInv(c, s);
    hide PoolInv, NoAdds, Apply, Enabled, Next, HasWaited, SleepsOn, QueueAfter, CountAfter, StopAfter, StoreAfter,
      LogAfter;
    SharedAfter(c, s, l);
    if s.count == 0 {
      IdleStays(c, s, l);
    } else {
      OthersAfter(c, s, l, l.i);
      forall j | 0 <= j < |s.threads| ensures !HasWaited(c, j, Apply(c, s, l).threads[j]) {
        OthersAfter(c, s, l, j);
        assert ThreadShape(c, j, s.threads[j]);
        if HasWaited(c, j, Apply(c, s, l).threads[j]) {
          if j == l.i && l.Go? { WaitedNext(c, s, j, s.threads[j]); }
          else if Apply(c, s, l).threads[j] != s.threads[j] { WakeReturned(c, j, s.threads[j]); }
        }
      }
    }
  }

  // -------------------------------------------------------- waits and clears

  predicate Begins(prog: seq<Op>, op: Op) { prog != [] && prog[0] == op }

  ghost predicate SomeBegins(c: Config, op: Op) { exists a :: 0 <= a < |c.progs| && Begins(c.progs[a], op) }

  /** A client in a call other than its first has returned from its first. */
  lemma FirstReturned(c: Config, j: nat, p: Pc, op: Op)
    requires j >= c.k && ThreadShape(c, j, p) && !p.call.Ready? && Begins(c.progs[j - c.k], op) && !IsCallOf(p.call, op)
    ensures op in Returned(c, j, p)
  {
    var prog := c.progs[j - c.k];
    assert prog[0] in Returned(c, j, p);
  }

  /** Whoever clears has waited before. */
  ghost predicate WaitsFirst(c: Config) {
    forall i :: 0 <= i < |c.progs| && Clear in c.progs[i] ==> Begins(c.progs[i], Wait)
  }

  /** Only a clear of a queue that holds all that is counted takes the counter to 0. */
  lemma ZeroedBy(s: State, i: nat, p: Pc)
    ensures LogAfter(s, i, p).zeroed && !s.log.zeroed ==>
      p.Client? && p.call.Clearing? && EventOf(p).Subtract? && s.queue != []
  {}

  /** Then a clear finds the pool idle, and strands nobody. */
  lemma NotZeroedStep(c: Config, s: State, l: Label)
    requires NoAdds(c) && WaitsFirst(c) && PoolInv(c, s) && WaitedInv(c, s) && !s.log.zeroed && Enabled(c, s, l)
    ensures !Apply(c, s, l).log.zeroed
  {
    assert ShapeInv(c, s) && LockInv(c, s) && AccountsInv(s);
    hide PoolInv, NoAdds, Apply, Enabled, LockInv, AccountsInv, EventOf, Returned, QueueAfter, CountAfter, StopAfter,
      StoreAfter, LogAfter, SleepsOn, BadgeOf;
    SharedAfter(c, s, l);
    var p := s.threads[l.i];
    if l.Go? && Apply(c, s, l).log.zeroed {
      ZeroedBy(s, l.i, p);
      CallInProgram(c, s, l.i, Clear);
      assert ThreadShape(c, l.i, p);
      FirstReturned(c, l.i, p, Wait);
      IdleFacts(c, s, l.i);
    }
  }

  lemma {:induction false} WaitedSteps(c: Config, s: State, ls: seq<Label>, s': State)
    requires NoAdds(c) && PoolInv(c, s) && WaitedInv(c, s) && (WaitsFirst(c) ==> !s.log.zeroed) && Steps(c, s, ls, s')
    ensures PoolInv(c, s') && WaitedInv(c, s') && (WaitsFirst(c) ==> !s'.log.zeroed)
    decreases |ls|
  {
    if ls != [] {
      assert Enabled(c, s, ls[0]) && Steps(c, Apply(c, s, ls[0]), ls[1..], s');
      hide Apply, Enabled, PoolInv, Steps, WaitedInv, NoAdds, WaitsFirst;
      PoolStep(c, s, ls[0]);
      WaitedStep(c, s, ls[0]);
      if WaitsFirst(c) { NotZeroedStep(c, s, ls[0]); }
      WaitedSteps(c, Apply(c, s, ls[0]), ls[1..], s');
    }
  }

  lemma WaitedStart(c: Config)
    ensures WaitedInv(c, Start(c)) && !Start(c).log.zeroed
  {
    var s := Start(c);
    forall j | 0 <= j < |s.threads| ensures !HasWaited(c, j, s.threads[j]) {
      if j >= c.k { assert s.threads[j] == Client(c.progs[j - c.k], Ready); }
    }
  }

  lemma WaitedReachable(c: Config, s: State)
    requires NoAdds(c) && Reachable(c, s)
    ensures WaitedInv(c, s) && (WaitsFirst(c) ==> !s.log.zeroed)
  {
    hide PoolInv, Steps, Start, WaitedInv, NoAdds, WaitsFirst;
    var ls :| Steps(c, Start(c), ls, s);
    PoolStart(c);
    WaitedStart(c);
    WaitedSteps(c, Start(c), ls, s);
  }

  /** Once some wait of the pool has returned and nothing is added, the pool is idle
      and everything submitted is finished or cleared, in every later state. */
  lemma IdleAfterWait(c: Config, s: State, j: nat)
    requires NoAdds(c) && Reachable(c, s) && j < |s.threads| && HasWaited(c, j, s.threads[j])
    ensures s.count == 0 && Settled(s, s.log.counted)
  {
    PoolReachable(c, s);
    LocksAndAccounts(c, s);
    hide Reachable, NoAdds, HasWaited, PoolInv, LockInv, AccountsInv;
    WaitedReachable(c, s);
    IdleSettled(c, s);
  }

  /** Whoever waits or clears does one of the two first. */
  ghost predicate WaitOrClearFirst(c: Config) {
    forall i :: 0 <= i < |c.progs| && (Wait in c.progs[i] || Clear in c.progs[i]) ==>
      Begins(c.progs[i], Wait) || Begins(c.progs[i], Clear)
  }

  lemma NobodyLeftWaiting(c: Config, rank: Tid -> nat, s: State)
    requires ReadyToRun(c, rank) && Never(c, Destroy) && WaitOrClearFirst(c) && Reachable(c, s) && Terminal(c, s)
    requires !SomeBegins(c, Wait) || !SomeBegins(c, Clear)
    ensures !SomeoneWaits(s)
  {
    ExecReachable(c, s);
    ExecOrderly(c, s);
    assert NoAdds(c) && ShapeInv(c, s) && CancelInv(c, s);
    hide Reachable, Terminal, Executor, Topological, Dag, ExecInv, PoolInv, Orderly, ShapeInv, CancelInv, NoAdds,
      Returned;
    NotStopped(c, s);
    WaitedReachable(c, s);
    if SomeoneWaits(s) {
      var j :| 0 <= j < |s.threads| && WaitsOnPool(s.threads[j]);
      CallInProgram(c, s, j, Wait);
      ClientsAtRest(c, s, j);
      StrandedWaiter(c, s, j);
      if Begins(c.progs[j - c.k], Clear) { LateWaiter(c, s, j); }
    }
  }

  lemma LateWaiter(c: Config, s: State, j: nat)
    requires ShapeInv(c, s) && CancelInv(c, s) && c.k <= j < |s.threads| && s.threads[j].call.Waiting?
    requires j - c.k < |c.progs| && Begins(c.progs[j - c.k], Clear)
    ensures s.threads[j].call.late
  {
    hide Returned;
    assert ThreadShape(c, j, s.threads[j]) && CancelThread(c, s, j, s.threads[j]);
    FirstReturned(c, j, s.threads[j], Clear);
  }

  /** Where the clients that wait for the pool or cancel begin with one of the two, all
      waiters return in all runs exactly if none begins with a wait while another
      begins with a cancel. */
  lemma PoolWaitersReturnIff(c: Config, rank: Tid -> nat)
    requires ReadyToRun(c, rank) && Never(c, Destroy) && c.order != [] && WaitOrClearFirst(c)
    ensures (forall s :: Reachable(c, s) && Terminal(c, s) ==> !SomeoneWaits(s)) <==>
      !(SomeBegins(c, Wait) && SomeBegins(c, Clear))
  {
    hide Reachable, Terminal, Executor, Topological, Dag, SomeoneWaits, WaitOrClearFirst;
    if SomeBegins(c, Wait) && SomeBegins(c, Clear) {
      var a :| 0 <= a < |c.progs| && Begins(c.progs[a], Wait);
      var b :| 0 <= b < |c.progs| && Begins(c.progs[b], Clear);
      ClearCanStrand(c, a, b);
    } else {
      forall s | Reachable(c, s) && Terminal(c, s) ensures !SomeoneWaits(s) { NobodyLeftWaiting(c, rank, s); }
    }
  }

  // ------------------------------------------------------- waits for one task

  predicate ParkedOn(p: Pc, t: Tid) { ParkedOnTask(p) && p.call.t == t }

  /** This client has returned from a wait of the pool. */
  predicate PastWait(c: Config, j: nat, p: Pc) { ThreadShape(c, j, p) && p.Client? && Wait in Returned(c, j, p) }

  /** Everyone parked on t although it is complete has its notification coming, and
      nobody who has waited for the pool is parked on t. */
  ghost predicate TaskWaitInv(c: Config, s: State, t: Tid) {
    && NoticeComing(s, t)
    && forall j :: 0 <= j < |s.threads| && PastWait(c, j, s.threads[j]) ==> !ParkedOn(s.threads[j], t)
  }

  /** On an idle pool every task is complete. */
  lemma IdleComplete(c: Config, s: State, t: Tid)
    requires Executor(c) && Never(c, Clear) && ExecInv(c, s) && s.count == 0 && t in c.order
    ensures PhaseOf(s.store, t).Complete?
  {
    ExecStaged(c, s);
    assert LockInv(c, s) && AccountsInv(s) && PrefixInv(c, s) && WaitInv(c, s);
    hide ExecInv, LockInv;
    IdleSettled(c, s);
    var x :| 0 <= x < |c.order| && c.order[x] == t;
    assert x in LedgerOf(s).finished && x in LedgerOf(s).owner;
    assert Stage(s, x);
  }

  /** A client that has waited for the pool does not come to park on t. */
  lemma PastWaitNext(c: Config, s: State, j: nat, p: Pc, t: Tid)
    requires ThreadShape(c, j, p) && SleepsOn(c, p).None? && PastWait(c, j, Next(c, s, p))
    requires HasWaited(c, j, p) ==> PhaseOf(s.store, t).Complete?
    ensures ParkedOn(Next(c, s, p), t) ==> PastWait(c, j, p) && ParkedOn(p, t)
  {
    var q := Next(c, s, p);
    hide Next, Returned, SleepsOn, ThreadShape;
    if ParkedOn(q, t) {
      ParkedNext(c, s, p);
      ShapeNext(c, s, j, p);
      WaiterIsClient(c, j, p);
      ReturnedNext(c, s, j, p.rest, p.call);
    }
  }

  lemma WaiterIsClient(c: Config, j: nat, p: Pc)
    requires ThreadShape(c, j, p) && p.Client?
    ensures j >= c.k
  {}

  lemma WakePast(c: Config, j: nat, p: Pc, t: Tid)
    requires SleepsOn(c, p).Some?
    ensures !ParkedOn(WakeUp(p), t)
  {}

  lemma ParkedStep(c: Config, s: State, l: Label, t: Tid)
    requires Executor(c) && Never(c, Clear) && ExecInv(c, s) && WaitedInv(c, s) && t in c.order && Enabled(c, s, l)
    requires forall j :: 0 <= j < |s.threads| && PastWait(c, j, s.threads[j]) ==> !ParkedOn(s.threads[j], t)
    ensures var s' := Apply(c, s, l);
      forall j :: 0 <= j < |s'.threads| && PastWait(c, j, s'.threads[j]) ==> !ParkedOn(s'.threads[j], t)
  {
    assert ShapeInv(c, s);
    hide ExecInv, Apply, Enabled, Next, SleepsOn, PastWait, ParkedOn, HasWaited, Executor, QueueAfter, CountAfter,
      StopAfter, StoreAfter, LogAfter;
    SharedAfter(c, s, l);
    OthersAfter(c, s, l, l.i);
    var s' := Apply(c, s, l);
    forall j | 0 <= j < |s'.threads| && PastWait(c, j, s'.threads[j]) ensures !ParkedOn(s'.threads[j], t) {
      OthersAfter(c, s, l, j);
      assert ThreadShape(c, j, s.threads[j]);
      if s'.threads[j] == s.threads[j] {
      } else if j == l.i && l.Go? {
        if HasWaited(c, j, s.threads[j]) { IdleComplete(c, s, t); }
        PastWaitNext(c, s, j, s.threads[j], t);
      } else {
        WakePast(c, j, s.threads[j], t);
      }
    }
  }

  lemma NoticeSpurious(c: Config, s: State, l: Label, t: Tid)
    requires NoticeComing(s, t) && Enabled(c, s, l) && l.Spurious?
    ensures NoticeComing(Apply(c, s, l), t)
  {
    SharedAfter(c, s, l);
    hide Apply, Enabled, Next, SleepsOn;
    if FinisherOf(s, t) { FinisherKept(c, s, l, t); }
    forall j | 0 <= j < |s.threads| && ParkedOn(Apply(c, s, l).threads[j], t) ensures ParkedOn(s.threads[j], t) {
      OthersAfter(c, s, l, j);
      if j == l.i { WakePast(c, j, s.threads[j], t); }
    }
  }

  /** Whoever waits for t does so first, or waits for the pool before. */
  ghost predicate TaskWaitsFirst(c: Config, t: Tid) {
    forall i :: 0 <= i < |c.progs| && TaskWait(t) in c.progs[i] ==>
      Begins(c.progs[i], TaskWait(t)) || Begins(c.progs[i], Wait)
  }

  ghost predicate AtMostOneBegins(c: Config, op: Op) {
    forall a, b :: 0 <= a < b < |c.progs| && Begins(c.progs[a], op) ==> !Begins(c.progs[b], op)
  }

  lemma SleeperBegins(c: Config, s: State, j: nat, t: Tid)
    requires ShapeInv(c, s) && TaskWaitInv(c, s, t) && TaskWaitsFirst(c, t) && Asleep(c, s, j, t)
    ensures c.k <= j < c.k + |c.progs| && Begins(c.progs[j - c.k], TaskWait(t))
  {
    hide Returned, SleepsOn;
    SleeperParked(c, s.threads[j], t);
    CallInProgram(c, s, j, TaskWait(t));
    assert ThreadShape(c, j, s.threads[j]);
    if Begins(c.progs[j - c.k], Wait) {
      FirstReturned(c, j, s.threads[j], Wait);
    }
  }

  lemma OneAsleep(c: Config, s: State, t: Tid)
    requires ShapeInv(c, s) && TaskWaitInv(c, s, t) && TaskWaitsFirst(c, t) && AtMostOneBegins(c, TaskWait(t))
    ensures !TwoAsleep(c, s, t)
  {
    hide Asleep, TaskWaitInv, TaskWaitsFirst;
    if a: nat, b: nat :| a != b && Asleep(c, s, a, t) && Asleep(c, s, b, t) {
      SleeperBegins(c, s, a, t);
      SleeperBegins(c, s, b, t);
    }
  }

  lemma TaskWaitStep(c: Config, s: State, l: Label, t: Tid)
    requires Executor(c) && Never(c, Clear) && ExecInv(c, s) && WaitedInv(c, s) && t in c.order && Enabled(c, s, l)
    requires TaskWaitInv(c, s, t) && TaskWaitsFirst(c, t) && AtMostOneBegins(c, TaskWait(t))
    ensures TaskWaitInv(c, Apply(c, s, l), t)
  {
    assert ShapeInv(c, s) && LockInv(c, s);
    OneAsleep(c, s, t);
    hide Apply, Enabled, ExecInv, LockInv, NoticeComing, TwoAsleep, PastWait, ParkedOn, Executor, TaskWaitsFirst,
      AtMostOneBegins;
    ParkedStep(c, s, l, t);
    if l.Go? { NoticeStep(c, s, l.i, l.pick, t); } else { NoticeSpurious(c, s, l, t); }
  }

  lemma {:induction false} TaskWaitSteps(c: Config, s: State, ls: seq<Label>, s': State, t: Tid)
    requires Executor(c) && Never(c, Clear) && t in c.order && TaskWaitsFirst(c, t) && AtMostOneBegins(c, TaskWait(t))
    requires ExecInv(c, s) && WaitedInv(c, s) && TaskWaitInv(c, s, t) && Steps(c, s, ls, s')
    ensures TaskWaitInv(c, s', t)
    decreases |ls|
  {
    if ls != [] {
      assert Enabled(c, s, ls[0]) && Steps(c, Apply(c, s, ls[0]), ls[1..], s');
      assert NoAdds(c);
      ExecIsPool(c, s);
      hide Apply, Enabled, ExecInv, PoolInv, Steps, WaitedInv, TaskWaitInv, NoAdds, Executor, TaskWaitsFirst,
        AtMostOneBegins;
      ExecStep(c, s, ls[0]);
      WaitedStep(c, s, ls[0]);
      TaskWaitStep(c, s, ls[0], t);
      TaskWaitSteps(c, Apply(c, s, ls[0]), ls[1..], s', t);
    }
  }

  lemma TaskWaitStart(c: Config, t: Tid)
    ensures TaskWaitInv(c, Start(c), t)
  {
    var s := Start(c);
    NoticeStart(c, t);
    forall j | 0 <= j < |s.threads| ensures !ParkedOn(s.threads[j], t) {
      if j >= c.k { assert s.threads[j] == Client(c.progs[j - c.k], Ready); }
    }
  }

  lemma FirstWaiterReturns(c: Config, rank: Tid -> nat, s: State, t: Tid)
    requires ReadyToRun(c, rank) && Undisturbed(c) && t in c.order && Reachable(c, s) && Terminal(c, s)
    requires TaskWaitsFirst(c, t) && AtMostOneBegins(c, TaskWait(t))
    ensures !SomeAsleep(c, s, t)
  {
    hide Terminal, Topological, Dag, TaskWaitsFirst, AtMostOneBegins, SomeAsleep, Start, Steps, ExecInv, WaitedInv,
      TaskWaitInv, CompleteWith;
    var ls :| Steps(c, Start(c), ls, s);
    ExecReachable(c, s);
    ExecStart(c);
    WaitedStart(c);
    TaskWaitStart(c, t);
    TaskWaitSteps(c, Start(c), ls, s, t);
    EveryRunCompletes(c, rank, s);
    var x :| 0 <= x < |c.order| && c.order[x] == t;
    NoNotice(c, s, t);
  }

  lemma NoNotice(c: Config, s: State, t: Tid)
    requires ExecInv(c, s) && Terminal(c, s) && TaskWaitInv(c, s, t) && PhaseOf(s.store, t).Complete?
    ensures !SomeAsleep(c, s, t)
  {
    assert LockInv(c, s);
    hide ExecInv, LockInv, Terminal, SomeAsleep;
    NoneLeft(c, s, t);
  }

  /** Where the programs that wait for t begin with that wait or with one for the pool,
      all waiters of t return in all runs exactly if at most one client begins by
      waiting for t. */
  lemma TaskWaitersReturnIff(c: Config, rank: Tid -> nat, t: Tid)
    requires ReadyToRun(c, rank) && Undisturbed(c) && t in c.order && TaskWaitsFirst(c, t)
    ensures (forall s :: Reachable(c, s) && Terminal(c, s) ==> !SomeAsleep(c, s, t)) <==>
      AtMostOneBegins(c, TaskWait(t))
  {
    hide Reachable, Terminal, Executor, Topological, Dag, Undisturbed, SomeAsleep, TaskWaitsFirst;
    if AtMostOneBegins(c, TaskWait(t)) {
      forall s | Reachable(c, s) && Terminal(c, s) ensures !SomeAsleep(c, s, t) { FirstWaiterReturns(c, rank, s, t); }
    } else {
      var a, b :| 0 <= a < b < |c.progs| && Begins(c.progs[a], TaskWait(t)) && Begins(c.progs[b], TaskWait(t));
      TwoWaitersStrandOne(c, t, a, b);
    }
  }

  // ----------------------------------------------------- what a wait has seen

  /** Whoever has returned from a wait for a task has seen it complete, and it stays so
      if no task is submitted twice. */
  ghost predicate SeenInv(c: Config, s: State) {
    forall j, t :: 0 <= j < |s.threads| && HasSeen(c, j, s.threads[j], t) ==> PhaseOf(s.store, t).Complete?
  }

  lemma CompleteStays(c: Config, s: State, l: Label, t: Tid)
    requires AccountsInv(s) && StageInv(s) && Distinct(s.log.submitted) && Enabled(c, s, l)
    requires PhaseOf(s.store, t).Complete?
    ensures PhaseOf(Apply(c, s, l).store, t).Complete?
  {
    hide Apply, Enabled, Next, AccountsInv, Staged, QueueAfter, CountAfter, StopAfter, LogAfter;
    SharedAfter(c, s, l);
    if l.Go? {
      var p := s.threads[l.i];
      if BadgeOf(p).Carry? && TaskOf(p) == t {
        CarrierStage(s, l.i);
        OwnPhaseKept(c, s, p);
      } else {
        hide StoreAfter;
        StoreOther(c, s, p, t);
      }
    }
  }

  lemma OwnPhaseKept(c: Config, s: State, p: Pc)
    requires PhaseAt(p).Complete? && PhaseOf(s.store, TaskOf(p)).Complete?
    ensures PhaseOf(StoreAfter(c, s, p), TaskOf(p)).Complete?
  {}

  lemma SeenStep(c: Config, s: State, l: Label)
    requires ShapeInv(c, s) && AccountsInv(s) && StageInv(s) && Distinct(s.log.submitted) && SeenInv(c, s)
    requires Enabled(c, s, l)
    ensures SeenInv(c, Apply(c, s, l))
  {
    hide Apply, Enabled, Next, HasSeen, SleepsOn, AccountsInv, StageInv, Distinct, PhaseOf;
    SharedRange(c, s, l);
    var s' := Apply(c, s, l);
    forall j, t | 0 <= j < |s'.threads| && HasSeen(c, j, s'.threads[j], t) ensures PhaseOf(s'.store, t).Complete? {
      OthersAfter(c, s, l, j);
      assert ThreadShape(c, j, s.threads[j]);
      if j == l.i && l.Go? { SeenNext(c, s, j, s.threads[j], t); }
      else if SleepsOn(c, s.threads[j]).Some? { AddedWake(c, j, s.threads[j], t); }
      CompleteStays(c, s, l, t);
    }
  }

  lemma SharedRange(c: Config, s: State, l: Label)
    requires Enabled(c, s, l)
    ensures l.i < |s.threads| == |Apply(c, s, l).threads| && (l.Go? ==> SleepsOn(c, s.threads[l.i]).None?)
  {
    SharedAfter(c, s, l);
  }

  lemma {:induction false} SeenSteps(c: Config, s: State, ls: seq<Label>, s': State)
    requires PoolInv(c, s) && Steps(c, s, ls, s')
    ensures s.log.submitted <= s'.log.submitted
    ensures Distinct(s'.log.submitted) && SeenInv(c, s) ==> SeenInv(c, s')
    decreases |ls|
  {
    if ls != [] {
      assert Enabled(c, s, ls[0]) && Steps(c, Apply(c, s, ls[0]), ls[1..], s');
      assert ShapeInv(c, s) && AccountsInv(s) && StageInv(s);
      hide Apply, Enabled, Steps, PoolInv, ShapeInv, AccountsInv, StageInv, Distinct, SeenInv;
      PoolStep(c, s, ls[0]);
      SubmissionsAfter(c, s, ls[0]);
      SeenSteps(c, Apply(c, s, ls[0]), ls[1..], s');
      if Distinct(s'.log.submitted) && SeenInv(c, s) {
        PrefixDistinct(s.log.submitted, s'.log.submitted);
        SeenStep(c, s, ls[0]);
      }
    }
  }

  lemma SeenStart(c: Config)
    ensures SeenInv(c, Start(c))
  {
    var s := Start(c);
    forall j, t | 0 <= j < |s.threads| ensures !HasSeen(c, j, s.threads[j], t) {
      if j >= c.k { assert s.threads[j] == Client(c.progs[j - c.k], Ready); }
    }
  }

  /** A wait for a task returns only when the task is complete, and it stays complete:
      any pool to which no task is submitted twice. */
  lemma TaskWaitReturnsComplete(c: Config, s: State, j: nat, t: Tid)
    requires Reachable(c, s) && Distinct(s.log.submitted) && j < |s.threads|
    requires ThreadShape(c, j, s.threads[j]) && s.threads[j].Client? && TaskWait(t) in Returned(c, j, s.threads[j])
    ensures Done(s.store, t)
  {
    hide Steps, Start, Returned, SeenInv;
    var ls :| Steps(c, Start(c), ls, s);
    PoolStart(c);
    SeenStart(c);
    SeenSteps(c, Start(c), ls, s);
    PoolReachable(c, s);
    assert PhaseOf(s.store, t).Complete? by { SeenComplete(c, s, j, t); }
    CompleteIsDone(c, s, t);
  }

  lemma SeenComplete(c: Config, s: State, j: nat, t: Tid)
    requires SeenInv(c, s) && j < |s.threads| && HasSeen(c, j, s.threads[j], t)
    ensures PhaseOf(s.store, t).Complete?
  {}

  lemma CompleteIsDone(c: Config, s: State, t: Tid)
    requires PoolInv(c, s) && Distinct(s.log.submitted) && PhaseOf(s.store, t).Complete?
    ensures Done(s.store, t)
  {
    assert StageInv(s) && TouchedInv(s);
    assert !Untouched(s.store, t);
    var x :| 0 <= x < |s.log.submitted| && s.log.submitted[x] == t;
    assert Stage(s, x);
  }
}
