/** When a sleeper is left behind.  A clear notifies nobody, so that it strands the
    threads asleep in the wait of the pool exactly if it takes the counter to 0
    while no worker is between its decrement and its notification. */
module Stranding {
  import opened Graphs
  import opened VoidFilter
  import opened Machine
  import opened Locks
  import opened Accounts
  import opened Programs
  import opened Sleepers
  import opened Termination
  import opened PoolWait
  import opened Stages
  import opened Invariant
  import opened RunsEnd
  import opened ExecutorTheorems
  import L = Ledgers

  ghost predicate Stranded(s: State, j: nat) {
    j < |s.threads| && WaitsOnPool(s.threads[j]) && s.count == 0 && !SomeInSection(s)
  }

  /** On an idle pool nobody carries a task, and whoever may take from the queue
      finds it empty. */
  lemma IdleFacts(c: Config, s: State, i: nat)
    requires LockInv(c, s) && AccountsInv(s) && s.count == 0 && i < |s.threads|
    ensures !BadgeOf(s.threads[i]).Carry?
    ensures EventOf(s.threads[i]).Subtract? ==> s.queue == []
  {
    var h := TaskMtxHolder(c, s);
    L.ZeroMeansSettled(LedgerOf(s), h);
    assert LedgerOf(s).b[i] == BadgeOf(s.threads[i]);
    if EventOf(s.threads[i]).Subtract? { ClearFits(c, s, i); }
  }

  lemma StrandStep(c: Config, s: State, i: nat, pick: nat, j: nat)
    requires NoAdds(c) && PoolInv(c, s) && Enabled(c, s, Go(i, pick)) && Stranded(s, j)
    ensures Stranded(Apply(c, s, Go(i, pick)), j)
  {
    assert ShapeInv(c, s) && LockInv(c, s) && AccountsInv(s);
    hide PoolInv, NoAdds, LockInv, AccountsInv, ShapeInv, Apply, Enabled, Next, BadgeOf, EventOf, SleepsOn,
      QueueAfter, CountAfter, StopAfter, StoreAfter, LogAfter, Wakes;
    var p := s.threads[i];
    var s' := Apply(c, s, Go(i, pick));
    SharedAfter(c, s, Go(i, pick));
    IdleFacts(c, s, i);
    NothingAdded(c, s, i);
    QuietMover(c, s, p);
    OthersAfter(c, s, Go(i, pick), i);
    OthersAfter(c, s, Go(i, pick), j);
    if SleepsOn(c, s.threads[j]).Some? { WaiterSleeps(c, s.threads[j]); }
    if SomeInSection(s') {
      var q :| 0 <= q < |s'.threads| && InSection(s'.threads[q]);
      OthersAfter(c, s, Go(i, pick), q);
      if SleepsOn(c, s.threads[q]).Some? { SleeperOutside(c, s.threads[q]); }
    }
  }

  lemma WaiterSleeps(c: Config, p: Pc)
    requires WaitsOnPool(p) && SleepsOn(c, p).Some?
    ensures SleepsOn(c, p) == Some(WaitCv)
  {}

  lemma SleeperOutside(c: Config, p: Pc)
    requires SleepsOn(c, p).Some?
    ensures !InSection(WakeUp(p))
  {}

  /** A thread that carries nothing and is not in its section leaves the count, the
      section and the waiters as they are. */
  lemma QuietMover(c: Config, s: State, p: Pc)
    requires SleepsOn(c, p).None? && !BadgeOf(p).Carry? && !InSection(p) && !(p.Client? && p.call.Adding?)
    requires EventOf(p).Subtract? ==> s.queue == []
    ensures CountAfter(s, p) == s.count && !InSection(Next(c, s, p))
    ensures Wakes(p).NoWake? || Wakes(p) == All(WorkerCv)
    ensures WaitsOnPool(p) ==> WaitsOnPool(Next(c, s, p))
  {}

  /** Until a wake-up without a notification, a stranded waiter stays asleep. */
  lemma {:induction false} StrandedForever(c: Config, s: State, ls: seq<Label>, s': State, j: nat)
    requires NoAdds(c) && PoolInv(c, s) && Stranded(s, j) && Steps(c, s, ls, s') && Notified(ls)
    ensures PoolInv(c, s') && Stranded(s', j)
    decreases |ls|
  {
    if ls != [] {
      assert Enabled(c, s, ls[0]) && Steps(c, Apply(c, s, ls[0]), ls[1..], s');
      assert ls[0] == Go(ls[0].i, ls[0].pick);
      hide Apply, Enabled, PoolInv, Steps, Stranded, NoAdds;
      PoolStep(c, s, ls[0]);
      StrandStep(c, s, ls[0].i, ls[0].pick, j);
      StrandedForever(c, Apply(c, s, ls[0]), ls[1..], s', j);
    }
  }

  // ------------------------------------------------------------ the last clear

  /** No clear is still to take the size of the queue off the counter. */
  predicate PastClears(p: Pc) {
    p.Client? ==> Clear !in p.rest && p.call != Clearing(ClWant) && p.call != Clearing(ClSub)
  }

  ghost predicate NoMoreClears(s: State) { forall q :: 0 <= q < |s.threads| ==> PastClears(s.threads[q]) }

  lemma ClearsStep(c: Config, s: State, l: Label)
    requires NoMoreClears(s) && Enabled(c, s, l)
    ensures NoMoreClears(Apply(c, s, l))
  {
    assert l.i < |s.threads|;
    if l.Go? { assert SleepsOn(c, s.threads[l.i]).None?; ClearsNext(c, s, s.threads[l.i]); }
    hide Apply, Enabled, Next;
    OthersAfter(c, s, l, l.i);
    forall q | 0 <= q < |Apply(c, s, l).threads| ensures PastClears(Apply(c, s, l).threads[q]) {
      OthersAfter(c, s, l, q);
      assert PastClears(s.threads[q]) && PastClears(WakeUp(s.threads[q]));
    }
  }

  lemma ClearsNext(c: Config, s: State, p: Pc)
    requires PastClears(p)
    ensures PastClears(Next(c, s, p))
  {
    hide KeptOf;
  }

  /** A parked waiter with a wake-up coming. */
  ghost predicate Awaited(s: State, j: nat) {
    j < |s.threads| && (WaitsOnPool(s.threads[j]) ==> s.count > 0 || SomeInSection(s))
  }

  /** What the mover does to the counter around the section. */
  lemma SectionMoves(c: Config, s: State, p: Pc)
    ensures p.Client? && p.call.Waiting? ==> CountAfter(s, p) == s.count
    ensures p.Tail? && (p.d.NotifyAll? || p.d.Load?) ==> CountAfter(s, p) == s.count
    ensures p.Tail? && p.d.NotifyAll? ==> Wakes(p) == All(WaitCv) && Holds(c, p, WaitMtx)
  {}

  lemma AwaitedStep(c: Config, s: State, l: Label, j: nat)
    requires LockInv(c, s) && AccountsInv(s) && Awaited(s, j) && Enabled(c, s, l)
    requires l.Go? ==> !EventOf(s.threads[l.i]).Subtract?
    ensures Awaited(Apply(c, s, l), j)
  {
    hide Apply, Enabled, Next, QueueAfter, CountAfter, StopAfter, StoreAfter, LogAfter, LockInv, AccountsInv,
      SomeInSection, EventOf, Holds;
    SharedAfter(c, s, l);
    var p := s.threads[l.i];
    CountNeverNegative(c, s);
    if l.Go? {
      WaitingNext(c, s, p);
      SectionMoves(c, s, p);
      if s.count > 0 { CountKept(c, s, l.i, l.pick); }
    }
    if SomeInSection(s) { SectionKept(c, s, l); }
    OthersAfter(c, s, l, l.i);
    OthersAfter(c, s, l, j);
    if j != l.i && l.Go? && p.Tail? && p.d.NotifyAll? && WaitsOnPool(s.threads[j]) { NotWhileNotifying(c, s, l.i, j); }
  }

  lemma NotWhileNotifying(c: Config, s: State, i: nat, j: nat)
    requires LockInv(c, s) && i < |s.threads| && j < |s.threads| && i != j
    requires Holds(c, s.threads[i], WaitMtx) && WaitsOnPool(s.threads[j])
    ensures SleepsOn(c, s.threads[j]) == Some(WaitCv)
  {
    if s.threads[j].call.w.Parking? {
      assert Holds(c, s.threads[j], WaitMtx);
      OneHolder(c, s, i, j, WaitMtx);
    }
  }

  lemma {:induction false} AwaitedRun(c: Config, s: State, ls: seq<Label>, s': State, j: nat)
    requires PoolInv(c, s) && Awaited(s, j) && NoMoreClears(s) && Steps(c, s, ls, s')
    ensures Awaited(s', j)
    decreases |ls|
  {
    if ls != [] {
      assert Enabled(c, s, ls[0]) && Steps(c, Apply(c, s, ls[0]), ls[1..], s');
      hide Apply, Enabled, PoolInv, Steps, LockInv, AccountsInv, NoMoreClears, Awaited;
      LocksAndAccounts(c, s);
      NoSubtraction(c, s, ls[0]);
      PoolStep(c, s, ls[0]);
      AwaitedStep(c, s, ls[0], j);
      ClearsStep(c, s, ls[0]);
      AwaitedRun(c, Apply(c, s, ls[0]), ls[1..], s', j);
    }
  }

  lemma NoSubtraction(c: Config, s: State, l: Label)
    requires NoMoreClears(s) && Enabled(c, s, l)
    ensures l.i < |s.threads| && !EventOf(s.threads[l.i]).Subtract?
  {
    assert PastClears(s.threads[l.i]);
  }

  lemma AtClear(c: Config, s: State, i: nat, pick: nat, j: nat)
    requires LockInv(c, s) && AccountsInv(s) && Enabled(c, s, Go(i, pick))
    requires s.threads[i].Client? && s.threads[i].call == Clearing(ClSub) && j < |s.threads|
    ensures var s' := Apply(c, s, Go(i, pick));
      && j < |s'.threads| && WaitsOnPool(s'.threads[j]) == WaitsOnPool(s.threads[j])
      && SomeInSection(s') == SomeInSection(s)
      && s'.count == s.count - |s.queue| >= 0
  {
    var p := s.threads[i];
    ClearFits(c, s, i);
    ClearMover(c, s, p);
    SharedAfter(c, s, Go(i, pick));
    hide Apply, Enabled, Next, LockInv, AccountsInv, Wakes;
    if SomeInSection(s) { SectionKept(c, s, Go(i, pick)); }
    var s' := Apply(c, s, Go(i, pick));
    OthersAfter(c, s, Go(i, pick), i);
    OthersAfter(c, s, Go(i, pick), j);
    if SomeInSection(s') {
      var q :| 0 <= q < |s'.threads| && InSection(s'.threads[q]);
      OthersAfter(c, s, Go(i, pick), q);
    }
  }

  lemma ClearMover(c: Config, s: State, p: Pc)
    requires p.Client? && p.call == Clearing(ClSub)
    ensures Wakes(p).NoWake? && !InSection(Next(c, s, p)) && !WaitsOnPool(p) && !WaitsOnPool(Next(c, s, p))
    ensures CountAfter(s, p) == s.count - |s.queue|
  {}

  /** The last clear of a run of the executor leaves a thread asleep for ever in the
      wait of the pool exactly if the thread is parked there at that moment, the
      counter is the size of the queue and no worker is in its section.  Whoever is
      still on the way into a wait, or calls it later, returns. */
  lemma LastClearStrands(c: Config, rank: Tid -> nat, s: State, i: nat, pick: nat, ls: seq<Label>, s': State, j: nat)
    requires ReadyToRun(c, rank) && Never(c, Destroy) && Reachable(c, s) && Enabled(c, s, Go(i, pick))
    requires s.threads[i].Client? && s.threads[i].call == Clearing(ClSub) && j < |s.threads|
    requires NoMoreClears(Apply(c, s, Go(i, pick))) && Steps(c, Apply(c, s, Go(i, pick)), ls, s') && Notified(ls)
    requires Terminal(c, s')
    ensures j < |s'.threads|
    ensures WaitsOnPool(s'.threads[j]) <==> WaitsOnPool(s.threads[j]) && s.count == |s.queue| && !SomeInSection(s)
  {
    hide Reachable, Terminal, ExecInv, PoolInv, Executor, Topological, Dag, Apply, Enabled, Steps, LockInv,
      AccountsInv, NoAdds, WaitsOnPool, Orderly, NoMoreClears, SomeInSection, Stranded, Awaited;
    ExecReachable(c, s);
    ExecIsPool(c, s);
    ExecutorAddsNothing(c);
    LocksAndAccounts(c, s);
    EnabledRange(c, s, Go(i, pick));
    var s1 := Apply(c, s, Go(i, pick));
    AtClear(c, s, i, pick, j);
    ExecStep(c, s, Go(i, pick));
    ExecSteps(c, s1, ls, s');
    ExecIsPool(c, s1);
    if WaitsOnPool(s.threads[j]) && s.count == |s.queue| && !SomeInSection(s) {
      StrandedIs(s1, j);
      StrandedForever(c, s1, ls, s', j);
      StrandedIs(s', j);
    } else {
      AwaitedIs(s1, j);
      AwaitedRun(c, s1, ls, s', j);
      ExecOrderly(c, s');
      NotStopped(c, s');
      IdlePool(c, s');
      AwaitedIs(s', j);
    }
  }

  lemma ExecutorAddsNothing(c: Config)
    requires Executor(c)
    ensures NoAdds(c)
  {}

  lemma StrandedIs(s: State, j: nat)
    ensures Stranded(s, j) <==> j < |s.threads| && WaitsOnPool(s.threads[j]) && s.count == 0 && !SomeInSection(s)
  {}

  lemma AwaitedIs(s: State, j: nat)
    ensures j < |s.threads| && (!WaitsOnPool(s.threads[j]) || s.count > 0 || SomeInSection(s)) ==> Awaited(s, j)
    ensures Awaited(s, j) && s.count == 0 && (forall q :: 0 <= q < |s.threads| ==> !InSection(s.threads[q])) ==>
      j < |s.threads| && !WaitsOnPool(s.threads[j])
  {}

  lemma ExecIsPool(c: Config, s: State)
    requires ExecInv(c, s)
    ensures PoolInv(c, s)
  {}

  // ----------------------------------------------------- what the clients call

  /** One client has parked in its wait, another is about to subtract the queue. */
  lemma ParkThenClear(c: Config, a: nat, b: nat) returns (s: State)
    requires c.order != [] && a != b
    requires a < |c.progs| && c.progs[a] != [] && c.progs[a][0] == Wait
    requires b < |c.progs| && c.progs[b] != [] && c.progs[b][0] == Clear
    ensures Reachable(c, s) && c.k + a < |s.threads| && c.k + b < |s.threads| && WaitsOnPool(s.threads[c.k + a])
    ensures s.threads[c.k + b].Client? && s.threads[c.k + b].call == Clearing(ClSub)
    ensures s.count == |s.queue| && !SomeInSection(s) && Enabled(c, s, Go(c.k + b, 0))
  {
    hide Steps;
    var s0, i, j := Start(c), c.k + a, c.k + b;
    var restA, restB := c.progs[a][1..], c.progs[b][1..];
    assert s0.threads[i] == Client(c.progs[a], Ready) && s0.threads[j] == Client(c.progs[b], Ready);
    assert [Wait] + restA == c.progs[a] && c.progs[b] == [Clear] + restB;
    FallsAsleep(c, s0, i, Wait, restA);
    var s1 := s0.(threads := s0.threads[i := Caller(s0, Wait, restA, 4)]);
    s := StartsClear(c, s1, j, restB);
    JoinSteps(c, s0, Alone(i, 4), s1, [Go(j, 0)] + [Go(j, 0)], s);
  }

  /** Calling clear and taking the task mutex. */
  lemma StartsClear(c: Config, s: State, j: nat, rest: seq<Op>) returns (s': State)
    requires j < |s.threads| && s.threads[j] == Client([Clear] + rest, Ready) && s.locks == map[]
    ensures Steps(c, s, [Go(j, 0)] + [Go(j, 0)], s')
    ensures s' == s.(threads := s.threads[j := Client(rest, Clearing(ClSub))], locks := map[TasksMtx := j])
  {
    hide Steps;
    var s1 := s.(threads := s.threads[j := Client(rest, Clearing(ClWant))]);
    s' := s.(threads := s.threads[j := Client(rest, Clearing(ClSub))], locks := map[TasksMtx := j]);
    QuietStep(c, s, j, s1);
    QuietStep(c, s1, j, s');
    JoinSteps(c, s, [Go(j, 0)], s1, [Go(j, 0)], s');
  }

  /** Whatever the graph, the order and the number of workers: if one client begins by
      waiting for the pool and another by cancelling, some run ends with the first
      asleep. */
  lemma ClearCanStrand(c: Config, a: nat, b: nat)
    requires Executor(c) && c.order != [] && a != b
    requires a < |c.progs| && c.progs[a] != [] && c.progs[a][0] == Wait
    requires b < |c.progs| && c.progs[b] != [] && c.progs[b][0] == Clear
    ensures exists s :: Reachable(c, s) && Terminal(c, s) && SomeoneWaits(s)
  {
    hide Reachable, Terminal, Executor, Steps, PoolInv, Enabled, Apply, WaitsOnPool, SomeInSection;
    var s := ParkThenClear(c, a, b);
    var i, l := c.k + a, Go(c.k + b, 0);
    ClearStrandsNow(c, s, i, c.k + b);
    var end := Drive(c, Apply(c, s, l), AnyStep(c));
    StrandedForever(c, Apply(c, s, l), end.1, end.0, i);
    ConsSteps(c, s, l, end.1, end.0);
    ReachFurther(c, s, [l] + end.1, end.0);
  }

  ghost predicate SomeoneWaits(s: State) { exists j :: 0 <= j < |s.threads| && WaitsOnPool(s.threads[j]) }

  lemma ClearStrandsNow(c: Config, s: State, i: nat, j: nat)
    requires Executor(c) && Reachable(c, s) && i < |s.threads| && j < |s.threads| && WaitsOnPool(s.threads[i])
    requires s.threads[j].Client? && s.threads[j].call == Clearing(ClSub) && Enabled(c, s, Go(j, 0))
    requires s.count == |s.queue| && !SomeInSection(s)
    ensures NoAdds(c) && PoolInv(c, Apply(c, s, Go(j, 0))) && Stranded(Apply(c, s, Go(j, 0)), i)
  {
    hide Reachable, Enabled, Apply, PoolInv, SomeInSection, WaitsOnPool;
    PoolReachable(c, s);
    assert LockInv(c, s) && AccountsInv(s) by { LocksAndAccounts(c, s); }
    PoolStep(c, s, Go(j, 0));
    AtClear(c, s, j, 0, i);
  }

  lemma LocksAndAccounts(c: Config, s: State)
    requires PoolInv(c, s)
    ensures LockInv(c, s) && AccountsInv(s)
  {}

  lemma ConsSteps(c: Config, s: State, l: Label, ls: seq<Label>, s': State)
    requires Enabled(c, s, l) && Steps(c, Apply(c, s, l), ls, s')
    ensures Steps(c, s, [l] + ls, s')
  {
    hide Enabled, Apply;
    assert ([l] + ls)[1..] == ls;
  }
}
