/** What holds of the pool in every reachable state: any number of workers and
    of clients, any programs, any graph (also a cyclic one), spurious wake-ups
    included. */
module PoolTheorems {
  import opened Graphs
  import opened VoidFilter
  import opened Machine
  import opened Locks
  import opened Accounts
  import opened Programs
  import opened Wakeups
  import opened Latches
  import opened PoolWait
  import opened Completions
  import opened Stages
  import opened Precedence
  import opened Callbacks
  import opened StuckSets
  import opened Invariant
  import L = Ledgers
  import Sums

  /** No two threads are ever inside sections of the same mutex. */
  lemma MutualExclusion(c: Config, s: State, i: nat, j: nat, m: Mutex)
    requires Reachable(c, s) && i < |s.threads| && j < |s.threads|
    requires Holds(c, s.threads[i], m) && Holds(c, s.threads[j], m)
    ensures i == j
  {
    hide Reachable, Holds;
    PoolReachable(c, s);
    OneHolder(c, s, i, j, m);
  }

  /** Conservation: the counter is the queue plus the popped tasks not yet
      decremented, corrected by an add or a clear under way, and never negative. */
  lemma Conservation(c: Config, s: State)
    requires Reachable(c, s)
    ensures s.count == |s.queue| + L.Sum(Badges(s.threads)) && s.count >= 0
    ensures TasksMtx !in s.locks ==> forall j :: 0 <= j < |s.threads| ==> L.Owed(Badges(s.threads)[j]) >= 0
  {
    hide Reachable;
    PoolReachable(c, s);
    CountNeverNegative(c, s);
    if TasksMtx !in s.locks { Aloneness(c, s, 0); }
  }

  /** FIFO: popped tickets followed by the queued ones increase strictly; every
      submission is popped, cleared or queued, a popped one is not cleared, and a
      queued one is cleared only by the clear that is about to empty the queue. */
  lemma FirstInFirstOut(c: Config, s: State)
    requires Reachable(c, s)
    ensures Head(s) + |s.queue| == |s.log.submitted| && s.queue == s.log.submitted[Head(s)..]
    ensures forall a, b :: 0 <= a < b < |s.log.popped| ==> s.log.popped[a] < s.log.popped[b]
    ensures forall x :: x in s.log.popped ==> x < Head(s) && x !in s.log.cleared
    ensures forall x :: 0 <= x < Head(s) ==> x in s.log.popped || x in s.log.cleared
    ensures forall x :: x in s.log.cleared && x >= Head(s) ==> TasksMtx in s.locks
    ensures forall x :: x in s.log.finished ==> x in s.log.popped
  {
    hide Reachable;
    PoolReachable(c, s);
    var l := LedgerOf(s);
    assert L.Ownership(l) && L.Partition(l) && L.InOrder(l) && L.QueueIsSuffix(l);
    assert L.Head(l) == Head(s);
    hide PoolInv, L.Counts, L.QueueIsSuffix;
    forall x | x in l.popped ensures x < Head(s) && x !in s.log.cleared { assert x in l.owner; }
    forall x | x in l.finished ensures x in l.popped { assert x in l.owner; }
    forall x: nat | 0 <= x < Head(s) && x !in s.log.cleared ensures x in l.popped { assert x in l.owner; }
    forall x | x in s.log.cleared && x >= Head(s) ensures TasksMtx in s.locks {
      var j :| 0 <= j < |l.b| && l.b[j].Dropping?;
      DroppingLocks(c, s, j);
    }
  }

  lemma DroppingLocks(c: Config, s: State, j: nat)
    requires PoolInv(c, s) && j < |s.threads| && Badges(s.threads)[j].Dropping?
    ensures TasksMtx in s.locks
  {
    assert LockInv(c, s);
    hide PoolInv;
    ExclusiveHolds(c, s.threads[j]);
  }

  /** No task is run twice: two workers never carry the same submission, and a
      finished one is carried by nobody. */
  lemma NoTaskTwice(c: Config, s: State, i: nat, j: nat)
    requires Reachable(c, s) && i < |s.threads| && j < |s.threads|
    requires BadgeOf(s.threads[i]).Carry? && BadgeOf(s.threads[j]).Carry?
    requires BadgeOf(s.threads[i]).x == BadgeOf(s.threads[j]).x
    ensures i == j && BadgeOf(s.threads[i]).x !in s.log.finished
  {
    hide Reachable;
    PoolReachable(c, s);
    CarrierIsOwner(s, i);
    CarrierIsOwner(s, j);
  }

  /** No lost wake-up of a worker. */
  lemma WorkersAreWoken(c: Config, s: State)
    requires Reachable(c, s) && SomeWorkerAsleep(s) && !s.stop
    ensures |s.queue| <= Sums.Sum(ComingOf(s.threads))
    ensures (forall j :: 0 <= j < |s.threads| ==> Coming(s.threads[j]) == 0) ==> s.queue == []
  {
    hide Reachable;
    PoolReachable(c, s);
    if forall j :: 0 <= j < |s.threads| ==> Coming(s.threads[j]) == 0 { Sums.Zero(ComingOf(s.threads)); }
  }

  /** When a pool wait returns, every submission counted when it was called has
      finished running or was cleared. */
  lemma WaitReturnsSettled(c: Config, s: State, j: nat, x: nat)
    requires Reachable(c, s) && j < |s.threads|
    requires s.threads[j].Client? && s.threads[j].call.Waiting? && s.threads[j].call.w.Release?
    requires x < s.threads[j].call.seen
    ensures x in s.log.finished || x in s.log.cleared
  {
    hide Reachable;
    PoolReachable(c, s);
    assert SettledThread(s, s.threads[j]);
  }

  /** The client is in the wait it has called with rest still to do, or past it; then
      the first n submissions are settled. */
  ghost predicate InWait(s: State, p: Pc, rest: seq<Op>, n: nat) {
    && p.Client? && (p.rest == rest || |p.rest| < |rest|)
    && if p.rest == rest && !p.call.Ready? then p.call.Waiting? && p.call.seen == n else Settled(s, n)
  }

  lemma InWaitNext(c: Config, s: State, i: nat, p: Pc, rest: seq<Op>, n: nat)
    requires InWait(s, p, rest, n) && SleepsOn(c, p).None?
    requires SettledThread(s, p)
    ensures InWait(s.(log := LogAfter(s, i, p)), Next(c, s, p), rest, n)
  {
    LogGrows(s, i, p);
    hide LogAfter;
    WaitMoves(c, s, p.rest, p.call);
  }

  lemma WaitMoves(c: Config, s: State, rest: seq<Op>, call: Call)
    requires SleepsOn(c, Client(rest, call)).None?
    ensures var q := Next(c, s, Client(rest, call));
      && q.Client? && (if call.Ready? && rest != [] then q.rest == rest[1..] else q.rest == rest)
      && (call.Waiting? ==> if call.w.Release? then q.call.Ready? else q.call.Waiting? && q.call.seen == call.seen)
  {}

  lemma InWaitWake(c: Config, s: State, p: Pc, rest: seq<Op>, n: nat)
    requires SleepsOn(c, p).Some? && InWait(s, p, rest, n)
    ensures InWait(s, WakeUp(p), rest, n)
  {}

  lemma InWaitLater(s: State, s': State, p: Pc, rest: seq<Op>, n: nat)
    requires InWait(s, p, rest, n) && s.log.finished <= s'.log.finished && s.log.cleared <= s'.log.cleared
    ensures InWait(s', p, rest, n)
  {}

  lemma InWaitStep(c: Config, s: State, l: Label, j: nat, rest: seq<Op>, n: nat)
    requires SettledInv(s) && j < |s.threads| && InWait(s, s.threads[j], rest, n) && Enabled(c, s, l)
    ensures |Apply(c, s, l).threads| == |s.threads| && InWait(Apply(c, s, l), Apply(c, s, l).threads[j], rest, n)
  {
    hide Apply, Enabled, Next, InWait, SleepsOn, QueueAfter, CountAfter, StopAfter, StoreAfter, LogAfter;
    SharedAfter(c, s, l);
    OthersAfter(c, s, l, j);
    var s' := Apply(c, s, l);
    if l.Go? { LogGrows(s, l.i, s.threads[l.i]); }
    if j == l.i && l.Go? {
      InWaitNext(c, s, j, s.threads[j], rest, n);
      InWaitLater(s.(log := LogAfter(s, j, s.threads[j])), s', s'.threads[j], rest, n);
    } else {
      if SleepsOn(c, s.threads[j]).Some? { InWaitWake(c, s, s.threads[j], rest, n); }
      InWaitLater(s, s', s'.threads[j], rest, n);
    }
  }

  lemma {:induction false} InWaitSteps(c: Config, s: State, ls: seq<Label>, s': State, j: nat, rest: seq<Op>, n: nat)
    requires PoolInv(c, s) && j < |s.threads| && InWait(s, s.threads[j], rest, n) && Steps(c, s, ls, s')
    ensures j < |s'.threads| && InWait(s', s'.threads[j], rest, n)
    decreases |ls|
  {
    if ls != [] {
      assert Enabled(c, s, ls[0]) && Steps(c, Apply(c, s, ls[0]), ls[1..], s');
      assert SettledInv(s);
      hide Apply, Enabled, Steps, PoolInv, SettledInv, InWait;
      PoolStep(c, s, ls[0]);
      InWaitStep(c, s, ls[0], j, rest, n);
      InWaitSteps(c, Apply(c, s, ls[0]), ls[1..], s', j, rest, n);
    }
  }

  /** From the call to the return: when a client that calls wait in s has returned from
      it, every submission counted in s has finished or was cleared. */
  lemma WaitSettles(c: Config, s: State, j: nat, pick: nat, ls: seq<Label>, s': State)
    requires Reachable(c, s) && j < |s.threads| && Enabled(c, s, Go(j, pick))
    requires s.threads[j].Client? && s.threads[j].call.Ready? && s.threads[j].rest != [] && s.threads[j].rest[0] == Wait
    requires Steps(c, Apply(c, s, Go(j, pick)), ls, s')
    ensures j < |s'.threads| && s'.threads[j].Client?
    ensures s'.threads[j].call.Ready? || |s'.threads[j].rest| + 1 < |s.threads[j].rest| ==> Settled(s', s.log.counted)
  {
    var s1, rest := Apply(c, s, Go(j, pick)), s.threads[j].rest[1..];
    OthersAfter(c, s, Go(j, pick), j);
    assert InWait(s1, s1.threads[j], rest, s.log.counted);
    hide Apply, Enabled, Steps, Reachable, PoolInv;
    PoolReachable(c, s);
    PoolStep(c, s, Go(j, pick));
    InWaitSteps(c, s1, ls, s', j, rest, s.log.counted);
  }

  /** Without clears no waiter is left asleep on an idle pool, however many wait
      and whatever is added between a decrement and its load. */
  lemma WaitersAreWoken(c: Config, s: State, j: nat)
    requires Reachable(c, s) && Never(c, Clear) && s.count == 0 && !SomeInSection(s)
    requires j < |s.threads|
    ensures !WaitsOnPool(s.threads[j])
  {
    hide Reachable;
    PoolReachable(c, s);
    assert WaitThread(c, s, s.threads[j]);
  }

  /** Once an edge is published and its notifier is past the notification, no
      consumer of it is asleep or about to sleep. */
  lemma ConsumersAreWoken(c: Config, s: State, j: nat)
    requires Reachable(c, s) && j < |s.threads|
    requires InputWait(c, s.threads[j]).Some? && InputWait(c, s.threads[j]).value.0 in s.store.flag
    requires !NotifierOf(s, InputWait(c, s.threads[j]).value.0)
    ensures !InputWait(c, s.threads[j]).value.1.Sleeping? && !InputWait(c, s.threads[j]).value.1.Parking?
  {
    hide Reachable;
    PoolReachable(c, s);
    assert LatchThread(c, s, s.threads[j]);
  }

  /** The only waiter of a task is not asleep once the task has completed and its
      worker is past the notification. */
  lemma TaskWaiterIsWoken(c: Config, s: State, j: nat)
    requires Reachable(c, s) && j < |s.threads| && ParkedOnTask(s.threads[j])
    requires OneWaiter(c, s.threads[j].call.t) && !FinisherOf(s, s.threads[j].call.t)
    ensures !PhaseOf(s.store, s.threads[j].call.t).Complete?
  {
    hide Reachable;
    PoolReachable(c, s);
    assert CompletionThread(c, s, s.threads[j]);
  }

  /** Schedule independence: a published edge and a complete task hold the value
      of recursive evaluation. */
  lemma ScheduleIndependence(c: Config, rank: Tid -> nat, s: State, t: Tid)
    requires Dag(c.g, rank) && Reachable(c, s) && t in c.g
    ensures t in s.store.flag && !c.g[t].out.Void? ==> t in s.store.data && s.store.data[t] == Eval(c.g, rank, c.fn, t)
    ensures PhaseOf(s.store, t).Complete? ==>
      t in s.store.flag && t in s.store.result && s.store.result[t] == Eval(c.g, rank, c.fn, t)
  {
    hide Reachable, Eval;
    ValueReachable(c, rank, s);
  }

  /** Nothing depending on itself or on a task nobody submits ever starts. */
  lemma StuckNeverStarts(c: Config, stuck: set<Tid>, s: State, t: Tid)
    requires StuckSet(c, stuck) && Reachable(c, s) && t in stuck
    ensures PhaseOf(s.store, t).Incomplete? && t !in s.store.flag
  {
    hide Steps, Start, PoolInv;
    var ls :| Steps(c, Start(c), ls, s);
    PoolStart(c);
    StuckStart(c, stuck);
    StuckSteps(c, stuck, Start(c), ls, s);
  }

  /** In any pool, whatever is added and cleared: a worker that finds the counter at 0
      fires the callback, once, if there is one, and nobody fires it otherwise. */
  lemma CallbackPerIdling(c: Config, s: State)
    requires Reachable(c, s)
    ensures c.callback ==> s.log.fired + Sums.Sum(CallingOf(s.threads)) == s.log.idled
    ensures !c.callback ==> s.log.fired == 0 && forall j :: 0 <= j < |s.threads| ==> Calling(s.threads[j]) == 0
  {
    hide Steps, Start;
    var ls :| Steps(c, Start(c), ls, s);
    FiringStart(c);
    FiringSteps(c, Start(c), ls, s);
  }

  // -------------------------------------------------------------- precedence

  /** A task is Running or Complete only after everything it depends on, directly or
      through others, is published; also beside cycles and tasks nobody submits. */
  lemma RunningAfterPublication(c: Config, s: State, path: seq<Tid>)
    requires Reachable(c, s) && DependencyPath(c.g, path) && |path| >= 2
    requires !PhaseOf(s.store, path[0]).Incomplete?
    ensures path[|path| - 1] in s.store.flag
  {
    hide Reachable, DependencyPath;
    PoolReachable(c, s);
    PathPublished(c, s, path);
  }

  /** If no task is submitted twice, the last task along a dependency path has ended
      before the first one starts. */
  lemma PrecedenceHolds(c: Config, s: State, path: seq<Tid>)
    requires Reachable(c, s) && Distinct(s.log.submitted)
    requires DependencyPath(c.g, path) && |path| >= 2 && path[0] in s.store.start
    ensures path[|path| - 1] in s.store.end && s.store.end[path[|path| - 1]] < s.store.start[path[0]]
  {
    hide Reachable, DependencyPath;
    PoolReachable(c, s);
    assert TimeInv(c, s);
    PathEndsBefore(c, s.store, path);
  }

  /** A stamp is taken when it appears: whatever is stamped on the way from s to s' is
      stamped later than everything stamped in s, in any pool. */
  lemma StampsAreNew(c: Config, s: State, ls: seq<Label>, s': State, t: Tid, u: Tid)
    requires Reachable(c, s) && Steps(c, s, ls, s')
    ensures t in s'.store.start && !(t in s.store.start && s.store.start[t] == s'.store.start[t]) ==>
      && (u in s.store.start ==> s.store.start[u] < s'.store.start[t])
      && (u in s.store.end ==> s.store.end[u] < s'.store.start[t])
    ensures t in s'.store.end && !(t in s.store.end && s.store.end[t] == s'.store.end[t]) ==>
      && (u in s.store.start ==> s.store.start[u] < s'.store.end[t])
      && (u in s.store.end ==> s.store.end[u] < s'.store.end[t])
  {
    hide Steps, Start;
    var before :| Steps(c, Start(c), before, s);
    StampsStart(c);
    StampsSteps(c, Start(c), before, s);
    StampsSteps(c, s, ls, s');
  }

  /** If no task is submitted twice, no stamp ever changes, and a task ends after it
      starts. */
  lemma {:induction false} StampsStay(c: Config, s: State, ls: seq<Label>, s': State)
    requires PoolInv(c, s) && Steps(c, s, ls, s') && Distinct(s'.log.submitted)
    ensures s.log.submitted <= s'.log.submitted && StampsKept(s.store, s'.store)
    ensures forall t :: t in s.store.end ==> t in s.store.start && s.store.start[t] < s.store.end[t]
    decreases |ls|
  {
    StageFacts(c, s);
    if ls != [] {
      assert Enabled(c, s, ls[0]) && Steps(c, Apply(c, s, ls[0]), ls[1..], s');
      hide Apply, Enabled, Steps, PoolInv, AccountsInv, StageInv, Distinct, StampsKept;
      KeptTwice(s.store, Apply(c, s, ls[0]).store, s'.store);
      PoolStep(c, s, ls[0]);
      StampsStay(c, Apply(c, s, ls[0]), ls[1..], s');
      SubmissionsAfter(c, s, ls[0]);
      PrefixDistinct(s.log.submitted, s'.log.submitted);
      KeptStep(c, s, ls[0]);
    }
  }

  lemma StageFacts(c: Config, s: State)
    requires PoolInv(c, s)
    ensures AccountsInv(s) && StageInv(s)
    ensures Distinct(s.log.submitted) ==>
      forall t :: t in s.store.end ==> t in s.store.start && s.store.start[t] < s.store.end[t]
  {
    assert TimeInv(c, s);
  }

  lemma KeptTwice(a: Store, b: Store, c: Store)
    ensures StampsKept(a, b) && StampsKept(b, c) ==> StampsKept(a, c)
    ensures StampsKept(a, a)
  {}

  // ---------------------------------------------------------- no data race

  /** The step at p tests, pops, extends, counts or empties the queue. */
  predicate UsesQueue(p: Pc) {
    || p == Idle(Test) || p.WantTasks?
    || (p.Client? && p.call.Adding? && p.call.a.AddEmplace?)
    || (p.Client? && p.call.Clearing? && (p.call.e.ClSub? || p.call.e.ClDrop?))
  }

  lemma QueueStep(c: Config, s: State, p: Pc)
    ensures QueueAfter(s, p) != s.queue ==> UsesQueue(p)
    ensures UsesQueue(p) && Unblocked(c, s, p) ==> Holds(c, p, TasksMtx) || TasksMtx !in s.locks
  {}

  lemma NotBlocked(c: Config, s: State, i: nat, pick: nat)
    requires Enabled(c, s, Go(i, pick))
    ensures i < |s.threads| && Unblocked(c, s, s.threads[i])
  {}

  /** No thread takes a step on the queue while another is inside a section of the
      task mutex, and the queue changes in no other step. */
  lemma QueueIsExclusive(c: Config, s: State, i: nat, pick: nat, j: nat)
    requires Reachable(c, s) && Enabled(c, s, Go(i, pick)) && j < |s.threads| && j != i
    ensures i < |s.threads| && |Apply(c, s, Go(i, pick)).threads| == |s.threads|
    ensures UsesQueue(s.threads[i]) ==> !Holds(c, s.threads[j], TasksMtx)
    ensures Apply(c, s, Go(i, pick)).queue != s.queue ==> UsesQueue(s.threads[i])
  {
    hide Reachable, Apply, Enabled, Unblocked, QueueAfter, CountAfter, StopAfter, StoreAfter, LogAfter, Next, Holds,
      PoolInv, UsesQueue;
    SharedAfter(c, s, Go(i, pick));
    NotBlocked(c, s, i, pick);
    PoolReachable(c, s);
    LocksOf(c, s);
    QueueStep(c, s, s.threads[i]);
    if UsesQueue(s.threads[i]) && Holds(c, s.threads[j], TasksMtx) {
      if Holds(c, s.threads[i], TasksMtx) { OneHolder(c, s, i, j, TasksMtx); }
    }
  }

  lemma LocksOf(c: Config, s: State)
    requires PoolInv(c, s)
    ensures LockInv(c, s)
  {}

  /** The worker at p is about to read the data of u. */
  predicate Reads(c: Config, p: Pc, u: Tid) {
    p.Work? && p.k.Read? && |p.k.args| < |KeptOf(c.g, p.t)| && Src(c.g, p.t, KeptOf(c.g, p.t)[|p.k.args|]) == Some(u)
  }

  /** If no task is submitted twice, the data of an edge is written only before its
      flag rises and read only after, so that no read overlaps a write. */
  lemma NoReadOverlapsWrite(c: Config, s: State, i: nat, j: nat, u: Tid)
    requires Reachable(c, s) && Distinct(s.log.submitted) && i < |s.threads| && j < |s.threads|
    requires Reads(c, s.threads[i], u)
    ensures u in s.store.flag && !(s.threads[j].Work? && s.threads[j].k.Write? && s.threads[j].t == u)
  {
    hide Reachable;
    PoolReachable(c, s);
    assert DepInv(c, s) && AccountsInv(s) && StageInv(s);
    hide PoolInv;
    assert DepThread(c, s.store.flag, s.threads[i]);
    if BadgeOf(s.threads[j]).Carry? { CarrierStage(s, j); }
  }
}
