/** The executor as a whole: any number of workers, any interleaving, every
    dependency graph without cycles. */
module ExecutorTheorems {
  import opened Graphs
  import opened Machine
  import opened Locks
  import opened Accounts
  import opened Programs
  import opened PoolWait
  import opened Completions
  import opened Cancels
  import opened Stages
  import opened Callbacks
  import opened SingleWorker
  import opened Invariant
  import opened PoolTheorems
  import opened RunsEnd
  import opened Termination
  import L = Ledgers

  /** What Executors.ThreadPoolExecutor.Run guarantees about the run it starts. */
  ghost predicate ReadyToRun(c: Config, rank: Tid -> nat) {
    Executor(c) && Dag(c.g, rank) && Topological(c.g, c.order) && c.k >= 1
  }

  /** Complete, and holding the value of plain recursive evaluation. */
  ghost predicate CompleteWith(c: Config, rank: Tid -> nat, s: State, t: Tid)
    requires Dag(c.g, rank)
  {
    && PhaseOf(s.store, t).Complete? && t in s.store.flag
    && (t in c.g ==> t in s.store.result && s.store.result[t] == Eval(c.g, rank, c.fn, t))
    && (t in c.g && !c.g[t].out.Void? ==> t in s.store.data && s.store.data[t] == Eval(c.g, rank, c.fn, t))
  }

  lemma DoneIsComplete(c: Config, rank: Tid -> nat, s: State, t: Tid)
    requires Dag(c.g, rank) && Reachable(c, s) && Done(s.store, t)
    ensures CompleteWith(c, rank, s, t)
  {
    hide Reachable, Eval;
    if t in c.g { ScheduleIndependence(c, rank, s, t); }
  }

  // ---------------------------------------------------------- completion

  /** Neither cancelled nor destroyed while it runs. */
  ghost predicate Undisturbed(c: Config) { Never(c, Clear) && Never(c, Destroy) }

  /** Without clears, an empty queue means that every task was popped. */
  lemma AllPopped(c: Config, s: State)
    requires Never(c, Clear) && PoolInv(c, s) && s.queue == []
    ensures |s.log.popped| == |s.log.submitted|
  {
    assert GaplessInv(c, s);
  }

  lemma NotStopped(c: Config, s: State)
    requires PoolInv(c, s) && Never(c, Destroy)
    ensures !s.stop
  {
    assert ShutdownInv(c, s);
  }

  /** Tasks added to a running pool, by any number of clients: if what was submitted
      is distinct and in topological order, every run that cannot go on has an idle
      pool and has completed every task submitted with the value of recursive
      evaluation. */
  lemma EverySubmissionCompletes(c: Config, rank: Tid -> nat, s: State)
    requires Dag(c.g, rank) && c.k >= 1 && Undisturbed(c) && Reachable(c, s) && Terminal(c, s)
    requires Distinct(s.log.submitted) && Topological(c.g, s.log.submitted)
    ensures s.queue == [] && s.count == 0
    ensures forall x :: 0 <= x < |s.log.submitted| ==>
      Done(s.store, s.log.submitted[x]) && CompleteWith(c, rank, s, s.log.submitted[x])
  {
    PoolReachable(c, s);
    GaplessOrderly(c, s);
    hide Reachable, Terminal, PoolInv, Orderly, CompleteWith, Dag, Done, Distinct, Topological;
    NotStopped(c, s);
    IdlePool(c, s);
    AllPopped(c, s);
    forall x | 0 <= x < |s.log.submitted|
      ensures Done(s.store, s.log.submitted[x]) && CompleteWith(c, rank, s, s.log.submitted[x])
    {
      PoppedAreFinished(c, s, x);
      DoneIsComplete(c, rank, s, s.log.submitted[x]);
    }
  }

  /** In particular every task that a client which is through with its program has
      added. */
  lemma EveryAddedTaskCompletes(c: Config, rank: Tid -> nat, s: State, a: nat, t: Tid)
    requires Dag(c.g, rank) && c.k >= 1 && Undisturbed(c) && Reachable(c, s) && Terminal(c, s)
    requires Distinct(s.log.submitted) && Topological(c.g, s.log.submitted)
    requires a < |c.progs| && c.k + a < |s.threads| && s.threads[c.k + a] == Client([], Ready)
    requires Add(t) in c.progs[a] || t in c.order
    ensures CompleteWith(c, rank, s, t)
  {
    PoolReachable(c, s);
    AddedIsSubmitted(c, s, a, t);
    hide Reachable, Terminal, PoolInv, CompleteWith, Dag, Distinct, Topological;
    EverySubmissionCompletes(c, rank, s);
    var x :| 0 <= x < |s.log.submitted| && s.log.submitted[x] == t;
  }

  lemma AddedIsSubmitted(c: Config, s: State, a: nat, t: Tid)
    requires PoolInv(c, s) && a < |c.progs| && c.k + a < |s.threads| && s.threads[c.k + a] == Client([], Ready)
    requires Add(t) in c.progs[a] || t in c.order
    ensures t in s.log.submitted
  {
    assert AddInv(c, s) && ShapeInv(c, s);
    hide PoolInv;
    assert ThreadShape(c, c.k + a, s.threads[c.k + a]) && AddThread(c, s, c.k + a, s.threads[c.k + a]);
    assert Returned(c, c.k + a, s.threads[c.k + a]) == c.progs[a];
  }

  /** And every client has run its program to the end, except surplus waiters on
      one task and waiters on a task that was not submitted. */
  lemma EverySubmitterReturns(c: Config, rank: Tid -> nat, s: State, j: nat)
    requires Dag(c.g, rank) && c.k >= 1 && Undisturbed(c) && Reachable(c, s) && Terminal(c, s)
    requires Distinct(s.log.submitted) && Topological(c.g, s.log.submitted) && c.k <= j < |s.threads|
    ensures s.threads[j] == Client([], Ready)
      || (s.threads[j].Client? && s.threads[j].call.TaskWaiting?
          && (!OneWaiter(c, s.threads[j].call.t) || s.threads[j].call.t !in s.log.submitted))
  {
    PoolReachable(c, s);
    GaplessOrderly(c, s);
    assert WaitInv(c, s);
    EverySubmissionCompletes(c, rank, s);
    hide Reachable, Terminal, PoolInv, Orderly, CompleteWith, Dag, OneWaiter, Distinct, Topological;
    NotStopped(c, s);
    ClientsAtRest(c, s, j);
    if s.threads[j].call.Waiting? { StrandedWaiter(c, s, j); }
    if s.threads[j].call.TaskWaiting? && OneWaiter(c, s.threads[j].call.t) {
      StrandedTaskWaiter(c, s, j);
    }
  }

  /** Every run of the executor that cannot go on has an idle pool and has completed
      every task with the value of recursive evaluation. */
  lemma EveryRunCompletes(c: Config, rank: Tid -> nat, s: State)
    requires ReadyToRun(c, rank) && Undisturbed(c) && Reachable(c, s) && Terminal(c, s)
    ensures s.queue == [] && s.count == 0
    ensures forall x :: 0 <= x < |c.order| ==> Done(s.store, c.order[x]) && CompleteWith(c, rank, s, c.order[x])
  {
    ExecReachable(c, s);
    ExecStaged(c, s);
    hide Reachable, Terminal, ExecInv, Executor, CompleteWith, Dag, Done, Staged, InSequence;
    EverySubmissionCompletes(c, rank, s);
  }

  /** And every client has run its program to the end, except surplus waiters on
      one task and waiters on a task that was not given to the executor. */
  lemma EveryClientReturns(c: Config, rank: Tid -> nat, s: State, j: nat)
    requires ReadyToRun(c, rank) && Undisturbed(c) && Reachable(c, s) && Terminal(c, s)
    requires c.k <= j < |s.threads|
    ensures s.threads[j] == Client([], Ready)
      || (s.threads[j].Client? && s.threads[j].call.TaskWaiting?
          && (!OneWaiter(c, s.threads[j].call.t) || s.threads[j].call.t !in c.order))
  {
    ExecReachable(c, s);
    ExecStaged(c, s);
    hide Reachable, Terminal, ExecInv, Executor, OneWaiter, Dag, Staged, InSequence;
    EverySubmitterReturns(c, rank, s, j);
  }

  /** Whatever enabled step is picked each time, the run ends, and it ends with
      every task complete. */
  lemma EverySchedulerCompletes(c: Config, rank: Tid -> nat, choose: State -> Label)
    requires ReadyToRun(c, rank) && Undisturbed(c)
    requires forall q: State :: !Terminal(c, q) ==> choose(q).Go? && Enabled(c, q, choose(q))
    ensures var s := Drive(c, Start(c), choose).0;
      Terminal(c, s) && forall x :: 0 <= x < |c.order| ==> CompleteWith(c, rank, s, c.order[x])
  {
    hide Terminal, Enabled, Start, Executor, Topological, Dag, Steps, CompleteWith, Undisturbed;
    var r := Drive(c, Start(c), choose);
    assert Steps(c, Start(c), r.1, r.0);
    EveryRunCompletes(c, rank, r.0);
  }

  // ---------------------------------------------------------------- cancel

  /** At any point of any run the popped tasks are a prefix of the order and no other
      task has started; if the order is topological, the prefix is closed under
      dependencies. */
  lemma PoppedIsClosedPrefix(c: Config, s: State)
    requires Executor(c) && Reachable(c, s)
    ensures |s.log.popped| <= |c.order|
    ensures forall a :: 0 <= a < |s.log.popped| ==> s.log.popped[a] == a
    ensures Topological(c.g, c.order) ==> forall x, u :: 0 <= x < |s.log.popped| && DependsOn(c.g, c.order[x], u) ==>
      exists y :: 0 <= y < x && c.order[y] == u
    ensures forall x :: |s.log.popped| <= x < |c.order| ==> Untouched(s.store, c.order[x])
    ensures s.queue == [] || c.order == c.order[..|s.log.popped|] + s.queue
  {
    ExecReachable(c, s);
    ExecStaged(c, s);
    assert PrefixInv(c, s) && AccountsInv(s);
    hide Reachable, ExecInv, AccountsInv, Executor, Staged, DependsOn, Topological, Untouched;
    QueueIsRest(c, s);
    forall x | |s.log.popped| <= x < |c.order| ensures Untouched(s.store, c.order[x]) { QueuedIsUntouched(s, x); }
    if Topological(c.g, c.order) { PrefixClosed(c.g, c.order, |s.log.popped|); }
  }

  lemma QueueIsRest(c: Config, s: State)
    requires PrefixInv(c, s) && AccountsInv(s)
    ensures |s.log.popped| <= |c.order|
    ensures s.queue == [] || c.order == c.order[..|s.log.popped|] + s.queue
  {
    assert L.QueueIsSuffix(LedgerOf(s)) && L.Head(LedgerOf(s)) == Head(s);
    hide AccountsInv;
  }

  lemma QueuedIsUntouched(s: State, x: nat)
    requires AccountsInv(s) && InSequence(s) && Staged(s) && |s.log.popped| <= x < |s.log.submitted|
    ensures Untouched(s.store, s.log.submitted[x])
  {
    OwnedArePopped(s, x);
    assert Stage(s, x);
  }

  lemma PrefixClosed(g: Graph, order: seq<Tid>, n: nat)
    requires Topological(g, order) && n <= |order|
    ensures forall x, u :: 0 <= x < n && DependsOn(g, order[x], u) ==> exists y :: 0 <= y < x && order[y] == u
  {}

  /** What every popped task comes to. */
  lemma PoppedComplete(c: Config, rank: Tid -> nat, s: State)
    requires Executor(c) && Topological(c.g, c.order) && Dag(c.g, rank) && Reachable(c, s) && Terminal(c, s)
    ensures |s.log.popped| <= |c.order|
    ensures forall x :: 0 <= x < |s.log.popped| ==> CompleteWith(c, rank, s, c.order[x])
    ensures forall x :: |s.log.popped| <= x < |c.order| ==> Untouched(s.store, c.order[x])
  {
    ExecReachable(c, s);
    ExecOrderly(c, s);
    hide Reachable, Terminal, ExecInv, PoolInv, Executor, Topological, CompleteWith, Dag, Done, Untouched, Orderly;
    PoppedIsClosedPrefix(c, s);
    forall x | 0 <= x < |s.log.popped| ensures CompleteWith(c, rank, s, c.order[x]) {
      PoppedAreFinished(c, s, x);
      DoneIsComplete(c, rank, s, c.order[x]);
    }
  }

  /** Cancelling, from any thread and at any time, strands no popped task: it
      completes with its value, and the dropped ones never start. */
  lemma CancelStrandsNoTask(c: Config, rank: Tid -> nat, s: State)
    requires ReadyToRun(c, rank) && Never(c, Destroy) && Reachable(c, s) && Terminal(c, s)
    ensures |s.log.popped| <= |c.order| && s.queue == [] && s.count == 0
    ensures forall x :: 0 <= x < |s.log.popped| ==> CompleteWith(c, rank, s, c.order[x])
    ensures forall x :: |s.log.popped| <= x < |c.order| ==> Untouched(s.store, c.order[x])
  {
    ExecReachable(c, s);
    ExecOrderly(c, s);
    hide Reachable, Terminal, ExecInv, PoolInv, Executor, Topological, CompleteWith, Dag, Untouched, Orderly;
    PoppedComplete(c, rank, s);
    NotStopped(c, s);
    IdlePool(c, s);
  }

  /** A pool wait called after a clear on the same thread returns. */
  lemma WaitAfterCancelReturns(c: Config, rank: Tid -> nat, s: State, j: nat)
    requires ReadyToRun(c, rank) && Never(c, Destroy) && Reachable(c, s) && Terminal(c, s)
    requires c.k <= j < |s.threads| && ThreadShape(c, j, s.threads[j]) && Clear in Returned(c, j, s.threads[j])
    ensures !s.threads[j].call.Waiting?
  {
    ExecReachable(c, s);
    ExecOrderly(c, s);
    assert CancelInv(c, s) && NoAdds(c);
    hide Reachable, Terminal, ExecInv, PoolInv, Executor, Topological, Dag, Orderly, NoAdds;
    NotStopped(c, s);
    ClientsAtRest(c, s, j);
    assert CancelThread(c, s, j, s.threads[j]);
    if s.threads[j].call.Waiting? { StrandedWaiter(c, s, j); }
  }

  // -------------------------------------------------------------- shutdown

  /** Shutting down at any time strands no popped task and no worker: in a final
      state all workers are gone and every client is past joining them. */
  lemma ShutdownDrains(c: Config, rank: Tid -> nat, s: State)
    requires ReadyToRun(c, rank) && Reachable(c, s) && Terminal(c, s) && s.stop
    ensures forall i :: 0 <= i < c.k ==> i < |s.threads| && s.threads[i] == Exited
    ensures forall j :: c.k <= j < |s.threads| ==> s.threads[j].Client? && !s.threads[j].call.Destroying?
    ensures |s.log.popped| <= |c.order|
    ensures forall x :: 0 <= x < |s.log.popped| ==> CompleteWith(c, rank, s, c.order[x])
    ensures forall x :: |s.log.popped| <= x < |c.order| ==> Untouched(s.store, c.order[x])
  {
    ExecReachable(c, s);
    ExecOrderly(c, s);
    hide Reachable, Terminal, ExecInv, PoolInv, Executor, Topological, CompleteWith, Dag, Untouched, Orderly;
    PoppedComplete(c, rank, s);
    StoppedPool(c, s);
    forall j | c.k <= j < |s.threads| ensures s.threads[j].Client? && !s.threads[j].call.Destroying? {
      ClientsAtRest(c, s, j);
    }
  }

  function OwnedBy(owner: map<nat, nat>, i: nat): set<nat> { set x | x in owner && owner[x] == i }

  lemma OwnedUpdate(owner: map<nat, nat>, h: nat, j: nat, i: nat)
    requires h !in owner
    ensures |OwnedBy(owner[h := j], i)| == |OwnedBy(owner, i)| + (if i == j then 1 else 0)
  {
    assert OwnedBy(owner[h := j], i) == if i == j then OwnedBy(owner, i) + {h} else OwnedBy(owner, i);
  }

  /** The tickets worker i has popped, and one more if it is about to pop. */
  function PopsOf(s: State, i: nat): nat {
    |OwnedBy(s.log.owner, i)| + (if i < |s.threads| && s.threads[i].WantTasks? then 1 else 0)
  }

  lemma HeadNotOwned(c: Config, s: State)
    requires AccountsInv(s)
    ensures Head(s) !in s.log.owner
  {
    var l := LedgerOf(s);
    assert l.owner == s.log.owner && L.Head(l) == Head(s);
  }

  lemma OwnersMove(c: Config, s: State, l: Label)
    requires Enabled(c, s, l)
    ensures Apply(c, s, l).log.owner ==
      if l.Go? && s.threads[l.i].WantTasks? && s.queue != [] then s.log.owner[Head(s) := l.i] else s.log.owner
  {
    assert l.i < |s.threads|;
    assert l.Spurious? ==> Apply(c, s, l).log == s.log;
    if l.Go? { hide Apply, Enabled; ApplyParts(c, s, l.i, l.pick); }
  }

  lemma NoNewPoppers(c: Config, s: State, l: Label, i: nat)
    requires Enabled(c, s, l) && s.stop && i < |s.threads|
    ensures |Apply(c, s, l).threads| == |s.threads| && Apply(c, s, l).stop
    ensures Apply(c, s, l).threads[i].WantTasks? ==> s.threads[i].WantTasks? && l.i != i
  {
    assert l.Go? ==> SleepsOn(c, s.threads[l.i]).None?;
    OthersAfter(c, s, l, i);
    if l.Go? { NoNewPopper(c, s, s.threads[l.i]); }
  }

  lemma PopsStep(c: Config, s: State, l: Label, i: nat)
    requires PoolInv(c, s) && Enabled(c, s, l) && s.stop
    ensures PopsOf(Apply(c, s, l), i) <= PopsOf(s, i) && Apply(c, s, l).stop
  {
    assert l.i < |s.threads| && AccountsInv(s);
    hide Apply, Enabled, PoolInv, AccountsInv, OwnedBy, Head;
    NoNewPoppers(c, s, l, l.i);
    if i < |s.threads| { NoNewPoppers(c, s, l, i); }
    OwnersMove(c, s, l);
    HeadNotOwned(c, s);
    OwnedUpdate(s.log.owner, Head(s), l.i, i);
  }

  lemma NoNewPopper(c: Config, s: State, p: Pc)
    requires s.stop && SleepsOn(c, p).None?
    ensures !Next(c, s, p).WantTasks?
  {}

  /** After the flag is raised each worker pops at most one more task, and only
      if it was already about to pop. */
  lemma {:induction false} OneMorePop(c: Config, s: State, ls: seq<Label>, s': State, i: nat)
    requires PoolInv(c, s) && s.stop && Steps(c, s, ls, s')
    ensures |OwnedBy(s'.log.owner, i)| <= PopsOf(s, i)
    decreases |ls|
  {
    if ls != [] {
      assert Enabled(c, s, ls[0]) && Steps(c, Apply(c, s, ls[0]), ls[1..], s');
      hide Apply, Enabled, PoolInv, Steps;
      PoolStep(c, s, ls[0]);
      PopsStep(c, s, ls[0], i);
      OneMorePop(c, Apply(c, s, ls[0]), ls[1..], s', i);
    }
  }

  // ------------------------------------------------------- completion callback

  /** The completion callback fires at most once; once it has, every task has
      finished; and it has fired before any wait returns. */
  lemma CallbackOnce(c: Config, s: State)
    requires Executor(c) && Uncancelled(c) && Reachable(c, s)
    ensures s.log.fired <= 1
    ensures s.log.fired == 1 ==> s.count == 0 && forall x :: 0 <= x < |c.order| ==> x in s.log.finished
    ensures forall j :: 0 <= j < |s.threads| && Returning(s.threads[j]) ==> s.log.fired == 1
  {
    ExecReachable(c, s);
    assert CallbackInv(s) && WaitInv(c, s) && AccountsInv(s) && LockInv(c, s) && PrefixInv(c, s);
    hide Reachable, ExecInv, PoolInv, Executor;
    CountNeverNegative(c, s);
    if s.count == 0 { IdleSettled(c, s); }
  }

  /** In a final state it has fired. */
  lemma CallbackFires(c: Config, rank: Tid -> nat, s: State)
    requires ReadyToRun(c, rank) && Undisturbed(c) && Uncancelled(c) && Reachable(c, s) && Terminal(c, s)
    ensures s.log.fired == 1
  {
    ExecReachable(c, s);
    ExecOrderly(c, s);
    assert CallbackInv(s);
    hide Reachable, ExecInv, PoolInv, Executor, Terminal, Topological, Dag, Orderly;
    NotStopped(c, s);
    IdlePool(c, s);
    assert forall q :: 0 <= q < |s.threads| ==> BeforeFiring(s.threads[q]) ==> InSection(s.threads[q]);
  }

  // ----------------------------------------------------------- single worker

  /** With one worker, a run in which every task completes exists only if the
      queue is in topological order; and then every final state is one. */
  lemma SingleWorkerNeedsOrder(c: Config, s: State)
    requires Executor(c) && c.k == 1 && Reachable(c, s)
    requires forall x :: 0 <= x < |c.order| ==> x in s.log.finished
    ensures Topological(c.g, c.order)
  {
    ExecReachable(c, s);
    assert SingleInv(c, s);
    hide Reachable, ExecInv, Executor;
    forall x, u: Tid | 0 <= x < |c.order| && DependsOn(c.g, c.order[x], u)
      ensures exists y :: 0 <= y < x && c.order[y] == u
    {
      assert DepsBefore(c, x);
    }
  }

  ghost predicate AllFinished(c: Config, s: State) { forall x :: 0 <= x < |c.order| ==> x in s.log.finished }

  /** With one worker, on any graph, a run that finishes everything exists, and every
      run does, if and only if the order is topological. */
  lemma SingleWorkerIff(c: Config, choose: State -> Label)
    requires Executor(c) && Undisturbed(c) && c.k == 1
    requires forall q: State :: !Terminal(c, q) ==> choose(q).Go? && Enabled(c, q, choose(q))
    ensures AllFinished(c, Drive(c, Start(c), choose).0) <==> Topological(c.g, c.order)
    ensures (exists s :: Reachable(c, s) && AllFinished(c, s)) <==> Topological(c.g, c.order)
  {
    hide Terminal, Enabled, Start, Executor, Topological, Steps, Undisturbed;
    var r := Drive(c, Start(c), choose);
    assert Steps(c, Start(c), r.1, r.0);
    assert Reachable(c, r.0);
    if Topological(c.g, c.order) { FinalFinished(c, r.0); }
    if AllFinished(c, r.0) { SingleWorkerNeedsOrder(c, r.0); }
    if exists s :: Reachable(c, s) && AllFinished(c, s) {
      var s :| Reachable(c, s) && AllFinished(c, s);
      SingleWorkerNeedsOrder(c, s);
    }
  }

  lemma FinalFinished(c: Config, s: State)
    requires Executor(c) && Topological(c.g, c.order) && c.k >= 1 && Undisturbed(c) && Reachable(c, s) && Terminal(c, s)
    ensures AllFinished(c, s)
  {
    ExecReachable(c, s);
    ExecOrderly(c, s);
    hide Reachable, ExecInv, PoolInv, Executor, Terminal, Topological, Orderly;
    NotStopped(c, s);
    IdlePool(c, s);
    AllPopped(c, s);
    forall x | 0 <= x < |c.order| ensures x in s.log.finished { PoppedAreFinished(c, s, x); }
  }

  /** Every run that cannot go on has finished every task. */
  ghost predicate AlwaysFinishes(c: Config) { forall s :: Reachable(c, s) && Terminal(c, s) ==> AllFinished(c, s) }

  /** Exactly when the executor is right for every number of workers: on any graph,
      also one with cycles or with dependencies nobody submits, all its runs finish
      all its tasks if and only if the queue is in topological order. */
  lemma FinishesIffTopological(c: Config)
    requires Executor(c) && Undisturbed(c)
    ensures (forall k :: k >= 1 ==> AlwaysFinishes(c.(k := k))) <==> Topological(c.g, c.order)
  {
    hide Terminal, Enabled, Start, Topological, Steps, Reachable;
    if Topological(c.g, c.order) {
      forall k | k >= 1 ensures AlwaysFinishes(c.(k := k)) {
        var d := c.(k := k);
        SameExecutor(c, d);
        forall s | Reachable(d, s) && Terminal(d, s) ensures AllFinished(d, s) { FinalFinished(d, s); }
      }
    }
    if forall k :: k >= 1 ==> AlwaysFinishes(c.(k := k)) {
      var d := c.(k := 1);
      SameExecutor(c, d);
      assert AlwaysFinishes(d);
      SingleWorkerIff(d, AnyStep(d));
      DriveReaches(d);
    }
  }

  lemma SameExecutor(c: Config, d: Config)
    requires Executor(c) && Undisturbed(c) && d == c.(k := d.k)
    ensures Executor(d) && Undisturbed(d)
  {
    assert forall t :: Never(c, Add(t)) ==> Never(d, Add(t));
  }

  lemma DriveReaches(c: Config)
    ensures var s := Drive(c, Start(c), AnyStep(c)).0; Reachable(c, s) && Terminal(c, s)
  {
    hide Terminal, Enabled, Start, Steps;
    var r := Drive(c, Start(c), AnyStep(c));
    assert Steps(c, Start(c), r.1, r.0);
  }

  // ---------------------------------------------------------------- no worker

  /** Without workers nothing is ever finished. */
  lemma {:induction false} NothingFinishes(c: Config, s: State, ls: seq<Label>, s': State)
    requires c.k == 0 && ShapeInv(c, s) && s.log.finished == {} && Steps(c, s, ls, s')
    ensures s'.log.finished == {}
    decreases |ls|
  {
    if ls != [] {
      assert Enabled(c, s, ls[0]) && Steps(c, Apply(c, s, ls[0]), ls[1..], s');
      hide Apply, Enabled, Steps, Next, QueueAfter, CountAfter, StopAfter, StoreAfter;
      SharedAfter(c, s, ls[0]);
      assert ThreadShape(c, ls[0].i, s.threads[ls[0].i]);
      ShapeStep(c, s, ls[0]);
      NothingFinishes(c, Apply(c, s, ls[0]), ls[1..], s');
    }
  }

  /** A non-empty executor finishes its tasks exactly if it has a worker;
      hardware_concurrency may say 0. */
  lemma FinishesIffWorkers(c: Config)
    requires Executor(c) && Topological(c.g, c.order) && Undisturbed(c) && c.order != []
    ensures AlwaysFinishes(c) <==> c.k >= 1
  {
    hide Terminal, Enabled, Start, Executor, Topological, Steps, Undisturbed, Reachable;
    if c.k >= 1 {
      forall s | Reachable(c, s) && Terminal(c, s) ensures AllFinished(c, s) { FinalFinished(c, s); }
    } else {
      var end := Drive(c, Start(c), AnyStep(c));
      IdleForEver(c, end.1, end.0);
    }
  }

  lemma IdleForEver(c: Config, ls: seq<Label>, s: State)
    requires c.k == 0 && c.order != [] && Steps(c, Start(c), ls, s)
    ensures Reachable(c, s) && !AllFinished(c, s)
  {
    ShapeStart(c);
    NothingFinishes(c, Start(c), ls, s);
    hide Start, Steps;
    assert 0 !in s.log.finished;
  }
}
