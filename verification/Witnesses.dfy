/** Two runs in which a waiter is left behind: one in which a clear takes the
    counter to 0 behind the back of a sleeping waiter, and one in which two clients
    sleep in the wait of the same task. */
module Witnesses {
  import opened Graphs
  import opened Machine
  import opened Programs
  import opened Stages
  import opened ExecutorTheorems
  import opened Stranding
  import opened TaskWaiters

  /** One task without inputs, one worker, two clients. */
  function OneTask(first: Op, second: Op): Config {
    Config(map[0 := NodeSpec(Void, [])], (t, args) => Val(Void, 0), 1, [0], [[first], [second]], false)
  }

  lemma OneTaskReady(first: Op, second: Op)
    requires !first.Add? && !second.Add? && !first.Destroy? && !second.Destroy?
    ensures ReadyToRun(OneTask(first, second), v => 0) && Never(OneTask(first, second), Destroy)
  {
    var c := OneTask(first, second);
    assert forall v: Tid :: Slots(c.g, v) == [];
    forall t: Tid ensures Never(c, Add(t)) {}
  }

  /** A run of the executor that ends with an idle pool and a client asleep for
      ever in its wait. */
  lemma ClearStrandsAWaiter()
    ensures exists c, rank, s ::
      (ReadyToRun(c, rank) && Never(c, Destroy) && Reachable(c, s) && Terminal(c, s)
       && s.queue == [] && s.count == 0 && SomeoneWaits(s))
  {
    hide ReadyToRun, Executor, Never, Reachable, Terminal, SomeoneWaits, CompleteWith, Untouched;
    var c := OneTask(Wait, Clear);
    OneTaskReady(Wait, Clear);
    ReadyIsExecutor(c, v => 0);
    ClearCanStrand(c, 0, 1);
    var s :| Reachable(c, s) && Terminal(c, s) && SomeoneWaits(s);
    CancelStrandsNoTask(c, v => 0, s);
  }

  lemma ReadyIsExecutor(c: Config, rank: Tid -> nat)
    requires ReadyToRun(c, rank)
    ensures Executor(c)
  {}

  /** A run of the executor that ends with the task complete and a client asleep
      for ever in its wait for it. */
  lemma NotifyOneStrandsAWaiter()
    ensures exists c, rank, s ::
      (ReadyToRun(c, rank) && Undisturbed(c) && Reachable(c, s) && Terminal(c, s)
       && PhaseOf(s.store, 0).Complete? && SomeAsleep(c, s, 0))
  {
    hide ReadyToRun, Executor, Reachable, Terminal, SomeAsleep, CompleteWith;
    var c := OneTask(TaskWait(0), TaskWait(0));
    OneTaskReady(TaskWait(0), TaskWait(0));
    ReadyIsExecutor(c, v => 0);
    TwoWaitersStrandOne(c, 0, 0, 1);
    var s :| Reachable(c, s) && Terminal(c, s) && SomeAsleep(c, s, 0);
    EveryRunCompletes(c, v => 0, s);
    assert Done(s.store, c.order[0]);
  }
}
