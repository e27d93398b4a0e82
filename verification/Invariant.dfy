/** The invariants of all runs, and of the runs an executor starts. */
module Invariant {
  import opened Graphs
  import opened Machine
  import opened Locks
  import opened Accounts
  import opened Programs
  import opened Wakeups
  import opened Latches
  import opened Values
  import opened PoolWait
  import opened Completions
  import opened Cancels
  import opened Stages
  import opened Precedence
  import opened Callbacks
  import opened SingleWorker
  import opened StuckSets

  /** Any graph, any programs of any number of clients. */
  ghost predicate PoolInv(c: Config, s: State) {
    && ShapeInv(c, s) && LockInv(c, s) && AccountsInv(s)
    && ParkInv(s) && NoLostWakeup(s) && ShutdownInv(c, s)
    && SettledInv(s) && WaitInv(c, s) && CancelInv(c, s)
    && DepInv(c, s) && LatchInv(c, s) && CompletionInv(c, s)
    && AddInv(c, s) && GaplessInv(c, s) && TouchedInv(s) && StageInv(s) && RanInv(s) && TimeInv(c, s)
  }

  lemma PoolStart(c: Config)
    ensures PoolInv(c, Start(c))
  {
    hide Start;
    ShapeStart(c); LockStart(c); AccountsStart(c); WakeupStart(c); LatchStart(c);
    WaitStart(c); CompletionStart(c); CancelStart(c);
    AddStart(c); StageStart(c); RanStart(c); TimeStart(c);
  }

  lemma PoolStep(c: Config, s: State, l: Label)
    requires PoolInv(c, s) && Enabled(c, s, l)
    ensures PoolInv(c, Apply(c, s, l))
  {
    hide Apply, Enabled, ShapeInv, LockInv, AccountsInv, ParkInv, NoLostWakeup, ShutdownInv, SettledInv, WaitInv,
      CancelInv,
      DepInv, LatchInv, CompletionInv, AddInv, GaplessInv, TouchedInv, StageInv, RanInv, TimeInv;
    ShapeStep(c, s, l); LockStep(c, s, l); AccountsStep(c, s, l); ParkStep(c, s, l); WakeupStep(c, s, l);
    ShutdownStep(c, s, l); SettledStep(c, s, l); WaitStep(c, s, l); CancelStep(c, s, l);
    DepStep(c, s, l); LatchStep(c, s, l); CompletionStep(c, s, l);
    AddStep(c, s, l); GaplessStep(c, s, l); TouchedStep(c, s, l); StageStep(c, s, l);
    RanStep(c, s, l); TimeStep(c, s, l);
  }

  lemma {:induction false} PoolSteps(c: Config, s: State, ls: seq<Label>, s': State)
    requires PoolInv(c, s) && Steps(c, s, ls, s')
    ensures PoolInv(c, s')
    decreases |ls|
  {
    if ls != [] {
      assert Enabled(c, s, ls[0]) && Steps(c, Apply(c, s, ls[0]), ls[1..], s');
      hide Apply, Enabled, PoolInv, Steps;
      PoolStep(c, s, ls[0]);
      PoolSteps(c, Apply(c, s, ls[0]), ls[1..], s');
    }
  }

  lemma PoolReachable(c: Config, s: State)
    requires Reachable(c, s)
    ensures PoolInv(c, s)
  {
    hide PoolInv, Steps, Start;
    var ls :| Steps(c, Start(c), ls, s);
    PoolStart(c);
    PoolSteps(c, Start(c), ls, s);
  }

  // ------------------------------------------------------- evaluated values

  lemma {:induction false} ValueSteps(c: Config, rank: Tid -> nat, s: State, ls: seq<Label>, s': State)
    requires Dag(c.g, rank) && PoolInv(c, s) && ValueInv(c, rank, s) && Steps(c, s, ls, s')
    ensures ValueInv(c, rank, s')
    decreases |ls|
  {
    if ls != [] {
      assert Enabled(c, s, ls[0]) && Steps(c, Apply(c, s, ls[0]), ls[1..], s') && DepInv(c, s);
      hide Apply, Enabled, PoolInv, Steps, ValueInv, DepInv;
      PoolStep(c, s, ls[0]);
      ValueStep(c, rank, s, ls[0]);
      ValueSteps(c, rank, Apply(c, s, ls[0]), ls[1..], s');
    }
  }

  lemma ValueReachable(c: Config, rank: Tid -> nat, s: State)
    requires Dag(c.g, rank) && Reachable(c, s)
    ensures ValueInv(c, rank, s)
  {
    hide PoolInv, Steps, Start, ValueInv;
    var ls :| Steps(c, Start(c), ls, s);
    PoolStart(c);
    ValueStart(c, rank);
    ValueSteps(c, rank, Start(c), ls, s);
  }

  // ------------------------------------------------------------- stuck sets

  lemma {:induction false} StuckSteps(c: Config, stuck: set<Tid>, s: State, ls: seq<Label>, s': State)
    requires StuckSet(c, stuck) && PoolInv(c, s) && StuckInv(c, stuck, s) && Steps(c, s, ls, s')
    ensures StuckInv(c, stuck, s')
    decreases |ls|
  {
    if ls != [] {
      assert Enabled(c, s, ls[0]) && Steps(c, Apply(c, s, ls[0]), ls[1..], s');
      assert ShapeInv(c, s) && AccountsInv(s) && DepInv(c, s);
      hide Apply, Enabled, PoolInv, Steps, ShapeInv, AccountsInv, DepInv, StuckInv, StuckSet;
      PoolStep(c, s, ls[0]);
      StuckStep(c, stuck, s, ls[0]);
      StuckSteps(c, stuck, Apply(c, s, ls[0]), ls[1..], s');
    }
  }

  // ---------------------------------------------------------- executor runs

  /** All tasks submitted in a fixed order beforehand; the further parts apply
      when nothing is cleared, and when there is one worker. */
  ghost predicate ExecInv(c: Config, s: State) {
    && PoolInv(c, s) && PrefixInv(c, s)
    && (Uncancelled(c) ==> CallbackInv(s))
    && (c.k == 1 ==> SingleInv(c, s))
  }

  /** Then the submissions are the order, without repetition. */
  lemma ExecStaged(c: Config, s: State)
    requires Executor(c) && ExecInv(c, s)
    ensures s.log.submitted == c.order && Distinct(s.log.submitted) && Staged(s) && InSequence(s)
  {}

  lemma ExecStart(c: Config)
    requires Executor(c)
    ensures ExecInv(c, Start(c))
  {
    hide Start, PoolInv, PrefixInv, CallbackInv, SingleInv, Uncancelled, Executor;
    PoolStart(c); StageStart(c); SingleStart(c);
    if Uncancelled(c) { CallbackStart(c); }
  }

  lemma ExecStep(c: Config, s: State, l: Label)
    requires Executor(c) && ExecInv(c, s) && Enabled(c, s, l)
    ensures ExecInv(c, Apply(c, s, l))
  {
    assert NoAdds(c);
    ExecStaged(c, s);
    hide Apply, Enabled, ShapeInv, LockInv, AccountsInv, ParkInv, NoLostWakeup, ShutdownInv, SettledInv, WaitInv,
      CancelInv,
      DepInv, LatchInv, CompletionInv, PrefixInv, GaplessInv, TouchedInv, StageInv, Staged, RanInv, TimeInv,
      CallbackInv, SingleInv,
      Uncancelled, Distinct, NoAdds;
    PoolStep(c, s, l);
    PrefixStep(c, s, l);
    if Uncancelled(c) { CallbackStep(c, s, l); }
    if c.k == 1 { SingleStep(c, s, l); }
  }

  lemma {:induction false} ExecSteps(c: Config, s: State, ls: seq<Label>, s': State)
    requires Executor(c) && ExecInv(c, s) && Steps(c, s, ls, s')
    ensures ExecInv(c, s')
    decreases |ls|
  {
    if ls != [] {
      assert Enabled(c, s, ls[0]) && Steps(c, Apply(c, s, ls[0]), ls[1..], s');
      hide Apply, Enabled, ExecInv, Steps;
      ExecStep(c, s, ls[0]);
      ExecSteps(c, Apply(c, s, ls[0]), ls[1..], s');
    }
  }

  lemma ExecReachable(c: Config, s: State)
    requires Executor(c) && Reachable(c, s)
    ensures ExecInv(c, s)
  {
    hide ExecInv, Steps, Start;
    var ls :| Steps(c, Start(c), ls, s);
    ExecStart(c);
    ExecSteps(c, Start(c), ls, s);
  }
}
