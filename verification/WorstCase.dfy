/** The lock-step schedule is the worst case.  With a fixed number of workers, on any
    graph and for any order of the queue, a task that lock-step finishes is finished
    by every run, and a task that lock-step does not finish is left by some run. */
module WorstCase {
  import opened Graphs
  import opened Machine
  import opened Locks
  import opened Accounts
  import opened Programs
  import opened Wakeups
  import opened Latches
  import opened Stages
  import opened Invariant
  import opened RunsEnd
  import opened ExecutorTheorems
  import opened SingleWorker
  import opened Termination
  import opened Rounds
  import opened Lockstep
  import L = Ledgers
  import Search
  import Sums

  // ------------------------------------------- what every run finishes

  /** If no thread can move and the queue is not empty, every worker carries a task. */
  lemma AllCarry(c: Config, s: State, i: nat)
    requires PoolInv(c, s) && Never(c, Destroy) && Terminal(c, s) && s.queue != [] && i < c.k
    ensures i < |s.threads| && BadgeOf(s.threads[i]).Carry?
  {
    assert ShapeInv(c, s) && LockInv(c, s) && ParkInv(s) && NoLostWakeup(s);
    NotStopped(c, s);
    hide PoolInv, Terminal, LockInv;
    forall j | 0 <= j < |s.threads| ensures Coming(s.threads[j]) == 0 {
      NobodyLive(c, s, j);
      RestsNotComing(c, s, s.threads[j]);
    }
    Sums.Zero(ComingOf(s.threads));
    NobodyLive(c, s, i);
    assert ThreadShape(c, i, s.threads[i]);
    WorkerRests(c, s, s.threads[i]);
  }

  lemma RestsNotComing(c: Config, s: State, p: Pc)
    requires !Live(c, s, p)
    ensures Coming(p) == 0
  {}

  lemma WorkerRests(c: Config, s: State, p: Pc)
    requires !Live(c, s, p) && !p.Client?
    ensures BadgeOf(p).Carry? || p == Idle(Sleeping) || p == Exited
  {}

  /** The tickets that are popped and not finished. */
  function Underway(s: State): set<nat> { Tickets(0, |s.log.popped|) - s.log.finished }

  lemma CarriedUnderway(s: State, i: nat)
    requires AccountsInv(s) && InSequence(s) && i < |s.threads| && BadgeOf(s.threads[i]).Carry?
    ensures BadgeOf(s.threads[i]).x in Underway(s)
  {
    hide AccountsInv, InSequence, Tickets;
    CarrierIsOwner(s, i);
    OwnedArePopped(s, BadgeOf(s.threads[i]).x);
  }

  /** If every worker carries a task, so many tasks are popped and not finished. */
  lemma CarriersCount(c: Config, s: State)
    requires AccountsInv(s) && InSequence(s) && c.k <= |s.threads|
    requires forall i :: 0 <= i < c.k ==> BadgeOf(s.threads[i]).Carry?
    ensures c.k <= |Underway(s)|
  {
    hide AccountsInv, InSequence, BadgeOf, Underway;
    var tickets := seq(c.k, i requires 0 <= i < c.k => BadgeOf(s.threads[i]).x);
    forall i | 0 <= i < |tickets| ensures tickets[i] in Underway(s) { CarriedUnderway(s, i); }
    forall i, j | 0 <= i < j < |tickets| ensures tickets[i] != tickets[j] {
      CarrierIsOwner(s, i);
      CarrierIsOwner(s, j);
    }
    Search.NoRepeatSize(tickets, Underway(s));
  }

  /** If as many tasks are under way as there are workers, the next round pops no
      more than is popped. */
  lemma PoppedEnough(order: seq<Tid>, k: nat, b: Board, under: set<nat>, popped: nat)
    requires Possible(order, k, b) && k <= |under| && b.done !! under
    requires b.done <= Tickets(0, popped) && under <= Tickets(0, popped)
    ensures Popped(order, k, b) <= popped
  {
    hide Tickets;
    TicketsSize(0, popped);
    TicketsSize(0, b.next);
    assert |b.done + under| == |b.done| + |under| && |b.held + b.done| == |b.held| + |b.done|;
    SubsetSize(b.done + under, Tickets(0, popped));
  }

  /** If tasks are queued that nobody takes, as many are under way as there are
      workers. */
  lemma AllUnderway(c: Config, s: State)
    requires PoolInv(c, s) && Never(c, Destroy) && Terminal(c, s) && s.queue != [] && InSequence(s)
    ensures c.k <= |Underway(s)| && s.log.finished <= Tickets(0, |s.log.popped|)
  {
    assert AccountsInv(s) && ShapeInv(c, s);
    hide PoolInv, AccountsInv, Terminal, Tickets, InSequence, BadgeOf, Underway;
    forall i | 0 <= i < c.k ensures BadgeOf(s.threads[i]).Carry? { AllCarry(c, s, i); }
    CarriersCount(c, s);
    FinishedArePopped(s);
  }

  /** A final state has popped what the next round pops. */
  lemma MustPop(c: Config, s: State, b: Board)
    requires Executor(c) && Undisturbed(c) && ExecInv(c, s) && Terminal(c, s)
    requires Possible(c.order, c.k, b) && b.done <= s.log.finished
    ensures Popped(c.order, c.k, b) <= |s.log.popped| <= |c.order|
  {
    ExecStaged(c, s);
    assert PoolInv(c, s) && AccountsInv(s) && PrefixInv(c, s);
    hide ExecInv, PoolInv, AccountsInv, Terminal, Executor, Tickets, InSequence, Possible;
    QueueIsRest(c, s);
    if s.queue == [] {
      AllPopped(c, s);
    } else {
      AllUnderway(c, s);
      PoppedEnough(c.order, c.k, b, Underway(s), |s.log.popped|);
    }
  }

  lemma FinishedArePopped(s: State)
    requires AccountsInv(s) && InSequence(s)
    ensures s.log.finished <= Tickets(0, |s.log.popped|)
  {
    hide InSequence, Tickets;
    forall x | x in s.log.finished ensures x in Tickets(0, |s.log.popped|) {
      assert x in LedgerOf(s).finished && x in LedgerOf(s).owner;
      hide AccountsInv;
      OwnedArePopped(s, x);
    }
  }

  /** And it has finished every popped task whose dependencies are finished. */
  lemma MustFinish(c: Config, s: State, done: set<nat>, x: nat)
    requires Executor(c) && ExecInv(c, s) && Terminal(c, s) && done <= s.log.finished
    requires x < |c.order| && x < |s.log.popped| && InputsDone(c.g, c.order, done, x)
    ensures x in s.log.finished
  {
    ExecStaged(c, s);
    assert AccountsInv(s) && LockInv(c, s) && LatchInv(c, s);
    hide ExecInv, Terminal, LockInv, LatchInv, InSequence;
    OwnedArePopped(s, x);
    OwnerCarries(s, x);
    if x !in s.log.finished {
      var i := s.log.owner[x];
      NobodyLive(c, s, i);
      CarrierIsOwner(s, i);
      var u := CarrierWaits(c, s, i);
      assert DependsOn(c.g, c.order[x], u);
      var y :| y in done && y < |c.order| && c.order[y] == u;
      assert y in LedgerOf(s).finished && y in LedgerOf(s).owner;
      assert Stage(s, y);
      WaitedIsUnpublished(c, s, i, u);
    }
  }

  /** Whatever lock-step finishes, every final state has finished. */
  lemma {:induction false} EveryRunFinishes(c: Config, s: State, rounds: nat)
    requires Executor(c) && Undisturbed(c) && Reachable(c, s) && Terminal(c, s)
    ensures After(c.g, c.order, c.k, rounds).done <= s.log.finished
  {
    hide Executor, Undisturbed, Reachable, Terminal, Possible, Round, ExecInv, InputsDone;
    if rounds == 0 {
      assert After(c.g, c.order, c.k, 0).done == {};
    } else {
      var b := After(c.g, c.order, c.k, rounds - 1);
      assert After(c.g, c.order, c.k, rounds) == Round(c.g, c.order, c.k, b);
      EveryRunFinishes(c, s, rounds - 1);
      ExecReachable(c, s);
      MustPop(c, s, b);
      forall x | x in Round(c.g, c.order, c.k, b).done ensures x in s.log.finished {
        if x !in b.done {
          NewlyDone(c.g, c.order, c.k, b, x);
          MustFinish(c, s, b.done, x);
        }
      }
    }
  }

  lemma NewlyDone(g: Graph, order: seq<Tid>, k: nat, b: Board, x: nat)
    requires Possible(order, k, b) && x in Round(g, order, k, b).done && x !in b.done
    ensures x < |order| && x < Popped(order, k, b) && InputsDone(g, order, b.done, x)
  {
    hide InputsDone;
    Newcomers(order, k, b);
  }

  // ------------------------------------------------- what some run leaves

  /** No held task has its dependencies done, and nothing more can be popped. */
  ghost predicate Jam(g: Graph, order: seq<Tid>, k: nat, b: Board) {
    && Possible(order, k, b) && (|b.held| == k || b.next == |order|)
    && forall x :: x in b.held && x < |order| ==> !InputsDone(g, order, b.done, x)
  }

  /** A round in which nothing finishes ends in a jam. */
  lemma StalledRound(g: Graph, order: seq<Tid>, k: nat, b: Board)
    requires Possible(order, k, b) && Round(g, order, k, b).done == b.done
    ensures Jam(g, order, k, Round(g, order, k, b))
  {
    hide InputsDone, Popped, Tickets;
    Newcomers(order, k, b);
    RoundPossible(g, order, k, b);
    var held := b.held + Tickets(b.next, Popped(order, k, b));
    assert Finishing(g, order, k, b) <= held && Finishing(g, order, k, b) <= b.done;
    assert Finishing(g, order, k, b) == {};
    assert held - {} == held;
  }

  /** The run has come to this jam: the held tasks wait, the others are as the board
      says. */
  ghost predicate JammedAt(c: Config, s: State, b: Board) {
    && |s.log.popped| == b.next && s.log.finished == b.done
    && (forall y :: 0 <= y < |c.order| && c.order[y] in s.store.flag ==> y in b.done)
    && (forall j :: 0 <= j < |s.threads| && BadgeOf(s.threads[j]).Carry? ==> s.threads[j].Fetch?)
    && (b.next < |c.order| ==> forall j :: 0 <= j < c.k && j < |s.threads| ==> BadgeOf(s.threads[j]).Carry?)
  }

  /** A step that neither pops nor goes on with a task whose inputs are there. */
  lemma IdleStep(c: Config, s: State, i: nat, p: Pc)
    requires (BadgeOf(p).Carry? ==> p.Fetch?) && !(p.WantTasks? && s.queue != [])
    ensures LogAfter(s, i, p).popped == s.log.popped && LogAfter(s, i, p).finished == s.log.finished
    ensures StoreAfter(c, s, p).flag == s.store.flag
  {}

  lemma FetchStays(c: Config, s: State, p: Pc)
    requires p.Fetch? && SleepsOn(c, p).None?
    ensures (Next(c, s, p).Fetch? && BadgeOf(Next(c, s, p)).Carry?) || p.n >= |Slots(c.g, p.t)|
  {}

  /** The ticket of a worker that carries a task is held. */
  lemma CarriedIsHeld(c: Config, s: State, b: Board, i: nat)
    requires AccountsInv(s) && InSequence(s) && s.log.submitted == c.order && Possible(c.order, c.k, b)
    requires |s.log.popped| == b.next && s.log.finished == b.done
    requires i < |s.threads| && s.threads[i].Fetch?
    ensures s.threads[i].x in b.held && s.threads[i].x < |c.order| && c.order[s.threads[i].x] == s.threads[i].t
  {
    var p := s.threads[i];
    FetchBadge(p);
    hide AccountsInv, InSequence, Tickets;
    CarrierIsOwner(s, i);
    OwnedArePopped(s, p.x);
    assert p.x in Tickets(0, b.next);
  }

  lemma FetchBadge(p: Pc)
    requires p.Fetch?
    ensures BadgeOf(p) == L.Carry(p.x, p.t)
  {}

  /** If all inputs are published, they are done. */
  lemma PublishedIsDone(c: Config, s: State, done: set<nat>, x: nat)
    requires TouchedInv(s) && s.log.submitted == c.order && x < |c.order|
    requires forall y :: 0 <= y < |c.order| && c.order[y] in s.store.flag ==> y in done
    requires FlagsUpTo(c, s.store.flag, c.order[x], |Slots(c.g, c.order[x])|)
    ensures InputsDone(c.g, c.order, done, x)
  {
    forall u: Tid | DependsOn(c.g, c.order[x], u) ensures exists y :: y in done && y < |c.order| && c.order[y] == u {
      var m :| 0 <= m < |Slots(c.g, c.order[x])| && Src(c.g, c.order[x], m) == Some(u);
      assert u in s.store.flag && !Untouched(s.store, u);
      var y :| 0 <= y < |c.order| && c.order[y] == u;
    }
  }

  lemma PastInputs(c: Config, s: State, i: nat)
    requires DepInv(c, s) && i < |s.threads| && s.threads[i].Fetch? && s.threads[i].n >= |Slots(c.g, s.threads[i].t)|
    ensures FlagsUpTo(c, s.store.flag, s.threads[i].t, |Slots(c.g, s.threads[i].t)|)
  {
    assert DepThread(c, s.store.flag, s.threads[i]);
  }

  /** A worker that waits for the inputs of a held task does not get past them. */
  lemma StillWaiting(c: Config, s: State, b: Board, i: nat)
    requires Executor(c) && ExecInv(c, s) && Jam(c.g, c.order, c.k, b) && JammedAt(c, s, b)
    requires i < |s.threads| && s.threads[i].Fetch?
    ensures s.threads[i].n < |Slots(c.g, s.threads[i].t)|
  {
    ExecStaged(c, s);
    assert AccountsInv(s) && DepInv(c, s) && TouchedInv(s);
    hide ExecInv, AccountsInv, InSequence, Tickets, Staged, Executor, DepInv, TouchedInv, FlagsUpTo, InputsDone,
      Possible, BadgeOf;
    CarriedIsHeld(c, s, b, i);
    if s.threads[i].n >= |Slots(c.g, s.threads[i].t)| {
      PastInputs(c, s, i);
      PublishedIsDone(c, s, b.done, s.threads[i].x);
    }
  }

  /** Nobody pops: either every worker holds a task, or there is nothing left. */
  lemma NobodyPops(c: Config, s: State, b: Board, i: nat)
    requires ExecInv(c, s) && JammedAt(c, s, b) && i < |s.threads| && s.threads[i].WantTasks?
    ensures s.queue == []
  {
    assert ShapeInv(c, s) && AccountsInv(s) && PrefixInv(c, s);
    assert ThreadShape(c, i, s.threads[i]);
    hide ExecInv, ShapeInv, AccountsInv;
    QueueIsRest(c, s);
  }

  lemma JamMover(c: Config, s: State, b: Board, i: nat)
    requires Executor(c) && ExecInv(c, s) && Jam(c.g, c.order, c.k, b) && JammedAt(c, s, b)
    requires i < |s.threads| && SleepsOn(c, s.threads[i]).None?
    ensures var p := s.threads[i]; var q := Next(c, s, p);
      && (BadgeOf(q).Carry? ==> q.Fetch?) && (BadgeOf(p).Carry? ==> BadgeOf(q).Carry?)
      && !(p.WantTasks? && s.queue != [])
  {
    var p := s.threads[i];
    hide ExecInv, Executor, Jam, Next, BadgeOf, Slots, SleepsOn;
    if p.WantTasks? { NobodyPops(c, s, b, i); }
    if p.Fetch? {
      StillWaiting(c, s, b, i);
      FetchStays(c, s, p);
    } else if BadgeOf(Next(c, s, p)).Carry? {
      BadgeMoves(c, s, p);
    }
  }

  lemma WakeFetch(c: Config, p: Pc)
    requires SleepsOn(c, p).Some?
    ensures BadgeOf(WakeUp(p)) == BadgeOf(p) && WakeUp(p).Fetch? == p.Fetch?
  {}

  lemma JamStep(c: Config, s: State, b: Board, l: Label)
    requires Executor(c) && ExecInv(c, s) && Jam(c.g, c.order, c.k, b) && JammedAt(c, s, b) && Enabled(c, s, l)
    ensures JammedAt(c, Apply(c, s, l), b)
  {
    hide Apply, Enabled, ExecInv, Executor, Jam, Next, BadgeOf, SleepsOn, QueueAfter, CountAfter, StopAfter,
      StoreAfter, LogAfter;
    SharedAfter(c, s, l);
    OthersAfter(c, s, l, l.i);
    var s' := Apply(c, s, l);
    if l.Go? {
      JamMover(c, s, b, l.i);
      IdleStep(c, s, l.i, s.threads[l.i]);
    }
    forall j | 0 <= j < |s.threads|
      ensures BadgeOf(s'.threads[j]).Carry? ==> s'.threads[j].Fetch?
      ensures BadgeOf(s.threads[j]).Carry? ==> BadgeOf(s'.threads[j]).Carry?
    {
      OthersAfter(c, s, l, j);
      if SleepsOn(c, s.threads[j]).Some? { WakeFetch(c, s.threads[j]); }
    }
  }

  lemma {:induction false} JamLasts(c: Config, s: State, b: Board, ls: seq<Label>, s': State)
    requires Executor(c) && ExecInv(c, s) && Jam(c.g, c.order, c.k, b) && JammedAt(c, s, b) && Steps(c, s, ls, s')
    ensures s'.log.finished == b.done
    decreases |ls|
  {
    if ls != [] {
      assert Enabled(c, s, ls[0]) && Steps(c, Apply(c, s, ls[0]), ls[1..], s');
      hide Apply, Enabled, ExecInv, Executor, Jam, Steps, JammedAt;
      ExecStep(c, s, ls[0]);
      JamStep(c, s, b, ls[0]);
      JamLasts(c, Apply(c, s, ls[0]), b, ls[1..], s');
    }
  }

  // ----------------------------------------------------- lock-step gets there

  lemma {:induction false} ImageSize(tickets: set<nat>, owner: map<nat, nat>)
    requires forall x :: x in tickets ==> x in owner
    requires forall x, y :: x in tickets && y in tickets && owner[x] == owner[y] ==> x == y
    ensures |set x | x in tickets :: owner[x]| == |tickets|
    decreases tickets
  {
    if tickets != {} {
      var x :| x in tickets;
      ImageSize(tickets - {x}, owner);
      assert (set y | y in tickets :: owner[y]) == (set y | y in tickets - {x} :: owner[y]) + {owner[x]};
    }
  }

  lemma OwnerOfHeld(c: Config, s: State, b: Board, x: nat)
    requires Executor(c) && Between(c, s, b) && x in b.held
    ensures x in s.log.owner && s.log.owner[x] < c.k && s.log.owner[x] < |s.threads|
    ensures BadgeOf(s.threads[s.log.owner[x]]).Carry? && BadgeOf(s.threads[s.log.owner[x]]).x == x
  {
    assert AccountsInv(s) by { AccountsOf(c, s); }
    hide ExecInv, AccountsInv, Executor, Possible, Resting, BadgeOf;
    var j := HolderOf(c, s, b, x);
    FetchBadge(s.threads[j]);
    CarrierIsOwner(s, j);
  }

  /** If as many tasks are held as there are workers, every worker holds one. */
  lemma EveryWorkerHolds(c: Config, s: State, b: Board, i: nat)
    requires Executor(c) && Between(c, s, b) && |b.held| == c.k && i < c.k && i < |s.threads|
    ensures BadgeOf(s.threads[i]).Carry?
  {
    hide Between, Executor, BadgeOf, Tickets;
    forall x | x in b.held
      ensures x in s.log.owner && s.log.owner[x] < c.k && s.log.owner[x] < |s.threads|
      ensures BadgeOf(s.threads[s.log.owner[x]]).Carry? && BadgeOf(s.threads[s.log.owner[x]]).x == x
    {
      OwnerOfHeld(c, s, b, x);
    }
    var owners := set x | x in b.held :: s.log.owner[x];
    ImageSize(b.held, s.log.owner);
    if !BadgeOf(s.threads[i]).Carry? {
      assert owners <= Tickets(0, c.k) - {i};
      TicketsSize(0, c.k);
      SubsetSize(owners, Tickets(0, c.k) - {i});
    }
  }

  lemma NotYetSet(s: State, x: nat)
    requires x < |s.log.submitted| && Stage(s, x) && x in s.log.owner && x !in s.log.finished
    requires s.log.owner[x] < |s.threads| ==> s.threads[s.log.owner[x]].Fetch?
    ensures s.log.submitted[x] !in s.store.flag
  {}

  lemma NotOwned(s: State, x: nat)
    requires x < |s.log.submitted| && Stage(s, x) && x !in s.log.owner
    ensures s.log.submitted[x] !in s.store.flag
  {}

  /** Between two rounds, only what is done is published. */
  lemma OnlyDoneFlagged(c: Config, s: State, b: Board, y: nat)
    requires Executor(c) && Between(c, s, b) && y < |c.order| && c.order[y] in s.store.flag
    ensures y in b.done
  {
    ExecStaged(c, s);
    assert AccountsInv(s);
    assert Stage(s, y);
    hide ExecInv, AccountsInv, Possible, Resting, Stage, InSequence, Executor;
    if y !in s.log.finished {
      if y in s.log.owner {
        OwnerCarries(s, y);
        RestingFacts(c, s.threads[s.log.owner[y]], s.log.owner[y], b.held);
        NotYetSet(s, y);
      } else {
        NotOwned(s, y);
      }
    }
  }

  lemma JamReached(c: Config, s: State, b: Board)
    requires Executor(c) && Between(c, s, b) && Jam(c.g, c.order, c.k, b)
    ensures ExecInv(c, s) && JammedAt(c, s, b)
  {
    hide ExecInv, Executor, Possible, Resting, BadgeOf, InputsDone;
    forall j | 0 <= j < |s.threads| && BadgeOf(s.threads[j]).Carry? ensures s.threads[j].Fetch? {
      RestingFacts(c, s.threads[j], j, b.held);
    }
    forall y | 0 <= y < |c.order| && c.order[y] in s.store.flag ensures y in b.done { OnlyDoneFlagged(c, s, b, y); }
    if b.next < |c.order| {
      forall j | 0 <= j < c.k && j < |s.threads| ensures BadgeOf(s.threads[j]).Carry? { EveryWorkerHolds(c, s, b, j); }
    }
  }

  /** A run that goes through the rounds up to a jam and then anywhere ends with no
      more finished than the jam. */
  lemma JamIsFinal(c: Config, rounds: nat) returns (s: State)
    requires Executor(c) && Jam(c.g, c.order, c.k, After(c.g, c.order, c.k, rounds))
    ensures Reachable(c, s) && Terminal(c, s) && s.log.finished == After(c.g, c.order, c.k, rounds).done
  {
    hide Executor, Jam, Terminal, Steps, Start, Between, JammedAt, ExecInv, Possible;
    var b := After(c.g, c.order, c.k, rounds);
    var ls, mid := RoundsRun(c, rounds);
    JamReached(c, mid, b);
    assert Reachable(c, mid);
    var end := Drive(c, mid, AnyStep(c));
    JamLasts(c, mid, b, end.1, end.0);
    ReachFurther(c, mid, end.1, end.0);
    s := end.0;
  }

  // ------------------------------------------------------------ the condition

  lemma {:induction false} DoneGrows(g: Graph, order: seq<Tid>, k: nat, a: nat, b: nat)
    requires a <= b
    ensures After(g, order, k, a).done <= After(g, order, k, b).done
    decreases b
  {
    hide Possible, Round;
    if a < b {
      DoneGrows(g, order, k, a, b - 1);
      assert After(g, order, k, b) == Round(g, order, k, After(g, order, k, b - 1));
      RoundPossible(g, order, k, After(g, order, k, b - 1));
    }
  }

  /** Every round finishes a task, until one finishes none. */
  lemma {:induction false} StallsOrFinishes(g: Graph, order: seq<Tid>, k: nat, rounds: nat)
    ensures |After(g, order, k, rounds).done| >= rounds
      || exists r: nat :: r <= rounds && Jam(g, order, k, After(g, order, k, r))
  {
    hide Possible, Round, Jam;
    if rounds > 0 {
      var b := After(g, order, k, rounds - 1);
      StallsOrFinishes(g, order, k, rounds - 1);
      assert After(g, order, k, rounds) == Round(g, order, k, b);
      RoundPossible(g, order, k, b);
      if Round(g, order, k, b).done == b.done {
        StalledRound(g, order, k, b);
      } else {
        ProperSubset(b.done, Round(g, order, k, b).done);
      }
    }
  }

  lemma ProperSubset(a: set<nat>, b: set<nat>)
    requires a <= b && a != b
    ensures |a| + 1 <= |b|
  {
    var x :| x in b && x !in a;
    SubsetSize(a, b - {x});
  }

  lemma AllOfThem(done: set<nat>, n: nat, x: nat)
    requires done <= Tickets(0, n) && |done| >= n && x < n
    ensures x in done
  {
    hide Tickets;
    TicketsSize(0, n);
    if x !in done { SubsetSize(done, Tickets(0, n) - {x}); }
  }

  lemma DoneInOrder(order: seq<Tid>, k: nat, b: Board)
    requires Possible(order, k, b)
    ensures b.done <= Tickets(0, |order|)
  {
    hide Tickets;
    assert forall x :: x in b.done ==> x in Tickets(0, b.next);
  }

  /** On any graph, for any order of the queue and with any number of workers: every
      run finishes a task if and only if lock-step does, in at most as many rounds as
      there are tasks. */
  lemma EveryRunFinishesIff(c: Config, x: nat)
    requires Executor(c) && Undisturbed(c) && x < |c.order|
    ensures (forall s :: Reachable(c, s) && Terminal(c, s) ==> x in s.log.finished) <==>
      x in After(c.g, c.order, c.k, |c.order|).done
  {
    var n := |c.order|;
    hide Executor, Undisturbed, Reachable, Terminal, Jam, Possible, After;
    if x in After(c.g, c.order, c.k, |c.order|).done {
      forall s | Reachable(c, s) && Terminal(c, s) ensures x in s.log.finished { EveryRunFinishes(c, s, n); }
    } else {
      StallsOrFinishes(c.g, c.order, c.k, n);
      DoneInOrder(c.order, c.k, After(c.g, c.order, c.k, n));
      if |After(c.g, c.order, c.k, n).done| >= n { AllOfThem(After(c.g, c.order, c.k, n).done, n, x); }
      var r: nat :| r <= n && Jam(c.g, c.order, c.k, After(c.g, c.order, c.k, r));
      DoneGrows(c.g, c.order, c.k, r, n);
      var s := JamIsFinal(c, r);
    }
  }

  /** Lock-step finishes everything within so many rounds. */
  ghost predicate DoneWithin(c: Config, rounds: nat) {
    forall x :: 0 <= x < |c.order| ==> x in After(c.g, c.order, c.k, rounds).done
  }

  /** So every run finishes everything if and only if lock-step does, which anyone can
      compute from the graph, the order and the number of workers. */
  lemma AlwaysFinishesIff(c: Config)
    requires Executor(c) && Undisturbed(c)
    ensures AlwaysFinishes(c) <==> DoneWithin(c, |c.order|)
    ensures AlwaysFinishes(c) <==> exists rounds: nat :: DoneWithin(c, rounds)
  {
    hide Executor, Undisturbed, Reachable, Terminal, After;
    if AlwaysFinishes(c) {
      forall x | 0 <= x < |c.order| ensures x in After(c.g, c.order, c.k, |c.order|).done {
        forall s | Reachable(c, s) && Terminal(c, s) ensures x in s.log.finished { assert AllFinished(c, s); }
        EveryRunFinishesIff(c, x);
      }
      assert DoneWithin(c, |c.order|);
    }
    if rounds: nat :| DoneWithin(c, rounds) {
      forall s | Reachable(c, s) && Terminal(c, s) ensures AllFinished(c, s) { EveryRunFinishes(c, s, rounds); }
    }
  }

  // ------------------------------------------------------------ more workers

  /** How far a round pops. */
  lemma PopsTo(order: seq<Tid>, k: nat, b: Board)
    requires Possible(order, k, b)
    ensures Popped(order, k, b) == if |b.done| + k <= |order| then |b.done| + k else |order|
  {
    hide Tickets;
    TicketsSize(0, b.next);
    assert |b.held + b.done| == |b.held| + |b.done|;
  }

  lemma MoreInputsDone(g: Graph, order: seq<Tid>, done: set<nat>, more: set<nat>, x: nat)
    requires x < |order| && done <= more && InputsDone(g, order, done, x)
    ensures InputsDone(g, order, more, x)
  {}

  /** A popped task whose dependencies are done is done after the round. */
  lemma DoneAfterRound(g: Graph, order: seq<Tid>, k: nat, b: Board, x: nat)
    requires Possible(order, k, b) && x < Popped(order, k, b) && x < |order| && InputsDone(g, order, b.done, x)
    ensures x in Round(g, order, k, b).done
  {
    hide InputsDone, Popped, Tickets;
    Newcomers(order, k, b);
    assert x in Tickets(0, Popped(order, k, b));
  }

  lemma {:induction false} MoreIsDone(g: Graph, order: seq<Tid>, k: nat, more: nat, rounds: nat)
    requires k <= more
    ensures After(g, order, k, rounds).done <= After(g, order, more, rounds).done
  {
    hide Possible, Round, InputsDone, Popped;
    if rounds > 0 {
      var b, b' := After(g, order, k, rounds - 1), After(g, order, more, rounds - 1);
      assert After(g, order, k, rounds) == Round(g, order, k, b);
      assert After(g, order, more, rounds) == Round(g, order, more, b');
      MoreIsDone(g, order, k, more, rounds - 1);
      SubsetSize(b.done, b'.done);
      PopsTo(order, k, b);
      PopsTo(order, more, b');
      RoundPossible(g, order, more, b');
      forall x | x in Round(g, order, k, b).done ensures x in Round(g, order, more, b').done {
        if x !in b.done {
          NewlyDone(g, order, k, b, x);
          MoreInputsDone(g, order, b.done, b'.done, x);
          DoneAfterRound(g, order, more, b', x);
        }
      }
    }
  }

  /** More workers do no harm: a task that every run finishes with some workers is
      finished by every run with more. */
  lemma MoreWorkersFinish(c: Config, d: Config, x: nat)
    requires Executor(c) && Undisturbed(c) && d == c.(k := d.k) && c.k <= d.k && x < |c.order|
    requires forall s :: Reachable(c, s) && Terminal(c, s) ==> x in s.log.finished
    ensures forall s :: Reachable(d, s) && Terminal(d, s) ==> x in s.log.finished
  {
    hide Executor, Undisturbed, Reachable, Terminal, After;
    SameExecutor(c, d);
    EveryRunFinishesIff(c, x);
    EveryRunFinishesIff(d, x);
    MoreIsDone(c.g, c.order, c.k, d.k, |c.order|);
  }
}
