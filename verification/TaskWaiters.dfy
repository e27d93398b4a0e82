/** Several waiters on one task.  The notification of a task wakes one of them, so
    that all return exactly if no two are ever asleep at the same time. */
module TaskWaiters {
  import opened Graphs
  import opened VoidFilter
  import opened Machine
  import opened Locks
  import opened Accounts
  import opened Latches
  import opened Completions
  import opened Stages
  import opened SingleWorker
  import opened Invariant
  import opened RunsEnd
  import opened ExecutorTheorems
  import opened Programs
  import opened Sleepers
  import opened Stranding
  import opened Termination

  ghost predicate Asleep(c: Config, s: State, j: nat, t: Tid) {
    j < |s.threads| && SleepsOn(c, s.threads[j]) == Some(TaskCv(t))
  }

  /** The worker at p runs t and has not notified yet. */
  predicate Unannounced(p: Pc, t: Tid) {
    BadgeOf(p).Carry? && TaskOf(p) == t && !p.Tail? && !(p.Publish? && p.u.TaskUnlock?)
  }

  /** t is complete and notified, nobody will run it again, nobody is about to
      fall asleep on it. */
  ghost predicate Announced(c: Config, s: State, t: Tid) {
    && PhaseOf(s.store, t).Complete?
    && (exists x :: 0 <= x < |s.log.popped| && x < |c.order| && c.order[x] == t)
    && (forall q :: 0 <= q < |s.threads| ==> !Unannounced(s.threads[q], t))
    && (forall q :: 0 <= q < |s.threads| ==> SleepsNext(c, s.threads[q]) != Some(TaskCv(t)))
  }

  /** The variable a thread is about to sleep on. */
  function SleepsNext(c: Config, p: Pc): Option<Cv> {
    match SiteOf(c, p)
    case Some(Site(Parking, _, cv)) => Some(cv)
    case _ => None
  }

  /** How a thread comes to sleep on a task, and who notifies one. */
  lemma TaskSleepNext(c: Config, s: State, p: Pc, t: Tid)
    requires SleepsOn(c, p).None?
    ensures SleepsOn(c, Next(c, s, p)) == Some(TaskCv(t)) ==> SleepsNext(c, p) == Some(TaskCv(t))
    ensures SleepsNext(c, Next(c, s, p)) == Some(TaskCv(t)) ==> !PhaseOf(s.store, t).Complete?
    ensures Wakes(p) != All(TaskCv(t)) && (Wakes(p) == One(TaskCv(t)) ==> Unannounced(p, t))
  {
    hide KeptOf;
    match p {
      case Work(x, v, k) =>
      case Publish(x, v, u) =>
      case Fetch(x, v, n, w) => FetchNext(c, s, x, v, n, w);
      case Client(rest, call) =>
      case _ =>
    }
  }

  lemma TaskSleepWake(c: Config, p: Pc, t: Tid)
    requires SleepsOn(c, p).Some?
    ensures SleepsNext(c, p).None? && SleepsOn(c, WakeUp(p)).None? && SleepsNext(c, WakeUp(p)).None?
    ensures Unannounced(WakeUp(p), t) == Unannounced(p, t)
  {}

  /** A task that was popped is not popped again. */
  lemma NotPoppedAgain(c: Config, s: State, x: nat)
    requires Executor(c) && AccountsInv(s) && PrefixInv(c, s) && x < |s.log.popped| && x < |c.order| && s.queue != []
    ensures s.queue[0] != c.order[x]
  {
    assert s.queue[0] == c.order[Head(s)];
  }

  /** Once notified, always notified; the tasks of others do not matter. */
  lemma AnnouncedMover(c: Config, s: State, i: nat, t: Tid)
    requires Executor(c) && AccountsInv(s) && PrefixInv(c, s) && Announced(c, s, t)
    requires i < |s.threads| && SleepsOn(c, s.threads[i]).None?
    ensures var p := s.threads[i];
      && !Unannounced(Next(c, s, p), t) && SleepsNext(c, Next(c, s, p)) != Some(TaskCv(t))
      && SleepsOn(c, Next(c, s, p)) != Some(TaskCv(t)) && Wakes(p) != One(TaskCv(t)) && Wakes(p) != All(TaskCv(t))
      && PhaseOf(StoreAfter(c, s, p), t).Complete? && s.log.popped <= LogAfter(s, i, p).popped
  {
    var p := s.threads[i];
    hide AccountsInv, PrefixInv, Executor;
    TaskSleepNext(c, s, p, t);
    PhaseKept(c, s, p, t);
    if Unannounced(Next(c, s, p), t) {
      BadgeMoves(c, s, p);
      var x :| 0 <= x < |s.log.popped| && x < |c.order| && c.order[x] == t;
      if p.WantTasks? && s.queue != [] { NotPoppedAgain(c, s, x); } else { AnnouncedStays(c, s, p, t); }
    }
  }

  lemma PhaseKept(c: Config, s: State, p: Pc, t: Tid)
    requires !Unannounced(p, t)
    ensures PhaseOf(StoreAfter(c, s, p), t) == PhaseOf(s.store, t)
  {
    if BadgeOf(p).Carry? && TaskOf(p) == t {} else { StoreOther(c, s, p, t); }
  }

  lemma AnnouncedStays(c: Config, s: State, p: Pc, t: Tid)
    requires SleepsOn(c, p).None? && BadgeOf(p) == BadgeOf(Next(c, s, p)) && !Unannounced(p, t)
    ensures !Unannounced(Next(c, s, p), t)
  {
    hide KeptOf;
    match p {
      case Work(x, v, k) =>
      case Publish(x, v, u) =>
      case Fetch(x, v, n, w) => FetchNext(c, s, x, v, n, w);
      case Client(rest, call) => ClientStays(c, s, rest, call);
      case _ =>
    }
  }

  lemma ClientStays(c: Config, s: State, rest: seq<Op>, call: Call)
    ensures Next(c, s, Client(rest, call)).Client?
  {}

  lemma AnnouncedStep(c: Config, s: State, i: nat, pick: nat, t: Tid)
    requires Executor(c) && ExecInv(c, s) && Announced(c, s, t) && Enabled(c, s, Go(i, pick))
    ensures Announced(c, Apply(c, s, Go(i, pick)), t)
    ensures forall j :: Asleep(c, Apply(c, s, Go(i, pick)), j, t) <==> Asleep(c, s, j, t)
  {
    assert AccountsInv(s) && PrefixInv(c, s);
    assert i < |s.threads| && SleepsOn(c, s.threads[i]).None?;
    hide Apply, Enabled, Next, ExecInv, AccountsInv, PrefixInv, Executor, SleepsOn, SleepsNext, Unannounced,
      StoreAfter, LogAfter;
    var s' := Apply(c, s, Go(i, pick));
    ApplyParts(c, s, i, pick);
    AnnouncedMover(c, s, i, t);
    OthersAfter(c, s, Go(i, pick), i);
    forall q | 0 <= q < |s.threads|
      ensures !Unannounced(s'.threads[q], t) && SleepsNext(c, s'.threads[q]) != Some(TaskCv(t))
      ensures Asleep(c, s', q, t) <==> Asleep(c, s, q, t)
    {
      OthersAfter(c, s, Go(i, pick), q);
      if SleepsOn(c, s.threads[q]).Some? { TaskSleepWake(c, s.threads[q], t); }
    }
  }

  /** After the notification the same threads stay asleep on the task. */
  lemma {:induction false} AnnouncedRun(c: Config, s: State, ls: seq<Label>, s': State, t: Tid)
    requires Executor(c) && ExecInv(c, s) && Announced(c, s, t) && Steps(c, s, ls, s') && Notified(ls)
    ensures forall j :: Asleep(c, s', j, t) <==> Asleep(c, s, j, t)
    decreases |ls|
  {
    if ls != [] {
      assert Enabled(c, s, ls[0]) && Steps(c, Apply(c, s, ls[0]), ls[1..], s');
      assert ls[0] == Go(ls[0].i, ls[0].pick);
      hide Apply, Enabled, ExecInv, Steps, Announced, Executor, Asleep;
      ExecStep(c, s, ls[0]);
      AnnouncedStep(c, s, ls[0].i, ls[0].pick, t);
      AnnouncedRun(c, Apply(c, s, ls[0]), ls[1..], s', t);
    }
  }

  // --------------------------------------------------------- the notification

  predicate Notifies(p: Pc, t: Tid) { p.Publish? && p.u.TaskNotify? && p.t == t }

  lemma OnlyCarrier(c: Config, s: State, i: nat, q: nat, t: Tid)
    requires Executor(c) && AccountsInv(s) && PrefixInv(c, s) && i < |s.threads| && q < |s.threads|
    requires BadgeOf(s.threads[i]).Carry? && TaskOf(s.threads[i]) == t && BadgeOf(s.threads[q]).Carry?
    requires TaskOf(s.threads[q]) == t
    ensures i == q
  {
    CarrierIsOwner(s, i);
    CarrierIsOwner(s, q);
  }

  /** While t is being notified nobody is about to fall asleep on it. */
  lemma NobodyParks(c: Config, s: State, i: nat, q: nat, t: Tid)
    requires LockInv(c, s) && i < |s.threads| && Notifies(s.threads[i], t) && q < |s.threads|
    ensures SleepsNext(c, s.threads[q]) != Some(TaskCv(t))
  {
    if SleepsNext(c, s.threads[q]) == Some(TaskCv(t)) {
      assert Holds(c, s.threads[i], TaskMtx(t)) && Holds(c, s.threads[q], TaskMtx(t));
      OneHolder(c, s, i, q, TaskMtx(t));
    }
  }

  lemma NotifyMover(c: Config, s: State, p: Pc, t: Tid)
    requires Notifies(p, t)
    ensures Next(c, s, p) == Publish(p.x, t, TaskUnlock) && StoreAfter(c, s, p) == s.store && Wakes(p) == One(TaskCv(t))
    ensures BadgeOf(p).Carry? && TaskOf(p) == t && SleepsOn(c, p).None?
    ensures !Unannounced(Next(c, s, p), t) && SleepsNext(c, Next(c, s, p)).None? && SleepsOn(c, Next(c, s, p)).None?
  {}

  lemma NotifierPopped(c: Config, s: State, i: nat, t: Tid)
    requires AccountsInv(s) && PrefixInv(c, s) && Staged(s) && i < |s.threads| && Notifies(s.threads[i], t)
    ensures PhaseOf(s.store, t).Complete?
    ensures exists x :: 0 <= x < |s.log.popped| && x < |c.order| && c.order[x] == t
  {
    CarrierIsOwner(s, i);
    var x := BadgeOf(s.threads[i]).x;
    OwnedArePopped(s, x);
    assert Stage(s, x);
  }

  /** The step that notifies t wakes the sleeper it picks and no other. */
  lemma NotifyStep(c: Config, s: State, i: nat, pick: nat, t: Tid)
    requires Executor(c) && ExecInv(c, s) && Enabled(c, s, Go(i, pick)) && Notifies(s.threads[i], t)
    ensures Announced(c, Apply(c, s, Go(i, pick)), t)
    ensures forall j :: Asleep(c, Apply(c, s, Go(i, pick)), j, t) <==> Asleep(c, s, j, t) && j != pick
  {
    assert AccountsInv(s) && PrefixInv(c, s) && LockInv(c, s) && i < |s.threads|;
    ExecStaged(c, s);
    PickSleeps(c, s, i, pick, t);
    hide Apply, Enabled, Next, ExecInv, AccountsInv, PrefixInv, Staged, LockInv, Executor, SleepsOn, SleepsNext,
      Unannounced,
      StoreAfter, LogAfter, BadgeOf, Notifies;
    var p := s.threads[i];
    var s' := Apply(c, s, Go(i, pick));
    NotifyMover(c, s, p, t);
    NotifierPopped(c, s, i, t);
    PoppedGrows(c, s, i, pick);
    OthersAfter(c, s, Go(i, pick), i);
    forall q | 0 <= q < |s.threads|
      ensures !Unannounced(s'.threads[q], t) && SleepsNext(c, s'.threads[q]) != Some(TaskCv(t))
      ensures Asleep(c, s', q, t) <==> Asleep(c, s, q, t) && q != pick
    {
      OthersAfter(c, s, Go(i, pick), q);
      NobodyParks(c, s, i, q, t);
      if SleepsOn(c, s.threads[q]).Some? { TaskSleepWake(c, s.threads[q], t); }
      if q != i { OthersAnnounced(c, s, i, q, t); }
    }
  }

  lemma PoppedGrows(c: Config, s: State, i: nat, pick: nat)
    requires i < |s.threads| && s.threads[i].Publish?
    ensures Apply(c, s, Go(i, pick)).log == s.log && Apply(c, s, Go(i, pick)).store == StoreAfter(c, s, s.threads[i])
  {
    ApplyParts(c, s, i, pick);
  }

  lemma OthersAnnounced(c: Config, s: State, i: nat, q: nat, t: Tid)
    requires Executor(c) && AccountsInv(s) && PrefixInv(c, s) && i < |s.threads| && q < |s.threads| && i != q
    requires BadgeOf(s.threads[i]).Carry? && TaskOf(s.threads[i]) == t
    ensures !Unannounced(s.threads[q], t)
  {
    if Unannounced(s.threads[q], t) { OnlyCarrier(c, s, i, q, t); }
  }

  /** If anyone is asleep on t, the one picked is, and is woken. */
  lemma PickSleeps(c: Config, s: State, i: nat, pick: nat, t: Tid)
    requires Enabled(c, s, Go(i, pick)) && Notifies(s.threads[i], t)
    ensures (exists j :: Asleep(c, s, j, t)) ==>
      Asleep(c, s, pick, t) && |Apply(c, s, Go(i, pick)).threads| == |s.threads|
      && Apply(c, s, Go(i, pick)).threads[pick] == WakeUp(s.threads[pick])
  {
    if exists j: nat :: Asleep(c, s, j, t) {
      var j: nat :| Asleep(c, s, j, t);
      assert SleepsOn(c, s.threads[j]) == Some(TaskCv(t));
      assert SomeSleeper(c, s.threads, TaskCv(t));
    }
  }

  /** Of the threads asleep on t when it is notified, all but the one picked stay
      asleep for good. */
  lemma NotifyWakesOne(c: Config, s: State, i: nat, pick: nat, ls: seq<Label>, s': State, t: Tid)
    requires Executor(c) && Reachable(c, s) && Enabled(c, s, Go(i, pick)) && Notifies(s.threads[i], t)
    requires Steps(c, Apply(c, s, Go(i, pick)), ls, s') && Notified(ls)
    ensures forall j :: Asleep(c, s', j, t) <==> Asleep(c, s, j, t) && j != pick
  {
    assert i < |s.threads|;
    hide Apply, Enabled, ExecInv, Steps, Announced, Executor, Asleep, Reachable, Notifies;
    ExecReachable(c, s);
    ExecStep(c, s, Go(i, pick));
    NotifyStep(c, s, i, pick, t);
    AnnouncedRun(c, Apply(c, s, Go(i, pick)), ls, s', t);
  }

  // ------------------------------------------------------ two at the same time

  ghost predicate TwoAsleep(c: Config, s: State, t: Tid) {
    exists a: nat, b: nat :: a != b && Asleep(c, s, a, t) && Asleep(c, s, b, t)
  }

  ghost predicate SomeAsleep(c: Config, s: State, t: Tid) { exists j: nat :: Asleep(c, s, j, t) }

  /** A step that does not notify t leaves those asleep on it asleep. */
  lemma SleepOn(c: Config, s: State, i: nat, pick: nat, t: Tid, j: nat)
    requires Enabled(c, s, Go(i, pick)) && !Notifies(s.threads[i], t) && Asleep(c, s, j, t)
    ensures Asleep(c, Apply(c, s, Go(i, pick)), j, t)
  {
    var p := s.threads[i];
    assert SleepsOn(c, p).None?;
    TaskSleepNext(c, s, p, t);
    assert Wakes(p) == One(TaskCv(t)) ==> Notifies(p, t);
    hide Apply, Enabled, Next, SleepsOn, Wakes;
    OthersAfter(c, s, Go(i, pick), j);
  }

  /** Once two threads are asleep on the same task, one of them is asleep in every
      later state. */
  lemma {:induction false} TwoSleepersLeaveOne(c: Config, s: State, ls: seq<Label>, s': State, t: Tid)
    requires Executor(c) && ExecInv(c, s) && TwoAsleep(c, s, t) && Steps(c, s, ls, s') && Notified(ls)
    ensures SomeAsleep(c, s', t)
    decreases |ls|
  {
    hide Apply, Enabled, ExecInv, Executor, Asleep, Announced, Notifies;
    var a: nat, b: nat :| a != b && Asleep(c, s, a, t) && Asleep(c, s, b, t);
    if ls == [] {
      assert SomeAsleep(c, s, t);
    } else {
      FirstStep(c, s, ls, s');
      var i, pick := ls[0].i, ls[0].pick;
      ExecStep(c, s, ls[0]);
      if Notifies(s.threads[i], t) {
        NotifyStep(c, s, i, pick, t);
        AnnouncedRun(c, Apply(c, s, ls[0]), ls[1..], s', t);
        assert Asleep(c, s', if a == pick then b else a, t);
      } else {
        SleepOn(c, s, i, pick, t, a);
        SleepOn(c, s, i, pick, t, b);
        TwoSleepersLeaveOne(c, Apply(c, s, ls[0]), ls[1..], s', t);
      }
    }
  }

  lemma FirstStep(c: Config, s: State, ls: seq<Label>, s': State)
    requires Steps(c, s, ls, s') && ls != [] && Notified(ls)
    ensures ls[0] == Go(ls[0].i, ls[0].pick) && ls[0].i < |s.threads| && Enabled(c, s, ls[0])
    ensures Steps(c, Apply(c, s, ls[0]), ls[1..], s') && Notified(ls[1..])
  {
    assert Enabled(c, s, ls[0]) && Steps(c, Apply(c, s, ls[0]), ls[1..], s');
    hide Enabled, Apply;
    assert ls[0].Go?;
  }

  /** In no state of the run are two threads asleep on t. */
  ghost predicate NeverTwoAsleep(c: Config, s: State, ls: seq<Label>, t: Tid)
    decreases |ls|
  {
    !TwoAsleep(c, s, t) && (ls != [] && ls[0].i < |s.threads| ==> NeverTwoAsleep(c, Apply(c, s, ls[0]), ls[1..], t))
  }

  /** Everyone parked on t although it is complete has its notification coming. */
  ghost predicate NoticeComing(s: State, t: Tid) {
    PhaseOf(s.store, t).Complete? ==>
      forall j :: 0 <= j < |s.threads| && ParkedOnTask(s.threads[j]) && s.threads[j].call.t == t ==> FinisherOf(s, t)
  }

  lemma ParkedShape(c: Config, p: Pc)
    requires ParkedOnTask(p)
    ensures p.call.w.Sleeping? ==> SleepsOn(c, p) == Some(TaskCv(p.call.t))
    ensures p.call.w.Parking? ==> SleepsNext(c, p) == Some(TaskCv(p.call.t))
  {}

  lemma SleeperParked(c: Config, p: Pc, t: Tid)
    requires SleepsOn(c, p) == Some(TaskCv(t))
    ensures ParkedOnTask(p) && p.call.t == t && !ParkedOnTask(WakeUp(p))
  {}

  /** With at most one asleep, the notification reaches whoever is parked. */
  lemma NoticeReaches(c: Config, s: State, i: nat, pick: nat, t: Tid, j: nat)
    requires LockInv(c, s) && Enabled(c, s, Go(i, pick)) && Notifies(s.threads[i], t) && !TwoAsleep(c, s, t)
    requires j < |s.threads|
    requires ParkedOnTask(s.threads[j]) && s.threads[j].call.t == t
    ensures |Apply(c, s, Go(i, pick)).threads| == |s.threads| && !ParkedOnTask(Apply(c, s, Go(i, pick)).threads[j])
  {
    assert i < |s.threads|;
    PickSleeps(c, s, i, pick, t);
    hide Apply, Enabled, LockInv, SleepsOn, SleepsNext, Notifies;
    NobodyParks(c, s, i, j, t);
    ParkedShape(c, s.threads[j]);
    assert Asleep(c, s, j, t);
    assert pick == j;
    SleeperParked(c, s.threads[j], t);
  }

  lemma NoticeStep(c: Config, s: State, i: nat, pick: nat, t: Tid)
    requires LockInv(c, s) && NoticeComing(s, t) && Enabled(c, s, Go(i, pick)) && !TwoAsleep(c, s, t)
    ensures NoticeComing(Apply(c, s, Go(i, pick)), t)
  {
    assert i < |s.threads|;
    var s' := Apply(c, s, Go(i, pick));
    var p := s.threads[i];
    assert SleepsOn(c, p).None?;
    assert Wakes(p) == One(TaskCv(t)) <==> Notifies(p, t);
    hide Enabled, Next, LockInv, TwoAsleep, Notifies, Apply, StoreAfter, Wakes, SleepsOn;
    if PhaseOf(s'.store, t).Complete? {
      CompleteOwes(c, s, i, pick, t);
      if FinisherOf(s, t) && !Notifies(p, t) { FinisherKept(c, s, Go(i, pick), t); }
      forall j | 0 <= j < |s'.threads| && ParkedOnTask(s'.threads[j]) && s'.threads[j].call.t == t
        ensures FinisherOf(s', t)
      {
        ParkedBefore(c, s, i, pick, t, j);
        if PhaseOf(s.store, t).Complete? && Notifies(p, t) { NoticeReaches(c, s, i, pick, t, j); }
      }
    }
  }

  lemma ParkedBefore(c: Config, s: State, i: nat, pick: nat, t: Tid, j: nat)
    requires Enabled(c, s, Go(i, pick)) && j < |Apply(c, s, Go(i, pick)).threads|
    requires ParkedOnTask(Apply(c, s, Go(i, pick)).threads[j]) && Apply(c, s, Go(i, pick)).threads[j].call.t == t
    ensures j < |s.threads|
    ensures (PhaseOf(s.store, t).Complete? ==> ParkedOnTask(s.threads[j]) && s.threads[j].call.t == t)
  {
    assert SleepsOn(c, s.threads[i]).None?;
    hide Enabled, Next, Apply;
    OthersAfter(c, s, Go(i, pick), i);
    OthersAfter(c, s, Go(i, pick), j);
    if j == i { ParkedNext(c, s, s.threads[i]); }
  }

  lemma {:induction false} NoticeRun(c: Config, s: State, ls: seq<Label>, s': State, t: Tid)
    requires PoolInv(c, s) && NoticeComing(s, t) && Steps(c, s, ls, s') && Notified(ls) && NeverTwoAsleep(c, s, ls, t)
    ensures NoticeComing(s', t)
    decreases |ls|
  {
    if ls != [] {
      assert LockInv(c, s);
      FirstStep(c, s, ls, s');
      hide Apply, Enabled, PoolInv, Steps, NoticeComing, TwoAsleep, LockInv;
      PoolStep(c, s, ls[0]);
      NoticeStep(c, s, ls[0].i, ls[0].pick, t);
      NoticeRun(c, Apply(c, s, ls[0]), ls[1..], s', t);
    }
  }

  lemma {:induction false} TwoAsleepOnce(c: Config, s: State, ls: seq<Label>, s': State, t: Tid)
    requires Executor(c) && ExecInv(c, s) && Steps(c, s, ls, s') && Notified(ls) && !NeverTwoAsleep(c, s, ls, t)
    ensures SomeAsleep(c, s', t)
    decreases |ls|
  {
    hide Apply, Enabled, ExecInv, TwoAsleep, Executor, SomeAsleep;
    if TwoAsleep(c, s, t) {
      TwoSleepersLeaveOne(c, s, ls, s', t);
    } else {
      FirstStep(c, s, ls, s');
      ExecStep(c, s, ls[0]);
      TwoAsleepOnce(c, Apply(c, s, ls[0]), ls[1..], s', t);
    }
  }

  /** In a final state every thread that has called wait on t has returned exactly
      if no two were ever asleep on it at the same time. */
  lemma AllTaskWaitersReturn(c: Config, rank: Tid -> nat, ls: seq<Label>, s: State, t: Tid)
    requires ReadyToRun(c, rank) && Undisturbed(c) && t in c.order
    requires Steps(c, Start(c), ls, s) && Notified(ls) && Terminal(c, s)
    ensures !SomeAsleep(c, s, t) <==> NeverTwoAsleep(c, Start(c), ls, t)
  {
    assert Reachable(c, s);
    hide Steps, Start, Terminal, Enabled, Executor, Topological, Dag, TwoAsleep, NeverTwoAsleep, NoticeComing,
      CompleteWith, Undisturbed;
    ExecStart(c);
    ExecReachable(c, s);
    if NeverTwoAsleep(c, Start(c), ls, t) {
      NoticeStart(c, t);
      ExecIsPool(c, Start(c));
      NoticeRun(c, Start(c), ls, s, t);
      var x :| 0 <= x < |c.order| && c.order[x] == t;
      EveryRunCompletes(c, rank, s);
      if SomeAsleep(c, s, t) { NoneLeft(c, s, t); }
    } else {
      TwoAsleepOnce(c, Start(c), ls, s, t);
    }
  }

  lemma NoticeStart(c: Config, t: Tid)
    ensures NoticeComing(Start(c), t)
  {}

  lemma NoneLeft(c: Config, s: State, t: Tid)
    requires LockInv(c, s) && Terminal(c, s) && NoticeComing(s, t) && PhaseOf(s.store, t).Complete?
    ensures !SomeAsleep(c, s, t)
  {
    hide LockInv, Terminal, SleepsOn;
    if SomeAsleep(c, s, t) {
      var j: nat :| Asleep(c, s, j, t);
      SleeperParked(c, s.threads[j], t);
      NoFinisherLeft(c, s, t);
    }
  }

  // ----------------------------------------------------- what the clients call

  /** Client a of the executor is about to call its first operation. */
  lemma FirstCall(c: Config, a: nat, op: Op)
    requires a < |c.progs| && c.progs[a] != [] && c.progs[a][0] == op
    ensures |Start(c).threads| == c.k + |c.progs| && Start(c).threads[c.k + a] == Client([op] + c.progs[a][1..], Ready)
  {
    assert [op] + c.progs[a][1..] == c.progs[a];
  }

  /** Two clients that begin by waiting for the same task can both be asleep. */
  lemma BothFallAsleep(c: Config, t: Tid, a: nat, b: nat) returns (s: State)
    requires a < |c.progs| && c.progs[a] != [] && c.progs[a][0] == TaskWait(t)
    requires b < |c.progs| && c.progs[b] != [] && c.progs[b][0] == TaskWait(t) && a != b
    ensures Reachable(c, s) && TwoAsleep(c, s, t)
  {
    hide Steps, Start;
    var op, i, j := TaskWait(t), c.k + a, c.k + b;
    FirstCall(c, a, op);
    FirstCall(c, b, op);
    StartParks(c, t);
    var s0 := Start(c);
    FallsAsleep(c, s0, i, op, c.progs[a][1..]);
    var s1 := s0.(threads := s0.threads[i := Caller(s0, op, c.progs[a][1..], 4)]);
    FallsAsleep(c, s1, j, op, c.progs[b][1..]);
    s := s1.(threads := s1.threads[j := Caller(s1, op, c.progs[b][1..], 4)]);
    JoinSteps(c, s0, Alone(i, 4), s1, Alone(j, 4), s);
    assert Asleep(c, s, i, t) && Asleep(c, s, j, t);
  }

  lemma StartParks(c: Config, t: Tid)
    ensures WouldPark(Start(c), TaskWait(t))
  {}

  /** Whatever the graph, the order and the number of workers: if two clients begin
      by waiting for the same task, some run ends with one of them asleep. */
  lemma TwoWaitersStrandOne(c: Config, t: Tid, a: nat, b: nat)
    requires Executor(c) && a < |c.progs| && c.progs[a] != [] && c.progs[a][0] == TaskWait(t)
    requires b < |c.progs| && c.progs[b] != [] && c.progs[b][0] == TaskWait(t) && a != b
    ensures exists s :: Reachable(c, s) && Terminal(c, s) && SomeAsleep(c, s, t)
  {
    hide Reachable, Terminal, Executor, Enabled, Steps, ExecInv, TwoAsleep, SomeAsleep;
    var s := BothFallAsleep(c, t, a, b);
    ExecReachable(c, s);
    var end := Drive(c, s, AnyStep(c));
    TwoSleepersLeaveOne(c, s, end.1, end.0, t);
    ReachFurther(c, s, end.1, end.0);
  }
}
