/** No wake-up of a worker is lost: while some worker sleeps, every queued task
    is matched by a notification still owed or by a worker on its way to pop. */
module Wakeups {
  import opened Graphs
  import opened Machine
  import opened Locks
  import Sums

  /** 1 for a submitter that has emplaced and not yet notified, and for a worker
      woken or past its wait that has not yet popped. */
  function Coming(p: Pc): int {
    match p
    case Idle(w) => if w.Want? || w.Test? || w.Release? then 1 else 0
    case ShutCheck => 1
    case WantTasks => 1
    case Client(_, Adding(_, a)) => if a.AddCount? || a.AddRelT? || a.AddRelW? || a.AddNotify? then 1 else 0
    case _ => 0
  }

  function ComingOf(ts: seq<Pc>): seq<int> { seq(|ts|, j requires 0 <= j < |ts| => Coming(ts[j])) }

  ghost predicate SomeWorkerAsleep(s: State) {
    exists j :: 0 <= j < |s.threads| && s.threads[j] == Idle(Sleeping)
  }

  ghost predicate NoLostWakeup(s: State) {
    SomeWorkerAsleep(s) && !s.stop ==> |s.queue| <= Sums.Sum(ComingOf(s.threads))
  }

  predicate Stopping(p: Pc) {
    p.Client? && p.call.Destroying? && !p.call.d.DtWant? && !p.call.d.DtSet?
  }

  /** A parking worker has just seen an empty queue; the flag is up once a
      destructor is past setting it and once a worker has exited. */
  ghost predicate ParkInv(s: State) {
    && (forall j :: 0 <= j < |s.threads| && s.threads[j] == Idle(Parking) ==> s.queue == [] && !s.stop)
    && (forall j :: 0 <= j < |s.threads| && Stopping(s.threads[j]) ==> s.stop)
    && (forall j :: 0 <= j < |s.threads| && s.threads[j] == Exited ==> s.stop)
  }

  lemma ParkNext(c: Config, s: State, p: Pc)
    requires SleepsOn(c, p).None?
    ensures Next(c, s, p) == Idle(Parking) ==> s.queue == [] && !s.stop && QueueAfter(s, p) == [] && !StopAfter(s, p)
    requires Stopping(p) || p == Exited ==> s.stop
    ensures Stopping(Next(c, s, p)) || Next(c, s, p) == Exited ==> StopAfter(s, p)
  {}

  /** Growing the queue and raising the flag both happen under the worker mutex. */
  lemma UnderWorkerMtx(c: Config, s: State, p: Pc)
    requires s.queue == [] && !s.stop && !Holds(c, p, WorkerMtx)
    ensures QueueAfter(s, p) == [] && !StopAfter(s, p)
  {}

  lemma ParkStep(c: Config, s: State, l: Label)
    requires LockInv(c, s) && ParkInv(s) && Enabled(c, s, l)
    ensures ParkInv(Apply(c, s, l))
  {
    assert l.i < |s.threads|;
    var p := s.threads[l.i];
    if l.Go? { ApplyParts(c, s, l.i, l.pick); assert SleepsOn(c, p).None?; ParkNext(c, s, p); }
    var s' := Apply(c, s, l);
    assert s.stop ==> s'.stop;
    assert l.Spurious? ==> s'.queue == s.queue && s'.stop == s.stop;
    hide Apply, Enabled, Next, StopAfter, QueueAfter;
    OthersAfter(c, s, l, l.i);
    forall j | 0 <= j < |s'.threads|
      ensures s'.threads[j] == Idle(Parking) ==> s'.queue == [] && !s'.stop
      ensures Stopping(s'.threads[j]) || s'.threads[j] == Exited ==> s'.stop
    {
      OthersAfter(c, s, l, j);
      if j != l.i && s'.threads[j] == Idle(Parking) && l.Go? {
        assert Holds(c, s.threads[j], WorkerMtx);
        if Holds(c, p, WorkerMtx) { OneHolder(c, s, l.i, j, WorkerMtx); }
        UnderWorkerMtx(c, s, p);
      }
    }
  }

  /** A step loses a coming worker only when the queue is empty, when it pops,
      when it notifies, or after shutdown. */
  lemma ComingNext(c: Config, s: State, p: Pc)
    requires SleepsOn(c, p).None? && !s.stop
    ensures Next(c, s, p) == Idle(Sleeping) ==> p == Idle(Parking)
    ensures QueueAfter(s, p) == []
      || (|QueueAfter(s, p)| - |s.queue| <= Coming(Next(c, s, p)) - Coming(p))
      || (Wakes(p) == One(WorkerCv) && QueueAfter(s, p) == s.queue && Coming(Next(c, s, p)) == Coming(p) - 1)
  {}

  lemma WokenComing(c: Config, p: Pc)
    requires SleepsOn(c, p).Some?
    ensures Coming(p) == 0
    ensures Coming(WakeUp(p)) == if p == Idle(Sleeping) then 1 else 0
    ensures (p == Idle(Sleeping)) <==> SleepsOn(c, p) == Some(WorkerCv)
    ensures WakeUp(p) != Idle(Sleeping)
  {}

  /** The sleeper a notify_one of the workers wakes, if there is one. */
  predicate WakesWorker(s: State, l: Label) {
    && l.i < |s.threads|
    && (l.Go? ==> Wakes(s.threads[l.i]) == One(WorkerCv) && l.pick < |s.threads| && s.threads[l.pick] == Idle(Sleeping))
  }

  lemma PickIsWorker(c: Config, s: State, l: Label)
    requires Enabled(c, s, l) && l.Go? && Wakes(s.threads[l.i]) == One(WorkerCv) && SomeWorkerAsleep(s)
    ensures WakesWorker(s, l) && l.pick != l.i
  {
    var j :| 0 <= j < |s.threads| && s.threads[j] == Idle(Sleeping);
    assert SleepsOn(c, s.threads[j]) == Some(WorkerCv);
  }

  /** What one step does to the share of every thread. */
  lemma ComingAfter(c: Config, s: State, l: Label)
    requires Enabled(c, s, l) && (l.Go? ==> Wakes(s.threads[l.i]) != All(WorkerCv))
    ensures l.i < |s.threads|
    ensures var w := ComingOf(s.threads);
      var mid := if l.Go? && WakesWorker(s, l) then w[l.pick := 1] else w;
      ComingOf(Apply(c, s, l).threads) ==
        mid[l.i := if l.Go? then Coming(Next(c, s, s.threads[l.i])) else Coming(WakeUp(s.threads[l.i]))]
  {
    var ts := s.threads;
    hide Apply, Enabled, Next, Coming, DoLock, Action;
    LocksAfter(c, s, l);
    OthersAfter(c, s, l, l.i);
    forall j | 0 <= j < |ts| && j != l.i
      ensures Coming(Apply(c, s, l).threads[j]) ==
        if l.Go? && WakesWorker(s, l) && l.pick == j then 1 else Coming(ts[j])
    {
      ComingOther(c, s, l, j);
    }
  }

  lemma ComingStep(c: Config, s: State, l: Label)
    requires Enabled(c, s, l) && (l.Go? ==> Wakes(s.threads[l.i]) != All(WorkerCv))
    ensures var w := ComingOf(s.threads); var w' := ComingOf(Apply(c, s, l).threads);
      && (l.Spurious? ==> Sums.Sum(w') >= Sums.Sum(w))
      && (l.Go? ==> Sums.Sum(w') >= Sums.Sum(w) - Coming(s.threads[l.i]) + Coming(Next(c, s, s.threads[l.i])))
      && (l.Go? && Wakes(s.threads[l.i]) == One(WorkerCv) && SomeWorkerAsleep(s) ==>
            Sums.Sum(w') == Sums.Sum(w) - Coming(s.threads[l.i]) + Coming(Next(c, s, s.threads[l.i])) + 1)
  {
    ComingAfter(c, s, l);
    var ts := s.threads;
    var w := ComingOf(ts);
    if l.Spurious? {
      WokenComing(c, ts[l.i]);
      Sums.Update(w, l.i, Coming(WakeUp(ts[l.i])));
    } else {
      if Wakes(ts[l.i]) == One(WorkerCv) && SomeWorkerAsleep(s) { PickIsWorker(c, s, l); }
      assert SleepsOn(c, ts[l.i]).None?;
      hide Apply, Enabled, Next, Wakes, SomeWorkerAsleep;
      var mid := w;
      if WakesWorker(s, l) {
        mid := w[l.pick := 1];
        Sums.Update(w, l.pick, 1);
        assert ts[l.i] != Idle(Sleeping) && l.pick != l.i;
      }
      Sums.Update(mid, l.i, Coming(Next(c, s, ts[l.i])));
    }
  }

  lemma ComingOther(c: Config, s: State, l: Label, j: nat)
    requires Enabled(c, s, l) && j < |s.threads| && j != l.i && (l.Go? ==> Wakes(s.threads[l.i]) != All(WorkerCv))
    ensures |Apply(c, s, l).threads| == |s.threads|
    ensures Coming(Apply(c, s, l).threads[j]) ==
      if l.Go? && Wakes(s.threads[l.i]) == One(WorkerCv) && l.pick == j && s.threads[j] == Idle(Sleeping) then 1
      else Coming(s.threads[j])
  {
    OthersAfter(c, s, l, j);
    if SleepsOn(c, s.threads[j]).Some? { WokenComing(c, s.threads[j]); }
  }

  lemma SleeperBefore(c: Config, s: State, l: Label)
    requires Enabled(c, s, l) && SomeWorkerAsleep(Apply(c, s, l)) && !s.stop
    ensures SomeWorkerAsleep(s) || (l.Go? && s.threads[l.i] == Idle(Parking))
  {
    assert l.i < |s.threads|;
    var j :| 0 <= j < |Apply(c, s, l).threads| && Apply(c, s, l).threads[j] == Idle(Sleeping);
    if l.Go? { assert SleepsOn(c, s.threads[l.i]).None?; ComingNext(c, s, s.threads[l.i]); }
    hide Apply, Enabled, Next;
    OthersAfter(c, s, l, l.i);
    OthersAfter(c, s, l, j);
    if SleepsOn(c, s.threads[j]).Some? { WokenComing(c, s.threads[j]); }
    assert s.threads[j] == Idle(Sleeping) || (l.Go? && s.threads[l.i] == Idle(Parking));
  }

  lemma WakeupStep(c: Config, s: State, l: Label)
    requires LockInv(c, s) && ParkInv(s) && NoLostWakeup(s) && Enabled(c, s, l)
    ensures NoLostWakeup(Apply(c, s, l))
  {
    assert l.i < |s.threads|;
    var s' := Apply(c, s, l);
    var p := s.threads[l.i];
    assert s.stop ==> s'.stop;
    if SomeWorkerAsleep(s') && !s'.stop {
      assert l.Go? && Wakes(p) == All(WorkerCv) ==> Stopping(p);
      assert l.Spurious? ==> s'.queue == s.queue;
      assert l.Go? ==> SleepsOn(c, p).None?;
      assert p == Idle(Parking) ==> s.queue == [];
      hide Apply, Enabled, Next, Wakes, SleepsOn, QueueAfter, Coming, LockInv;
      SleeperBefore(c, s, l);
      if l.Go? { ApplyParts(c, s, l.i, l.pick); ComingNext(c, s, p); }
      ComingStep(c, s, l);
      ComingNonNegative(s'.threads);
      if !SomeWorkerAsleep(s) { assert p == Idle(Parking); ParkedComing(c, s); }
    }
  }

  lemma ComingNonNegative(ts: seq<Pc>)
    ensures Sums.Sum(ComingOf(ts)) >= 0
  {
    Sums.NonNegative(ComingOf(ts));
  }

  lemma ParkedComing(c: Config, s: State)
    ensures Coming(Next(c, s, Idle(Parking))) == Coming(Idle(Parking)) == 0
    ensures QueueAfter(s, Idle(Parking)) == s.queue
  {}

  lemma WakeupStart(c: Config)
    ensures ParkInv(Start(c)) && NoLostWakeup(Start(c))
  {}
}
