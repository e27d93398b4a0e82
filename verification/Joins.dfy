/** The destructor joins: when it returns the flag is up, and every worker is gone for
    good, so that nothing touches the pool any more. */
module Joins {
  import opened Graphs
  import opened Machine
  import opened Locks
  import opened Accounts
  import opened Programs
  import opened Cancels
  import opened Invariant

  /** The first n workers have left their loops. */
  ghost predicate Gone(s: State, n: nat) {
    forall w :: 0 <= w < n ==> w < |s.threads| && s.threads[w] == Exited
  }

  /** A destructor has joined the workers before the one it is at, and all of them
      once it has returned. */
  ghost predicate JoinThread(c: Config, s: State, j: nat, p: Pc) {
    ThreadShape(c, j, p) && p.Client? ==>
      && (p.call.Destroying? && p.call.d.DtJoin? ==> p.call.d.i <= c.k && Gone(s, p.call.d.i))
      && (Destroy in Returned(c, j, p) ==> s.stop && Gone(s, c.k))
      && (p.call.Destroying? && !p.call.d.DtWant? && !p.call.d.DtSet? ==> s.stop)
  }

  ghost predicate JoinInv(c: Config, s: State) {
    forall j :: 0 <= j < |s.threads| ==> JoinThread(c, s, j, s.threads[j])
  }

  lemma GoneStays(c: Config, s: State, l: Label, n: nat)
    requires Enabled(c, s, l) && Gone(s, n)
    ensures Gone(Apply(c, s, l), n) && (s.stop ==> Apply(c, s, l).stop)
  {
    SharedAfter(c, s, l);
    forall w | 0 <= w < n ensures w < |Apply(c, s, l).threads| && Apply(c, s, l).threads[w] == Exited {
      NotExited(c, s, l);
      hide Apply, Enabled, Next;
      OthersAfter(c, s, l, w);
    }
  }

  /** A worker that has exited does not move. */
  lemma NotExited(c: Config, s: State, l: Label)
    requires Enabled(c, s, l)
    ensures l.i < |s.threads| && s.threads[l.i] != Exited
  {}

  /** How a destructor comes to be at a join, and past the flag. */
  lemma JoinNext(c: Config, s: State, rest: seq<Op>, call: Call)
    requires Live(c, s, Client(rest, call)) && |s.threads| >= c.k
    ensures var q := Next(c, s, Client(rest, call));
      && (q.Client? && q.call.Destroying? && q.call.d.DtJoin? ==>
            (call.Destroying?
             && if call.d.DtJoin? then call.d.i < c.k && q.call.d.i == call.d.i + 1 && s.threads[call.d.i].Exited?
                else q.call.d.i == 0 && call.d.DtNotify?))
      && (q.Client? && q.call.Destroying? && !q.call.d.DtWant? && !q.call.d.DtSet? ==>
            call.Destroying? && (call.d.DtSet? || (!call.d.DtWant? && !call.d.DtSet?)))
  {}

  lemma JoinMover(c: Config, s: State, l: Label)
    requires ShapeInv(c, s) && JoinInv(c, s) && Enabled(c, s, l) && l.Go? && s.threads[l.i].Client?
    ensures JoinThread(c, Apply(c, s, l), l.i, Next(c, s, s.threads[l.i]))
  {
    var p := s.threads[l.i];
    assert Live(c, s, p);
    SharedAfter(c, s, l);
    hide Apply, Enabled, Next, Live, SleepsOn, Returned, QueueAfter, CountAfter, StoreAfter, LogAfter, Gone;
    assert ThreadShape(c, l.i, p) && JoinThread(c, s, l.i, p);
    ReturnedNext(c, s, l.i, p.rest, p.call);
    JoinNext(c, s, p.rest, p.call);
    if p.call.Destroying? && p.call.d.DtJoin? {
      GoneStays(c, s, l, p.call.d.i);
      if p.call.d.i < c.k {
        assert Gone(s, p.call.d.i + 1) by { assert Gone(s, p.call.d.i); OneMoreGone(s, p.call.d.i); }
        GoneStays(c, s, l, p.call.d.i + 1);
      }
    }
    if Destroy in Returned(c, l.i, p) { GoneStays(c, s, l, c.k); }
    NobodyGone(Apply(c, s, l));
  }

  lemma OneMoreGone(s: State, n: nat)
    requires Gone(s, n) && n < |s.threads| && s.threads[n] == Exited
    ensures Gone(s, n + 1)
  {}

  lemma NobodyGone(s: State)
    ensures Gone(s, 0)
  {}

  lemma JoinWake(c: Config, s: State, j: nat, p: Pc)
    requires SleepsOn(c, p).Some? && ThreadShape(c, j, p) && JoinThread(c, s, j, p)
    ensures JoinThread(c, s, j, WakeUp(p))
  {}

  lemma JoinKept(c: Config, s: State, l: Label, j: nat, p: Pc)
    requires Enabled(c, s, l) && JoinThread(c, s, j, p)
    ensures JoinThread(c, Apply(c, s, l), j, p)
  {
    SharedAfter(c, s, l);
    hide Apply, Enabled, Next, Returned, Gone;
    if ThreadShape(c, j, p) && p.Client? {
      if p.call.Destroying? && p.call.d.DtJoin? { GoneStays(c, s, l, p.call.d.i); }
      if Destroy in Returned(c, j, p) { GoneStays(c, s, l, c.k); }
    }
  }

  lemma JoinStep(c: Config, s: State, l: Label)
    requires ShapeInv(c, s) && JoinInv(c, s) && Enabled(c, s, l)
    ensures JoinInv(c, Apply(c, s, l))
  {
    hide Apply, Enabled, Next, JoinThread, SleepsOn, ThreadShape;
    SharedAfter(c, s, l);
    ShapeStep(c, s, l);
    forall j | 0 <= j < |Apply(c, s, l).threads| ensures JoinThread(c, Apply(c, s, l), j, Apply(c, s, l).threads[j]) {
      assert ThreadShape(c, j, s.threads[j]) && JoinThread(c, s, j, s.threads[j]);
      OthersAfter(c, s, l, j);
      if j == l.i && l.Go? {
        if s.threads[j].Client? { JoinMover(c, s, l); } else { WorkerJoins(c, s, Apply(c, s, l), j, s.threads[j]); }
      } else {
        if SleepsOn(c, s.threads[j]).Some? { JoinWake(c, s, j, s.threads[j]); }
        JoinKept(c, s, l, j, Apply(c, s, l).threads[j]);
      }
    }
  }

  lemma WorkerJoins(c: Config, s: State, s': State, j: nat, p: Pc)
    requires !p.Client?
    ensures JoinThread(c, s', j, Next(c, s, p))
  {
    WorkerNext(c, s, p);
  }

  lemma JoinStart(c: Config)
    ensures JoinInv(c, Start(c))
  {
    var s := Start(c);
    forall j | 0 <= j < |s.threads| ensures JoinThread(c, s, j, s.threads[j]) {
      if j >= c.k { assert s.threads[j] == Client(c.progs[j - c.k], Ready); }
    }
  }

  lemma {:induction false} JoiningSteps(c: Config, s: State, ls: seq<Label>, s': State)
    requires ShapeInv(c, s) && JoinInv(c, s) && Steps(c, s, ls, s')
    ensures ShapeInv(c, s') && JoinInv(c, s')
    decreases |ls|
  {
    if ls != [] {
      assert Enabled(c, s, ls[0]) && Steps(c, Apply(c, s, ls[0]), ls[1..], s');
      hide Apply, Enabled, ShapeInv, JoinInv, Steps;
      ShapeStep(c, s, ls[0]);
      JoinStep(c, s, ls[0]);
      JoiningSteps(c, Apply(c, s, ls[0]), ls[1..], s');
    }
  }

  /** When a destructor has returned, in any run of any pool: the flag is up, every
      worker has exited, and no thread carries a task. */
  lemma DestructorJoinsAll(c: Config, s: State, j: nat)
    requires Reachable(c, s) && j < |s.threads|
    requires ThreadShape(c, j, s.threads[j]) && s.threads[j].Client? && Destroy in Returned(c, j, s.threads[j])
    ensures s.stop && forall w :: 0 <= w < c.k ==> w < |s.threads| && s.threads[w] == Exited
    ensures forall q :: 0 <= q < |s.threads| ==> !BadgeOf(s.threads[q]).Carry?
  {
    hide Steps, Start, Returned, BadgeOf;
    var ls :| Steps(c, Start(c), ls, s);
    ShapeStart(c);
    JoinStart(c);
    JoiningSteps(c, Start(c), ls, s);
    assert JoinThread(c, s, j, s.threads[j]);
    forall q | 0 <= q < |s.threads| ensures !BadgeOf(s.threads[q]).Carry? {
      assert ThreadShape(c, q, s.threads[q]);
      NoCarrier(s.threads[q]);
    }
  }

  lemma NoCarrier(p: Pc)
    requires p.Client? || p == Exited
    ensures !BadgeOf(p).Carry?
  {}
}
