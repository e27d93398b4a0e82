/** How a client falls asleep: called at the wrong moment a wait, of the pool or of a
    task, takes four steps to park. */
module Sleepers {
  import opened Machine

  predicate Waits(op: Op) { op.Wait? || op.TaskWait? }

  function MtxOf(op: Op): Mutex { if op.TaskWait? then TaskMtx(op.t) else WaitMtx }

  /** The mutex is free and the condition does not hold. */
  predicate WouldPark(s: State, op: Op) {
    && MtxOf(op) !in s.locks
    && (if op.TaskWait? then !PhaseOf(s.store, op.t).Complete? else s.count != 0)
  }

  /** The caller before its call of op, after it, and after each step to its sleep. */
  function Caller(s: State, op: Op, rest: seq<Op>, i: nat): Pc {
    var w := if i <= 1 then Want else if i == 2 then Test else if i == 3 then Parking else Sleeping;
    if i == 0 then Client([op] + rest, Ready)
    else if op.TaskWait? then Client(rest, TaskWaiting(op.t, w))
    else Client(rest, Waiting(s.log.counted, s.log.wiped, w))
  }

  /** The state in which client me is at that point of the call it makes in s. */
  function Calling(s: State, me: nat, op: Op, rest: seq<Op>, i: nat): State
    requires me < |s.threads|
  {
    s.(threads := s.threads[me := Caller(s, op, rest, i)],
       locks := if i == 2 || i == 3 then s.locks[MtxOf(op) := me] else s.locks)
  }

  lemma CallerTurn(c: Config, s: State, me: nat, op: Op, rest: seq<Op>, i: nat)
    requires me < |s.threads| && Waits(op) && WouldPark(s, op) && i < 4
    ensures var m := Calling(s, me, op, rest, i); var p := Caller(s, op, rest, i);
      && Next(c, m, p) == Caller(s, op, rest, i + 1)
      && DoLock(m.locks, me, Action(c, p)) == Calling(s, me, op, rest, i + 1).locks
      && Live(c, m, p) && Unblocked(c, m, p) && Wakes(p).NoWake?
      && QueueAfter(m, p) == s.queue && CountAfter(m, p) == s.count && StopAfter(m, p) == s.stop
      && StoreAfter(c, m, p) == s.store && LogAfter(m, me, p) == s.log
  {}

  /** A step of one thread that notifies nobody. */
  lemma QuietStep(c: Config, s: State, me: nat, s': State)
    requires me < |s.threads| && Live(c, s, s.threads[me]) && Unblocked(c, s, s.threads[me])
    requires Wakes(s.threads[me]).NoWake?
    requires var p := s.threads[me];
      && s'.threads == s.threads[me := Next(c, s, p)] && s'.locks == DoLock(s.locks, me, Action(c, p))
      && s'.queue == QueueAfter(s, p) && s'.count == CountAfter(s, p) && s'.stop == StopAfter(s, p)
      && s'.store == StoreAfter(c, s, p) && s'.log == LogAfter(s, me, p)
    ensures Steps(c, s, [Go(me, 0)], s')
  {
    hide Live, Unblocked, Next, DoLock, Action, QueueAfter, CountAfter, StopAfter, StoreAfter, LogAfter;
    assert Apply(c, s, Go(me, 0)) == s';
    OneStep(c, s, Go(me, 0), s');
  }

  lemma CallerStep(c: Config, s: State, me: nat, op: Op, rest: seq<Op>, i: nat)
    requires me < |s.threads| && Waits(op) && WouldPark(s, op) && i < 4
    ensures Steps(c, Calling(s, me, op, rest, i), [Go(me, 0)], Calling(s, me, op, rest, i + 1))
  {
    hide Steps, Live, Unblocked, Next, DoLock, Action, QueueAfter, CountAfter, StopAfter, StoreAfter, LogAfter, Wakes,
      Caller;
    CallerTurn(c, s, me, op, rest, i);
    QuietStep(c, Calling(s, me, op, rest, i), me, Calling(s, me, op, rest, i + 1));
  }

  function Alone(me: nat, n: nat): seq<Label> { seq(n, _ => Go(me, 0)) }

  lemma {:induction false} CallsUpTo(c: Config, s: State, me: nat, op: Op, rest: seq<Op>, i: nat)
    requires me < |s.threads| && Waits(op) && WouldPark(s, op) && i <= 4
    ensures Steps(c, Calling(s, me, op, rest, 0), Alone(me, i), Calling(s, me, op, rest, i))
  {
    hide Steps, Calling;
    if i == 0 {
      NoStep(c, Calling(s, me, op, rest, 0), Alone(me, 0));
    } else {
      CallsUpTo(c, s, me, op, rest, i - 1);
      CallerStep(c, s, me, op, rest, i - 1);
      JoinSteps(c, Calling(s, me, op, rest, 0), Alone(me, i - 1), Calling(s, me, op, rest, i - 1),
                [Go(me, 0)], Calling(s, me, op, rest, i));
      assert Alone(me, i - 1) + [Go(me, 0)] == Alone(me, i);
    }
  }

  /** Left alone, a client about to call the wait ends up asleep in it, and nothing
      else changes. */
  lemma FallsAsleep(c: Config, s: State, me: nat, op: Op, rest: seq<Op>)
    requires me < |s.threads| && s.threads[me] == Client([op] + rest, Ready) && Waits(op) && WouldPark(s, op)
    ensures Steps(c, s, Alone(me, 4), s.(threads := s.threads[me := Caller(s, op, rest, 4)]))
  {
    hide Steps;
    CallsUpTo(c, s, me, op, rest, 4);
    assert Calling(s, me, op, rest, 0).threads == s.threads;
    assert Calling(s, me, op, rest, 0) == s;
  }
}
