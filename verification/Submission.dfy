/** The executor submits its tasks before it spawns the workers: the calls of
    add_task by one thread lead from the empty pool to the state that Start gives
    the same tasks as a queue, so that the runs of an executor are runs of the pool
    in which the first client submits. */
module Submission {
  import opened Graphs
  import opened VoidFilter
  import opened Machine

  function Adds(order: seq<Tid>): seq<Op> { seq(|order|, x requires 0 <= x < |order| => Add(order[x])) }

  /** The same pool with nothing queued, whose first client submits the order. */
  function Submitting(c: Config): Config
    requires c.progs != []
  {
    c.(order := [], progs := c.progs[0 := Adds(c.order) + c.progs[0]])
  }

  /** n tasks emplaced, m of them counted, the first client at p. */
  function Midway(c: Config, n: nat, m: nat, p: Pc, locks: map<Mutex, nat>): State
    requires c.progs != [] && n <= |c.order|
  {
    var s := Start(c);
    s.(threads := s.threads[c.k := p], locks := locks, queue := c.order[..n], count := m,
       log := s.log.(submitted := c.order[..n], counted := m))
  }

  function Rest(c: Config, n: nat): seq<Op>
    requires c.progs != [] && n <= |c.order|
  {
    Adds(c.order[n..]) + c.progs[0]
  }

  lemma RestOfOne(c: Config, n: nat)
    requires c.progs != [] && n < |c.order|
    ensures Rest(c, n) != [] && Rest(c, n)[0] == Add(c.order[n]) && Rest(c, n)[1..] == Rest(c, n + 1)
  {
    assert Adds(c.order[n..])[1..] == Adds(c.order[n + 1..]);
  }

  lemma NobodySleeps(c: Config, n: nat, m: nat, p: Pc, locks: map<Mutex, nat>)
    requires c.progs != [] && n <= |c.order| && SleepsOn(c, p).None?
    ensures var s := Midway(c, n, m, p, locks);
      && |s.threads| == c.k + |c.progs| && s.threads[c.k] == p
      && forall j :: 0 <= j < |s.threads| ==> SleepsOn(c, s.threads[j]).None?
  {
    var s := Midway(c, n, m, p, locks);
    forall j | 0 <= j < |s.threads| && j != c.k ensures SleepsOn(c, s.threads[j]).None? {
      if j > c.k { assert s.threads[j] == Client(c.progs[j - c.k], Ready); }
    }
  }

  /** A step of the submitting client while nobody sleeps. */
  lemma Turn(c: Config, n: nat, m: nat, p: Pc, locks: map<Mutex, nat>, n': nat, m': nat, p': Pc,
          locks': map<Mutex, nat>)
    requires c.progs != [] && n <= |c.order| && n' <= |c.order| && SleepsOn(c, p).None?
    requires var s := Midway(c, n, m, p, locks); var s' := Midway(c, n', m', p', locks');
      && Live(c, s, p) && Unblocked(c, s, p) && Next(c, s, p) == p' && DoLock(locks, c.k, Action(c, p)) == locks'
      && (Wakes(p).NoWake? || Wakes(p).One?)
      && QueueAfter(s, p) == s'.queue && CountAfter(s, p) == m' && !StopAfter(s, p) && StoreAfter(c, s, p) == s.store
      && LogAfter(s, c.k, p) == s'.log
    ensures Steps(c, Midway(c, n, m, p, locks), [Go(c.k, 0)], Midway(c, n', m', p', locks'))
  {
    var s, s' := Midway(c, n, m, p, locks), Midway(c, n', m', p', locks');
    NobodySleeps(c, n, m, p, locks);
    hide SleepsOn, Next, QueueAfter, CountAfter, LogAfter, StoreAfter, Live, Unblocked, Wakes, Action, DoLock;
    assert !SomeSleeper(c, s.threads, WorkerCv);
    assert Woken(c, s.threads, Wakes(p), 0) == s.threads;
    assert s.threads[c.k := p'] == s'.threads;
    assert Apply(c, s, Go(c.k, 0)) == s';
    OneStep(c, s, Go(c.k, 0), s');
  }

  /** One call of add_task for the n-th task: before the call, after each of its
      seven actions and back. */
  function Point(c: Config, n: nat, i: nat): State
    requires c.progs != [] && n < |c.order| && i <= 8
  {
    var t := c.order[n];
    var w := map[WorkerMtx := c.k];
    var wt := map[WorkerMtx := c.k, TasksMtx := c.k];
    match i
    case 0 => Midway(c, n, n, Client(Rest(c, n), Ready), map[])
    case 1 => Midway(c, n, n, Client(Rest(c, n + 1), Adding(t, AddWantW)), map[])
    case 2 => Midway(c, n, n, Client(Rest(c, n + 1), Adding(t, AddWantT)), w)
    case 3 => Midway(c, n, n, Client(Rest(c, n + 1), Adding(t, AddEmplace)), wt)
    case 4 => Midway(c, n + 1, n, Client(Rest(c, n + 1), Adding(t, AddCount)), wt)
    case 5 => Midway(c, n + 1, n + 1, Client(Rest(c, n + 1), Adding(t, AddRelT)), wt)
    case 6 => Midway(c, n + 1, n + 1, Client(Rest(c, n + 1), Adding(t, AddRelW)), w)
    case 7 => Midway(c, n + 1, n + 1, Client(Rest(c, n + 1), Adding(t, AddNotify)), map[])
    case _ => Midway(c, n + 1, n + 1, Client(Rest(c, n + 1), Ready), map[])
  }

  lemma PointTurn(c: Config, n: nat, i: nat)
    requires c.progs != [] && n < |c.order| && i < 8
    ensures Steps(c, Point(c, n, i), [Go(c.k, 0)], Point(c, n, i + 1))
  {
    hide *;
    if i < 2 { EarlyTurn(c, n, i); }
    else if i < 4 { EmplaceTurn(c, n, i); }
    else if i == 4 { CountTurn(c, n); }
    else if i < 7 { LateTurn(c, n, i); }
    else { LastTurn(c, n); }
  }

  lemma EarlyTurn(c: Config, n: nat, i: nat)
    requires c.progs != [] && n < |c.order| && i < 2
    ensures Steps(c, Point(c, n, i), [Go(c.k, 0)], Point(c, n, i + 1))
  {
    hide Steps, Rest;
    var t, r := c.order[n], Rest(c, n + 1);
    RestOfOne(c, n);
    if i == 0 {
      Turn(c, n, n, Client(Rest(c, n), Ready), map[], n, n, Client(r, Adding(t, AddWantW)), map[]);
    } else {
      Turn(c, n, n, Client(r, Adding(t, AddWantW)), map[], n, n, Client(r, Adding(t, AddWantT)), map[WorkerMtx := c.k]);
    }
  }

  lemma EmplaceTurn(c: Config, n: nat, i: nat)
    requires c.progs != [] && n < |c.order| && 2 <= i < 4
    ensures Steps(c, Point(c, n, i), [Go(c.k, 0)], Point(c, n, i + 1))
  {
    hide Steps, Rest;
    var t, r := c.order[n], Rest(c, n + 1);
    var w, wt := map[WorkerMtx := c.k], map[WorkerMtx := c.k, TasksMtx := c.k];
    if i == 2 {
      Turn(c, n, n, Client(r, Adding(t, AddWantT)), w, n, n, Client(r, Adding(t, AddEmplace)), wt);
    } else {
      assert c.order[..n + 1] == c.order[..n] + [t];
      Turn(c, n, n, Client(r, Adding(t, AddEmplace)), wt, n + 1, n, Client(r, Adding(t, AddCount)), wt);
    }
  }

  lemma CountTurn(c: Config, n: nat)
    requires c.progs != [] && n < |c.order|
    ensures Steps(c, Point(c, n, 4), [Go(c.k, 0)], Point(c, n, 5))
  {
    hide Steps, Rest;
    var t, r := c.order[n], Rest(c, n + 1);
    var wt := map[WorkerMtx := c.k, TasksMtx := c.k];
    Turn(c, n + 1, n, Client(r, Adding(t, AddCount)), wt, n + 1, n + 1, Client(r, Adding(t, AddRelT)), wt);
  }

  lemma LateTurn(c: Config, n: nat, i: nat)
    requires c.progs != [] && n < |c.order| && 5 <= i < 7
    ensures Steps(c, Point(c, n, i), [Go(c.k, 0)], Point(c, n, i + 1))
  {
    hide Steps, Rest, Point;
    if i == 5 { ReleaseTasks(c, n); } else { ReleaseWorkers(c, n); }
  }

  lemma ReleaseTasks(c: Config, n: nat)
    requires c.progs != [] && n < |c.order|
    ensures Steps(c, Point(c, n, 5), [Go(c.k, 0)], Point(c, n, 6))
  {
    hide Steps, Rest;
    var t, r := c.order[n], Rest(c, n + 1);
    var w, wt := map[WorkerMtx := c.k], map[WorkerMtx := c.k, TasksMtx := c.k];
    assert w == wt - {TasksMtx};
    Turn(c, n + 1, n + 1, Client(r, Adding(t, AddRelT)), wt, n + 1, n + 1, Client(r, Adding(t, AddRelW)), w);
  }

  lemma ReleaseWorkers(c: Config, n: nat)
    requires c.progs != [] && n < |c.order|
    ensures Steps(c, Point(c, n, 6), [Go(c.k, 0)], Point(c, n, 7))
  {
    hide Steps, Rest;
    var t, r := c.order[n], Rest(c, n + 1);
    var w := map[WorkerMtx := c.k];
    assert w - {WorkerMtx} == map[];
    Turn(c, n + 1, n + 1, Client(r, Adding(t, AddRelW)), w, n + 1, n + 1, Client(r, Adding(t, AddNotify)), map[]);
  }

  lemma LastTurn(c: Config, n: nat)
    requires c.progs != [] && n < |c.order|
    ensures Steps(c, Point(c, n, 7), [Go(c.k, 0)], Point(c, n, 8))
  {
    hide Steps, Rest;
    var t, r := c.order[n], Rest(c, n + 1);
    Turn(c, n + 1, n + 1, Client(r, Adding(t, AddNotify)), map[], n + 1, n + 1, Client(r, Ready), map[]);
  }

  function Turns(c: Config, n: nat): seq<Label> { seq(n, _ => Go(c.k, 0)) }

  lemma {:induction false} PointsFrom(c: Config, n: nat, i: nat)
    requires c.progs != [] && n < |c.order| && i <= 8
    ensures Steps(c, Point(c, n, 0), Turns(c, i), Point(c, n, i))
  {
    if i > 0 {
      hide Point;
      PointsFrom(c, n, i - 1);
      PointTurn(c, n, i - 1);
      hide Steps;
      JoinSteps(c, Point(c, n, 0), Turns(c, i - 1), Point(c, n, i - 1), [Go(c.k, 0)], Point(c, n, i));
      assert Turns(c, i - 1) + [Go(c.k, 0)] == Turns(c, i);
    }
  }

  /** n calls of add_task, eight steps each. */
  lemma {:induction false} Submitted(c: Config, n: nat)
    requires c.progs != [] && n <= |c.order|
    ensures Steps(c, Midway(c, 0, 0, Client(Rest(c, 0), Ready), map[]), Turns(c, 8 * n),
                  Midway(c, n, n, Client(Rest(c, n), Ready), map[]))
  {
    hide Steps, Midway, Rest, Turns, Point;
    var s0 := Midway(c, 0, 0, Client(Rest(c, 0), Ready), map[]);
    NoTurns(c);
    if n == 0 {
      NoStep(c, s0, Turns(c, 0));
    } else {
      Submitted(c, n - 1);
      PointsFrom(c, n - 1, 8);
      PointEnds(c, n - 1);
      JoinSteps(c, s0, Turns(c, 8 * (n - 1)), Point(c, n - 1, 0), Turns(c, 8), Point(c, n - 1, 8));
      MoreTurns(c, 8 * (n - 1), 8);
    }
  }

  lemma NoTurns(c: Config)
    ensures Turns(c, 0) == []
  {}

  lemma MoreTurns(c: Config, a: nat, b: nat)
    ensures Turns(c, a) + Turns(c, b) == Turns(c, a + b)
  {}

  lemma PointEnds(c: Config, n: nat)
    requires c.progs != [] && n < |c.order|
    ensures Point(c, n, 0) == Midway(c, n, n, Client(Rest(c, n), Ready), map[])
    ensures Point(c, n, 8) == Midway(c, n + 1, n + 1, Client(Rest(c, n + 1), Ready), map[])
  {
    hide Midway, Rest;
  }

  /** The steps of a pool do not depend on what was queued or on the programs. */
  lemma SameSteps(c: Config, d: Config, s: State, l: Label)
    requires c.g == d.g && c.fn == d.fn && c.k == d.k && c.callback == d.callback && Enabled(c, s, l)
    ensures Enabled(d, s, l) && Apply(d, s, l) == Apply(c, s, l)
  {
    SameThread(c, d, s, s.threads[l.i]);
    forall p ensures SleepsOn(d, p) == SleepsOn(c, p) {}
    hide Next, SleepsOn, Action, StoreAfter;
  }

  lemma SameThread(c: Config, d: Config, s: State, p: Pc)
    requires c.g == d.g && c.fn == d.fn && c.k == d.k && c.callback == d.callback
    ensures Next(c, s, p) == Next(d, s, p) && Action(c, p) == Action(d, p) && StoreAfter(c, s, p) == StoreAfter(d, s, p)
    ensures Live(c, s, p) == Live(d, s, p)
  {
    hide KeptOf;
  }

  lemma {:induction false} SameRun(c: Config, d: Config, s: State, ls: seq<Label>, s': State)
    requires c.g == d.g && c.fn == d.fn && c.k == d.k && c.callback == d.callback && Steps(c, s, ls, s')
    ensures Steps(d, s, ls, s')
    decreases |ls|
  {
    if ls != [] {
      assert Enabled(c, s, ls[0]) && Steps(c, Apply(c, s, ls[0]), ls[1..], s');
      hide Enabled, Apply;
      SameSteps(c, d, s, ls[0]);
      SameRun(c, d, Apply(c, s, ls[0]), ls[1..], s');
    }
  }

  lemma EmptyAndFull(c: Config)
    requires c.progs != []
    ensures Start(Submitting(c)) == Midway(c, 0, 0, Client(Rest(c, 0), Ready), map[])
    ensures Start(c) == Midway(c, |c.order|, |c.order|, Client(Rest(c, |c.order|), Ready), map[])
  {
    var d := Submitting(c);
    assert c.order[0..] == c.order && c.order[..0] == [] && c.order[..|c.order|] == c.order;
    assert Adds(c.order[|c.order|..]) == [];
    assert Start(d).threads == Start(c).threads[c.k := Client(Rest(c, 0), Ready)];
    assert Start(c).threads[c.k] == Client(c.progs[0], Ready);
    assert Rest(c, |c.order|) == c.progs[0];
    assert Start(c).threads == Start(c).threads[c.k := Client(Rest(c, |c.order|), Ready)];
  }

  /** Submitting one task after the other from the empty pool ends in the state the
      executor's runs start from. */
  lemma SubmissionReachesStart(c: Config)
    requires c.progs != []
    ensures Steps(Submitting(c), Start(Submitting(c)), Turns(c, 8 * |c.order|), Start(c))
  {
    hide Start, Steps, Midway;
    EmptyAndFull(c);
    Submitted(c, |c.order|);
    SameRun(c, Submitting(c), Start(Submitting(c)), Turns(c, 8 * |c.order|), Start(c));
  }

  /** Every run of an executor continues such a run of the pool. */
  lemma ExecutorRunsArePoolRuns(c: Config, s: State)
    requires c.progs != [] && Reachable(c, s)
    ensures Reachable(Submitting(c), s)
  {
    hide Start, Steps;
    var ls :| Steps(c, Start(c), ls, s);
    SubmissionReachesStart(c);
    SameRun(c, Submitting(c), Start(c), ls, s);
    JoinSteps(Submitting(c), Start(Submitting(c)), Turns(c, 8 * |c.order|), Start(c), ls, s);
  }
}
