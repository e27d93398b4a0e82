/** Clients that add tasks to a running pool: which programs guarantee, whatever the
    schedule, that what is submitted is distinct and in topological order, so that
    every task completes and every client returns. */
module Adders {
  import opened Graphs
  import opened Machine
  import opened Locks
  import opened Accounts
  import opened Programs
  import opened Completions
  import opened Cancels
  import opened Stages
  import opened Invariant
  import opened RunsEnd
  import opened ExecutorTheorems

  // ------------------------------------------------------ what the programs say

  /** The n-th call of client i adds t, or waits for t. */
  predicate Calls(c: Config, i: nat, n: nat, op: Op) { i < |c.progs| && n < |c.progs[i]| && c.progs[i][n] == op }

  /** No task is given to the pool twice. */
  ghost predicate AddedOnce(c: Config) {
    && Distinct(c.order)
    && (forall i, n, t :: Calls(c, i, n, Add(t)) ==> t !in c.order)
    && (forall i, n, j, m, t :: Calls(c, i, n, Add(t)) && Calls(c, j, m, Add(t)) ==> i == j && n == m)
  }

  /** What a client knows to be submitted at its n-th call. */
  ghost predicate KnownAt(c: Config, i: nat, n: nat, u: Tid)
    requires i < |c.progs| && n <= |c.progs[i]|
  {
    u in c.order || Add(u) in c.progs[i][..n] || TaskWait(u) in c.progs[i][..n]
  }

  /** A client adds a task after it has added what the task depends on, or has waited
      for it to complete. */
  ghost predicate DependenciesKnown(c: Config) {
    && Topological(c.g, c.order)
    && (forall i, n, t, u :: Calls(c, i, n, Add(t)) && DependsOn(c.g, t, u) ==> KnownAt(c, i, n, u))
  }

  // ------------------------------------------------------------ one client adds

  /** The tasks a program adds, in order. */
  function AddsOf(prog: seq<Op>): seq<Tid> {
    if prog == [] then []
    else AddsOf(prog[..|prog| - 1]) + (if prog[|prog| - 1].Add? then [prog[|prog| - 1].t] else [])
  }

  lemma {:induction false} AddsPlace(prog: seq<Op>, n: nat, t: Tid)
    requires n < |prog| && prog[n] == Add(t)
    ensures AddsOf(prog[..n]) + [t] <= AddsOf(prog)
    decreases |prog|
  {
    if n < |prog| - 1 {
      AddsPlace(prog[..|prog| - 1], n, t);
      assert prog[..|prog| - 1][..n] == prog[..n];
    }
  }

  lemma {:induction false} AddsFrom(prog: seq<Op>, u: Tid)
    requires u in AddsOf(prog)
    ensures Add(u) in prog
  {
    if u in AddsOf(prog[..|prog| - 1]) { AddsFrom(prog[..|prog| - 1], u); }
  }

  lemma AddsOnce(order: seq<Tid>, prog: seq<Op>, n: nat, m: nat, t: Tid)
    requires Distinct(order + AddsOf(prog)) && n < m < |prog| && prog[n] == Add(t)
    ensures prog[m] != Add(t)
  {
    hide AddsOf, Distinct;
    if prog[m] == Add(t) {
      AddsPlace(prog, m, t);
      assert prog[..m][..n] == prog[..n];
      AddsPlace(prog[..m], n, t);
      PlacesDiffer(order, AddsOf(prog), AddsOf(prog[..n]), AddsOf(prog[..m]), t);
    }
  }

  lemma PlacesDiffer(order: seq<Tid>, adds: seq<Tid>, a: seq<Tid>, b: seq<Tid>, t: Tid)
    requires a + [t] <= b && b + [t] <= adds
    ensures !Distinct(order + adds)
  {
    TwicePlaced(order + adds, |order| + |a|, |order| + |b|);
  }

  lemma NotGiven(order: seq<Tid>, prog: seq<Op>, n: nat, t: Tid)
    requires Distinct(order + AddsOf(prog)) && n < |prog| && prog[n] == Add(t)
    ensures t !in order
  {
    hide AddsOf, Distinct;
    AddsPlace(prog, n, t);
    if t in order {
      var y :| 0 <= y < |order| && order[y] == t;
      TwicePlaced(order + AddsOf(prog), y, |order| + |AddsOf(prog[..n])|);
    }
  }

  lemma TwicePlaced(all: seq<Tid>, x: nat, y: nat)
    requires x < y < |all| && all[x] == all[y]
    ensures !Distinct(all)
  {}

  lemma DependencyBefore(g: Graph, order: seq<Tid>, prog: seq<Op>, n: nat, t: Tid, u: Tid)
    requires Topological(g, order + AddsOf(prog)) && n < |prog| && prog[n] == Add(t) && DependsOn(g, t, u)
    ensures u in order || Add(u) in prog[..n]
  {
    hide DependsOn;
    AddsPlace(prog, n, t);
    var all := order + AddsOf(prog);
    var x := |order| + |AddsOf(prog[..n])|;
    assert all[x] == t;
    var y :| 0 <= y < x && all[y] == u;
    if y >= |order| {
      assert u == AddsOf(prog[..n])[y - |order|];
      AddsFrom(prog[..n], u);
    }
  }

  lemma FrontOrdered(g: Graph, order: seq<Tid>, adds: seq<Tid>)
    requires Distinct(order + adds) && Topological(g, order + adds)
    ensures Distinct(order) && Topological(g, order)
  {
    hide DependsOn;
    var all := order + adds;
    assert forall x :: 0 <= x < |order| ==> all[x] == order[x];
    forall x, u: Tid | 0 <= x < |order| && DependsOn(g, order[x], u) ensures exists y :: 0 <= y < x && order[y] == u {
      assert DependsOn(g, all[x], u);
      var y :| 0 <= y < x && all[y] == u;
      assert order[y] == u;
    }
  }

  /** If one client makes all the adds, it is enough that the order followed by its adds
      is distinct and topological. */
  lemma SoleAdder(c: Config, a: nat)
    requires a < |c.progs| && forall i, n, t :: Calls(c, i, n, Add(t)) ==> i == a
    requires Distinct(c.order + AddsOf(c.progs[a])) && Topological(c.g, c.order + AddsOf(c.progs[a]))
    ensures AddedOnce(c) && DependenciesKnown(c)
  {
    hide DependsOn, Distinct, Topological;
    var prog := c.progs[a];
    FrontOrdered(c.g, c.order, AddsOf(prog));
    forall i, n, t | Calls(c, i, n, Add(t)) ensures t !in c.order { NotGiven(c.order, prog, n, t); }
    forall i, n, j, m, t | Calls(c, i, n, Add(t)) && Calls(c, j, m, Add(t)) ensures i == j && n == m {
      if n < m { AddsOnce(c.order, prog, n, m, t); }
      if m < n { AddsOnce(c.order, prog, m, n, t); }
    }
    forall i, n, t, u | Calls(c, i, n, Add(t)) && DependsOn(c.g, t, u) ensures KnownAt(c, i, n, u) {
      DependencyBefore(c.g, c.order, prog, n, t, u);
    }
  }

  // ---------------------------------------------------- what a client has added

  predicate BeforeEmplace(call: Call) {
    call.Adding? && (call.a.AddWantW? || call.a.AddWantT? || call.a.AddEmplace?)
  }

  /** The calls of client j up to its last add that has reached the queue. */
  function Emplaced(c: Config, j: nat, p: Pc): seq<Op>
    requires ThreadShape(c, j, p) && p.Client?
  {
    c.progs[j - c.k][..|c.progs[j - c.k]| - |p.rest| - (if BeforeEmplace(p.call) then 1 else 0)]
  }

  predicate HasAdded(c: Config, j: nat, p: Pc, t: Tid) {
    ThreadShape(c, j, p) && p.Client? && Add(t) in Emplaced(c, j, p)
  }

  /** This client has returned from a wait for t, or is about to. */
  predicate HasSeen(c: Config, j: nat, p: Pc, t: Tid) {
    ThreadShape(c, j, p) && p.Client?
    && (TaskWait(t) in Returned(c, j, p) || (p.call.TaskWaiting? && p.call.t == t && p.call.w.Release?))
  }

  ghost predicate SomeoneAdded(c: Config, s: State, t: Tid) {
    exists j :: 0 <= j < |s.threads| && HasAdded(c, j, s.threads[j], t)
  }

  /** Whatever is submitted comes from the order or from an add, and what a client has
      seen complete is submitted. */
  ghost predicate OriginInv(c: Config, s: State) {
    && (forall t :: t in s.log.submitted ==> t in c.order || SomeoneAdded(c, s, t))
    && (forall j, t :: 0 <= j < |s.threads| && HasSeen(c, j, s.threads[j], t) ==> t in s.log.submitted)
  }

  lemma AddedNext(c: Config, s: State, j: nat, p: Pc, t: Tid)
    requires ThreadShape(c, j, p) && SleepsOn(c, p).None?
    requires HasAdded(c, j, p, t) || (p.Client? && p.call == Adding(t, AddEmplace))
    ensures HasAdded(c, j, Next(c, s, p), t)
  {
    ShapeNext(c, s, j, p);
    RestNext(c, s, p.rest, p.call);
    hide Next, SleepsOn;
    var q := Next(c, s, p);
    var prog := c.progs[j - c.k];
    assert Emplaced(c, j, p) <= Emplaced(c, j, q);
    if p.call == Adding(t, AddEmplace) {
      assert prog[|prog| - |p.rest| - 1] in Emplaced(c, j, q);
    }
  }

  /** What is left of a program, and whether an add is still to reach the queue. */
  lemma RestNext(c: Config, s: State, rest: seq<Op>, call: Call)
    ensures var q := Next(c, s, Client(rest, call));
      && q.Client?
      && |q.rest| + (if BeforeEmplace(q.call) then 1 else 0) <= |rest| + (if BeforeEmplace(call) then 1 else 0)
      && (call.Adding? && call.a.AddEmplace? ==> q.rest == rest && !BeforeEmplace(q.call))
  {}

  lemma AddedWake(c: Config, j: nat, p: Pc, t: Tid)
    requires SleepsOn(c, p).Some?
    ensures HasAdded(c, j, p, t) ==> HasAdded(c, j, WakeUp(p), t)
    ensures HasSeen(c, j, WakeUp(p), t) ==> HasSeen(c, j, p, t)
  {}

  lemma ReleasedNext(c: Config, s: State, p: Pc)
    requires SleepsOn(c, p).None?
    ensures var q := Next(c, s, p);
      q.Client? && q.call.TaskWaiting? && q.call.w.Release? ==> PhaseOf(s.store, q.call.t).Complete?
  {}

  lemma SeenNext(c: Config, s: State, j: nat, p: Pc, t: Tid)
    requires ThreadShape(c, j, p) && SleepsOn(c, p).None? && HasSeen(c, j, Next(c, s, p), t)
    ensures HasSeen(c, j, p, t) || PhaseOf(s.store, t).Complete?
  {
    ShapeNext(c, s, j, p);
    ReleasedNext(c, s, p);
    hide Next, Returned, SleepsOn;
    if p.Client? { ReturnedNext(c, s, j, p.rest, p.call); }
  }

  lemma SubmittedBy(s: State, i: nat, p: Pc)
    ensures LogAfter(s, i, p).submitted ==
      if p.Client? && p.call.Adding? && p.call.a.AddEmplace? then s.log.submitted + [p.call.t] else s.log.submitted
  {}

  lemma SomeoneStill(c: Config, s: State, l: Label, t: Tid)
    requires ShapeInv(c, s) && Enabled(c, s, l)
    requires SomeoneAdded(c, s, t)
      || (l.Go? && s.threads[l.i].Client? && s.threads[l.i].call == Adding(t, AddEmplace))
    ensures SomeoneAdded(c, Apply(c, s, l), t)
  {
    hide Apply, Enabled, Next, HasAdded, SleepsOn, QueueAfter, CountAfter, StopAfter, StoreAfter, LogAfter;
    SharedAfter(c, s, l);
    var j := l.i;
    if SomeoneAdded(c, s, t) { j :| 0 <= j < |s.threads| && HasAdded(c, j, s.threads[j], t); }
    assert ThreadShape(c, j, s.threads[j]);
    OthersAfter(c, s, l, j);
    if j == l.i && l.Go? { AddedNext(c, s, j, s.threads[j], t); }
    else if SleepsOn(c, s.threads[j]).Some? { AddedWake(c, j, s.threads[j], t); }
    assert HasAdded(c, j, Apply(c, s, l).threads[j], t);
  }

  lemma OriginStep(c: Config, s: State, l: Label)
    requires ShapeInv(c, s) && TouchedInv(s) && OriginInv(c, s) && Enabled(c, s, l)
    ensures OriginInv(c, Apply(c, s, l))
  {
    hide Apply, Enabled, Next, HasAdded, HasSeen, SleepsOn, QueueAfter, CountAfter, StopAfter, StoreAfter, LogAfter,
      SomeoneAdded;
    SharedAfter(c, s, l);
    OthersAfter(c, s, l, l.i);
    var s' := Apply(c, s, l);
    if l.Go? { SubmittedBy(s, l.i, s.threads[l.i]); }
    forall t | t in s'.log.submitted ensures t in c.order || SomeoneAdded(c, s', t) {
      if t !in c.order { SomeoneStill(c, s, l, t); }
    }
    forall j, t | 0 <= j < |s'.threads| && HasSeen(c, j, s'.threads[j], t) ensures t in s'.log.submitted {
      OthersAfter(c, s, l, j);
      assert ThreadShape(c, j, s.threads[j]);
      if j == l.i && l.Go? { SeenNext(c, s, j, s.threads[j], t); }
      else if SleepsOn(c, s.threads[j]).Some? { AddedWake(c, j, s.threads[j], t); }
      assert PhaseOf(s.store, t).Complete? ==> !Untouched(s.store, t);
    }
  }

  // ------------------------------------------------------ distinct and in order

  ghost predicate WellOrdered(c: Config, s: State) {
    Distinct(s.log.submitted) && Topological(c.g, s.log.submitted) && c.order <= s.log.submitted
  }

  /** What a client has added is submitted. */
  lemma AddedSubmitted(c: Config, s: State, j: nat, t: Tid)
    requires AddInv(c, s) && j < |s.threads| && HasAdded(c, j, s.threads[j], t)
    ensures t in s.log.submitted
  {
    var p := s.threads[j];
    assert AddThread(c, s, j, p);
    var prog := c.progs[j - c.k];
    var n := |prog| - |p.rest|;
    if Add(t) !in Returned(c, j, p) {
      assert prog[..n] == prog[..n - 1] + [prog[n - 1]];
    }
  }

  /** At its add a client has made exactly the calls before it. */
  lemma AtAdd(c: Config, j: nat, p: Pc) returns (n: nat)
    requires j >= c.k && ThreadShape(c, j, p) && p.call.Adding? && p.call.a.AddEmplace?
    ensures Calls(c, j - c.k, n, Add(p.call.t))
    ensures Emplaced(c, j, p) == c.progs[j - c.k][..n] == Returned(c, j, p) && |Emplaced(c, j, p)| == n
  {
    n := |c.progs[j - c.k]| - |p.rest| - 1;
  }

  /** The task of an add was not submitted before. */
  lemma NewTask(c: Config, s: State, i: nat)
    requires AddedOnce(c) && ShapeInv(c, s) && OriginInv(c, s) && i < |s.threads|
    requires s.threads[i].Client? && s.threads[i].call.Adding? && s.threads[i].call.a.AddEmplace?
    ensures s.threads[i].call.t !in s.log.submitted
  {
    hide AddedOnce, OriginInv, HasAdded, Emplaced, Returned;
    var t := s.threads[i].call.t;
    assert ThreadShape(c, i, s.threads[i]);
    var n := AtAdd(c, i, s.threads[i]);
    if t in s.log.submitted {
      NotInOrder(c, s, i - c.k, n, t);
      var j :| 0 <= j < |s.threads| && HasAdded(c, j, s.threads[j], t);
      var m := AddedAt(c, j, s.threads[j], t);
      CalledOnce(c, i - c.k, n, j - c.k, m, t);
    }
  }

  lemma NotInOrder(c: Config, s: State, i: nat, n: nat, t: Tid)
    requires AddedOnce(c) && OriginInv(c, s) && Calls(c, i, n, Add(t)) && t in s.log.submitted
    ensures SomeoneAdded(c, s, t)
  {}

  lemma AddedAt(c: Config, j: nat, p: Pc, t: Tid) returns (m: nat)
    requires HasAdded(c, j, p, t)
    ensures j >= c.k && Calls(c, j - c.k, m, Add(t)) && m < |Emplaced(c, j, p)|
  {
    m :| 0 <= m < |Emplaced(c, j, p)| && Emplaced(c, j, p)[m] == Add(t);
  }

  lemma CalledOnce(c: Config, i: nat, n: nat, j: nat, m: nat, t: Tid)
    requires AddedOnce(c) && Calls(c, i, n, Add(t)) && Calls(c, j, m, Add(t))
    ensures i == j && n == m
  {}

  /** Everything it depends on was. */
  lemma DependenciesSubmitted(c: Config, s: State, i: nat, u: Tid)
    requires DependenciesKnown(c) && ShapeInv(c, s) && OriginInv(c, s) && AddInv(c, s) && i < |s.threads|
    requires s.threads[i].Client? && s.threads[i].call.Adding? && s.threads[i].call.a.AddEmplace?
    requires DependsOn(c.g, s.threads[i].call.t, u)
    ensures u in s.log.submitted
  {
    var p := s.threads[i];
    assert ThreadShape(c, i, p);
    var n := AtAdd(c, i, p);
    assert KnownAt(c, i - c.k, n, u);
    if u in c.order {
      var x :| 0 <= x < |c.order| && c.order[x] == u;
    } else if Add(u) in c.progs[i - c.k][..n] {
      assert HasAdded(c, i, p, u);
      AddedSubmitted(c, s, i, u);
    } else {
      assert HasSeen(c, i, p, u);
    }
  }

  lemma OrderedMore(g: Graph, order: seq<Tid>, t: Tid)
    requires Distinct(order) && Topological(g, order) && t !in order
    requires forall u :: DependsOn(g, t, u) ==> u in order
    ensures Distinct(order + [t]) && Topological(g, order + [t])
  {
    hide DependsOn;
    var more := order + [t];
    forall x, u: Tid | 0 <= x < |more| && DependsOn(g, more[x], u) ensures exists y :: 0 <= y < x && more[y] == u {
      if x < |order| {
        var y :| 0 <= y < x && order[y] == u;
        assert more[y] == u;
      } else {
        var y :| 0 <= y < |order| && order[y] == u;
        assert more[y] == u;
      }
    }
  }

  lemma WellOrderedStep(c: Config, s: State, l: Label)
    requires AddedOnce(c) && DependenciesKnown(c) && ShapeInv(c, s) && OriginInv(c, s) && AddInv(c, s)
    requires WellOrdered(c, s) && Enabled(c, s, l)
    ensures WellOrdered(c, Apply(c, s, l))
  {
    hide AddedOnce, DependenciesKnown, ShapeInv, OriginInv, AddInv, Apply, Enabled, Next, QueueAfter, CountAfter,
      StopAfter, StoreAfter, LogAfter, Distinct, Topological, DependsOn;
    SharedAfter(c, s, l);
    if l.Go? {
      var p := s.threads[l.i];
      SubmittedBy(s, l.i, p);
      if p.Client? && p.call.Adding? && p.call.a.AddEmplace? {
        NewTask(c, s, l.i);
        forall u | DependsOn(c.g, p.call.t, u) ensures u in s.log.submitted { DependenciesSubmitted(c, s, l.i, u); }
        OrderedMore(c.g, s.log.submitted, p.call.t);
      }
    }
  }

  lemma {:induction false} AddingSteps(c: Config, s: State, ls: seq<Label>, s': State)
    requires AddedOnce(c) && DependenciesKnown(c) && PoolInv(c, s) && OriginInv(c, s) && WellOrdered(c, s)
    requires Steps(c, s, ls, s')
    ensures WellOrdered(c, s')
    decreases |ls|
  {
    if ls != [] {
      assert Enabled(c, s, ls[0]) && Steps(c, Apply(c, s, ls[0]), ls[1..], s');
      assert ShapeInv(c, s) && TouchedInv(s) && AddInv(c, s);
      hide Apply, Enabled, PoolInv, Steps, ShapeInv, TouchedInv, AddInv, OriginInv, WellOrdered, AddedOnce,
        DependenciesKnown;
      PoolStep(c, s, ls[0]);
      OriginStep(c, s, ls[0]);
      WellOrderedStep(c, s, ls[0]);
      AddingSteps(c, Apply(c, s, ls[0]), ls[1..], s');
    }
  }

  lemma AddingStart(c: Config)
    ensures OriginInv(c, Start(c))
    ensures AddedOnce(c) && DependenciesKnown(c) ==> WellOrdered(c, Start(c))
  {
    var s := Start(c);
    forall j, t | 0 <= j < |s.threads| ensures !HasSeen(c, j, s.threads[j], t) {
      if j >= c.k { assert s.threads[j] == Client(c.progs[j - c.k], Ready); }
    }
  }

  /** In every state of every run what was submitted is distinct and in topological
      order. */
  lemma AlwaysWellOrdered(c: Config, s: State)
    requires AddedOnce(c) && DependenciesKnown(c) && Reachable(c, s)
    ensures Distinct(s.log.submitted) && Topological(c.g, s.log.submitted) && c.order <= s.log.submitted
  {
    hide AddedOnce, DependenciesKnown, PoolInv, OriginInv, Steps, Start;
    var ls :| Steps(c, Start(c), ls, s);
    PoolStart(c);
    AddingStart(c);
    AddingSteps(c, Start(c), ls, s);
  }

  // ---------------------------------------------------------------- completion

  /** A client waits for a task alone, and for one that is in the order, that it has
      added before, or that a client whose turn is earlier adds. */
  ghost predicate WaitsAreServed(c: Config, turn: nat -> nat) {
    forall i, n, t :: Calls(c, i, n, TaskWait(t)) ==> OneWaiter(c, t) && ServedAt(c, turn, i, n, t)
  }

  ghost predicate ServedAt(c: Config, turn: nat -> nat, i: nat, n: nat, t: Tid)
    requires i < |c.progs| && n <= |c.progs[i]|
  {
    || t in c.order || Add(t) in c.progs[i][..n]
    || exists j: nat :: j < |c.progs| && turn(j) < turn(i) && Add(t) in c.progs[j]
  }

  ghost predicate AtEnd(c: Config, s: State, i: nat) {
    c.k + i < |s.threads| && s.threads[c.k + i] == Client([], Ready)
  }

  /** In a wait for a task a client has made exactly the calls before it. */
  lemma AtTaskWait(c: Config, s: State, i: nat, t: Tid) returns (n: nat)
    requires ShapeInv(c, s) && AddInv(c, s) && i < |c.progs| && c.k + i < |s.threads|
    requires s.threads[c.k + i].Client? && s.threads[c.k + i].call.TaskWaiting? && s.threads[c.k + i].call.t == t
    ensures Calls(c, i, n, TaskWait(t)) && (Add(t) in c.progs[i][..n] ==> t in s.log.submitted)
  {
    var p := s.threads[c.k + i];
    assert ThreadShape(c, c.k + i, p) && AddThread(c, s, c.k + i, p);
    n := |c.progs[i]| - |p.rest| - 1;
    assert Returned(c, c.k + i, p) == c.progs[i][..n];
  }

  /** In a final state a client is at the end of its program if those before it are. */
  lemma {:induction false} AdderReturns(c: Config, rank: Tid -> nat, turn: nat -> nat, s: State, i: nat)
    requires Dag(c.g, rank) && c.k >= 1 && Undisturbed(c) && Reachable(c, s) && Terminal(c, s)
    requires AddedOnce(c) && DependenciesKnown(c) && WaitsAreServed(c, turn) && i < |c.progs|
    ensures AtEnd(c, s, i)
    decreases turn(i)
  {
    hide Dag, Undisturbed, Reachable, Terminal, AddedOnce, DependenciesKnown, PoolInv, OneWaiter, Distinct,
      Topological, AddInv, ShapeInv;
    PoolReachable(c, s);
    ShapesAndAdds(c, s);
    AlwaysWellOrdered(c, s);
    EverySubmitterReturns(c, rank, s, c.k + i);
    if !AtEnd(c, s, i) {
      var t := s.threads[c.k + i].call.t;
      var n := AtTaskWait(c, s, i, t);
      assert ServedAt(c, turn, i, n, t);
      if t !in c.order && Add(t) !in c.progs[i][..n] {
        var j: nat :| j < |c.progs| && turn(j) < turn(i) && Add(t) in c.progs[j];
        AdderReturns(c, rank, turn, s, j);
        AddedIsSubmitted(c, s, j, t);
      }
    }
  }

  lemma ShapesAndAdds(c: Config, s: State)
    requires PoolInv(c, s)
    ensures ShapeInv(c, s) && AddInv(c, s) && |s.threads| == c.k + |c.progs|
  {}

  /** For programs that keep to this, in any number and beside any workers: every run
      that cannot go on has an idle pool, every client has run its program to the end,
      and every task of the order and of every add is complete with the value of
      recursive evaluation. */
  lemma EverythingAddedCompletes(c: Config, rank: Tid -> nat, turn: nat -> nat, s: State)
    requires Dag(c.g, rank) && c.k >= 1 && Undisturbed(c) && Reachable(c, s) && Terminal(c, s)
    requires AddedOnce(c) && DependenciesKnown(c) && WaitsAreServed(c, turn)
    ensures s.queue == [] && s.count == 0
    ensures forall i :: 0 <= i < |c.progs| ==> AtEnd(c, s, i)
    ensures forall t :: t in c.order ==> CompleteWith(c, rank, s, t)
    ensures forall i, t :: 0 <= i < |c.progs| && Add(t) in c.progs[i] ==> CompleteWith(c, rank, s, t)
  {
    hide Dag, Undisturbed, Reachable, Terminal, AddedOnce, DependenciesKnown, WaitsAreServed, Distinct, Topological,
      CompleteWith;
    AlwaysWellOrdered(c, s);
    EverySubmissionCompletes(c, rank, s);
    forall i | 0 <= i < |c.progs| ensures AtEnd(c, s, i) { AdderReturns(c, rank, turn, s, i); }
    forall t | t in c.order ensures CompleteWith(c, rank, s, t) {
      var x :| 0 <= x < |c.order| && c.order[x] == t;
      assert s.log.submitted[x] == t;
    }
    forall i, t | 0 <= i < |c.progs| && Add(t) in c.progs[i] ensures CompleteWith(c, rank, s, t) {
      assert AtEnd(c, s, i);
      EveryAddedTaskCompletes(c, rank, s, i, t);
    }
  }
}
