/** Without spurious wake-ups every run is finite, whatever the programs, the
    graph and the scheduler: a step either uses up one of finitely many pops,
    notifications and shutdowns, or brings its thread closer to the next one. */
module Termination {
  import opened Graphs
  import opened VoidFilter
  import opened Machine
  import opened Locks
  import Sums

  // -------------------------------------------- pops, notifications, shutdowns

  function BigOp(op: Op): nat { match op case Add(_) => 6 case Destroy => 2 case _ => 0 }

  function BigOps(ops: seq<Op>): nat { if ops == [] then 0 else BigOp(ops[0]) + BigOps(ops[1..]) }

  function BigCall(call: Call): nat {
    match call
    case Adding(_, a) => if a.AddWantW? || a.AddWantT? || a.AddEmplace? then 6 else 1
    case Destroying(d) => if d.DtWant? || d.DtSet? then 2 else if d.DtRel? || d.DtNotify? then 1 else 0
    case _ => 0
  }

  function Big(p: Pc): nat {
    match p
    case Fetch(_, _, _, _) => 3
    case Work(_, _, _) => 3
    case Publish(_, _, u) => if u.TaskUnlock? then 1 else if u.Finish? || u.TaskLock? || u.TaskNotify? then 2 else 3
    case Tail(_, _, d) => if d.UnlockWait? then 0 else 1
    case Client(rest, call) => BigOps(rest) + BigCall(call)
    case _ => 0
  }

  // ------------------------------------------------------------- small steps

  function WtWeight(w: Wt): nat {
    match w case Want => 4 case Test => 3 case Release => 2 case Parking => 1 case Sleeping => 0
  }

  /** A worker in its loop heads for a pop, for sleep or for its exit, depending
      on the queue and the flag. */
  function LoopWeight(p: Pc, empty: bool, stop: bool): nat {
    match p
    case Unstarted => 12
    case Top => if stop then 5 else if empty then 7 else 10
    case Idle(w) =>
      (match w
       case Sleeping => 0
       case Parking => 4
       case Want => if stop then 10 else if empty then 6 else 9
       case Test => if stop then 9 else if empty then 5 else 8
       case Release => if stop then 8 else if empty then 10 else 7)
    case ShutCheck => if stop then 7 else if empty then 9 else 6
    case WantTasks => if stop then 6 else if empty then 8 else 5
    case _ => 0
  }

  function Remaining(a: int, b: int): nat { if b < a then a - b else 0 }

  function WorkWeight(c: Config, t: Tid, k: WorkAt): nat {
    match k
    case Begin => 31 + |KeptOf(c.g, t)|
    case StampStart => 30 + |KeptOf(c.g, t)|
    case Read(args) => 29 + Remaining(|KeptOf(c.g, t)|, |args|)
    case StampEnd => 28
    case Write => 27
  }

  function PublishWeight(u: PubAt): nat {
    match u
    case EdgeLock => 26 case EdgeSet => 25 case EdgeUnlock => 24 case EdgeNotify => 23
    case Finish => 22 case TaskLock => 21 case TaskNotify => 20 case TaskUnlock => 19
  }

  function TailWeight(d: TailAt): nat {
    match d
    case WantWait => 18 case Dec => 17 case Load => 16 case Callback => 15 case NotifyAll => 14 case UnlockWait => 13
  }

  function OpsWeight(c: Config, ops: seq<Op>): nat { if ops == [] then 0 else c.k + 12 + OpsWeight(c, ops[1..]) }

  function CallWeight(c: Config, call: Call): nat {
    match call
    case Ready => 0
    case Adding(_, a) =>
      (match a
       case AddWantW => 9 case AddWantT => 8 case AddEmplace => 7 case AddCount => 6
       case AddRelT => 5 case AddRelW => 4 case AddNotify => 3)
    case Clearing(e) => (match e case ClWant => 4 case ClSub => 3 case ClDrop(_) => 2 case ClRel => 1)
    case Waiting(_, _, w) => WtWeight(w)
    case TaskWaiting(_, w) => WtWeight(w)
    case Destroying(d) =>
      (match d
       case DtWant => c.k + 9 case DtSet => c.k + 8 case DtRel => c.k + 7 case DtNotify => c.k + 6
       case DtJoin(i) => 1 + Remaining(c.k, i))
  }

  function Weight(c: Config, p: Pc, empty: bool, stop: bool): nat {
    match p
    case Fetch(_, t, n, w) => 32 + |KeptOf(c.g, t)| + 6 * Remaining(|Slots(c.g, t)|, n) + WtWeight(w)
    case Work(_, t, k) => WorkWeight(c, t, k)
    case Publish(_, _, u) => PublishWeight(u)
    case Tail(_, _, d) => TailWeight(d)
    case Client(rest, call) => OpsWeight(c, rest) + CallWeight(c, call)
    case _ => LoopWeight(p, empty, stop)
  }

  // ----------------------------------------------------------------- measure

  function Bigs(ts: seq<Pc>): seq<int> { seq(|ts|, j requires 0 <= j < |ts| => Big(ts[j])) }

  function Weights(c: Config, ts: seq<Pc>, empty: bool, stop: bool): seq<int> {
    seq(|ts|, j requires 0 <= j < |ts| => Weight(c, ts[j], empty, stop))
  }

  function Events(s: State): int { 4 * |s.queue| + Sums.Sum(Bigs(s.threads)) }

  function Effort(c: Config, s: State): int { Sums.Sum(Weights(c, s.threads, s.queue == [], s.stop)) }

  lemma MeasureNonNegative(c: Config, s: State)
    ensures Events(s) >= 0 && Effort(c, s) >= 0
  {
    Sums.NonNegative(Bigs(s.threads));
    Sums.NonNegative(Weights(c, s.threads, s.queue == [], s.stop));
  }

  /** What one step does to the mover's share of the measure. */
  ghost predicate Progress(c: Config, s: State, p: Pc, q: Pc) {
    var events := 4 * |QueueAfter(s, p)| + Big(q) - (4 * |s.queue| + Big(p));
    events < 0
    || (events == 0 && Wakes(p).NoWake? && QueueAfter(s, p) == s.queue && StopAfter(s, p) == s.stop
        && Weight(c, q, s.queue == [], s.stop) < Weight(c, p, s.queue == [], s.stop))
  }

  lemma LoopProgress(c: Config, s: State, p: Pc)
    requires SleepsOn(c, p).None? && (p.Unstarted? || p.Top? || p.Idle? || p.ShutCheck? || p.WantTasks?)
    ensures Progress(c, s, p, Next(c, s, p))
  {}

  lemma FetchProgress(c: Config, s: State, p: Pc)
    requires SleepsOn(c, p).None? && p.Fetch?
    ensures Progress(c, s, p, Next(c, s, p))
  {
    hide KeptOf;
    if Src(c.g, p.t, p.n).Some? {
      assert p.n < |Slots(c.g, p.t)|;
    } else if p.n < |Slots(c.g, p.t)| {
      assert Next(c, s, p) == Fetch(p.x, p.t, p.n + 1, Want);
    } else {
      assert Next(c, s, p) == Work(p.x, p.t, Begin);
    }
  }

  lemma WorkProgress(c: Config, s: State, p: Pc)
    requires p.Work?
    ensures Progress(c, s, p, Next(c, s, p))
  {
    hide KeptOf, SlotValue;
    assert p.k.StampStart? ==> Next(c, s, p) == Work(p.x, p.t, Read([]));
  }

  lemma PublishProgress(c: Config, s: State, p: Pc)
    requires p.Publish? || p.Tail?
    ensures Progress(c, s, p, Next(c, s, p))
  {}

  lemma ClientProgress(c: Config, s: State, rest: seq<Op>, call: Call)
    requires SleepsOn(c, Client(rest, call)).None? && (call.Ready? ==> rest != [])
    ensures Progress(c, s, Client(rest, call), Next(c, s, Client(rest, call)))
  {}

  lemma NextProgress(c: Config, s: State, p: Pc)
    requires Live(c, s, p)
    ensures Progress(c, s, p, Next(c, s, p))
  {
    hide Next, Progress;
    if p.Fetch? { FetchProgress(c, s, p); }
    else if p.Work? { WorkProgress(c, s, p); }
    else if p.Publish? || p.Tail? { PublishProgress(c, s, p); }
    else if p.Client? { ClientProgress(c, s, p.rest, p.call); }
    else { LoopProgress(c, s, p); }
  }

  lemma BigsAfter(c: Config, s: State, i: nat, pick: nat)
    requires Enabled(c, s, Go(i, pick))
    ensures Bigs(Apply(c, s, Go(i, pick)).threads) == Bigs(s.threads)[i := Big(Next(c, s, s.threads[i]))]
  {
    assert i < |s.threads|;
    var l := Go(i, pick);
    hide Apply, Enabled, Next;
    OthersAfter(c, s, l, i);
    forall j | 0 <= j < |s.threads|
      ensures j != i ==> Big(Apply(c, s, l).threads[j]) == Big(s.threads[j])
    {
      OthersAfter(c, s, l, j);
      if SleepsOn(c, s.threads[j]).Some? { assert Big(WakeUp(s.threads[j])) == Big(s.threads[j]); }
    }
  }

  /** Every step that is not a spurious wake-up drops the measure. */
  lemma StepDrops(c: Config, s: State, i: nat, pick: nat)
    requires Enabled(c, s, Go(i, pick))
    ensures var s' := Apply(c, s, Go(i, pick));
      Events(s') < Events(s) || (Events(s') == Events(s) && Effort(c, s') < Effort(c, s))
  {
    assert i < |s.threads|;
    var s' := Apply(c, s, Go(i, pick));
    var p := s.threads[i];
    NextProgress(c, s, p);
    ApplyParts(c, s, i, pick);
    BigsAfter(c, s, i, pick);
    Sums.Update(Bigs(s.threads), i, Big(Next(c, s, p)));
    hide Apply, Enabled, Next, Big, QueueAfter, StopAfter, Weight;
    if Events(s') >= Events(s) {
      var before := Weights(c, s.threads, s.queue == [], s.stop);
      forall j | 0 <= j < |s.threads| && j != i ensures |s'.threads| == |s.threads| && s'.threads[j] == s.threads[j] {
        OthersAfter(c, s, Go(i, pick), j);
      }
      OthersAfter(c, s, Go(i, pick), i);
      assert Weights(c, s'.threads, s.queue == [], s.stop) ==
        before[i := Weight(c, Next(c, s, p), s.queue == [], s.stop)];
      Sums.Update(before, i, Weight(c, Next(c, s, p), s.queue == [], s.stop));
    }
  }

  // -------------------------------------------------------------- whole runs

  /** run(0), run(1), ... is an infinite run taking the labels lab(0), lab(1), ... */
  ghost predicate InfiniteRun(c: Config, run: nat -> State, lab: nat -> Label) {
    forall n: nat :: Enabled(c, run(n), lab(n)) && run(n + 1) == Apply(c, run(n), lab(n))
  }

  lemma {:induction false} NoEndlessProgress(c: Config, run: nat -> State, lab: nat -> Label, n: nat)
    requires InfiniteRun(c, run, lab) && forall m: nat :: m >= n ==> lab(m).Go?
    ensures false
    decreases Events(run(n)), Effort(c, run(n))
  {
    MeasureNonNegative(c, run(n));
    MeasureNonNegative(c, run(n + 1));
    var l := lab(n);
    assert Enabled(c, run(n), l) && run(n + 1) == Apply(c, run(n), l);
    assert l == Go(l.i, l.pick);
    StepDrops(c, run(n), l.i, l.pick);
    NoEndlessProgress(c, run, lab, n + 1);
  }

  /** An infinite run keeps having spurious wake-ups for ever. */
  lemma InfiniteRunsAreSpurious(c: Config, run: nat -> State, lab: nat -> Label, n: nat)
    requires InfiniteRun(c, run, lab)
    ensures exists m: nat :: m >= n && lab(m).Spurious?
  {
    if forall m: nat :: m >= n ==> !lab(m).Spurious? {
      assert forall m: nat :: m >= n ==> lab(m).Go?;
      NoEndlessProgress(c, run, lab, n);
    }
  }

  /** Whichever enabled step a scheduler picks each time, it reaches a state in
      which no thread can move. */
  ghost function Drive(c: Config, s: State, choose: State -> Label): (r: (State, seq<Label>))
    requires forall q: State :: !Terminal(c, q) ==> choose(q).Go? && Enabled(c, q, choose(q))
    ensures Steps(c, s, r.1, r.0) && Terminal(c, r.0)
    ensures Notified(r.1)
    decreases Events(s), Effort(c, s)
  {
    if Terminal(c, s) then (s, [])
    else
      MeasureNonNegative(c, s);
      var l := choose(s);
      MeasureNonNegative(c, Apply(c, s, l));
      StepDrops(c, s, l.i, l.pick);
      var (t, ls) := Drive(c, Apply(c, s, l), choose);
      assert ([l] + ls)[1..] == ls;
      (t, [l] + ls)
  }

  /** Some step that is not a spurious wake-up, if there is one. */
  ghost function AnyStep(c: Config): (choose: State -> Label)
    ensures forall q: State :: !Terminal(c, q) ==> choose(q).Go? && Enabled(c, q, choose(q))
  {
    q => if Terminal(c, q) then Go(0, 0) else var l: Label :| l.Go? && Enabled(c, q, l); l
  }
}
