/** The lock-step schedule is a schedule of the step system: the rounds of the
    board are run by the workers one after the other, each alone. */
module Lockstep {
  import opened Graphs
  import opened VoidFilter
  import opened Machine
  import opened Locks
  import opened Accounts
  import opened Programs
  import opened Latches
  import opened Stages
  import opened Termination
  import opened Invariant
  import opened Rounds
  import L = Ledgers
  import Search

  /** Only thread i holds mutexes, and nobody else is asleep. */
  ghost predicate Calm(c: Config, s: State, i: nat) {
    && i < |s.threads| && LockInv(c, s)
    && (forall m :: m in s.locks ==> s.locks[m] == i)
    && (forall j :: 0 <= j < |s.threads| && j != i ==> SleepsOn(c, s.threads[j]).None?)
  }

  lemma TakeNotHeld(c: Config, p: Pc, m: Mutex)
    requires Holds(c, p, m)
    ensures Action(c, p) != Take(m) && (m == TasksMtx ==> p != Idle(Test) && !p.WantTasks?)
  {}

  /** Then thread i can take its step if it is live at all, and moves alone. */
  lemma SoloStep(c: Config, s: State, i: nat)
    requires Calm(c, s, i) && Live(c, s, s.threads[i])
    ensures Enabled(c, s, Go(i, 0)) && Calm(c, Apply(c, s, Go(i, 0)), i)
    ensures Apply(c, s, Go(i, 0)).threads == s.threads[i := Next(c, s, s.threads[i])]
  {
    var p := s.threads[i];
    var l := Go(i, 0);
    SoloEnabled(c, s, i);
    hide LockInv, Live, Unblocked, Next, Action, Enabled, Apply;
    LockStep(c, s, l);
    LocksAfter(c, s, l);
    OthersAfter(c, s, l, i);
    forall j | 0 <= j < |s.threads| && j != i ensures Apply(c, s, l).threads[j] == s.threads[j] {
      OthersAfter(c, s, l, j);
    }
  }

  lemma SoloEnabled(c: Config, s: State, i: nat)
    requires Calm(c, s, i) && Live(c, s, s.threads[i])
    ensures Enabled(c, s, Go(i, 0))
  {
    var p := s.threads[i];
    hide Next, Holds;
    if Action(c, p).Take? && Action(c, p).m in s.locks { TakeNotHeld(c, p, Action(c, p).m); }
    if TasksMtx in s.locks { TakeNotHeld(c, p, TasksMtx); }
    assert forall cv :: !SomeSleeper(c, s.threads, cv);
  }

  // ------------------------------------------------------------------ popping

  /** On the way to pop. */
  predicate Seeking(p: Pc) {
    p.Unstarted? || p.Top? || p == Idle(Want) || p == Idle(Test) || p == Idle(Release) || p.ShutCheck? || p.WantTasks?
  }

  /** What a worker that seeks a task does while there are tasks. */
  lemma SeekNext(c: Config, s: State, i: nat, p: Pc)
    requires Seeking(p) && s.queue != [] && !s.stop
    ensures Live(c, s, p) && !StopAfter(s, p) && StoreAfter(c, s, p) == s.store
    ensures if p.WantTasks? then Next(c, s, p) == Fetch(Head(s), s.queue[0], 0, Want)
                 && QueueAfter(s, p) == s.queue[1..]
                 && LogAfter(s, i, p) == s.log.(popped := s.log.popped + [Head(s)], owner := s.log.owner[Head(s) := i])
            else Seeking(Next(c, s, p)) && QueueAfter(s, p) == s.queue && LogAfter(s, i, p) == s.log
  {}

  ghost predicate PoppedTo(s: State, s': State, i: nat)
    requires i < |s.threads| && s.queue != []
  {
    && s'.threads == s.threads[i := Fetch(Head(s), s.queue[0], 0, Want)]
    && s'.queue == s.queue[1..] && s'.stop == s.stop && s'.store == s.store
    && s'.log == s.log.(popped := s.log.popped + [Head(s)], owner := s.log.owner[Head(s) := i])
  }

  /** A free worker alone pops the head of the queue. */
  lemma {:induction false} RunToPop(c: Config, s: State, i: nat) returns (ls: seq<Label>, s': State)
    requires Calm(c, s, i) && Seeking(s.threads[i]) && s.queue != [] && !s.stop
    ensures Steps(c, s, ls, s') && Notified(ls) && Calm(c, s', i) && PoppedTo(s, s', i)
    decreases Events(s), Effort(c, s)
  {
    hide Calm, Live, Next, Enabled, Apply, QueueAfter, LogAfter, StoreAfter, StopAfter, CountAfter, Seeking, Steps,
      Events, Effort;
    assert i < |s.threads| by { assert Calm(c, s, i); CalmRange(c, s, i); }
    var p, l := s.threads[i], Go(i, 0);
    SeekNext(c, s, i, p);
    SoloStep(c, s, i);
    SharedAfter(c, s, l);
    MeasureNonNegative(c, s);
    MeasureNonNegative(c, Apply(c, s, l));
    StepDrops(c, s, i, 0);
    if p.WantTasks? {
      ls, s' := [l], Apply(c, s, l);
      OneStep(c, s, l, s');
    } else {
      ls, s' := RunToPop(c, Apply(c, s, l), i);
      ConsStep(c, s, l, ls, s');
      ls := [l] + ls;
    }
  }

  lemma CalmRange(c: Config, s: State, i: nat)
    requires Calm(c, s, i)
    ensures i < |s.threads|
  {}

  lemma ConsStep(c: Config, s: State, l: Label, ls: seq<Label>, s': State)
    requires Enabled(c, s, l) && Steps(c, Apply(c, s, l), ls, s')
    ensures Steps(c, s, [l] + ls, s')
  {
    hide Enabled, Apply;
    assert ([l] + ls)[1..] == ls;
  }

  // ---------------------------------------------------------------- finishing

  /** Runs the task of ticket x, all of whose inputs are published. */
  ghost predicate Carrying(c: Config, flag: set<Tid>, x: nat, p: Pc) {
    match p
    case Fetch(y, t, _, w) => y == x && !w.Parking? && !w.Sleeping? && FlagsUpTo(c, flag, t, |Slots(c.g, t)|)
    case Work(y, _, _) => y == x
    case Publish(y, _, _) => y == x
    case Tail(y, _, _) => y == x
    case _ => false
  }

  /** The tickets still to be finished at p. */
  function Unfinished(p: Pc, x: nat): set<nat> { if BadgeOf(p).Carry? then {x} else {} }

  lemma RunFetch(c: Config, s: State, x: nat, p: Pc)
    requires Carrying(c, s.store.flag, x, p) && p.Fetch?
    ensures Live(c, s, p) && Carrying(c, s.store.flag, x, Next(c, s, p)) && BadgeOf(Next(c, s, p)).Carry?
  {
    hide KeptOf;
    if Src(c.g, p.t, p.n).Some? {
      assert p.n < |Slots(c.g, p.t)|;
    } else if p.n < |Slots(c.g, p.t)| {
      assert Next(c, s, p) == Fetch(p.x, p.t, p.n + 1, Want);
    } else {
      assert Next(c, s, p) == Work(p.x, p.t, Begin);
    }
  }

  lemma RunOn(c: Config, s: State, x: nat, p: Pc)
    requires Carrying(c, s.store.flag, x, p) && !p.Fetch?
    ensures Live(c, s, p) && (Carrying(c, {}, x, Next(c, s, p)) || Next(c, s, p) == Top)
    ensures Next(c, s, p) == Top ==> !BadgeOf(p).Carry?
    ensures BadgeOf(Next(c, s, p)).Carry? == (BadgeOf(p).Carry? && !(p.Tail? && p.d.Dec?))
  {
    hide KeptOf, SlotValue;
  }

  lemma RunShared(c: Config, s: State, i: nat, x: nat, p: Pc)
    requires Carrying(c, s.store.flag, x, p)
    ensures QueueAfter(s, p) == s.queue && StopAfter(s, p) == s.stop && s.store.flag <= StoreAfter(c, s, p).flag
    ensures var g := LogAfter(s, i, p);
      && g.submitted == s.log.submitted && g.popped == s.log.popped
      && g.owner == s.log.owner && g.cleared == s.log.cleared
      && g.finished == s.log.finished + (if p.Tail? && p.d.Dec? then {x} else {})
  {
    hide KeptOf, SlotValue;
    FlagGrows(c, s, p);
  }

  ghost predicate RanTo(s: State, s': State, i: nat, done: set<nat>)
    requires i < |s.threads|
  {
    && s'.threads == s.threads[i := Top] && s'.queue == s.queue && s'.stop == s.stop && s.store.flag <= s'.store.flag
    && s'.log.popped == s.log.popped && s'.log.owner == s.log.owner && s'.log.finished == s.log.finished + done
  }

  lemma FlagsMore(c: Config, flag: set<Tid>, flag': set<Tid>, x: nat, p: Pc)
    requires flag <= flag' && (Carrying(c, flag, x, p) || Carrying(c, {}, x, p))
    ensures Carrying(c, flag', x, p)
  {}

  /** A worker whose inputs are published runs its task to the end alone. */
  lemma {:induction false} RunToEnd(c: Config, s: State, i: nat, x: nat) returns (ls: seq<Label>, s': State)
    requires Calm(c, s, i) && Carrying(c, s.store.flag, x, s.threads[i])
    ensures Steps(c, s, ls, s') && Notified(ls) && Calm(c, s', i) && RanTo(s, s', i, Unfinished(s.threads[i], x))
    decreases Events(s), Effort(c, s)
  {
    CalmRange(c, s, i);
    hide Calm, Live, Next, Enabled, Apply, QueueAfter, LogAfter, StoreAfter, StopAfter, CountAfter, Carrying, Steps,
      Events, Effort,
      BadgeOf;
    var p, l := s.threads[i], Go(i, 0);
    if p.Fetch? { RunFetch(c, s, x, p); FetchCarries(p); } else { RunOn(c, s, x, p); }
    RunShared(c, s, i, x, p);
    SoloStep(c, s, i);
    SharedAfter(c, s, l);
    MeasureNonNegative(c, s);
    MeasureNonNegative(c, Apply(c, s, l));
    StepDrops(c, s, i, 0);
    DecCarries(p);
    if Next(c, s, p) == Top && !p.Fetch? {
      ls, s' := [l], Apply(c, s, l);
      OneStep(c, s, l, s');
    } else {
      NotTop(c, s, x, p);
      FlagsMore(c, s.store.flag, Apply(c, s, l).store.flag, x, Next(c, s, p));
      ls, s' := RunToEnd(c, Apply(c, s, l), i, x);
      ConsStep(c, s, l, ls, s');
      ls := [l] + ls;
    }
  }

  lemma FetchCarries(p: Pc)
    requires p.Fetch?
    ensures BadgeOf(p).Carry? && !p.Tail?
  {}

  lemma DecCarries(p: Pc)
    ensures p.Tail? && p.d.Dec? ==> BadgeOf(p).Carry?
  {}

  lemma NotTop(c: Config, s: State, x: nat, p: Pc)
    requires Carrying(c, s.store.flag, x, p) && (Next(c, s, p) == Top ==> p.Fetch?)
    ensures Carrying(c, s.store.flag, x, Next(c, s, p)) || Carrying(c, {}, x, Next(c, s, p))
  {
    hide Next, Carrying;
    if p.Fetch? { RunFetch(c, s, x, p); } else { RunOn(c, s, x, p); }
  }

  // ------------------------------------------------------------------- rounds

  /** Between rounds: every worker is free or about to wait for the inputs of a held
      task, nobody holds a mutex, and no client has done anything. */
  ghost predicate Between(c: Config, s: State, b: Board) {
    && ExecInv(c, s) && Possible(c.order, c.k, b)
    && s.locks == map[] && !s.stop
    && |s.log.popped| == b.next && s.log.finished == b.done && s.queue == c.order[b.next..]
    && (forall j :: 0 <= j < |s.threads| ==> Resting(c, s.threads[j], j, b.held))
  }

  predicate Resting(c: Config, p: Pc, j: nat, held: set<nat>) {
    if j >= c.k then p.Client? && p.call.Ready?
    else p.Unstarted? || p.Top? || (p.Fetch? && p.n == 0 && p.w.Want? && p.x in held)
  }

  lemma RestingFacts(c: Config, p: Pc, j: nat, held: set<nat>)
    requires Resting(c, p, j, held)
    ensures SleepsOn(c, p).None? && (forall m :: !Holds(c, p, m))
    ensures j < c.k && !BadgeOf(p).Carry? ==> Seeking(p)
    ensures BadgeOf(p).Carry? ==> j < c.k && p.Fetch? && BadgeOf(p).x in held
    ensures forall more :: held <= more ==> Resting(c, p, j, more)
  {}

  lemma BetweenCalm(c: Config, s: State, b: Board, i: nat)
    requires Between(c, s, b) && i < |s.threads|
    ensures Calm(c, s, i)
  {
    assert LockInv(c, s);
    hide ExecInv, LockInv, Resting, SleepsOn, Possible;
    forall j | 0 <= j < |s.threads| ensures SleepsOn(c, s.threads[j]).None? {
      RestingFacts(c, s.threads[j], j, b.held);
    }
  }

  /** A thread that moved alone and rests again has left no mutex locked. */
  lemma CalmFree(c: Config, s: State, i: nat)
    requires Calm(c, s, i) && forall m :: !Holds(c, s.threads[i], m)
    ensures s.locks == map[]
  {
    hide Holds;
    assert forall m :: m in s.locks ==> Holds(c, s.threads[i], m);
  }

  /** If every worker holds a task, as many tasks are held as there are workers. */
  lemma AllHold(c: Config, s: State, b: Board)
    requires AccountsInv(s) && |s.threads| >= c.k
    requires forall j :: 0 <= j < |s.threads| ==> Resting(c, s.threads[j], j, b.held)
    requires forall j :: 0 <= j < c.k ==> BadgeOf(s.threads[j]).Carry?
    ensures c.k <= |b.held|
  {
    hide AccountsInv, Resting, BadgeOf;
    var tickets := seq(c.k, j requires 0 <= j < c.k => BadgeOf(s.threads[j]).x);
    forall a | 0 <= a < |tickets| ensures tickets[a] in b.held { RestingFacts(c, s.threads[a], a, b.held); }
    forall a, a' | 0 <= a < a' < |tickets| ensures tickets[a] != tickets[a'] {
      CarrierIsOwner(s, a);
      CarrierIsOwner(s, a');
    }
    Search.NoRepeatSize(tickets, b.held);
  }

  /** With fewer tasks held than there are workers, some worker is free. */
  lemma FreeWorker(c: Config, s: State, b: Board) returns (i: nat)
    requires Between(c, s, b) && |b.held| < c.k
    ensures i < c.k && i < |s.threads| && Seeking(s.threads[i])
  {
    assert AccountsInv(s) && ShapeInv(c, s);
    hide ExecInv, AccountsInv, Resting, Possible, BadgeOf;
    if forall j :: 0 <= j < c.k ==> BadgeOf(s.threads[j]).Carry? { AllHold(c, s, b); }
    i :| 0 <= i < c.k && !BadgeOf(s.threads[i]).Carry?;
    RestingFacts(c, s.threads[i], i, b.held);
  }

  /** One pop. */
  lemma PopOne(c: Config, s: State, b: Board) returns (ls: seq<Label>, s': State)
    requires Executor(c) && Between(c, s, b) && |b.held| < c.k && b.next < |c.order|
    ensures Steps(c, s, ls, s') && Notified(ls)
    ensures Between(c, s', Board(b.next + 1, b.held + {b.next}, b.done)) && s'.store == s.store
  {
    assert PrefixInv(c, s);
    hide ExecInv, Calm, Steps, Seeking, Executor, Resting, Possible;
    var i := FreeWorker(c, s, b);
    BetweenCalm(c, s, b, i);
    ls, s' := RunToPop(c, s, i);
    ExecSteps(c, s, ls, s');
    var held := b.held + {b.next};
    PossiblePop(c.order, c.k, b);
    FetchRests(c, b.next, s.queue[0], i, held);
    CalmFree(c, s', i);
    OneMoreHeld(c, s.threads, s'.threads, i, b.held, held);
  }

  /** Where more is held the other threads rest as before. */
  lemma OneMoreHeld(c: Config, ts: seq<Pc>, ts': seq<Pc>, i: nat, held: set<nat>, more: set<nat>)
    requires i < |ts| == |ts'| && ts' == ts[i := ts'[i]] && held <= more && Resting(c, ts'[i], i, more)
    requires forall j :: 0 <= j < |ts| ==> Resting(c, ts[j], j, held)
    ensures forall j :: 0 <= j < |ts'| ==> Resting(c, ts'[j], j, more)
  {
    hide Resting;
    forall j | 0 <= j < |ts'| ensures Resting(c, ts'[j], j, more) {
      if j != i { RestingFacts(c, ts[j], j, held); }
    }
  }

  lemma PossiblePop(order: seq<Tid>, k: nat, b: Board)
    requires Possible(order, k, b) && |b.held| < k && b.next < |order|
    ensures Possible(order, k, Board(b.next + 1, b.held + {b.next}, b.done))
  {
    hide Tickets;
    assert b.next !in Tickets(0, b.next);
    assert forall x :: x in Tickets(0, b.next + 1) <==> x in Tickets(0, b.next) || x == b.next;
    assert b.held + {b.next} !! b.done;
  }

  lemma FetchRests(c: Config, x: nat, t: Tid, i: nat, held: set<nat>)
    requires x in held && i < c.k
    ensures Resting(c, Fetch(x, t, 0, Want), i, held) && forall m :: !Holds(c, Fetch(x, t, 0, Want), m)
  {}

  /** All the pops of a round. */
  lemma {:induction false} PopMany(c: Config, s: State, b: Board, upto: nat) returns (ls: seq<Label>, s': State)
    requires Executor(c) && Between(c, s, b) && b.next <= upto <= |c.order| && |b.held| + upto - b.next <= c.k
    ensures Steps(c, s, ls, s') && Notified(ls)
    ensures Between(c, s', Board(upto, b.held + Tickets(b.next, upto), b.done)) && s'.store == s.store
    decreases upto - b.next
  {
    hide *;
    if b.next == upto {
      ls, s' := [], s;
      NoStep(c, s, ls);
      NoneNotified();
      TicketsFrom(b.held, b.next, upto);
    } else {
      RoomLeft(c, s, b);
      var ls1, s1 := PopOne(c, s, b);
      var b1 := Board(b.next + 1, b.held + {b.next}, b.done);
      var ls2, s2 := PopMany(c, s1, b1, upto);
      TicketsFrom(b.held, b.next, upto);
      ls, s' := ls1 + ls2, s2;
      JoinSteps(c, s, ls1, s1, ls2, s2);
      NotifiedBoth(ls1, ls2);
    }
  }

  lemma NoneNotified()
    ensures Notified([])
  {}

  lemma RoomLeft(c: Config, s: State, b: Board)
    requires Between(c, s, b)
    ensures |b.held + {b.next}| == |b.held| + 1
  {
    hide ExecInv, Tickets;
    assert b.next !in Tickets(0, b.next);
  }

  lemma TicketsFrom(held: set<nat>, lo: nat, hi: nat)
    ensures lo == hi ==> held + Tickets(lo, hi) == held
    ensures lo < hi ==> (held + {lo}) + Tickets(lo + 1, hi) == held + Tickets(lo, hi)
  {}

  /** The worker that holds x is about to wait for its inputs. */
  lemma HolderOf(c: Config, s: State, b: Board, x: nat) returns (i: nat)
    requires Between(c, s, b) && x in b.held
    ensures i < c.k && i < |s.threads| && x < |c.order| && s.threads[i] == Fetch(x, c.order[x], 0, Want)
  {
    assert AccountsInv(s) && PrefixInv(c, s);
    assert x in Tickets(0, b.next);
    hide ExecInv, AccountsInv, Resting, Possible;
    OwnedArePopped(s, x);
    OwnerCarries(s, x);
    i := s.log.owner[x];
    CarrierIsOwner(s, i);
    RestingFacts(c, s.threads[i], i, b.held);
    HeldShape(c, s.threads[i], i, b.held);
  }

  lemma HeldShape(c: Config, p: Pc, j: nat, held: set<nat>)
    requires Resting(c, p, j, held) && p.Fetch?
    ensures p == Fetch(p.x, p.t, 0, Want) && BadgeOf(p) == L.Carry(p.x, p.t)
  {}

  ghost predicate Flagged(c: Config, s: State, x: nat) {
    x < |c.order| && FlagsUpTo(c, s.store.flag, c.order[x], |Slots(c.g, c.order[x])|)
  }

  /** One task finishes. */
  lemma FinishOne(c: Config, s: State, b: Board, x: nat) returns (ls: seq<Label>, s': State)
    requires Executor(c) && Between(c, s, b) && x in b.held && Flagged(c, s, x)
    ensures Steps(c, s, ls, s') && Notified(ls)
    ensures Between(c, s', Board(b.next, b.held - {x}, b.done + {x})) && s.store.flag <= s'.store.flag
  {
    hide ExecInv, Calm, Steps, Executor, Resting, Tickets, FlagsUpTo;
    var i := HolderOf(c, s, b, x);
    BetweenCalm(c, s, b, i);
    ls, s' := RunToEnd(c, s, i, x);
    ExecSteps(c, s, ls, s');
    FinishingMoves(b.held, {x}, b.done);
    TopRests(c, i, b.held - {x});
    CalmFree(c, s', i);
    assert AccountsInv(s) by { AccountsOf(c, s); }
    forall j | 0 <= j < |s'.threads| ensures Resting(c, s'.threads[j], j, b.held - {x}) {
      if j != i { OtherHeld(c, s, b, i, j, x); }
    }
  }

  lemma AccountsOf(c: Config, s: State)
    requires ExecInv(c, s)
    ensures AccountsInv(s)
  {}

  lemma TopRests(c: Config, i: nat, held: set<nat>)
    requires i < c.k
    ensures Resting(c, Top, i, held) && forall m :: !Holds(c, Top, m)
  {}

  lemma OtherHeld(c: Config, s: State, b: Board, i: nat, j: nat, x: nat)
    requires AccountsInv(s) && i < |s.threads| && j < |s.threads| && i != j
    requires s.threads[i].Fetch? && s.threads[i].x == x && Resting(c, s.threads[j], j, b.held)
    ensures Resting(c, s.threads[j], j, b.held - {x})
  {
    assert BadgeOf(s.threads[i]).Carry?;
    CarrierIsOwner(s, i);
    if s.threads[j].Fetch? { assert BadgeOf(s.threads[j]).Carry?; CarrierIsOwner(s, j); }
  }

  /** All the tasks that finish in a round. */
  lemma {:induction false} FinishMany(c: Config, s: State, b: Board, finishing: set<nat>)
    returns (ls: seq<Label>, s': State)
    requires Executor(c) && Between(c, s, b) && finishing <= b.held && forall x :: x in finishing ==> Flagged(c, s, x)
    ensures Steps(c, s, ls, s') && Notified(ls)
    ensures Between(c, s', Board(b.next, b.held - finishing, b.done + finishing))
    decreases finishing
  {
    hide Between, Steps, Executor, Flagged;
    if finishing == {} {
      ls, s' := [], s;
      NoStep(c, s, ls);
      assert b.held - finishing == b.held && b.done + finishing == b.done;
    } else {
      var x :| x in finishing;
      var ls1, s1 := FinishOne(c, s, b, x);
      var b1 := Board(b.next, b.held - {x}, b.done + {x});
      forall y | y in finishing - {x} ensures Flagged(c, s1, y) { StillFlagged(c, s, s1, y); }
      var ls2, s2 := FinishMany(c, s1, b1, finishing - {x});
      assert b1.held - (finishing - {x}) == b.held - finishing && b1.done + (finishing - {x}) == b.done + finishing;
      ls, s' := ls1 + ls2, s2;
      JoinSteps(c, s, ls1, s1, ls2, s2);
    }
  }

  lemma StillFlagged(c: Config, s: State, s': State, x: nat)
    requires Flagged(c, s, x) && s.store.flag <= s'.store.flag
    ensures Flagged(c, s', x)
  {}

  /** A task all of whose dependencies are done finds its inputs published. */
  lemma DoneIsFlagged(c: Config, s: State, b: Board, x: nat)
    requires Executor(c) && Between(c, s, b) && x < |c.order| && InputsDone(c.g, c.order, b.done, x)
    ensures Flagged(c, s, x)
  {
    ExecStaged(c, s);
    assert AccountsInv(s);
    hide ExecInv, Possible, Resting;
    forall m | 0 <= m < |Slots(c.g, c.order[x])| && Src(c.g, c.order[x], m).Some?
      ensures Src(c.g, c.order[x], m).value in s.store.flag
    {
      var u := Src(c.g, c.order[x], m).value;
      assert DependsOn(c.g, c.order[x], u);
      var y :| y in b.done && y < |c.order| && c.order[y] == u;
      assert y in LedgerOf(s).finished && y in LedgerOf(s).owner;
      assert Stage(s, y);
    }
  }

  /** One round of the board is a run of the workers. */
  lemma RoundRun(c: Config, s: State, b: Board) returns (ls: seq<Label>, s': State)
    requires Executor(c) && Between(c, s, b)
    ensures Possible(c.order, c.k, b) && Steps(c, s, ls, s') && Notified(ls)
    ensures Between(c, s', Round(c.g, c.order, c.k, b))
  {
    assert Possible(c.order, c.k, b);
    hide *;
    PopRoom(c.order, c.k, b);
    var ls1, s1 := PopMany(c, s, b, Popped(c.order, c.k, b));
    var b1 := Board(Popped(c.order, c.k, b), b.held + Tickets(b.next, Popped(c.order, c.k, b)), b.done);
    var finishing := Finishing(c.g, c.order, c.k, b);
    FinishingReady(c.g, c.order, c.k, b);
    forall x | x in finishing ensures Flagged(c, s1, x) { DoneIsFlagged(c, s1, b1, x); }
    var ls2, s2 := FinishMany(c, s1, b1, finishing);
    ls, s' := ls1 + ls2, s2;
    JoinSteps(c, s, ls1, s1, ls2, s2);
    NotifiedBoth(ls1, ls2);
    RoundIs(c.g, c.order, c.k, b);
  }

  lemma NotifiedBoth(a: seq<Label>, b: seq<Label>)
    requires Notified(a) && Notified(b)
    ensures Notified(a + b)
  {}

  lemma RoundIs(g: Graph, order: seq<Tid>, k: nat, b: Board)
    requires Possible(order, k, b)
    ensures var next := Popped(order, k, b); var finishing := Finishing(g, order, k, b);
      Round(g, order, k, b) == Board(next, (b.held + Tickets(b.next, next)) - finishing, b.done + finishing)
  {}

  lemma FinishingReady(g: Graph, order: seq<Tid>, k: nat, b: Board)
    requires Possible(order, k, b)
    ensures Finishing(g, order, k, b) <= b.held + Tickets(b.next, Popped(order, k, b))
    ensures forall x :: x in Finishing(g, order, k, b) ==> x < |order| && InputsDone(g, order, b.done, x)
  {}

  lemma PopRoom(order: seq<Tid>, k: nat, b: Board)
    requires Possible(order, k, b)
    ensures b.next <= Popped(order, k, b) <= |order| && |b.held| + Popped(order, k, b) - b.next <= k
  {}

  lemma BetweenStart(c: Config)
    requires Executor(c)
    ensures Between(c, Start(c), Board(0, {}, {}))
  {
    hide ExecInv, Executor, Possible, Resting;
    ExecStart(c);
    PossibleStart(c.order, c.k);
    StartRests(c);
    assert c.order[0..] == c.order;
  }

  lemma PossibleStart(order: seq<Tid>, k: nat)
    ensures Possible(order, k, Board(0, {}, {}))
  {}

  lemma StartRests(c: Config)
    ensures forall j :: 0 <= j < |Start(c).threads| ==> Resting(c, Start(c).threads[j], j, {})
  {
    var s := Start(c);
    forall j | 0 <= j < |s.threads| ensures Resting(c, s.threads[j], j, {}) {
      if j >= c.k { assert s.threads[j] == Client(c.progs[j - c.k], Ready); }
    }
  }

  /** Any number of rounds of the board are a run of the step system. */
  lemma {:induction false} RoundsRun(c: Config, rounds: nat) returns (ls: seq<Label>, s: State)
    requires Executor(c)
    ensures Steps(c, Start(c), ls, s) && Notified(ls) && Between(c, s, After(c.g, c.order, c.k, rounds))
  {
    hide Between, Steps, Executor, Start, Round, Possible;
    if rounds == 0 {
      ls, s := [], Start(c);
      NoStep(c, s, ls);
      BetweenStart(c);
    } else {
      var ls1, s1 := RoundsRun(c, rounds - 1);
      var ls2, s2 := RoundRun(c, s1, After(c.g, c.order, c.k, rounds - 1));
      ls, s := ls1 + ls2, s2;
      JoinSteps(c, Start(c), ls1, s1, ls2, s2);
    }
  }

  /** With the queue sorted by depth, R rounds of the workers, R the sum over the
      depths of the number of tasks of that depth divided by k, rounded up, finish
      every task. */
  lemma LockStepFinishes(c: Config, rank: Tid -> nat, levels: nat) returns (ls: seq<Label>, s: State)
    requires Executor(c) && Dag(c.g, rank) && c.k >= 1
    requires forall x :: 0 <= x < |c.order| ==> c.order[x] in c.g && Depth(c.g, rank, c.order[x]) < levels
    requires forall x, y :: 0 <= x <= y < |c.order| ==> Depth(c.g, rank, c.order[x]) <= Depth(c.g, rank, c.order[y])
    requires forall x, u :: x in c.order && DependsOn(c.g, x, u) ==> u in c.order
    ensures Steps(c, Start(c), ls, s) && Notified(ls)
    ensures var rounds := Bound(LevelsOf(c.g, rank, c.order), {}, c.k, levels);
      && Between(c, s, After(c.g, c.order, c.k, rounds))
      && c.k * rounds <= |c.order| + |Inhabited(LevelsOf(c.g, rank, c.order), levels)| * (c.k - 1)
    ensures forall x :: 0 <= x < |c.order| ==> x in s.log.finished && Done(s.store, c.order[x])
  {
    hide Steps, Start, Executor, Depth, DependsOn, Dag, After, Bound, Between;
    var rounds := Bound(LevelsOf(c.g, rank, c.order), {}, c.k, levels);
    LockStepRounds(c.g, rank, c.order, levels, c.k);
    ls, s := RoundsRun(c, rounds);
    forall x | 0 <= x < |c.order| ensures x in s.log.finished && Done(s.store, c.order[x]) {
      FinishedIsDone(c, s, After(c.g, c.order, c.k, rounds), x);
    }
  }

  lemma FinishedIsDone(c: Config, s: State, b: Board, x: nat)
    requires Executor(c) && Between(c, s, b) && x < |c.order| && x in b.done
    ensures x in s.log.finished && Done(s.store, c.order[x])
  {
    ExecStaged(c, s);
    assert AccountsInv(s);
    hide ExecInv, Possible, Resting;
    assert x in LedgerOf(s).finished && x in LedgerOf(s).owner;
    assert Stage(s, x);
  }
}
