/** The step system of the pool and of the tasks its workers run.

    Every thread owns a program counter; one step of one thread is one action
    on shared state: taking or dropping one mutex, one read or write of the
    queue, the counter, the shutdown flag, an edge or a task state, or one
    notification.  The effect of a step is split by component (control, mutexes,
    wake-ups, queue, counter, flag, tasks, log), so that a proof about one
    component unfolds only that component. */
module Machine {
  import opened Graphs
  import opened VoidFilter

  datatype Op = Add(t: Tid) | Clear | Wait | TaskWait(t: Tid) | Destroy

  /** order: the tasks queued before the workers are spawned; k: the number of
      workers; progs: what each client thread calls, in order. */
  datatype Config = Config(g: Graph, fn: Callables, k: nat, order: seq<Tid>, progs: seq<seq<Op>>, callback: bool)

  datatype Mutex = WorkerMtx | TasksMtx | WaitMtx | EdgeMtx(t: Tid) | TaskMtx(t: Tid)
  datatype Cv = WorkerCv | WaitCv | EdgeCv(t: Tid) | TaskCv(t: Tid)
  datatype TaskState = Incomplete | Running | Complete

  /** Inside a condition-variable wait: about to take the mutex, testing the
      condition, about to park, in the wait set, about to drop the mutex. */
  datatype Wt = Want | Test | Parking | Sleeping | Release

  /** Task::run between the input waits and the publication. */
  datatype WorkAt = Begin | StampStart | Read(args: seq<Val>) | StampEnd | Write

  /** Publishing the out edge, then completing the task. */
  datatype PubAt = EdgeLock | EdgeSet | EdgeUnlock | EdgeNotify | Finish | TaskLock | TaskNotify | TaskUnlock

  /** The part of execute_task after the task has returned. */
  datatype TailAt = WantWait | Dec | Load | Callback | NotifyAll | UnlockWait

  datatype AddAt = AddWantW | AddWantT | AddEmplace | AddCount | AddRelT | AddRelW | AddNotify
  datatype ClearAt = ClWant | ClSub | ClDrop(n: nat) | ClRel
  datatype DtorAt = DtWant | DtSet | DtRel | DtNotify | DtJoin(i: nat)

  datatype Call =
    | Ready
    | Adding(t: Tid, a: AddAt)
    | Clearing(e: ClearAt)
    | Waiting(seen: nat, late: bool, w: Wt)
    | TaskWaiting(t: Tid, w: Wt)
    | Destroying(d: DtorAt)

  /** Program counters.  x is the ticket of the task t a worker has popped. */
  datatype Pc =
    | Unstarted | Top | Idle(w: Wt) | ShutCheck | WantTasks | Exited
    | Fetch(x: nat, t: Tid, n: nat, w: Wt)
    | Work(x: nat, t: Tid, k: WorkAt)
    | Publish(x: nat, t: Tid, u: PubAt)
    | Tail(x: nat, t: Tid, d: TailAt)
    | Client(rest: seq<Op>, call: Call)

  /** The shared part of the tasks and of their out edges. */
  datatype Store = Store(
    flag: set<Tid>, data: map<Tid, Val>, phase: map<Tid, TaskState>, result: map<Tid, Val>,
    start: map<Tid, nat>, end: map<Tid, nat>, clock: nat)

  /** What happened so far.  A ticket is the index of a submission; owner says which
      worker popped a ticket, finished which popped tickets were decremented,
      cleared which tickets a clear subtracted from the counter, idled how often a
      worker has read 0 after its decrement. */
  datatype Log = Log(
    submitted: seq<Tid>, counted: nat, popped: seq<nat>, owner: map<nat, nat>,
    finished: set<nat>, cleared: set<nat>, idled: nat, fired: nat, wiped: bool, zeroed: bool)

  datatype State = State(
    threads: seq<Pc>, locks: map<Mutex, nat>, queue: seq<Tid>, count: int, stop: bool, store: Store, log: Log)

  function PhaseOf(st: Store, t: Tid): TaskState { if t in st.phase then st.phase[t] else Incomplete }

  /** The ticket at the front of the queue. */
  function Head(s: State): nat { FrontTicket(s.log.submitted, s.queue) }


  // ------------------------------------------------------ condition variables

  /** The wait a thread is in: how far, with which mutex and variable. */
  datatype Site = Site(w: Wt, m: Mutex, cv: Cv)

  function SiteOf(c: Config, p: Pc): Option<Site> {
    match p
    case Idle(w) => Some(Site(w, WorkerMtx, WorkerCv))
    case Fetch(_, t, n, w) =>
      (match Src(c.g, t, n) case None => None case Some(u) => Some(Site(w, EdgeMtx(u), EdgeCv(u))))
    case Client(_, call) => SiteOfCall(call)
    case _ => None
  }

  function SiteOfCall(call: Call): Option<Site> {
    match call
    case Waiting(_, _, w) => Some(Site(w, WaitMtx, WaitCv))
    case TaskWaiting(t, w) => Some(Site(w, TaskMtx(t), TaskCv(t)))
    case _ => None
  }

  /** The same wait, at another point. */
  function SetWt(p: Pc, w: Wt): Pc {
    match p
    case Idle(_) => Idle(w)
    case Fetch(x, t, n, _) => Fetch(x, t, n, w)
    case Client(rest, Waiting(seen, late, _)) => Client(rest, Waiting(seen, late, w))
    case Client(rest, TaskWaiting(t, _)) => Client(rest, TaskWaiting(t, w))
    case _ => p
  }

  /** The condition a waiting thread tests. */
  predicate Cond(c: Config, s: State, p: Pc) {
    match p
    case Idle(_) => s.queue != [] || s.stop
    case Fetch(_, t, n, _) => Src(c.g, t, n).Some? && Src(c.g, t, n).value in s.store.flag
    case Client(_, Waiting(_, _, _)) => s.count == 0
    case Client(_, TaskWaiting(t, _)) => PhaseOf(s.store, t).Complete?
    case _ => true
  }

  /** Where the thread goes on once its wait has returned. */
  function Resume(p: Pc): Pc {
    match p
    case Idle(_) => ShutCheck
    case Fetch(x, t, n, _) => Fetch(x, t, n + 1, Want)
    case Client(rest, _) => Client(rest, Ready)
    case _ => p
  }

  function SleepsOn(c: Config, p: Pc): Option<Cv> {
    match SiteOf(c, p)
    case Some(Site(Sleeping, _, cv)) => Some(cv)
    case _ => None
  }

  // ---------------------------------------------------------------- control

  /** One getter call: the data of the edge, or the default for a null slot. */
  function SlotValue(c: Config, st: Store, t: Tid, i: nat): Val {
    match Src(c.g, t, i)
    case None => DefaultOf(if i < |Slots(c.g, t)| then Slots(c.g, t)[i].ty else Void)
    case Some(u) =>
      if u in st.data then st.data[u] else DefaultOf(if u in c.g then c.g[u].out else Void)
  }

  function AfterWork(c: Config, s: State, x: nat, t: Tid, k: WorkAt): Pc {
    match k
    case Begin => Work(x, t, StampStart)
    case StampStart => Work(x, t, Read([]))
    case Read(args) =>
      if |args| < |KeptOf(c.g, t)| then Work(x, t, Read(args + [SlotValue(c, s.store, t, KeptOf(c.g, t)[|args|])]))
      else Work(x, t, StampEnd)
    case StampEnd => Work(x, t, Write)
    case Write => Publish(x, t, EdgeLock)
  }

  function AfterPublish(x: nat, t: Tid, u: PubAt): Pc {
    match u
    case EdgeLock => Publish(x, t, EdgeSet)
    case EdgeSet => Publish(x, t, EdgeUnlock)
    case EdgeUnlock => Publish(x, t, EdgeNotify)
    case EdgeNotify => Publish(x, t, Finish)
    case Finish => Publish(x, t, TaskLock)
    case TaskLock => Publish(x, t, TaskNotify)
    case TaskNotify => Publish(x, t, TaskUnlock)
    case TaskUnlock => Tail(x, t, WantWait)
  }

  function AfterTail(c: Config, s: State, x: nat, t: Tid, d: TailAt): Pc {
    match d
    case WantWait => Tail(x, t, Dec)
    case Dec => Tail(x, t, Load)
    case Load => Tail(x, t, if s.count != 0 then UnlockWait else if c.callback then Callback else NotifyAll)
    case Callback => Tail(x, t, NotifyAll)
    case NotifyAll => Tail(x, t, UnlockWait)
    case UnlockWait => Top
  }

  function StartCall(s: State, op: Op): Call {
    match op
    case Add(t) => Adding(t, AddWantW)
    case Clear => Clearing(ClWant)
    case Wait => Waiting(s.log.counted, s.log.wiped, Want)
    case TaskWait(t) => TaskWaiting(t, Want)
    case Destroy => Destroying(DtWant)
  }

  function AfterAdd(t: Tid, a: AddAt): Call {
    match a
    case AddWantW => Adding(t, AddWantT)
    case AddWantT => Adding(t, AddEmplace)
    case AddEmplace => Adding(t, AddCount)
    case AddCount => Adding(t, AddRelT)
    case AddRelT => Adding(t, AddRelW)
    case AddRelW => Adding(t, AddNotify)
    case AddNotify => Ready
  }

  function AfterClear(s: State, e: ClearAt): Call {
    match e
    case ClWant => Clearing(ClSub)
    case ClSub => Clearing(ClDrop(|s.queue|))
    case ClDrop(_) => Clearing(ClRel)
    case ClRel => Ready
  }

  function AfterDtor(c: Config, d: DtorAt): Call {
    match d
    case DtWant => Destroying(DtSet)
    case DtSet => Destroying(DtRel)
    case DtRel => Destroying(DtNotify)
    case DtNotify => Destroying(DtJoin(0))
    case DtJoin(i) => if i < c.k then Destroying(DtJoin(i + 1)) else Ready
  }

  function AfterCall(c: Config, s: State, rest: seq<Op>, call: Call): Pc {
    match call
    case Ready => if rest == [] then Client(rest, Ready) else Client(rest[1..], StartCall(s, rest[0]))
    case Adding(t, a) => Client(rest, AfterAdd(t, a))
    case Clearing(e) => Client(rest, AfterClear(s, e))
    case Destroying(d) => Client(rest, AfterDtor(c, d))
    case _ => Client(rest, call)
  }

  /** Control outside the condition-variable waits. */
  function Plain(c: Config, s: State, p: Pc): Pc {
    match p
    case Unstarted => Top
    case Top => if s.stop then Exited else Idle(Want)
    case ShutCheck => if s.stop then Exited else WantTasks
    case WantTasks => if s.queue == [] then Top else Fetch(Head(s), s.queue[0], 0, Want)
    case Fetch(x, t, n, _) => if n < |Slots(c.g, t)| then Fetch(x, t, n + 1, Want) else Work(x, t, Begin)
    case Work(x, t, k) => AfterWork(c, s, x, t, k)
    case Publish(x, t, u) => AfterPublish(x, t, u)
    case Tail(x, t, d) => AfterTail(c, s, x, t, d)
    case Client(rest, call) => AfterCall(c, s, rest, call)
    case _ => p
  }

  /** Where a thread at p goes next. */
  function Next(c: Config, s: State, p: Pc): Pc {
    match SiteOf(c, p)
    case None => Plain(c, s, p)
    case Some(site) =>
      match site.w
      case Want => SetWt(p, Test)
      case Test => SetWt(p, if Cond(c, s, p) then Release else Parking)
      case Parking => SetWt(p, Sleeping)
      case Sleeping => p
      case Release => Resume(p)
  }

  // ---------------------------------------------------------------- mutexes

  datatype LockAct = Keep | Take(m: Mutex) | Drop(m: Mutex)

  function PlainAction(p: Pc): LockAct {
    match p
    case Publish(_, t, EdgeLock) => Take(EdgeMtx(t))
    case Publish(_, t, EdgeUnlock) => Drop(EdgeMtx(t))
    case Publish(_, t, TaskLock) => Take(TaskMtx(t))
    case Publish(_, t, TaskUnlock) => Drop(TaskMtx(t))
    case Tail(_, _, WantWait) => Take(WaitMtx)
    case Tail(_, _, UnlockWait) => Drop(WaitMtx)
    case Client(_, Adding(_, AddWantW)) => Take(WorkerMtx)
    case Client(_, Adding(_, AddWantT)) => Take(TasksMtx)
    case Client(_, Adding(_, AddRelT)) => Drop(TasksMtx)
    case Client(_, Adding(_, AddRelW)) => Drop(WorkerMtx)
    case Client(_, Clearing(ClWant)) => Take(TasksMtx)
    case Client(_, Clearing(ClRel)) => Drop(TasksMtx)
    case Client(_, Destroying(DtWant)) => Take(WorkerMtx)
    case Client(_, Destroying(DtRel)) => Drop(WorkerMtx)
    case _ => Keep
  }

  /** What the step does to the mutexes; parking drops the mutex and joins the
      wait set in one action. */
  function Action(c: Config, p: Pc): LockAct {
    match SiteOf(c, p)
    case None => PlainAction(p)
    case Some(site) =>
      if site.w.Want? then Take(site.m) else if site.w.Parking? || site.w.Release? then Drop(site.m) else Keep
  }

  function DoLock(locks: map<Mutex, nat>, i: nat, a: LockAct): map<Mutex, nat> {
    match a
    case Keep => locks
    case Take(m) => locks[m := i]
    case Drop(m) => locks - {m}
  }

  // ----------------------------------------------------------- notifications

  datatype Wake = NoWake | One(cv: Cv) | All(cv: Cv)

  function Wakes(p: Pc): Wake {
    match p
    case Tail(_, _, NotifyAll) => All(WaitCv)
    case Publish(_, t, EdgeNotify) => All(EdgeCv(t))
    case Publish(_, t, TaskNotify) => One(TaskCv(t))
    case Client(_, Adding(_, AddNotify)) => One(WorkerCv)
    case Client(_, Destroying(DtNotify)) => All(WorkerCv)
    case _ => NoWake
  }

  /** A woken thread goes back to take its mutex and to test its condition. */
  function WakeUp(p: Pc): Pc { SetWt(p, Want) }

  function Woken(c: Config, ts: seq<Pc>, w: Wake, pick: nat): seq<Pc> {
    match w
    case NoWake => ts
    case One(cv) => if pick < |ts| && SleepsOn(c, ts[pick]) == Some(cv) then ts[pick := WakeUp(ts[pick])] else ts
    case All(cv) =>
      seq(|ts|, j requires 0 <= j < |ts| => if SleepsOn(c, ts[j]) == Some(cv) then WakeUp(ts[j]) else ts[j])
  }

  // ------------------------------------------------- queue, counter and flag

  function QueueAfter(s: State, p: Pc): seq<Tid> {
    match p
    case WantTasks => if s.queue == [] then [] else s.queue[1..]
    case Client(_, Adding(t, AddEmplace)) => s.queue + [t]
    case Client(_, Clearing(ClDrop(_))) => []
    case _ => s.queue
  }

  function CountAfter(s: State, p: Pc): int {
    match p
    case Tail(_, _, Dec) => s.count - 1
    case Client(_, Adding(_, AddCount)) => s.count + 1
    case Client(_, Clearing(ClSub)) => s.count - |s.queue|
    case _ => s.count
  }

  function StopAfter(s: State, p: Pc): bool { s.stop || (p.Client? && p.call == Destroying(DtSet)) }

  // ------------------------------------------------------- tasks and edges

  function StoreWork(c: Config, st: Store, t: Tid, k: WorkAt): Store {
    match k
    case Begin => st.(phase := st.phase[t := Running])
    case StampStart => st.(start := st.start[t := st.clock], clock := st.clock + 1)
    case Read(args) => if |args| < |KeptOf(c.g, t)| then st else st.(result := st.result[t := c.fn(t, args)])
    case StampEnd => st.(end := st.end[t := st.clock], clock := st.clock + 1)
    case Write =>
      if t in st.result && t in c.g && !c.g[t].out.Void? then st.(data := st.data[t := st.result[t]]) else st
  }

  function StoreAfter(c: Config, s: State, p: Pc): Store {
    match p
    case Work(_, t, k) => StoreWork(c, s.store, t, k)
    case Publish(_, t, EdgeSet) => s.store.(flag := s.store.flag + {t})
    case Publish(_, t, Finish) => s.store.(phase := s.store.phase[t := Complete])
    case _ => s.store
  }

  // ------------------------------------------------------------------- log

  function LogAfter(s: State, i: nat, p: Pc): Log {
    match p
    case WantTasks =>
      if s.queue == [] then s.log
      else s.log.(popped := s.log.popped + [Head(s)], owner := s.log.owner[Head(s) := i])
    case Tail(x, _, Dec) => s.log.(finished := s.log.finished + {x})
    case Tail(_, _, Load) => if s.count == 0 then s.log.(idled := s.log.idled + 1) else s.log
    case Tail(_, _, Callback) => s.log.(fired := s.log.fired + 1)
    case Client(_, Adding(t, AddEmplace)) => s.log.(submitted := s.log.submitted + [t])
    case Client(_, Adding(_, AddCount)) => s.log.(counted := s.log.counted + 1)
    case Client(_, Clearing(ClSub)) =>
      s.log.(cleared := s.log.cleared + Tickets(Head(s), |s.log.submitted|),
             zeroed := s.log.zeroed || (s.queue != [] && s.count == |s.queue|))
    case Client(_, Clearing(ClDrop(_))) => s.log.(wiped := true)
    case _ => s.log
  }

  // ------------------------------------------------------------------- steps

  /** Go: thread i takes its next step; pick is the sleeper a notify_one wakes.
      Spurious: sleeping thread i wakes up by itself. */
  datatype Label = Go(i: nat, pick: nat) | Spurious(i: nat)

  predicate SomeSleeper(c: Config, ts: seq<Pc>, cv: Cv) {
    exists j :: 0 <= j < |ts| && SleepsOn(c, ts[j]) == Some(cv)
  }

  /** Not asleep, not at the end, not joining a live worker. */
  predicate Live(c: Config, s: State, p: Pc) {
    && SleepsOn(c, p).None?
    && p != Exited
    && (p.Client? && p.call.Ready? ==> p.rest != [])
    && (p.Client? && p.call.Destroying? && p.call.d.DtJoin? && p.call.d.i < c.k && p.call.d.i < |s.threads| ==>
          s.threads[p.call.d.i].Exited?)
  }

  /** The mutexes the step needs are free.  The queue is tested at Idle(Test) and popped
      at WantTasks inside a section that holds only the task mutex. */
  predicate Unblocked(c: Config, s: State, p: Pc) {
    && (Action(c, p).Take? ==> Action(c, p).m !in s.locks)
    && (p == Idle(Test) || p.WantTasks? ==> TasksMtx !in s.locks)
  }

  predicate Enabled(c: Config, s: State, l: Label) {
    && l.i < |s.threads|
    && match l
       case Spurious(i) => SleepsOn(c, s.threads[i]).Some?
       case Go(i, pick) =>
         && Live(c, s, s.threads[i])
         && Unblocked(c, s, s.threads[i])
         && (Wakes(s.threads[i]).One? && SomeSleeper(c, s.threads, Wakes(s.threads[i]).cv) ==>
              pick < |s.threads| && SleepsOn(c, s.threads[pick]) == Some(Wakes(s.threads[i]).cv))
  }

  function Apply(c: Config, s: State, l: Label): State
    requires l.i < |s.threads|
  {
    var p := s.threads[l.i];
    match l
    case Spurious(i) => s.(threads := s.threads[i := WakeUp(p)])
    case Go(i, pick) =>
      State(Woken(c, s.threads, Wakes(p), pick)[i := Next(c, s, p)], DoLock(s.locks, i, Action(c, p)),
            QueueAfter(s, p), CountAfter(s, p), StopAfter(s, p), StoreAfter(c, s, p), LogAfter(s, i, p))
  }

  /** All tasks of order queued and counted, no worker running yet, every client
      about to make its first call. */
  function Start(c: Config): State {
    State(seq(c.k, _ => Unstarted) + seq(|c.progs|, j requires 0 <= j < |c.progs| => Client(c.progs[j], Ready)),
          map[], c.order, |c.order|, false,
          Store({}, map[], map[], map[], map[], map[], 0),
          Log(c.order, |c.order|, [], map[], {}, {}, 0, 0, false, false))
  }

  /** ls is a sequence of steps leading from s to s'. */
  ghost predicate Steps(c: Config, s: State, ls: seq<Label>, s': State)
    decreases |ls|
  {
    if ls == [] then s' == s else Enabled(c, s, ls[0]) && Steps(c, Apply(c, s, ls[0]), ls[1..], s')
  }

  /** No step of the run is a spurious wake-up. */
  predicate Notified(ls: seq<Label>) { forall a :: 0 <= a < |ls| ==> ls[a].Go? }

  ghost predicate Reachable(c: Config, s: State) { exists ls :: Steps(c, Start(c), ls, s) }

  /** No thread can move except by waking up without a notification. */
  ghost predicate Terminal(c: Config, s: State) { forall l: Label :: l.Go? ==> !Enabled(c, s, l) }

  /** One step, from s to s'. */
  lemma OneStep(c: Config, s: State, l: Label, s': State)
    requires Enabled(c, s, l) && s' == Apply(c, s, l)
    ensures Steps(c, s, [l], s')
  {
    assert [l][1..] == [];
  }

  lemma NoStep(c: Config, s: State, ls: seq<Label>)
    requires ls == []
    ensures Steps(c, s, ls, s)
  {}

  lemma {:induction false} JoinSteps(c: Config, s: State, a: seq<Label>, s1: State, b: seq<Label>, s2: State)
    requires Steps(c, s, a, s1) && Steps(c, s1, b, s2)
    ensures Steps(c, s, a + b, s2)
    decreases |a|
  {
    if a == [] {
      assert a + b == b;
    } else {
      hide Enabled, Apply;
      assert (a + b)[0] == a[0] && (a + b)[1..] == a[1..] + b;
      JoinSteps(c, Apply(c, s, a[0]), a[1..], s1, b, s2);
    }
  }

  lemma ReachFurther(c: Config, s: State, ls: seq<Label>, s': State)
    requires Reachable(c, s) && Steps(c, s, ls, s')
    ensures Reachable(c, s')
  {
    hide Enabled, Apply, Start;
    var before :| Steps(c, Start(c), before, s);
    JoinSteps(c, Start(c), before, s, ls, s');
  }
}
