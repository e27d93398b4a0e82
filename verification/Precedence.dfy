/** Publication, and the start and end stamps: a task runs only after everything it
    depends on has been published, and starts only after it has ended. */
module Precedence {
  import opened Graphs
  import opened VoidFilter
  import opened Machine
  import opened Locks
  import opened Accounts
  import opened Latches
  import opened Stages

  // ------------------------------------------------------------ publication

  /** The worker at p has set its task to Running. */
  predicate HasRun(p: Pc) { (p.Work? && !p.k.Begin?) || p.Publish? }

  /** A published task has run. */
  ghost predicate RanInv(s: State) {
    && (forall t :: t in s.store.flag ==> !PhaseOf(s.store, t).Incomplete?)
    && (forall j :: 0 <= j < |s.threads| && HasRun(s.threads[j]) ==>
          !PhaseOf(s.store, TaskOf(s.threads[j])).Incomplete?)
  }

  /** No task goes back to Incomplete. */
  lemma PhasesKept(c: Config, s: State, p: Pc)
    ensures forall t :: !PhaseOf(s.store, t).Incomplete? ==> !PhaseOf(StoreAfter(c, s, p), t).Incomplete?
  {
    hide KeptOf;
  }

  lemma RanNext(c: Config, s: State, p: Pc)
    requires SleepsOn(c, p).None? && HasRun(Next(c, s, p))
    ensures TaskOf(Next(c, s, p)) == TaskOf(p)
    ensures HasRun(p) || !PhaseOf(StoreAfter(c, s, p), TaskOf(p)).Incomplete?
  {
    hide KeptOf;
  }

  lemma RanWake(c: Config, p: Pc)
    requires SleepsOn(c, p).Some?
    ensures !HasRun(WakeUp(p))
  {}

  lemma RanStep(c: Config, s: State, l: Label)
    requires RanInv(s) && Enabled(c, s, l)
    ensures RanInv(Apply(c, s, l))
  {
    hide Apply, Enabled, Next, StoreAfter, QueueAfter, CountAfter, StopAfter, LogAfter, SleepsOn, WakeUp, PhaseOf;
    SharedAfter(c, s, l);
    var p := s.threads[l.i];
    var s' := Apply(c, s, l);
    if l.Go? { PhasesKept(c, s, p); FlagGrows(c, s, p); }
    OthersAfter(c, s, l, l.i);
    forall j | 0 <= j < |s'.threads| && HasRun(s'.threads[j])
      ensures !PhaseOf(s'.store, TaskOf(s'.threads[j])).Incomplete?
    {
      OthersAfter(c, s, l, j);
      if SleepsOn(c, s.threads[j]).Some? { RanWake(c, s.threads[j]); }
      if j == l.i && l.Go? { RanNext(c, s, p); }
    }
  }

  lemma RanStart(c: Config)
    ensures RanInv(Start(c))
  {}

  /** Whatever a running task depends on, directly or through others, is published. */
  lemma {:induction false} PathPublished(c: Config, s: State, path: seq<Tid>)
    requires RanInv(s) && StartedFlagged(c, s.store)
    requires DependencyPath(c.g, path) && |path| >= 2 && !PhaseOf(s.store, path[0]).Incomplete?
    ensures path[|path| - 1] in s.store.flag
    decreases |path|
  {
    TailIsPath(c.g, path);
    var m :| 0 <= m < |Slots(c.g, path[0])| && Src(c.g, path[0], m) == Some(path[1]);
    assert path[1] in s.store.flag;
    if |path| > 2 { PathPublished(c, s, path[1..]); }
  }

  // ------------------------------------------------------------------ stamps

  /** The stamps lie in the past, a task ends after it starts, and it starts
      after its dependencies have ended. */
  ghost predicate Timed(c: Config, st: Store) {
    && (forall t :: t in st.start ==> st.start[t] < st.clock)
    && (forall t :: t in st.end ==> st.end[t] < st.clock && t in st.start && st.start[t] < st.end[t])
    && (forall t, m :: t in st.start && 0 <= m < |Slots(c.g, t)| && Src(c.g, t, m).Some? ==>
          Src(c.g, t, m).value in st.end && st.end[Src(c.g, t, m).value] < st.start[t])
  }

  ghost predicate TimeInv(c: Config, s: State) { Distinct(s.log.submitted) ==> Timed(c, s.store) }

  lemma FlaggedEnded(s: State)
    requires Staged(s) && TouchedInv(s)
    ensures forall t :: t in s.store.flag ==> t in s.store.end
  {
    forall t | t in s.store.flag ensures t in s.store.end {
      assert !Untouched(s.store, t);
      var x :| 0 <= x < |s.log.submitted| && s.log.submitted[x] == t;
      assert Stage(s, x);
    }
  }

  /** A worker about to stamp the end of its task has stamped its start only. */
  lemma CarrierStage(s: State, i: nat)
    requires AccountsInv(s) && Staged(s) && i < |s.threads| && BadgeOf(s.threads[i]).Carry?
    ensures StageThread(s.store, TaskOf(s.threads[i]), s.threads[i])
  {
    CarrierIsOwner(s, i);
    assert Stage(s, BadgeOf(s.threads[i]).x);
  }

  lemma WorkTimes(c: Config, st: Store, t: Tid, k: WorkAt)
    requires Timed(c, st)
    requires k.StampStart? ==> t !in st.start && t !in st.end
    requires k.StampStart? ==>
      forall m :: 0 <= m < |Slots(c.g, t)| && Src(c.g, t, m).Some? ==> Src(c.g, t, m).value in st.end
    requires k.StampEnd? ==> t in st.start && t !in st.end
    ensures Timed(c, StoreWork(c, st, t, k))
  {
    hide KeptOf;
  }

  lemma OtherStamps(c: Config, s: State, p: Pc)
    requires Timed(c, s.store) && !p.Work?
    ensures Timed(c, StoreAfter(c, s, p))
  {}

  lemma WorkerTimes(c: Config, s: State, i: nat)
    requires i < |s.threads| && s.threads[i].Work?
    requires AccountsInv(s) && TouchedInv(s) && Staged(s) && DepInv(c, s) && Timed(c, s.store)
    ensures Timed(c, StoreAfter(c, s, s.threads[i]))
  {
    var p := s.threads[i];
    CarrierStage(s, i);
    FlaggedEnded(s);
    assert DepThread(c, s.store.flag, p);
    hide StoreWork, AccountsInv, Staged, Timed;
    WorkTimes(c, s.store, p.t, p.k);
  }

  lemma TimeStep(c: Config, s: State, l: Label)
    requires AccountsInv(s) && TouchedInv(s) && StageInv(s) && DepInv(c, s) && TimeInv(c, s) && Enabled(c, s, l)
    ensures TimeInv(c, Apply(c, s, l))
  {
    hide Enabled, Apply, AccountsInv, TouchedInv, Staged, Timed, StoreAfter, DepInv, Distinct, QueueAfter, CountAfter,
      StopAfter, Next, LogAfter;
    SharedAfter(c, s, l);
    SubmissionsAfter(c, s, l);
    if Distinct(Apply(c, s, l).log.submitted) {
      PrefixDistinct(s.log.submitted, Apply(c, s, l).log.submitted);
      if l.Go? {
        if s.threads[l.i].Work? { WorkerTimes(c, s, l.i); } else { OtherStamps(c, s, s.threads[l.i]); }
      }
    }
  }

  lemma TimeStart(c: Config)
    ensures TimeInv(c, Start(c))
  {}

  /** Every task along a dependency path has ended before the first one starts. */
  lemma {:induction false} PathEndsBefore(c: Config, st: Store, path: seq<Tid>)
    requires Timed(c, st) && DependencyPath(c.g, path) && |path| >= 2 && path[0] in st.start
    ensures path[|path| - 1] in st.end && st.end[path[|path| - 1]] < st.start[path[0]]
    decreases |path|
  {
    TailIsPath(c.g, path);
    var m :| 0 <= m < |Slots(c.g, path[0])| && Src(c.g, path[0], m) == Some(path[1]);
    assert path[1] in st.end && st.end[path[1]] < st.start[path[0]];
    if |path| > 2 { PathEndsBefore(c, st, path[1..]); }
  }

  // ------------------------------------------------------- when stamps are taken

  /** All stamps lie in the past. */
  ghost predicate ClockAhead(st: Store) {
    && (forall t :: t in st.start ==> st.start[t] < st.clock)
    && (forall t :: t in st.end ==> st.end[t] < st.clock)
  }

  /** Every stamp of the later state is an old one of the same task, or was taken
      after everything stamped in the earlier state. */
  ghost predicate StampsSince(st: Store, st': Store) {
    && st.clock <= st'.clock && st.start.Keys <= st'.start.Keys && st.end.Keys <= st'.end.Keys
    && (forall t :: t in st'.start ==> st'.start[t] >= st.clock || (t in st.start && st'.start[t] == st.start[t]))
    && (forall t :: t in st'.end ==> st'.end[t] >= st.clock || (t in st.end && st'.end[t] == st.end[t]))
  }

  lemma StampsWork(c: Config, st: Store, t: Tid, k: WorkAt)
    requires ClockAhead(st)
    ensures ClockAhead(StoreWork(c, st, t, k)) && StampsSince(st, StoreWork(c, st, t, k))
  {
    hide KeptOf;
  }

  lemma StampsStep(c: Config, s: State, l: Label)
    requires ClockAhead(s.store) && Enabled(c, s, l)
    ensures ClockAhead(Apply(c, s, l).store) && StampsSince(s.store, Apply(c, s, l).store)
  {
    hide Apply, Enabled, Next, StoreWork, QueueAfter, CountAfter, StopAfter, LogAfter;
    SharedAfter(c, s, l);
    if l.Go? && s.threads[l.i].Work? { StampsWork(c, s.store, s.threads[l.i].t, s.threads[l.i].k); }
  }

  lemma {:induction false} StampsSteps(c: Config, s: State, ls: seq<Label>, s': State)
    requires ClockAhead(s.store) && Steps(c, s, ls, s')
    ensures ClockAhead(s'.store) && StampsSince(s.store, s'.store)
    decreases |ls|
  {
    if ls != [] {
      assert Enabled(c, s, ls[0]) && Steps(c, Apply(c, s, ls[0]), ls[1..], s');
      hide Apply, Enabled, Steps;
      StampsStep(c, s, ls[0]);
      StampsSteps(c, Apply(c, s, ls[0]), ls[1..], s');
    }
  }

  lemma StampsStart(c: Config)
    ensures ClockAhead(Start(c).store)
  {}

  /** Stamps that are there stay as they are. */
  ghost predicate StampsKept(st: Store, st': Store) {
    && (forall t :: t in st.start ==> t in st'.start && st'.start[t] == st.start[t])
    && (forall t :: t in st.end ==> t in st'.end && st'.end[t] == st.end[t])
  }

  lemma WorkKeeps(c: Config, st: Store, t: Tid, k: WorkAt)
    requires (k.StampStart? ==> t !in st.start) && (k.StampEnd? ==> t !in st.end)
    ensures StampsKept(st, StoreWork(c, st, t, k))
  {
    hide KeptOf;
  }

  /** No task that is submitted once is stamped twice. */
  lemma KeptStep(c: Config, s: State, l: Label)
    requires AccountsInv(s) && StageInv(s) && Distinct(s.log.submitted) && Enabled(c, s, l)
    ensures StampsKept(s.store, Apply(c, s, l).store)
  {
    hide Apply, Enabled, Next, AccountsInv, Staged, StoreWork, QueueAfter, CountAfter, StopAfter, LogAfter;
    SharedAfter(c, s, l);
    if l.Go? && s.threads[l.i].Work? {
      CarrierStage(s, l.i);
      WorkKeeps(c, s.store, s.threads[l.i].t, s.threads[l.i].k);
    }
  }
}
