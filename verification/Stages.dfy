/** Every submission goes once, in order, through the stages of Task::run: any pool
    to which no task is submitted twice, and the runs of the executor, which submits
    all its tasks before the workers start. */
module Stages {
  import opened Graphs
  import opened VoidFilter
  import opened Machine
  import opened Locks
  import opened Accounts
  import opened Programs
  import opened Latches
  import L = Ledgers

  ghost predicate Distinct(order: seq<Tid>) {
    forall x, y :: 0 <= x < y < |order| ==> order[x] != order[y]
  }

  /** Every dependency of a task is in the order, strictly before it. */
  ghost predicate Topological(g: Graph, order: seq<Tid>) {
    forall x, u :: 0 <= x < |order| && DependsOn(g, order[x], u) ==> exists y :: 0 <= y < x && order[y] == u
  }

  /** What the executor hands to the pool, for some sorted order. */
  ghost predicate Executor(c: Config) {
    NoAdds(c) && Distinct(c.order) && (forall x :: 0 <= x < |c.order| ==> c.order[x] in c.g)
  }

  // ------------------------------------------------------- popping in order

  /** The popped tickets are 0, 1, 2, ... without a gap. */
  ghost predicate InSequence(s: State) {
    && (forall a :: 0 <= a < |s.log.popped| ==> s.log.popped[a] == a)
    && |s.log.popped| <= Head(s)
  }

  /** When nothing is added only a clear, after which nothing is popped, ends the
      sequence. */
  ghost predicate PrefixInv(c: Config, s: State) {
    && s.log.submitted == c.order && s.log.counted == |c.order|
    && InSequence(s) && (s.queue == [] || Head(s) == |s.log.popped|)
  }

  /** When nothing is cleared every submission off the queue was popped. */
  ghost predicate GaplessInv(c: Config, s: State) {
    Never(c, Clear) ==> InSequence(s) && Head(s) == |s.log.popped|
  }

  lemma PrefixStep(c: Config, s: State, l: Label)
    requires NoAdds(c) && ShapeInv(c, s) && AccountsInv(s) && PrefixInv(c, s) && Enabled(c, s, l)
    ensures PrefixInv(c, Apply(c, s, l))
  {
    hide Enabled, Apply, Next, ShapeInv, NoAdds, StoreAfter, CountAfter, StopAfter, AccountsInv;
    SharedAfter(c, s, l);
    if l.Go? {
      NothingAdded(c, s, l.i);
      PrefixNext(c, s, l.i);
    }
  }

  lemma NothingAdded(c: Config, s: State, i: nat)
    requires NoAdds(c) && ShapeInv(c, s) && i < |s.threads|
    ensures !(s.threads[i].Client? && s.threads[i].call.Adding?)
  {
    if s.threads[i].Client? && s.threads[i].call.Adding? { CallInProgram(c, s, i, Add(s.threads[i].call.t)); }
  }

  lemma QueueMoves(s: State, i: nat, p: Pc)
    requires !(p.Client? && p.call.Adding?)
    ensures var g := LogAfter(s, i, p);
      && g.submitted == s.log.submitted && g.counted == s.log.counted
      && (if p.WantTasks? && s.queue != [] then g.popped == s.log.popped + [Head(s)] && QueueAfter(s, p) == s.queue[1..]
          else g.popped == s.log.popped && (QueueAfter(s, p) == s.queue || QueueAfter(s, p) == []))
    ensures !(p.Client? && p.call.Clearing?) && !p.WantTasks? ==> QueueAfter(s, p) == s.queue
  {
    hide Head;
  }

  lemma PrefixNext(c: Config, s: State, i: nat)
    requires AccountsInv(s) && PrefixInv(c, s) && i < |s.threads|
    requires !(s.threads[i].Client? && s.threads[i].call.Adding?)
    ensures PrefixInv(c, s.(queue := QueueAfter(s, s.threads[i]), log := LogAfter(s, i, s.threads[i])))
  {
    assert |s.queue| <= |s.log.submitted|;
    hide AccountsInv, Tickets, QueueAfter, LogAfter;
    QueueMoves(s, i, s.threads[i]);
  }

  lemma GaplessStep(c: Config, s: State, l: Label)
    requires ShapeInv(c, s) && AccountsInv(s) && GaplessInv(c, s) && Enabled(c, s, l)
    ensures GaplessInv(c, Apply(c, s, l))
  {
    hide Enabled, Apply, Next, ShapeInv, StoreAfter, CountAfter, StopAfter, AccountsInv, Never;
    SharedAfter(c, s, l);
    if l.Go? && Never(c, Clear) {
      if s.threads[l.i].Client? && s.threads[l.i].call.Clearing? { CallInProgram(c, s, l.i, Clear); }
      GaplessNext(s, l.i);
    }
  }

  lemma GaplessNext(s: State, i: nat)
    requires AccountsInv(s) && InSequence(s) && Head(s) == |s.log.popped| && i < |s.threads|
    requires !(s.threads[i].Client? && s.threads[i].call.Clearing?)
    ensures var s' := s.(queue := QueueAfter(s, s.threads[i]), log := LogAfter(s, i, s.threads[i]));
      InSequence(s') && Head(s') == |s'.log.popped|
  {
    assert |s.queue| <= |s.log.submitted|;
    hide AccountsInv, Tickets;
    var p := s.threads[i];
    if !(p.Client? && p.call.Adding?) {
      hide QueueAfter, LogAfter;
      QueueMoves(s, i, p);
    }
  }

  /** The popped tickets are exactly the first |popped| ones. */
  lemma OwnedArePopped(s: State, x: nat)
    requires AccountsInv(s) && InSequence(s)
    ensures x in s.log.owner <==> x < |s.log.popped|
  {
    if x < |s.log.popped| { assert s.log.popped[x] == x; }
    assert x in s.log.popped <==> x in LedgerOf(s).owner;
  }

  // ----------------------------------------------------------------- stages

  predicate PastStart(p: Pc) {
    (p.Work? && !p.k.Begin? && !p.k.StampStart?) || p.Publish? || p.Tail?
  }

  predicate PastEnd(p: Pc) { (p.Work? && p.k.Write?) || p.Publish? || p.Tail? }

  predicate PastSet(p: Pc) { (p.Publish? && !p.u.EdgeLock? && !p.u.EdgeSet?) || p.Tail? }

  function PhaseAt(p: Pc): TaskState {
    match p
    case Work(_, _, k) => if k.Begin? then Incomplete else Running
    case Publish(_, _, u) => if u.TaskLock? || u.TaskNotify? || u.TaskUnlock? then Complete else Running
    case Tail(_, _, _) => Complete
    case _ => Incomplete
  }

  /** What the shared state says about t while its worker is at p. */
  ghost predicate StageThread(st: Store, t: Tid, p: Pc) {
    && (t in st.flag <==> PastSet(p)) && (t in st.start <==> PastStart(p)) && (t in st.end <==> PastEnd(p))
    && PhaseOf(st, t) == PhaseAt(p)
  }

  ghost predicate Untouched(st: Store, t: Tid) {
    t !in st.flag && t !in st.start && t !in st.end && PhaseOf(st, t).Incomplete?
  }

  ghost predicate Done(st: Store, t: Tid) {
    t in st.flag && t in st.start && t in st.end && PhaseOf(st, t).Complete?
  }

  ghost predicate Stage(s: State, x: nat)
    requires x < |s.log.submitted|
  {
    var t := s.log.submitted[x];
    if x !in s.log.owner then Untouched(s.store, t)
    else if x in s.log.finished then Done(s.store, t)
    else s.log.owner[x] < |s.threads| && StageThread(s.store, t, s.threads[s.log.owner[x]])
  }

  ghost predicate Staged(s: State) { forall x :: 0 <= x < |s.log.submitted| ==> Stage(s, x) }

  ghost predicate StageInv(s: State) { Distinct(s.log.submitted) ==> Staged(s) }

  /** Nothing has happened to a task that was never submitted. */
  ghost predicate TouchedInv(s: State) { forall t :: t !in s.log.submitted ==> Untouched(s.store, t) }

  /** The carrier moves its own task one stage on. */
  lemma StageNext(c: Config, s: State, p: Pc)
    requires BadgeOf(p).Carry? && StageThread(s.store, TaskOf(p), p) && SleepsOn(c, p).None?
    ensures var st := StoreAfter(c, s, p); var q := Next(c, s, p);
      if BadgeOf(q).Carry? then TaskOf(q) == TaskOf(p) && StageThread(st, TaskOf(p), q)
      else p.Tail? && p.d.Dec? && Done(st, TaskOf(p))
  {
    hide KeptOf, SlotValue;
    match p {
      case Fetch(x, t, n, w) => FetchNext(c, s, x, t, n, w);
      case Work(x, t, k) =>
      case Publish(x, t, u) =>
      case Tail(x, t, d) =>
      case _ =>
    }
  }

  lemma FetchNext(c: Config, s: State, x: nat, t: Tid, n: nat, w: Wt)
    ensures var q := Next(c, s, Fetch(x, t, n, w));
      (q.Fetch? && q.t == t && q.x == x) || q == Work(x, t, Begin)
  {}

  lemma StageWake(c: Config, st: Store, t: Tid, p: Pc)
    requires SleepsOn(c, p).Some? && StageThread(st, t, p)
    ensures StageThread(st, t, WakeUp(p))
  {}

  lemma WorkLeaves(c: Config, st: Store, v: Tid, k: WorkAt, t: Tid)
    requires t != v
    ensures var st' := StoreWork(c, st, v, k);
      && (t in st'.flag <==> t in st.flag) && (t in st'.start <==> t in st.start)
      && (t in st'.end <==> t in st.end) && PhaseOf(st', t) == PhaseOf(st, t)
  {
    hide KeptOf;
  }

  /** A step leaves the tasks of other workers alone. */
  lemma StoreOther(c: Config, s: State, p: Pc, t: Tid)
    requires BadgeOf(p).Carry? ==> TaskOf(p) != t
    ensures var st := StoreAfter(c, s, p);
      && (t in st.flag <==> t in s.store.flag) && (t in st.start <==> t in s.store.start)
      && (t in st.end <==> t in s.store.end) && PhaseOf(st, t) == PhaseOf(s.store, t)
  {
    hide StoreWork;
    if p.Work? { WorkLeaves(c, s.store, p.t, p.k, t); }
  }

  lemma OwnersAfter(c: Config, s: State, l: Label, x: nat)
    requires Enabled(c, s, l)
    ensures var g := Apply(c, s, l).log;
      && (x in g.owner <==> x in s.log.owner || (l.Go? && s.threads[l.i].WantTasks? && s.queue != [] && x == Head(s)))
      && (x in s.log.owner && x != Head(s) ==> g.owner[x] == s.log.owner[x])
      && (x in g.owner && x !in s.log.owner ==> g.owner[x] == l.i)
      && (x in g.finished <==>
            (x in s.log.finished || (l.Go? && s.threads[l.i].Tail? && s.threads[l.i].d.Dec? && x == s.threads[l.i].x)))
  {
    hide Apply, Enabled, LogAfter, Head, QueueAfter, CountAfter, StopAfter, StoreAfter, Next;
    SharedAfter(c, s, l);
    if l.Go? { OwnersLogged(s, l.i, s.threads[l.i], x); }
  }

  lemma OwnersLogged(s: State, i: nat, p: Pc, x: nat)
    ensures var g := LogAfter(s, i, p);
      && (x in g.owner <==> x in s.log.owner || (p.WantTasks? && s.queue != [] && x == Head(s)))
      && (x in s.log.owner && x != Head(s) ==> g.owner[x] == s.log.owner[x])
      && (x in g.owner && x !in s.log.owner ==> g.owner[x] == i)
      && (x in g.finished <==> x in s.log.finished || (p.Tail? && p.d.Dec? && x == p.x))
  {
    hide Head;
  }

  /** The worker that carries ticket x is the one that popped it. */
  lemma CarrierIsOwner(s: State, i: nat)
    requires AccountsInv(s) && i < |s.threads| && BadgeOf(s.threads[i]).Carry?
    ensures var b := BadgeOf(s.threads[i]);
      && b.x in s.log.owner && s.log.owner[b.x] == i && b.x !in s.log.finished
      && b.x < |s.log.submitted| && s.log.submitted[b.x] == b.t && TaskOf(s.threads[i]) == b.t
  {
    assert LedgerOf(s).b[i] == BadgeOf(s.threads[i]);
  }

  lemma OwnerCarries(s: State, x: nat)
    requires AccountsInv(s) && x in s.log.owner
    ensures s.log.owner[x] < |s.threads| && x < Head(s)
    ensures x !in s.log.finished ==>
      BadgeOf(s.threads[s.log.owner[x]]).Carry? && BadgeOf(s.threads[s.log.owner[x]]).x == x
  {
    assert x in LedgerOf(s).owner;
    if x !in s.log.finished {
      assert LedgerOf(s).b[s.log.owner[x]] == BadgeOf(s.threads[s.log.owner[x]]);
    }
  }

  /** Submissions are only ever appended, and by a client. */
  lemma SubmissionsAfter(c: Config, s: State, l: Label)
    requires Enabled(c, s, l)
    ensures s.log.submitted <= Apply(c, s, l).log.submitted
    ensures Apply(c, s, l).log.submitted != s.log.submitted ==>
      l.Go? && l.i < |s.threads| && s.threads[l.i].Client? && Apply(c, s, l).store == s.store
      && |Apply(c, s, l).log.submitted| == |s.log.submitted| + 1
  {
    hide Apply, Enabled, QueueAfter, CountAfter, StopAfter, Next;
    SharedAfter(c, s, l);
  }

  lemma PrefixDistinct(a: seq<Tid>, b: seq<Tid>)
    requires a <= b && Distinct(b)
    ensures Distinct(a)
    ensures |b| == |a| + 1 ==> b[|a|] !in a
  {}

  lemma TouchedStep(c: Config, s: State, l: Label)
    requires AccountsInv(s) && TouchedInv(s) && Enabled(c, s, l)
    ensures TouchedInv(Apply(c, s, l))
  {
    hide Apply, Enabled, AccountsInv, QueueAfter, CountAfter, StopAfter, StoreAfter, LogAfter, Next, BadgeOf;
    SharedAfter(c, s, l);
    SubmissionsAfter(c, s, l);
    forall t | t !in Apply(c, s, l).log.submitted ensures Untouched(Apply(c, s, l).store, t) {
      assert t !in s.log.submitted;
      if l.Go? {
        if BadgeOf(s.threads[l.i]).Carry? { CarrierIsOwner(s, l.i); }
        StoreOther(c, s, s.threads[l.i], t);
      }
    }
  }

  lemma StageSelf(c: Config, s: State, i: nat, pick: nat)
    requires AccountsInv(s) && Staged(s) && Enabled(c, s, Go(i, pick)) && BadgeOf(s.threads[i]).Carry?
    ensures var x := BadgeOf(s.threads[i]).x; var s' := Apply(c, s, Go(i, pick));
      x < |s.log.submitted| && s'.log.submitted == s.log.submitted && Stage(s', x)
  {
    var p := s.threads[i];
    var l := Go(i, pick);
    CarrierIsOwner(s, i);
    var x := BadgeOf(p).x;
    OwnerCarries(s, x);
    assert Stage(s, x);
    assert SleepsOn(c, p).None?;
    StageNext(c, s, p);
    assert p.Tail? && p.d.Dec? ==> p.x == x;
    QuietCarry(c, s, p);
    ApplyParts(c, s, i, pick);
    OwnersAfter(c, s, l, x);
    OthersAfter(c, s, l, i);
    SubmissionsAfter(c, s, l);
    hide Apply, Enabled, Next, StageThread, AccountsInv;
  }

  lemma QuietCarry(c: Config, s: State, p: Pc)
    requires BadgeOf(p).Carry?
    ensures !p.WantTasks? && !p.Client? && (BadgeOf(Next(c, s, p)).Carry? ==> !(p.Tail? && p.d.Dec?))
  {}

  lemma StageOther(c: Config, s: State, l: Label, x: nat)
    requires Distinct(s.log.submitted) && AccountsInv(s) && Staged(s) && Enabled(c, s, l) && x < |s.log.submitted|
    requires l.Go? && BadgeOf(s.threads[l.i]).Carry? ==> BadgeOf(s.threads[l.i]).x != x
    ensures x < |Apply(c, s, l).log.submitted| && Stage(Apply(c, s, l), x)
  {
    assert l.i < |s.threads|;
    var p := s.threads[l.i];
    var s' := Apply(c, s, l);
    var t := s.log.submitted[x];
    assert Stage(s, x);
    SubmissionsAfter(c, s, l);
    if l.Go? && BadgeOf(p).Carry? { CarrierIsOwner(s, l.i); }
    if l.Go? { StoreOther(c, s, p, t); ApplyParts(c, s, l.i, l.pick); }
    assert l.Spurious? ==> s'.store == s.store;
    assert l.Go? && p.Tail? && p.d.Dec? ==> BadgeOf(p) == L.Carry(p.x, p.t);
    assert l.Go? && p.WantTasks? && s.queue != [] ==> Next(c, s, p) == Fetch(Head(s), s.queue[0], 0, Want);
    assert p.WantTasks? && s.queue != [] ==> Head(s) < |s.log.submitted| && s.log.submitted[Head(s)] == s.queue[0];
    OwnersAfter(c, s, l, x);
    if x in s.log.owner { OwnerCarries(s, x); }
    hide Apply, Enabled, Next, AccountsInv;
    OthersAfter(c, s, l, l.i);
    if x in s.log.owner && x !in s.log.finished {
      var j := s.log.owner[x];
      OthersAfter(c, s, l, j);
      if SleepsOn(c, s.threads[j]).Some? { StageWake(c, s.store, t, s.threads[j]); }
      assert l.Go? && l.i == j ==> false;
    }
  }

  /** A submission just made is that of an untouched task. */
  lemma StageNew(c: Config, s: State, l: Label)
    requires AccountsInv(s) && TouchedInv(s) && Enabled(c, s, l) && Distinct(Apply(c, s, l).log.submitted)
    requires |Apply(c, s, l).log.submitted| == |s.log.submitted| + 1
    ensures Stage(Apply(c, s, l), |s.log.submitted|)
  {
    SubmissionsAfter(c, s, l);
    OwnersAfter(c, s, l, |s.log.submitted|);
    PrefixDistinct(s.log.submitted, Apply(c, s, l).log.submitted);
    hide Apply, Enabled;
    TicketsSubmitted(s);
  }

  lemma TicketsSubmitted(s: State)
    requires AccountsInv(s)
    ensures forall x :: x in s.log.owner ==> x < |s.log.submitted|
  {
    assert LedgerOf(s).owner == s.log.owner;
  }

  lemma StageStep(c: Config, s: State, l: Label)
    requires AccountsInv(s) && TouchedInv(s) && StageInv(s) && Enabled(c, s, l)
    ensures StageInv(Apply(c, s, l))
  {
    hide Apply, Enabled, Next, AccountsInv, Stage, TouchedInv, Distinct, BadgeOf;
    EnabledRange(c, s, l);
    SubmissionsAfter(c, s, l);
    var s' := Apply(c, s, l);
    if Distinct(s'.log.submitted) {
      PrefixDistinct(s.log.submitted, s'.log.submitted);
      forall x | 0 <= x < |s'.log.submitted| ensures Stage(s', x) {
        if x == |s.log.submitted| {
          StageNew(c, s, l);
        } else {
          if l.Go? && BadgeOf(s.threads[l.i]).Carry? && BadgeOf(s.threads[l.i]).x == x {
            StageSelf(c, s, l.i, l.pick);
          } else {
            StageOther(c, s, l, x);
          }
        }
      }
    }
  }

  lemma EnabledRange(c: Config, s: State, l: Label)
    requires Enabled(c, s, l)
    ensures l.i < |s.threads|
  {}

  lemma StageStart(c: Config)
    ensures PrefixInv(c, Start(c)) && GaplessInv(c, Start(c)) && TouchedInv(Start(c)) && StageInv(Start(c))
  {}
}
