/** Which tasks can never start: a set of tasks each of which depends on another
    member, or on a task nobody submits.  A cycle is such a set. */
module StuckSets {
  import opened Graphs
  import opened VoidFilter
  import opened Machine
  import opened Locks
  import opened Accounts
  import opened Programs
  import opened Latches
  import opened Stages
  import L = Ledgers

  ghost predicate Submittable(c: Config, t: Tid) {
    t in c.order || !Never(c, Add(t))
  }

  ghost predicate StuckSet(c: Config, stuck: set<Tid>) {
    forall v :: v in stuck ==> exists u :: DependsOn(c.g, v, u) && (u in stuck || !Submittable(c, u))
  }

  predicate Started(p: Pc) { p.Work? || p.Publish? }

  ghost predicate StuckInv(c: Config, stuck: set<Tid>, s: State) {
    && (forall x :: 0 <= x < |s.log.submitted| ==> Submittable(c, s.log.submitted[x]))
    && (forall t :: t in s.store.flag ==> t !in stuck && Submittable(c, t))
    && (forall t :: t in stuck ==> PhaseOf(s.store, t).Incomplete?)
    && (forall j :: 0 <= j < |s.threads| && Started(s.threads[j]) ==> TaskOf(s.threads[j]) !in stuck)
  }

  lemma DepsFlagged(c: Config, flag: set<Tid>, t: Tid)
    requires FlagsUpTo(c, flag, t, |Slots(c.g, t)|)
    ensures forall u :: DependsOn(c.g, t, u) ==> u in flag
  {}

  /** A worker past all its waits does not run a task of the set. */
  lemma NotStuck(c: Config, stuck: set<Tid>, s: State, t: Tid)
    requires StuckSet(c, stuck) && StuckInv(c, stuck, s) && FlagsUpTo(c, s.store.flag, t, |Slots(c.g, t)|)
    ensures t !in stuck
  {
    hide FlagsUpTo, DependsOn, Submittable;
    DepsFlagged(c, s.store.flag, t);
  }

  lemma StartedNext(c: Config, s: State, p: Pc)
    requires SleepsOn(c, p).None? && Started(Next(c, s, p))
    ensures TaskOf(Next(c, s, p)) == TaskOf(p)
    ensures Started(p) || (p.Fetch? && p.n >= |Slots(c.g, p.t)|)
  {
    hide KeptOf;
    match p {
      case Work(x, t, k) =>
      case Publish(x, t, u) =>
      case Fetch(x, t, n, w) => FetchNext(c, s, x, t, n, w);
      case Client(rest, call) =>
      case _ =>
    }
  }

  lemma SubmittedAfter(c: Config, s: State, i: nat)
    requires ShapeInv(c, s) && AccountsInv(s) && i < |s.threads|
    requires forall x :: 0 <= x < |s.log.submitted| ==> Submittable(c, s.log.submitted[x])
    ensures forall x :: 0 <= x < |LogAfter(s, i, s.threads[i]).submitted| ==>
      Submittable(c, LogAfter(s, i, s.threads[i]).submitted[x])
    ensures BadgeOf(s.threads[i]).Carry? ==> Submittable(c, BadgeOf(s.threads[i]).t)
  {
    var p := s.threads[i];
    if p.Client? && p.call.Adding? { CallInProgram(c, s, i, Add(p.call.t)); }
    if BadgeOf(p).Carry? { CarrierIsOwner(s, i); }
  }

  /** The store changes only for a task whose worker is past its waits. */
  lemma StoreMoves(c: Config, s: State, p: Pc)
    ensures !Started(p) ==> StoreAfter(c, s, p) == s.store
    ensures forall t :: t in StoreAfter(c, s, p).flag ==> t in s.store.flag || (p.Publish? && t == p.t)
    ensures forall t :: PhaseOf(StoreAfter(c, s, p), t) == PhaseOf(s.store, t) || (Started(p) && t == TaskOf(p))
  {
    hide KeptOf;
  }

  lemma StuckMover(c: Config, stuck: set<Tid>, s: State, p: Pc)
    requires StuckSet(c, stuck) && StuckInv(c, stuck, s) && DepThread(c, s.store.flag, p) && SleepsOn(c, p).None?
    requires Started(p) ==> TaskOf(p) !in stuck
    ensures Started(Next(c, s, p)) ==> TaskOf(Next(c, s, p)) !in stuck
  {
    hide Next, StuckInv, StuckSet;
    if Started(Next(c, s, p)) {
      StartedNext(c, s, p);
      NotStuck(c, stuck, s, TaskOf(p));
    }
  }

  lemma StuckStep(c: Config, stuck: set<Tid>, s: State, l: Label)
    requires StuckSet(c, stuck) && ShapeInv(c, s) && AccountsInv(s) && DepInv(c, s)
    requires StuckInv(c, stuck, s) && Enabled(c, s, l)
    ensures StuckInv(c, stuck, Apply(c, s, l))
  {
    assert l.i < |s.threads|;
    var s' := Apply(c, s, l);
    var p := s.threads[l.i];
    assert l.Spurious? ==> s'.store == s.store && s'.log == s.log;
    assert l.Go? ==> SleepsOn(c, p).None?;
    assert DepThread(c, s.store.flag, p);
    assert p.Publish? ==> BadgeOf(p) == L.Carry(p.x, p.t);
    hide Apply, Enabled, Next, LogAfter, StoreAfter, ShapeInv, AccountsInv, DepInv, StuckSet, Submittable, BadgeOf,
      DepThread, SleepsOn, WakeUp;
    if l.Go? {
      ApplyParts(c, s, l.i, l.pick);
      SubmittedAfter(c, s, l.i);
      StoreMoves(c, s, p);
      StuckMover(c, stuck, s, p);
    }
    OthersAfter(c, s, l, l.i);
    forall j | 0 <= j < |s'.threads| && Started(s'.threads[j]) ensures TaskOf(s'.threads[j]) !in stuck {
      OthersAfter(c, s, l, j);
      if SleepsOn(c, s.threads[j]).Some? { SleeperNotStarted(c, s.threads[j]); }
    }
  }

  lemma SleeperNotStarted(c: Config, p: Pc)
    requires SleepsOn(c, p).Some?
    ensures !Started(WakeUp(p))
  {}

  lemma StuckStart(c: Config, stuck: set<Tid>)
    ensures StuckInv(c, stuck, Start(c))
  {}

  /** The tasks of a cycle form such a set, and so does a cycle with everything
      that depends on it. */
  lemma CycleIsStuck(c: Config, cycle: seq<Tid>)
    requires cycle != [] && forall a :: 0 <= a < |cycle| - 1 ==> DependsOn(c.g, cycle[a], cycle[a + 1])
    requires DependsOn(c.g, cycle[|cycle| - 1], cycle[0])
    ensures StuckSet(c, set a | 0 <= a < |cycle| :: cycle[a])
  {
    var stuck := set a | 0 <= a < |cycle| :: cycle[a];
    forall v | v in stuck ensures exists u :: DependsOn(c.g, v, u) && (u in stuck || !Submittable(c, u)) {
      var a :| 0 <= a < |cycle| && cycle[a] == v;
      var b := if a < |cycle| - 1 then a + 1 else 0;
      assert DependsOn(c.g, v, cycle[b]) && cycle[b] in stuck;
    }
  }
}
