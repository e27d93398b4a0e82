/** The completion callback of the pool in runs where everything is submitted
    before the workers start and nothing is cleared. */
module Callbacks {
  import opened Graphs
  import opened VoidFilter
  import opened Machine
  import opened Locks
  import opened Accounts
  import opened Programs
  import opened PoolWait
  import L = Ledgers
  import Sums

  /** At least one task, all submitted beforehand, a callback, no clear. */
  ghost predicate Uncancelled(c: Config) {
    NoAdds(c) && Never(c, Clear) && c.callback && c.order != []
  }

  predicate BeforeFiring(p: Pc) { p.Tail? && (p.d.Load? || p.d.Callback?) }

  predicate Firing(p: Pc) { p.Tail? && (p.d.Callback? || p.d.NotifyAll?) }

  predicate Returning(p: Pc) { p.Client? && p.call.Waiting? && p.call.w.Release? }

  /** The callback has not fired while tasks remain; once none remains, either
      one worker is about to fire it or it has fired once. */
  ghost predicate CallbackInv(s: State) {
    && (s.count > 0 ==> s.log.fired == 0 && forall q :: 0 <= q < |s.threads| ==> !Firing(s.threads[q]))
    && (s.count == 0 ==>
          (s.log.fired == 0 && exists q :: 0 <= q < |s.threads| && BeforeFiring(s.threads[q]))
          || (s.log.fired == 1 && forall q :: 0 <= q < |s.threads| ==> !BeforeFiring(s.threads[q])))
    && (forall q :: 0 <= q < |s.threads| && Returning(s.threads[q]) ==> s.log.fired == 1)
  }

  lemma NothingCarried(c: Config, s: State, i: nat)
    requires LockInv(c, s) && AccountsInv(s) && i < |s.threads| && BadgeOf(s.threads[i]).Carry?
    ensures s.count > 0
  {
    CountNeverNegative(c, s);
    assert LedgerOf(s).b[i] == BadgeOf(s.threads[i]);
    if s.count == 0 {
      var h := TaskMtxHolder(c, s);
      L.ZeroMeansSettled(LedgerOf(s), h);
    }
  }

  /** Control of the workers around the callback and of the returning waiters. */
  lemma TailNext(c: Config, s: State, p: Pc)
    requires SleepsOn(c, p).None?
    ensures var q := Next(c, s, p);
      && (Firing(q) ==> p.Tail? && ((p.d.Load? && s.count == 0) || p.d.Callback?))
      && (BeforeFiring(q) ==> p.Tail? && (p.d.Dec? || (p.d.Load? && s.count == 0)))
      && (Returning(q) ==> p.Client? && p.call.Waiting? && p.call.w.Test? && s.count == 0)
      && (p.Tail? && p.d.Load? && s.count == 0 && c.callback ==> BeforeFiring(q))
      && (p.Tail? && p.d.Dec? ==> BeforeFiring(q) && !Firing(q))
      && (p.Tail? && p.d.Callback? ==> !BeforeFiring(q))
  {
    hide KeptOf;
  }

  lemma WakeNeutral(c: Config, p: Pc)
    requires SleepsOn(c, p).Some?
    ensures !Firing(p) && !BeforeFiring(p) && !Returning(p)
    ensures !Firing(WakeUp(p)) && !BeforeFiring(WakeUp(p)) && !Returning(WakeUp(p))
  {}

  /** Every thread but the mover keeps its place around the callback. */
  lemma PlacesKept(c: Config, s: State, l: Label, q: nat)
    requires Enabled(c, s, l) && q < |s.threads| && (q != l.i || l.Spurious?)
    ensures |Apply(c, s, l).threads| == |s.threads|
    ensures var a := s.threads[q]; var b := Apply(c, s, l).threads[q];
      Firing(b) == Firing(a) && BeforeFiring(b) == BeforeFiring(a) && Returning(b) == Returning(a)
  {
    OthersAfter(c, s, l, q);
    if SleepsOn(c, s.threads[q]).Some? { WakeNeutral(c, s.threads[q]); }
  }

  lemma CountSteps(c: Config, s: State, i: nat, p: Pc)
    requires ShapeInv(c, s) && i < |s.threads| && p == s.threads[i] && Uncancelled(c)
    ensures CountAfter(s, p) == if p.Tail? && p.d.Dec? then s.count - 1 else s.count
    ensures LogAfter(s, i, p).fired == if p.Tail? && p.d.Callback? then s.log.fired + 1 else s.log.fired
  {
    if p.Client? && p.call.Adding? { CallInProgram(c, s, i, Add(p.call.t)); }
    if p.Client? && p.call.Clearing? { CallInProgram(c, s, i, Clear); }
  }

  lemma CallbackStep(c: Config, s: State, l: Label)
    requires Uncancelled(c) && ShapeInv(c, s) && LockInv(c, s) && AccountsInv(s) && CallbackInv(s) && Enabled(c, s, l)
    ensures CallbackInv(Apply(c, s, l))
  {
    assert l.i < |s.threads|;
    var s' := Apply(c, s, l);
    var p := s.threads[l.i];
    assert l.Spurious? ==> s'.count == s.count && s'.log == s.log;
    if l.Go? { CallbackGo(c, s, l.i, l.pick); } else {
      hide Apply, Enabled;
      forall q | 0 <= q < |s.threads|
        ensures |s'.threads| == |s.threads| && Firing(s'.threads[q]) == Firing(s.threads[q])
        ensures BeforeFiring(s'.threads[q]) == BeforeFiring(s.threads[q])
        ensures Returning(s'.threads[q]) == Returning(s.threads[q])
      {
        PlacesKept(c, s, l, q);
      }
      PlacesKept(c, s, l, l.i);
    }
  }

  /** The wait mutex keeps the other threads away from the callback and from
      returning while the mover is in its own section. */
  lemma OtherPlace(c: Config, s: State, i: nat, pick: nat, q: nat)
    requires LockInv(c, s) && Enabled(c, s, Go(i, pick)) && q < |s.threads| && q != i
    ensures var s' := Apply(c, s, Go(i, pick)); var a := s.threads[q];
      && |s'.threads| == |s.threads|
      && Firing(s'.threads[q]) == Firing(a) && BeforeFiring(s'.threads[q]) == BeforeFiring(a)
      && Returning(s'.threads[q]) == Returning(a)
      && (Holds(c, s.threads[i], WaitMtx) ==> !BeforeFiring(a) && !Returning(a))
  {
    assert i < |s.threads|;
    hide Apply, Enabled;
    PlacesKept(c, s, Go(i, pick), q);
    if Holds(c, s.threads[i], WaitMtx) && (BeforeFiring(s.threads[q]) || Returning(s.threads[q])) {
      assert Holds(c, s.threads[q], WaitMtx);
      OneHolder(c, s, i, q, WaitMtx);
    }
  }

  lemma CallbackGo(c: Config, s: State, i: nat, pick: nat)
    requires Uncancelled(c) && ShapeInv(c, s) && LockInv(c, s) && AccountsInv(s) && CallbackInv(s)
    requires Enabled(c, s, Go(i, pick))
    ensures CallbackInv(Apply(c, s, Go(i, pick)))
  {
    assert i < |s.threads|;
    var l := Go(i, pick);
    var s' := Apply(c, s, l);
    var p := s.threads[i];
    assert SleepsOn(c, p).None? && c.callback;
    assert p.Tail? && p.d.Dec? ==> BadgeOf(p).Carry?;
    assert (p.Tail? && !p.d.WantWait?) || (p.Client? && p.call.Waiting? && p.call.w.Test?) ==> Holds(c, p, WaitMtx);
    hide Apply, Enabled, Next, CountAfter, LogAfter, BadgeOf, AccountsInv, ShapeInv, Uncancelled, LockInv, Holds,
      SleepsOn;
    ApplyParts(c, s, i, pick);
    TailNext(c, s, p);
    CountSteps(c, s, i, p);
    CountNeverNegative(c, s);
    if BadgeOf(p).Carry? { NothingCarried(c, s, i); }
    OthersAfter(c, s, l, i);
    forall q | 0 <= q < |s.threads| && q != i
      ensures Firing(s'.threads[q]) == Firing(s.threads[q])
      ensures BeforeFiring(s'.threads[q]) == BeforeFiring(s.threads[q])
      ensures Returning(s'.threads[q]) == Returning(s.threads[q])
      ensures Holds(c, p, WaitMtx) ==> !BeforeFiring(s.threads[q]) && !Returning(s.threads[q])
    {
      OtherPlace(c, s, i, pick, q);
    }
    assert BeforeFiring(s'.threads[i]) ==> exists q :: 0 <= q < |s'.threads| && BeforeFiring(s'.threads[q]);
    if s'.count == 0 && exists q :: 0 <= q < |s.threads| && q != i && BeforeFiring(s.threads[q]) {
      var q :| 0 <= q < |s.threads| && q != i && BeforeFiring(s.threads[q]);
      assert BeforeFiring(s'.threads[q]);
    }
  }

  lemma CallbackStart(c: Config)
    requires Uncancelled(c)
    ensures CallbackInv(Start(c))
  {}

  // ------------------------------------------------------------------ any pool

  /** 1 for a worker about to call the callback. */
  function Calling(p: Pc): int { if p.Tail? && p.d.Callback? then 1 else 0 }

  function CallingOf(ts: seq<Pc>): seq<int> { seq(|ts|, j requires 0 <= j < |ts| => Calling(ts[j])) }

  /** Each time a worker has found the counter at 0 the callback has fired or is about
      to, if there is one; without one it never fires. */
  ghost predicate FiringInv(c: Config, s: State) {
    if c.callback then s.log.fired + Sums.Sum(CallingOf(s.threads)) == s.log.idled
    else s.log.fired == 0 && forall j :: 0 <= j < |s.threads| ==> Calling(s.threads[j]) == 0
  }

  lemma CallingNext(c: Config, s: State, i: nat, p: Pc)
    requires SleepsOn(c, p).None?
    ensures var g := LogAfter(s, i, p); var q := Next(c, s, p);
      && g.fired == s.log.fired + Calling(p)
      && (if c.callback then Calling(q) - Calling(p) == g.idled - s.log.idled - (g.fired - s.log.fired)
          else Calling(q) == 0)
  {
    hide KeptOf;
  }

  lemma CallingWake(c: Config, p: Pc)
    requires SleepsOn(c, p).Some?
    ensures Calling(p) == 0 && Calling(WakeUp(p)) == 0
  {}

  lemma CallingAfter(c: Config, s: State, l: Label)
    requires Enabled(c, s, l)
    ensures l.i < |s.threads| && CallingOf(Apply(c, s, l).threads) ==
      if l.Go? then CallingOf(s.threads)[l.i := Calling(Next(c, s, s.threads[l.i]))] else CallingOf(s.threads)
  {
    SharedAfter(c, s, l);
    hide Apply, Enabled, Next, Calling, QueueAfter, CountAfter, StopAfter, StoreAfter, LogAfter;
    forall j | 0 <= j < |s.threads|
      ensures Calling(Apply(c, s, l).threads[j]) ==
        if l.Go? && j == l.i then Calling(Next(c, s, s.threads[j])) else Calling(s.threads[j])
    {
      OthersAfter(c, s, l, j);
      if SleepsOn(c, s.threads[j]).Some? { CallingWake(c, s.threads[j]); }
    }
  }

  lemma FiringStep(c: Config, s: State, l: Label)
    requires FiringInv(c, s) && Enabled(c, s, l)
    ensures FiringInv(c, Apply(c, s, l))
  {
    hide Apply, Enabled, Next, Calling, QueueAfter, CountAfter, StopAfter, StoreAfter, LogAfter;
    SharedAfter(c, s, l);
    CallingAfter(c, s, l);
    if l.Go? {
      CallingNext(c, s, l.i, s.threads[l.i]);
      Sums.Update(CallingOf(s.threads), l.i, Calling(Next(c, s, s.threads[l.i])));
    }
    forall j | 0 <= j < |s.threads|
      ensures Calling(Apply(c, s, l).threads[j]) == CallingOf(Apply(c, s, l).threads)[j]
    {}
  }

  lemma FiringStart(c: Config)
    ensures FiringInv(c, Start(c))
  {
    Sums.Zero(CallingOf(Start(c).threads));
  }

  lemma {:induction false} FiringSteps(c: Config, s: State, ls: seq<Label>, s': State)
    requires FiringInv(c, s) && Steps(c, s, ls, s')
    ensures FiringInv(c, s')
    decreases |ls|
  {
    if ls != [] {
      assert Enabled(c, s, ls[0]) && Steps(c, Apply(c, s, ls[0]), ls[1..], s');
      hide Apply, Enabled, Steps, FiringInv;
      FiringStep(c, s, ls[0]);
      FiringSteps(c, Apply(c, s, ls[0]), ls[1..], s');
    }
  }
}
