/** The wait of the pool: what it guarantees when it returns, and that a waiter
    is not left asleep on an idle pool unless a clear made the pool idle. */
module PoolWait {
  import opened Graphs
  import opened VoidFilter
  import opened Machine
  import opened Locks
  import opened Accounts
  import opened Programs
  import L = Ledgers

  ghost predicate Settled(s: State, n: nat) {
    forall x :: 0 <= x < n ==> x in s.log.finished || x in s.log.cleared
  }

  /** A returning waiter has every submission counted before its call settled. */
  ghost predicate SettledThread(s: State, p: Pc) {
    p.Client? && p.call.Waiting? ==>
      p.call.seen <= s.log.counted && (p.call.w.Release? ==> Settled(s, p.call.seen))
  }

  ghost predicate SettledInv(s: State) {
    forall j :: 0 <= j < |s.threads| ==> SettledThread(s, s.threads[j])
  }

  lemma TaskMtxHolder(c: Config, s: State) returns (h: nat)
    requires LockInv(c, s)
    ensures L.Alone(Badges(s.threads), h)
    ensures TasksMtx in s.locks ==> h == s.locks[TasksMtx]
  {
    h := if TasksMtx in s.locks then s.locks[TasksMtx] else 0;
    Aloneness(c, s, h);
  }

  /** A counter of 0 means that every counted submission is finished or cleared. */
  lemma IdleSettled(c: Config, s: State)
    requires LockInv(c, s) && AccountsInv(s) && s.count == 0
    ensures Settled(s, s.log.counted)
  {
    var h := TaskMtxHolder(c, s);
    L.ZeroMeansSettled(LedgerOf(s), h);
  }

  lemma CountNeverNegative(c: Config, s: State)
    requires LockInv(c, s) && AccountsInv(s)
    ensures s.count >= 0
  {
    var h := TaskMtxHolder(c, s);
    L.CountNonNegative(LedgerOf(s), h);
  }

  /** A clear never subtracts more than there is. */
  lemma ClearFits(c: Config, s: State, i: nat)
    requires LockInv(c, s) && AccountsInv(s) && i < |s.threads| && EventOf(s.threads[i]).Subtract?
    ensures s.count >= |s.queue|
  {
    EventAction(c, s.threads[i]);
    assert s.locks[TasksMtx] == i;
    var h := TaskMtxHolder(c, s);
    EventBadge(c, s, s.threads[i]);
    assert forall j :: 0 <= j < |s.threads| ==> !L.Exclusive(Badges(s.threads)[j]);
    L.SumOthers(Badges(s.threads));
  }

  lemma LogGrows(s: State, i: nat, p: Pc)
    ensures var g := LogAfter(s, i, p);
      && s.log.counted <= g.counted && s.log.finished <= g.finished && s.log.cleared <= g.cleared
      && (s.log.zeroed ==> g.zeroed) && (s.log.wiped ==> g.wiped)
  {}

  lemma SettledStep(c: Config, s: State, l: Label)
    requires LockInv(c, s) && AccountsInv(s) && SettledInv(s) && Enabled(c, s, l)
    ensures SettledInv(Apply(c, s, l))
  {
    assert l.i < |s.threads|;
    var p := s.threads[l.i];
    assert l.Spurious? ==> Apply(c, s, l).log == s.log;
    if l.Go? {
      assert SleepsOn(c, p).None?;
      ApplyParts(c, s, l.i, l.pick);
      LogGrows(s, l.i, p);
      if s.count == 0 { IdleSettled(c, s); }
      assert SettledThread(s, p);
      WaitingNext(c, s, p);
    }
    var s' := Apply(c, s, l);
    hide Apply, Enabled, Next, LogAfter, LockInv, AccountsInv;
    OthersAfter(c, s, l, l.i);
    forall j | 0 <= j < |s'.threads| ensures SettledThread(s', s'.threads[j]) {
      OthersAfter(c, s, l, j);
      assert SettledThread(s, s.threads[j]);
    }
  }

  predicate WaitingFrom(s: State, from: Call, to: Call)
    requires to.Waiting?
  {
    if to.w.Want? then from.Ready? && to.seen == s.log.counted && to.late == s.log.wiped
    else
      && from.Waiting? && from.seen == to.seen && from.late == to.late
      && (to.w.Release? ==> from.w.Test? && s.count == 0)
      && (to.w.Parking? ==> from.w.Test? && s.count != 0)
      && (to.w.Sleeping? ==> from.w.Parking?)
  }

  /** How a thread comes to be at a point of a pool wait. */
  lemma WaitingNext(c: Config, s: State, p: Pc)
    requires SleepsOn(c, p).None?
    ensures var q := Next(c, s, p); q.Client? && q.call.Waiting? ==> p.Client? && WaitingFrom(s, p.call, q.call)
  {
    hide KeptOf;
  }

  // --------------------------------------------------------- not lost

  /** Between the decrement of the counter and the notification. */
  predicate InSection(p: Pc) { p.Tail? && (p.d.Load? || p.d.Callback? || p.d.NotifyAll?) }

  ghost predicate SomeInSection(s: State) { exists q :: 0 <= q < |s.threads| && InSection(s.threads[q]) }

  predicate WaitsOnPool(p: Pc) { p.Client? && p.call.Waiting? && (p.call.w.Parking? || p.call.w.Sleeping?) }

  /** Why a waiter that is parked still has a wake-up coming; the last case is a
      clear that took the counter to 0, which notifies nobody. */
  ghost predicate WaitThread(c: Config, s: State, p: Pc) {
    && (p.Client? && p.call.Waiting? && p.call.late ==> s.log.wiped)
    && (WaitsOnPool(p) ==>
          s.count > 0 || SomeInSection(s) || (s.log.zeroed && (p.call.late ==> !NoAdds(c))))
  }

  ghost predicate WaitInv(c: Config, s: State) {
    && (forall j :: 0 <= j < |s.threads| ==> WaitThread(c, s, s.threads[j]))
    && (NoAdds(c) && s.log.wiped ==> s.queue == [])
    && (Never(c, Clear) ==> !s.log.zeroed && s.log.cleared == {})
  }

  lemma SectionKept(c: Config, s: State, l: Label)
    requires Enabled(c, s, l) && SomeInSection(s)
    ensures SomeInSection(Apply(c, s, l))
      || (l.Go? && s.threads[l.i].Tail? && (s.threads[l.i].d.NotifyAll? || (s.threads[l.i].d.Load? && s.count != 0)))
  {
    var q :| 0 <= q < |s.threads| && InSection(s.threads[q]);
    OthersAfter(c, s, l, q);
    assert l.Go? && l.i == q ==> Apply(c, s, l).threads[q] == Next(c, s, s.threads[q]);
    assert SomeInSection(Apply(c, s, l)) || l.i == q by {
      if l.i != q { assert InSection(Apply(c, s, l).threads[q]); }
    }
    if l.i == q && l.Go? && !s.threads[q].d.NotifyAll? && !(s.threads[q].d.Load? && s.count != 0) {
      assert InSection(Apply(c, s, l).threads[q]);
    }
  }

  /** A counter that was positive stays so, or someone is in the section, or a
      clear took it to 0. */
  lemma CountKept(c: Config, s: State, i: nat, pick: nat)
    requires LockInv(c, s) && AccountsInv(s) && Enabled(c, s, Go(i, pick)) && s.count > 0
    ensures var s' := Apply(c, s, Go(i, pick));
      s'.count > 0 || SomeInSection(s') || (s'.log.zeroed && EventOf(s.threads[i]).Subtract? && s.queue != [])
  {
    var p := s.threads[i];
    var s' := Apply(c, s, Go(i, pick));
    ApplyParts(c, s, i, pick);
    if EventOf(p).Subtract? { ClearFits(c, s, i); }
    hide LockInv, AccountsInv;
    if p.Tail? && p.d.Dec? {
      OthersAfter(c, s, Go(i, pick), i);
      assert s'.threads[i] == Tail(p.x, p.t, Load);
      assert InSection(s'.threads[i]);
    }
  }

  lemma WaitOther(c: Config, s: State, l: Label, j: nat)
    requires LockInv(c, s) && AccountsInv(s) && WaitInv(c, s) && Enabled(c, s, l)
    requires j < |s.threads| && j != l.i && WaitsOnPool(Apply(c, s, l).threads[j])
    requires |Apply(c, s, l).threads| == |s.threads|
    ensures var s' := Apply(c, s, l); var q := s'.threads[j];
      s'.count > 0 || SomeInSection(s') || (s'.log.zeroed && (q.call.late ==> !NoAdds(c)))
  {
    assert l.i < |s.threads|;
    var s' := Apply(c, s, l);
    var p := s.threads[l.i];
    assert l.Spurious? ==> s'.count == s.count && s'.log == s.log;
    if l.Go? { ApplyParts(c, s, l.i, l.pick); LogGrows(s, l.i, p); }
    assert l.Go? && p.Tail? ==> (p.d.NotifyAll? || p.d.Load? ==> CountAfter(s, p) == s.count);
    assert l.Go? && p.Tail? && p.d.NotifyAll? ==> Wakes(p) == All(WaitCv);
    hide Apply, Enabled, Next, LogAfter, CountAfter;
    OthersAfter(c, s, l, j);
    assert s'.threads[j] == s.threads[j];
    assert WaitThread(c, s, s.threads[j]);
    if s.count > 0 {
      if l.Go? {
        CountKept(c, s, l.i, l.pick);
      }
    } else if SomeInSection(s) {
      SectionKept(c, s, l);
      if l.Go? && p.Tail? && p.d.Load? { CountNeverNegative(c, s); }
      if l.Go? && p.Tail? && p.d.NotifyAll? {
        assert Holds(c, p, WaitMtx);
        if s.threads[j].call.w.Parking? { OneHolder(c, s, l.i, j, WaitMtx); }
      }
    }
  }

  lemma WipedStep(c: Config, s: State, l: Label)
    requires ShapeInv(c, s) && WaitInv(c, s) && Enabled(c, s, l)
    ensures var s' := Apply(c, s, l);
      && (NoAdds(c) && s'.log.wiped ==> s'.queue == [])
      && (Never(c, Clear) ==> !s'.log.zeroed && s'.log.cleared == {})
  {
    assert l.i < |s.threads|;
    var p := s.threads[l.i];
    if l.Go? {
      ApplyParts(c, s, l.i, l.pick);
      hide Enabled, Apply, Next;
      if p.Client? && p.call.Adding? { CallInProgram(c, s, l.i, Add(p.call.t)); }
      if p.Client? && p.call.Clearing? { CallInProgram(c, s, l.i, Clear); }
    }
  }

  lemma WaitStep(c: Config, s: State, l: Label)
    requires ShapeInv(c, s) && LockInv(c, s) && AccountsInv(s) && WaitInv(c, s) && Enabled(c, s, l)
    ensures WaitInv(c, Apply(c, s, l))
  {
    assert l.i < |s.threads|;
    var s' := Apply(c, s, l);
    var p := s.threads[l.i];
    WipedStep(c, s, l);
    assert WaitThread(c, s, p);
    if l.Go? {
      assert SleepsOn(c, p).None?;
      ApplyParts(c, s, l.i, l.pick);
      LogGrows(s, l.i, p);
      WaitingNext(c, s, p);
      CountNeverNegative(c, s);
      assert p.Client? && p.call.Waiting? ==> CountAfter(s, p) == s.count;
    }
    assert l.Spurious? ==> s'.log == s.log;
    hide Apply, Enabled, Next, LogAfter, CountAfter, LockInv, AccountsInv, ShapeInv;
    OthersAfter(c, s, l, l.i);
    assert l.Spurious? ==> !WaitsOnPool(WakeUp(p));
    if WaitsOnPool(s'.threads[l.i]) && SomeInSection(s) { SectionKept(c, s, l); }
    assert WaitThread(c, s', s'.threads[l.i]);
    forall j | 0 <= j < |s'.threads| ensures WaitThread(c, s', s'.threads[j]) {
      if j != l.i {
        OthersAfter(c, s, l, j);
        assert WaitThread(c, s, s.threads[j]);
        if WaitsOnPool(s'.threads[j]) { WaitOther(c, s, l, j); }
      }
    }
  }

  lemma WaitStart(c: Config)
    ensures SettledInv(Start(c)) && WaitInv(c, Start(c))
  {}
}
