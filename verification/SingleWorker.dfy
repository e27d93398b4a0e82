/** With one worker the order of the queue decides: whatever it has run was
    preceded by all its dependencies. */
module SingleWorker {
  import opened Graphs
  import opened VoidFilter
  import opened Machine
  import opened Locks
  import opened Accounts
  import opened Programs
  import opened Latches
  import opened Stages
  import L = Ledgers

  /** The dependencies of the x-th task come before it in the order. */
  ghost predicate DepsBefore(c: Config, x: nat)
    requires x < |c.order|
  {
    forall u :: DependsOn(c.g, c.order[x], u) ==> exists y :: 0 <= y < x && c.order[y] == u
  }

  predicate PastWaits(p: Pc) { BadgeOf(p).Carry? && !p.Fetch? }

  ghost predicate SingleInv(c: Config, s: State) {
    && (forall x :: x in s.log.finished && x < |c.order| ==> DepsBefore(c, x))
    && (forall j :: 0 <= j < |s.threads| && BadgeOf(s.threads[j]).Carry? ==>
          BadgeOf(s.threads[j]).x + 1 == |s.log.popped| && BadgeOf(s.threads[j]).x < |c.order|)
    && (forall j :: 0 <= j < |s.threads| && PastWaits(s.threads[j]) ==>
          BadgeOf(s.threads[j]).x < |c.order| && DepsBefore(c, BadgeOf(s.threads[j]).x))
  }

  /** Only one thread can carry a ticket when there is one worker. */
  lemma NoSecondCarrier(c: Config, s: State, i: nat, j: nat)
    requires c.k == 1 && ShapeInv(c, s) && i < |s.threads| && j < |s.threads| && i != j
    requires BadgeOf(s.threads[i]).Carry? || s.threads[i].WantTasks?
    ensures !BadgeOf(s.threads[j]).Carry?
  {
    assert ThreadShape(c, i, s.threads[i]) && ThreadShape(c, j, s.threads[j]);
  }

  /** When the only worker leaves its waits, the published tasks are earlier ones. */
  lemma LeavingWaits(c: Config, s: State, i: nat)
    requires c.k == 1 && ShapeInv(c, s) && AccountsInv(s) && PrefixInv(c, s) && TouchedInv(s) && Staged(s)
    requires SingleInv(c, s)
    requires i < |s.threads| && s.threads[i].Fetch? && s.threads[i].n >= |Slots(c.g, s.threads[i].t)|
    requires FlagsUpTo(c, s.store.flag, s.threads[i].t, s.threads[i].n)
    ensures s.threads[i].x < |c.order| && c.order[s.threads[i].x] == s.threads[i].t && DepsBefore(c, s.threads[i].x)
  {
    var p := s.threads[i];
    CarrierIsOwner(s, i);
    assert BadgeOf(p).x == p.x;
    assert Stage(s, p.x);
    assert c.order[p.x] !in s.store.flag;
    forall u: Tid | DependsOn(c.g, c.order[p.x], u) ensures exists y :: 0 <= y < p.x && c.order[y] == u {
      var m :| 0 <= m < |Slots(c.g, p.t)| && Src(c.g, p.t, m) == Some(u);
      assert u in s.store.flag && !Untouched(s.store, u);
      var y :| 0 <= y < |c.order| && c.order[y] == u;
      assert Stage(s, y);
      OwnedArePopped(s, y);
      assert y in s.log.owner;
      OwnerCarries(s, y);
      if s.log.owner[y] != i { NoSecondCarrier(c, s, i, s.log.owner[y]); }
    }
  }

  lemma BadgeMoves(c: Config, s: State, p: Pc)
    requires SleepsOn(c, p).None? && BadgeOf(Next(c, s, p)).Carry?
    ensures (p.WantTasks? && s.queue != [] && Next(c, s, p) == Fetch(Head(s), s.queue[0], 0, Want))
      || (BadgeOf(p) == BadgeOf(Next(c, s, p))
          && (PastWaits(Next(c, s, p)) ==> PastWaits(p) || (p.Fetch? && p.n >= |Slots(c.g, p.t)|)))
  {
    hide KeptOf;
    match p {
      case Work(x, t, k) =>
      case Publish(x, t, u) =>
      case Fetch(x, t, n, w) => FetchNext(c, s, x, t, n, w);
      case Client(rest, call) =>
      case _ =>
    }
  }

  lemma SingleOther(c: Config, s: State, l: Label, j: nat)
    requires c.k == 1 && ShapeInv(c, s) && AccountsInv(s) && PrefixInv(c, s) && SingleInv(c, s) && Enabled(c, s, l)
    requires j < |s.threads| && (j != l.i || l.Spurious?)
    ensures var s' := Apply(c, s, l);
      |s'.threads| == |s.threads| && BadgeOf(s'.threads[j]) == BadgeOf(s.threads[j])
      && (BadgeOf(s.threads[j]).Carry? ==>
            s'.log.popped == s.log.popped && PastWaits(s'.threads[j]) == PastWaits(s.threads[j]))
  {
    assert l.i < |s.threads|;
    var p := s.threads[l.i];
    assert l.Spurious? ==> Apply(c, s, l).log == s.log;
    assert l.Go? ==> SleepsOn(c, p).None?;
    assert |s.queue| <= |s.log.submitted|;
    hide Apply, Enabled, Next, LogAfter, AccountsInv, ShapeInv, SingleInv;
    OthersAfter(c, s, l, j);
    if l.Go? && BadgeOf(s.threads[j]).Carry? {
      ApplyParts(c, s, l.i, l.pick);
      LogMoves(c, s, l.i);
      if p.WantTasks? { NoSecondCarrier(c, s, l.i, j); }
    }
  }

  lemma LogMoves(c: Config, s: State, i: nat)
    requires PrefixInv(c, s) && |s.queue| <= |s.log.submitted| && i < |s.threads| && SleepsOn(c, s.threads[i]).None?
    ensures var p := s.threads[i]; var g := LogAfter(s, i, p);
      && (!p.WantTasks? ==> g.popped == s.log.popped)
      && (p.WantTasks? && s.queue != [] ==> |g.popped| == Head(s) + 1 <= |c.order|)
      && (forall x :: x in g.finished ==> x in s.log.finished || (p.Tail? && p.d.Dec? && x == p.x && PastWaits(p)))
  {}

  lemma SingleMover(c: Config, s: State, i: nat, pick: nat)
    requires c.k == 1 && ShapeInv(c, s) && AccountsInv(s) && PrefixInv(c, s) && TouchedInv(s) && Staged(s)
    requires DepInv(c, s) && SingleInv(c, s) && Enabled(c, s, Go(i, pick))
    ensures var s' := Apply(c, s, Go(i, pick)); var b := BadgeOf(Next(c, s, s.threads[i]));
      b.Carry? ==>
        b.x + 1 == |s'.log.popped| && b.x < |c.order| && (PastWaits(Next(c, s, s.threads[i])) ==> DepsBefore(c, b.x))
  {
    assert i < |s.threads|;
    var p := s.threads[i];
    assert SleepsOn(c, p).None?;
    assert DepThread(c, s.store.flag, p);
    assert |s.queue| <= |s.log.submitted|;
    hide Apply, Enabled, Next, LogAfter, Staged, TouchedInv, AccountsInv, ShapeInv, DepsBefore, DepInv;
    ApplyParts(c, s, i, pick);
    LogMoves(c, s, i);
    if p.Fetch? && p.n >= |Slots(c.g, p.t)| { LeavingWaits(c, s, i); }
    if BadgeOf(Next(c, s, p)).Carry? { BadgeMoves(c, s, p); }
  }

  lemma SingleStep(c: Config, s: State, l: Label)
    requires c.k == 1 && ShapeInv(c, s) && AccountsInv(s) && PrefixInv(c, s) && TouchedInv(s) && Staged(s)
    requires DepInv(c, s) && SingleInv(c, s) && Enabled(c, s, l)
    ensures SingleInv(c, Apply(c, s, l))
  {
    assert l.i < |s.threads|;
    var s' := Apply(c, s, l);
    var p := s.threads[l.i];
    assert l.Spurious? ==> s'.store == s.store && s'.log == s.log;
    assert l.Go? ==> l == Go(l.i, l.pick) && SleepsOn(c, p).None?;
    assert p.Tail? && p.d.Dec? ==> BadgeOf(p) == L.Carry(p.x, p.t);
    assert |s.queue| <= |s.log.submitted|;
    hide Apply, Enabled, Next, LogAfter, StoreAfter, Staged, TouchedInv, DepInv, AccountsInv, ShapeInv, DepsBefore,
      BadgeOf;
    if l.Go? {
      ApplyParts(c, s, l.i, l.pick);
      LogMoves(c, s, l.i);
      SingleMover(c, s, l.i, l.pick);
    }
    OthersAfter(c, s, l, l.i);
    forall j | 0 <= j < |s'.threads| && BadgeOf(s'.threads[j]).Carry?
      ensures BadgeOf(s'.threads[j]).x + 1 == |s'.log.popped| && BadgeOf(s'.threads[j]).x < |c.order|
      ensures PastWaits(s'.threads[j]) ==> DepsBefore(c, BadgeOf(s'.threads[j]).x)
    {
      if j != l.i || l.Spurious? { SingleOther(c, s, l, j); }
    }
  }

  lemma SingleStart(c: Config)
    ensures SingleInv(c, Start(c))
  {}
}
