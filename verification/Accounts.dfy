/** Every step of the machine is an event of the accounts, so the accounts hold
    in every reachable state. */
module Accounts {
  import opened Graphs
  import opened Machine
  import opened Locks
  import L = Ledgers

  function BadgeOf(p: Pc): L.Badge {
    match p
    case Fetch(x, t, _, _) => L.Carry(x, t)
    case Work(x, t, _) => L.Carry(x, t)
    case Publish(x, t, _) => L.Carry(x, t)
    case Tail(x, t, d) => if d.WantWait? || d.Dec? then L.Carry(x, t) else L.Free
    case Client(_, Adding(_, AddCount)) => L.Counting
    case Client(_, Clearing(ClDrop(n))) => L.Dropping(n)
    case _ => L.Free
  }

  function Badges(ts: seq<Pc>): seq<L.Badge> { seq(|ts|, j requires 0 <= j < |ts| => BadgeOf(ts[j])) }

  function LedgerOf(s: State): L.Ledger {
    L.Ledger(Badges(s.threads), s.queue, s.count, s.log.submitted, s.log.counted,
             s.log.popped, s.log.owner, s.log.finished, s.log.cleared)
  }

  function EventOf(p: Pc): L.Event {
    match p
    case WantTasks => L.Pop
    case Client(_, Adding(t, AddEmplace)) => L.Emplace(t)
    case Client(_, Adding(_, AddCount)) => L.Count
    case Client(_, Clearing(ClSub)) => L.Subtract
    case Client(_, Clearing(ClDrop(_))) => L.Empty
    case Tail(x, _, Dec) => L.Finish(x)
    case _ => L.Quiet
  }

  lemma BadgesAfter(c: Config, s: State, l: Label)
    requires Enabled(c, s, l)
    ensures Badges(Apply(c, s, l).threads) ==
      if l.Go? then Badges(s.threads)[l.i := BadgeOf(Next(c, s, s.threads[l.i]))] else Badges(s.threads)
  {
    assert l.i < |s.threads|;
    hide Apply, Enabled, Next;
    forall j | 0 <= j < |s.threads|
      ensures |Apply(c, s, l).threads| == |s.threads|
      ensures j == l.i && l.Go? ==> BadgeOf(Apply(c, s, l).threads[j]) == BadgeOf(Next(c, s, s.threads[j]))
      ensures j != l.i || l.Spurious? ==> BadgeOf(Apply(c, s, l).threads[j]) == BadgeOf(s.threads[j])
    {
      OthersAfter(c, s, l, j);
    }
    OthersAfter(c, s, l, l.i);
  }

  /** Only the events change the badge of a thread. */
  lemma QuietBadge(c: Config, s: State, p: Pc)
    requires EventOf(p).Quiet?
    ensures BadgeOf(Next(c, s, p)) == BadgeOf(p)
  {}

  lemma EventBadge(c: Config, s: State, p: Pc)
    requires !EventOf(p).Quiet?
    ensures BadgeOf(p) == match EventOf(p)
      case Count => L.Counting
      case Empty => L.Dropping(p.call.e.n)
      case Finish(x) => L.Carry(x, p.t)
      case _ => L.Free
    ensures BadgeOf(Next(c, s, p)) == match EventOf(p)
      case Pop => (if s.queue == [] then L.Free else L.Carry(Head(s), s.queue[0]))
      case Emplace(_) => L.Counting
      case Subtract => L.Dropping(|s.queue|)
      case _ => L.Free
  {}

  /** Whoever is between the halves of an add or of a clear holds the task mutex. */
  lemma ExclusiveHolds(c: Config, p: Pc)
    requires L.Exclusive(BadgeOf(p))
    ensures Holds(c, p, TasksMtx)
  {}

  lemma QueueEvent(s: State, i: nat, p: Pc)
    requires i < |s.threads| && |s.queue| <= |s.log.submitted|
    ensures var m := L.After(LedgerOf(s), i, EventOf(p), L.Free);
      QueueAfter(s, p) == m.queue && CountAfter(s, p) == m.count
  {}

  lemma TakenEvent(s: State, i: nat, p: Pc)
    requires i < |s.threads| && |s.queue| <= |s.log.submitted|
    ensures var m := L.After(LedgerOf(s), i, EventOf(p), L.Free); var g := LogAfter(s, i, p);
      g.popped == m.popped && g.owner == m.owner && g.finished == m.finished
  {
    hide Tickets, FrontTicket;
  }

  lemma GivenEvent(s: State, i: nat, p: Pc)
    requires i < |s.threads| && |s.queue| <= |s.log.submitted|
    ensures var m := L.After(LedgerOf(s), i, EventOf(p), L.Free); var g := LogAfter(s, i, p);
      g.submitted == m.submitted && g.counted == m.counted && g.cleared == m.cleared
  {
    hide Tickets, FrontTicket;
  }

  lemma Aloneness(c: Config, s: State, h: nat)
    requires LockInv(c, s)
    requires TasksMtx in s.locks ==> s.locks[TasksMtx] == h
    ensures L.Alone(Badges(s.threads), h)
    ensures TasksMtx !in s.locks ==> forall j :: 0 <= j < |s.threads| ==> !L.Exclusive(Badges(s.threads)[j])
  {
    hide Holds, SiteOf;
    forall j | 0 <= j < |s.threads| && L.Exclusive(BadgeOf(s.threads[j]))
      ensures TasksMtx in s.locks && s.locks[TasksMtx] == j
    {
      ExclusiveHolds(c, s.threads[j]);
    }
  }

  lemma EventAction(c: Config, p: Pc)
    requires EventOf(p).Emplace? || EventOf(p).Count? || EventOf(p).Subtract? || EventOf(p).Empty?
    ensures Holds(c, p, TasksMtx)
  {}

  /** The step is the event, and the event fits the accounts. */
  lemma StepIsEvent(c: Config, s: State, i: nat, pick: nat)
    requires LockInv(c, s) && Enabled(c, s, Go(i, pick)) && |s.queue| <= |s.log.submitted|
    ensures var p := s.threads[i]; var v := BadgeOf(Next(c, s, p));
      && L.Fits(LedgerOf(s), i, EventOf(p), v)
      && LedgerOf(Apply(c, s, Go(i, pick))) == L.After(LedgerOf(s), i, EventOf(p), v)
  {
    var p := s.threads[i];
    assert p.WantTasks? ==> TasksMtx !in s.locks;
    assert EventOf(p).Pop? ==> p.WantTasks?;
    hide Enabled, Next, Holds, BadgeOf;
    ApplyParts(c, s, i, pick);
    hide Apply;
    BadgesAfter(c, s, Go(i, pick));
    QueueEvent(s, i, p);
    TakenEvent(s, i, p);
    GivenEvent(s, i, p);
    hide EventOf, QueueAfter, CountAfter, LogAfter;
    if EventOf(p).Quiet? {
      QuietBadge(c, s, p);
    } else {
      EventBadge(c, s, p);
      if EventOf(p).Pop? {
        Aloneness(c, s, i);
      } else if !EventOf(p).Finish? {
        EventAction(c, p);
        assert s.locks[TasksMtx] == i;
        Aloneness(c, s, i);
      }
    }
  }

  ghost predicate AccountsInv(s: State) { L.LedgerInv(LedgerOf(s)) }

  lemma AccountsStep(c: Config, s: State, l: Label)
    requires LockInv(c, s) && AccountsInv(s) && Enabled(c, s, l)
    ensures AccountsInv(Apply(c, s, l))
  {
    assert l.i < |s.threads|;
    hide Apply, Enabled, Next;
    match l {
      case Go(i, pick) =>
        StepIsEvent(c, s, i, pick);
        L.EventInv(LedgerOf(s), i, EventOf(s.threads[i]), BadgeOf(Next(c, s, s.threads[i])));
      case Spurious(i) =>
        BadgesAfter(c, s, l);
        SpuriousShared(c, s, i);
    }
  }

  lemma SpuriousShared(c: Config, s: State, i: nat)
    requires i < |s.threads|
    ensures Apply(c, s, Spurious(i)).(threads := s.threads) == s
  {}

  lemma AccountsStart(c: Config)
    ensures AccountsInv(Start(c))
  {
    var s := Start(c);
    forall j | 0 <= j < |s.threads| ensures Badges(s.threads)[j] == L.Free {
      if j >= c.k { assert s.threads[j] == Client(c.progs[j - c.k], Ready); }
    }
    hide L.LedgerInv;
    L.FreshLedger(Badges(s.threads), c.order);
  }
}
