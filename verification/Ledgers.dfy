/** The accounts of the pool: which submissions are queued, carried by a worker,
    finished or cleared, and what the counter says about them.  A thread enters
    the accounts only through its badge. */
module Ledgers {
  import opened Graphs
  import Sums

  /** What a thread owes the counter: a popped task it has not yet decremented,
      an emplaced task it has not yet counted, a queue of n tasks it has already
      subtracted but not yet emptied. */
  datatype Badge = Free | Carry(x: nat, t: Tid) | Counting | Dropping(n: nat)

  datatype Ledger = Ledger(
    b: seq<Badge>, queue: seq<Tid>, count: int, submitted: seq<Tid>, counted: nat,
    popped: seq<nat>, owner: map<nat, nat>, finished: set<nat>, cleared: set<nat>)

  datatype Event = Quiet | Pop | Emplace(t: Tid) | Count | Subtract | Empty | Finish(x: nat)

  function Owed(b: Badge): int {
    match b case Free => 0 case Carry(_, _) => 1 case Counting => -1 case Dropping(n) => 0 - n
  }

  function Debts(b: seq<Badge>): seq<int> { seq(|b|, j requires 0 <= j < |b| => Owed(b[j])) }

  function Sum(b: seq<Badge>): int { Sums.Sum(Debts(b)) }

  lemma SumUpdate(b: seq<Badge>, i: nat, v: Badge)
    requires i < |b|
    ensures Sum(b[i := v]) == Sum(b) - Owed(b[i]) + Owed(v)
  {
    Sums.Update(Debts(b), i, Owed(v));
    assert Debts(b[i := v]) == Debts(b)[i := Owed(v)];
  }

  predicate Exclusive(v: Badge) { v.Counting? || v.Dropping? }

  /** No thread other than i is between the two halves of an add or of a clear. */
  ghost predicate Alone(b: seq<Badge>, i: nat) {
    forall j :: 0 <= j < |b| && j != i ==> !Exclusive(b[j])
  }

  lemma SumOthers(b: seq<Badge>)
    requires forall j :: 0 <= j < |b| ==> !Exclusive(b[j])
    ensures Sum(b) >= 0
    ensures Sum(b) == 0 ==> forall j :: 0 <= j < |b| ==> b[j].Free?
  {
    Sums.NonNegative(Debts(b));
    assert forall j :: 0 <= j < |b| ==> Debts(b)[j] == Owed(b[j]);
  }

  function Head(l: Ledger): nat { FrontTicket(l.submitted, l.queue) }

  ghost predicate QueueIsSuffix(l: Ledger) {
    && |l.queue| <= |l.submitted|
    && l.queue == l.submitted[Head(l)..]
  }

  /** A popped ticket is carried by the worker that popped it, or finished. */
  ghost predicate Ownership(l: Ledger) {
    && (forall x :: x in l.owner ==> x < Head(l) && l.owner[x] < |l.b|)
    && (forall x :: x in l.owner && x !in l.finished ==>
          l.b[l.owner[x]].Carry? && l.b[l.owner[x]].x == x)
    && (forall j :: 0 <= j < |l.b| && l.b[j].Carry? ==>
          l.b[j].x in l.owner && l.owner[l.b[j].x] == j && l.b[j].x !in l.finished
          && l.b[j].x < |l.submitted| && l.submitted[l.b[j].x] == l.b[j].t)
    && l.finished <= l.owner.Keys
  }

  /** Every ticket taken off the queue was popped or cleared, and not both. */
  ghost predicate Partition(l: Ledger) {
    && (forall x :: 0 <= x < Head(l) ==> (x in l.owner <==> x !in l.cleared))
    && (forall x :: x in l.cleared ==> x < |l.submitted|)
    && (forall x :: x in l.cleared && x >= Head(l) ==> exists j :: 0 <= j < |l.b| && l.b[j].Dropping?)
    && (forall j :: 0 <= j < |l.b| && l.b[j].Dropping? ==>
          l.b[j].n == |l.queue| && forall x :: Head(l) <= x < |l.submitted| ==> x in l.cleared)
  }

  ghost predicate InOrder(l: Ledger) {
    && (forall a, b :: 0 <= a < b < |l.popped| ==> l.popped[a] < l.popped[b])
    && (forall x :: x in l.popped <==> x in l.owner)
  }

  ghost predicate Counts(l: Ledger) {
    && (forall j :: 0 <= j < |l.b| && l.b[j].Counting? ==> l.queue != [] && l.counted + 1 == |l.submitted|)
    && ((forall j :: 0 <= j < |l.b| ==> !l.b[j].Counting?) ==> l.counted == |l.submitted|)
    && l.count == |l.queue| + Sum(l.b)
  }

  ghost predicate LedgerInv(l: Ledger) {
    QueueIsSuffix(l) && Ownership(l) && Partition(l) && InOrder(l) && Counts(l)
  }

  /** The accounts after thread i does e and then has badge v. */
  function After(l: Ledger, i: nat, e: Event, v: Badge): Ledger
    requires i < |l.b| && |l.queue| <= |l.submitted|
  {
    var m := l.(b := l.b[i := v]);
    match e
    case Quiet => m
    case Pop => if l.queue == [] then m else
      m.(queue := l.queue[1..], popped := l.popped + [Head(l)], owner := l.owner[Head(l) := i])
    case Emplace(t) => m.(queue := l.queue + [t], submitted := l.submitted + [t])
    case Count => m.(count := l.count + 1, counted := l.counted + 1)
    case Subtract => m.(count := l.count - |l.queue|, cleared := l.cleared + Tickets(Head(l), |l.submitted|))
    case Empty => m.(queue := [])
    case Finish(x) => m.(count := l.count - 1, finished := l.finished + {x})
  }

  /** The badge a thread must have before an event and has after it, and what
      the task mutex guarantees about the other threads. */
  ghost predicate Fits(l: Ledger, i: nat, e: Event, v: Badge) {
    && i < |l.b|
    && match e
       case Quiet => v == l.b[i]
       case Pop => (l.b[i].Free? && forall j :: 0 <= j < |l.b| ==> !Exclusive(l.b[j]))
         && v == (if l.queue == [] then Free else Carry(Head(l), l.queue[0]))
       case Emplace(t) => l.b[i].Free? && v.Counting? && Alone(l.b, i)
       case Count => l.b[i].Counting? && v.Free? && Alone(l.b, i)
       case Subtract => l.b[i].Free? && v == Dropping(|l.queue|) && Alone(l.b, i)
       case Empty => l.b[i].Dropping? && v.Free? && Alone(l.b, i)
       case Finish(x) => l.b[i].Carry? && l.b[i].x == x && v.Free?
  }

  lemma PopOrder(l: Ledger, i: nat, v: Badge)
    requires LedgerInv(l) && Fits(l, i, Pop, v)
    ensures QueueIsSuffix(After(l, i, Pop, v)) && InOrder(After(l, i, Pop, v)) && Counts(After(l, i, Pop, v))
  {
    var m := After(l, i, Pop, v);
    SumUpdate(l.b, i, v);
    if l.queue != [] {
      assert Head(m) == Head(l) + 1;
      assert m.queue == m.submitted[Head(m)..];
      assert forall x :: x in m.popped <==> x in l.popped || x == Head(l);
      forall a | 0 <= a < |l.popped| ensures l.popped[a] < Head(l) { assert l.popped[a] in l.owner; }
    }
  }

  lemma PopOwners(l: Ledger, i: nat, v: Badge)
    requires LedgerInv(l) && Fits(l, i, Pop, v)
    ensures Ownership(After(l, i, Pop, v)) && Partition(After(l, i, Pop, v))
  {
    hide Counts, InOrder, Sum;
    var m := After(l, i, Pop, v);
    assert l.queue != [] ==> Head(m) == Head(l) + 1 && l.submitted[Head(l)] == l.queue[0];
  }

  lemma PopInv(l: Ledger, i: nat, v: Badge)
    requires LedgerInv(l) && Fits(l, i, Pop, v)
    ensures LedgerInv(After(l, i, Pop, v))
  {
    hide QueueIsSuffix, InOrder, Counts, Ownership, Partition, Fits, After;
    PopOrder(l, i, v);
    PopOwners(l, i, v);
  }

  lemma EmplaceInv(l: Ledger, i: nat, t: Tid, v: Badge)
    requires LedgerInv(l) && Fits(l, i, Emplace(t), v)
    ensures LedgerInv(After(l, i, Emplace(t), v))
  {
    var m := After(l, i, Emplace(t), v);
    SumUpdate(l.b, i, v);
    assert Head(m) == Head(l);
    assert m.b[i].Counting?;
  }

  lemma CountInv(l: Ledger, i: nat, v: Badge)
    requires LedgerInv(l) && Fits(l, i, Count, v)
    ensures LedgerInv(After(l, i, Count, v))
  {
    SumUpdate(l.b, i, v);
  }

  lemma SubtractInv(l: Ledger, i: nat, v: Badge)
    requires LedgerInv(l) && Fits(l, i, Subtract, v)
    ensures LedgerInv(After(l, i, Subtract, v))
  {
    SumUpdate(l.b, i, v);
    var m := After(l, i, Subtract, v);
    assert m.b[i].Dropping?;
    assert Head(m) == Head(l);
  }

  lemma EmptyInv(l: Ledger, i: nat, v: Badge)
    requires LedgerInv(l) && Fits(l, i, Empty, v)
    ensures LedgerInv(After(l, i, Empty, v))
  {
    SumUpdate(l.b, i, v);
    var m := After(l, i, Empty, v);
    assert Head(m) == |m.submitted|;
  }

  lemma FinishInv(l: Ledger, i: nat, x: nat, v: Badge)
    requires LedgerInv(l) && Fits(l, i, Finish(x), v)
    ensures LedgerInv(After(l, i, Finish(x), v))
  {
    SumUpdate(l.b, i, v);
    var m := After(l, i, Finish(x), v);
    assert l.owner[x] == i;
    assert forall j :: 0 <= j < |l.b| && l.b[j].Counting? ==> m.b[j] == l.b[j];
    forall y | y in m.cleared && y >= Head(m) ensures exists j :: 0 <= j < |m.b| && m.b[j].Dropping? {
      var j :| 0 <= j < |l.b| && l.b[j].Dropping?;
      assert m.b[j] == l.b[j];
    }
  }

  lemma EventInv(l: Ledger, i: nat, e: Event, v: Badge)
    requires LedgerInv(l) && Fits(l, i, e, v)
    ensures LedgerInv(After(l, i, e, v))
  {
    match e {
      case Quiet => assert l.b[i := v] == l.b;
      case Pop => PopInv(l, i, v);
      case Emplace(t) => EmplaceInv(l, i, t, v);
      case Count => CountInv(l, i, v);
      case Subtract => SubtractInv(l, i, v);
      case Empty => EmptyInv(l, i, v);
      case Finish(x) => FinishInv(l, i, x, v);
    }
  }

  /** Everything queued and counted, nothing under way. */
  lemma FreshLedger(b: seq<Badge>, order: seq<Tid>)
    requires forall j :: 0 <= j < |b| ==> b[j].Free?
    ensures LedgerInv(Ledger(b, order, |order|, order, |order|, [], map[], {}, {}))
  {
    Sums.Zero(Debts(b));
  }

  // --------------------------------------------------------- consequences

  /** The counter is never negative. */
  lemma CountNonNegative(l: Ledger, h: nat)
    requires LedgerInv(l) && Alone(l.b, h)
    ensures l.count >= 0
  {
    if h < |l.b| && Exclusive(l.b[h]) {
      SumUpdate(l.b, h, Free);
      SumOthers(l.b[h := Free]);
    } else {
      SumOthers(l.b);
    }
  }

  /** When the counter reads 0, every counted submission is finished or cleared. */
  lemma ZeroMeansSettled(l: Ledger, h: nat)
    requires LedgerInv(l) && Alone(l.b, h) && l.count == 0
    ensures forall x :: 0 <= x < l.counted ==> x in l.finished || x in l.cleared
    ensures forall j :: 0 <= j < |l.b| ==> !l.b[j].Carry?
  {
    var others := l.b;
    if h < |l.b| && Exclusive(l.b[h]) {
      SumUpdate(l.b, h, Free);
      others := l.b[h := Free];
    }
    SumOthers(others);
    assert forall j :: 0 <= j < |l.b| && j != h ==> others[j] == l.b[j];
    assert forall j :: 0 <= j < |l.b| ==> others[j].Free?;
    assert forall j :: 0 <= j < |l.b| && l.b[j].Carry? ==> others[j] == l.b[j];
  }
}
