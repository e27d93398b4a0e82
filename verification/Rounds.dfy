/** The lock-step schedule: in each round every free worker takes the head of the
    queue, and then every held task whose inputs were published before the round
    finishes.  It needs at most the sum over the levels of the size of the level
    divided by the number of workers, rounded up. */
module Rounds {
  import opened Graphs

  /** next: how many tasks of the order have been popped; held: those of them that
      a worker still carries; done: those that have finished. */
  datatype Board = Board(next: nat, held: set<nat>, done: set<nat>)

  ghost predicate Possible(order: seq<Tid>, k: nat, b: Board) {
    && b.next <= |order| && |b.held| <= k
    && b.held !! b.done && b.held + b.done == Tickets(0, b.next)
  }

  /** All dependencies of the x-th task have finished. */
  ghost predicate InputsDone(g: Graph, order: seq<Tid>, done: set<nat>, x: nat)
    requires x < |order|
  {
    forall u :: DependsOn(g, order[x], u) ==> exists y :: y in done && y < |order| && order[y] == u
  }

  function Popped(order: seq<Tid>, k: nat, b: Board): nat
    requires |b.held| <= k
  {
    if b.next + (k - |b.held|) <= |order| then b.next + (k - |b.held|) else |order|
  }

  /** The tasks held in this round whose inputs were published before it. */
  ghost function Finishing(g: Graph, order: seq<Tid>, k: nat, b: Board): set<nat>
    requires Possible(order, k, b)
  {
    set x | x in b.held + Tickets(b.next, Popped(order, k, b)) && x < |order| && InputsDone(g, order, b.done, x)
  }

  ghost function Round(g: Graph, order: seq<Tid>, k: nat, b: Board): Board
    requires Possible(order, k, b)
  {
    var next := Popped(order, k, b);
    var finishing := Finishing(g, order, k, b);
    Board(next, (b.held + Tickets(b.next, next)) - finishing, b.done + finishing)
  }

  lemma {:induction false} TicketsSize(lo: nat, hi: nat)
    requires lo <= hi
    ensures |Tickets(lo, hi)| == hi - lo
    decreases hi - lo
  {
    if lo < hi { TicketsSize(lo + 1, hi); }
  }

  lemma Newcomers(order: seq<Tid>, k: nat, b: Board)
    requires Possible(order, k, b)
    ensures var next := Popped(order, k, b); var held := b.held + Tickets(b.next, next);
      b.next <= next <= |order| && held !! b.done && held + b.done == Tickets(0, next)
      && |held| <= k && (|held| == k || next == |order|)
  {
    hide Tickets;
    var next := Popped(order, k, b);
    TicketsSize(b.next, next);
    assert forall x :: x in b.held || x in b.done <==> x in Tickets(0, b.next);
    assert b.held !! Tickets(b.next, next);
  }

  lemma FinishingMoves(held: set<nat>, finishing: set<nat>, done: set<nat>)
    requires held !! done && finishing <= held
    ensures held - finishing !! done + finishing && (held - finishing) + (done + finishing) == held + done
    ensures |held - finishing| <= |held|
  {
    SubsetSize(held - finishing, held);
  }

  lemma RoundPossible(g: Graph, order: seq<Tid>, k: nat, b: Board)
    requires Possible(order, k, b)
    ensures Possible(order, k, Round(g, order, k, b)) && b.done <= Round(g, order, k, b).done
  {
    hide InputsDone, Popped, Tickets;
    Newcomers(order, k, b);
    var held := b.held + Tickets(b.next, Popped(order, k, b));
    FinishingMoves(held, Finishing(g, order, k, b), b.done);
  }

  ghost function After(g: Graph, order: seq<Tid>, k: nat, rounds: nat): (b: Board)
    ensures Possible(order, k, b)
  {
    if rounds == 0 then Board(0, {}, {})
    else
      RoundPossible(g, order, k, After(g, order, k, rounds - 1));
      Round(g, order, k, After(g, order, k, rounds - 1))
  }

  // -------------------------------------------------------------- potential

  /** The queue goes through the levels 0, 1, ... in order, below levels, and every
      dependency of a task is a queued task of a lower level. */
  ghost predicate Levelled(g: Graph, order: seq<Tid>, level: seq<nat>, levels: nat) {
    && |level| == |order|
    && (forall x :: 0 <= x < |level| ==> level[x] < levels)
    && (forall x, y :: 0 <= x <= y < |level| ==> level[x] <= level[y])
    && (forall x, u :: 0 <= x < |order| && DependsOn(g, order[x], u) ==>
          exists y :: 0 <= y < |order| && order[y] == u && level[y] < level[x])
  }

  function Left(level: seq<nat>, done: set<nat>, l: nat): set<nat> {
    set x | 0 <= x < |level| && level[x] == l && x !in done
  }

  /** a divided by k, rounded up. */
  function CeilDiv(a: nat, k: nat): nat
    requires k >= 1
  {
    if a == 0 then 0 else if a <= k then 1 else 1 + CeilDiv(a - k, k)
  }

  /** The sum over the levels of what is left, divided by the workers, rounded up. */
  function Bound(level: seq<nat>, done: set<nat>, k: nat, levels: nat): nat
    requires k >= 1
  {
    if levels == 0 then 0
    else Bound(level, done, k, levels - 1) + CeilDiv(|Left(level, done, levels - 1)|, k)
  }

  lemma {:induction false} CeilDivMonotone(a: nat, b: nat, k: nat)
    requires k >= 1 && a <= b
    ensures CeilDiv(a, k) <= CeilDiv(b, k)
  {
    if a > k { CeilDivMonotone(a - k, b - k, k); }
  }

  /** Emptying a level, or taking k of it, saves a round. */
  lemma CeilDivDrops(a: nat, b: nat, k: nat)
    requires k >= 1 && b > 0 && (a == 0 || a + k == b)
    ensures CeilDiv(a, k) + 1 <= CeilDiv(b, k)
  {}

  /** Rounding up: CeilDiv(a, k) is the least number of k that covers a. */
  lemma {:induction false} CeilDivSize(a: nat, k: nat)
    requires k >= 1
    ensures a <= k * CeilDiv(a, k) <= a + k - 1
  {
    if a > k {
      CeilDivSize(a - k, k);
      Distribute(k, 1, CeilDiv(a - k, k), 0);
    }
  }

  lemma {:induction false} BoundDrops(level: seq<nat>, done: set<nat>, done': set<nat>, k: nat, levels: nat, l: nat)
    requires k >= 1 && done <= done'
    requires l < levels ==> CeilDiv(|Left(level, done', l)|, k) + 1 <= CeilDiv(|Left(level, done, l)|, k)
    ensures Bound(level, done', k, levels) + (if l < levels then 1 else 0) <= Bound(level, done, k, levels)
  {
    if levels > 0 {
      BoundDrops(level, done, done', k, levels - 1, l);
      SubsetSize(Left(level, done', levels - 1), Left(level, done, levels - 1));
      CeilDivMonotone(|Left(level, done', levels - 1)|, |Left(level, done, levels - 1)|, k);
    }
  }

  // ---------------------------------------------------------- one round

  /** A held task of the lowest unfinished level finishes in this round. */
  lemma LowestFinishes(g: Graph, order: seq<Tid>, level: seq<nat>, levels: nat, done: set<nat>, first: nat, x: nat)
    requires Levelled(g, order, level, levels) && first < |order| && x < |order| && level[x] == level[first]
    requires forall y :: 0 <= y < first ==> y in done
    ensures InputsDone(g, order, done, x)
  {
    hide DependsOn;
    forall u | DependsOn(g, order[x], u) ensures exists y :: y in done && y < |order| && order[y] == u {
      var y :| 0 <= y < |order| && order[y] == u && level[y] < level[x];
    }
  }

  lemma {:induction false} FirstUnfinished(done: set<nat>, n: nat) returns (first: nat)
    requires exists x :: 0 <= x < n && x !in done
    ensures first < n && first !in done && forall y :: 0 <= y < first ==> y in done
  {
    first := 0;
    while first in done
      invariant first <= n && forall y :: 0 <= y < first ==> y in done
      decreases n - first
    {
      first := first + 1;
    }
  }

  /** Each round in which something is left lowers the bound. */
  lemma RoundDrops(g: Graph, order: seq<Tid>, level: seq<nat>, levels: nat, k: nat, b: Board)
    requires Possible(order, k, b) && Levelled(g, order, level, levels) && k >= 1
    requires exists x :: 0 <= x < |order| && x !in b.done
    ensures Bound(level, Round(g, order, k, b).done, k, levels) + 1 <= Bound(level, b.done, k, levels)
  {
    var first := FirstUnfinished(b.done, |order|);
    RoundPossible(g, order, k, b);
    LevelShrinks(g, order, level, levels, k, b, first);
    BoundDrops(level, b.done, Round(g, order, k, b).done, k, levels, level[first]);
  }

  /** If the held tasks of the level of first finish, and either k are held or the
      queue is empty, the level is emptied or loses k tasks. */
  lemma HeldCovers(level: seq<nat>, done: set<nat>, done': set<nat>, held: set<nat>, next: nat, k: nat, first: nat)
    requires k >= 1 && next <= |level| && held !! done && held + done == Tickets(0, next)
    requires done <= done' <= done + held
    requires forall x, y :: 0 <= x <= y < |level| ==> level[x] <= level[y]
    requires first < |level| && first !in done && forall y :: 0 <= y < first ==> y in done
    requires forall x :: x in held && level[x] == level[first] ==> x in done'
    requires |held| == k || next == |level|
    ensures CeilDiv(|Left(level, done', level[first])|, k) + 1 <= CeilDiv(|Left(level, done, level[first])|, k)
  {
    hide CeilDiv;
    var before := Left(level, done, level[first]);
    var after := Left(level, done', level[first]);
    assert forall x :: x in held <==> x in Tickets(0, next) && x !in done;
    assert first in before;
    if z :| next <= z < |level| && level[z] == level[first] {
      forall x | x in held ensures x < next && level[x] == level[first] { assert x >= first; }
      assert after == before - held && held <= before;
    } else {
      assert after == {};
    }
    CeilDivDrops(|after|, |before|, k);
  }

  lemma LevelShrinks(g: Graph, order: seq<Tid>, level: seq<nat>, levels: nat, k: nat, b: Board, first: nat)
    requires Possible(order, k, b) && Levelled(g, order, level, levels) && k >= 1
    requires first < |order| && first !in b.done && forall y :: 0 <= y < first ==> y in b.done
    ensures CeilDiv(|Left(level, Round(g, order, k, b).done, level[first])|, k) + 1
      <= CeilDiv(|Left(level, b.done, level[first])|, k)
  {
    hide InputsDone, CeilDiv, DependsOn, Popped, Tickets, Left;
    Newcomers(order, k, b);
    var next := Popped(order, k, b);
    var held := b.held + Tickets(b.next, next);
    forall x | x in held && level[x] == level[first] ensures InputsDone(g, order, b.done, x) {
      LowestFinishes(g, order, level, levels, b.done, first, x);
    }
    var done := Round(g, order, k, b).done;
    assert forall x :: x in held && level[x] == level[first] ==> x in done;
    HeldCovers(level, b.done, done, held, next, k, first);
  }

  // --------------------------------------------------------------- the bound

  lemma {:induction false} NothingLeft(level: seq<nat>, done: set<nat>, k: nat, levels: nat, x: nat)
    requires k >= 1 && x < |level| && level[x] < levels && x !in done
    ensures Bound(level, done, k, levels) >= 1
  {
    if level[x] == levels - 1 {
      assert x in Left(level, done, levels - 1);
      CeilDivDrops(0, |Left(level, done, levels - 1)|, k);
    } else {
      NothingLeft(level, done, k, levels - 1, x);
    }
  }

  lemma {:induction false} BoundAfter(g: Graph, order: seq<Tid>, level: seq<nat>, levels: nat, k: nat, rounds: nat)
    requires Levelled(g, order, level, levels) && k >= 1
    ensures var done := After(g, order, k, rounds).done;
      (forall x :: 0 <= x < |order| ==> x in done)
      || Bound(level, done, k, levels) + rounds <= Bound(level, {}, k, levels)
  {
    hide Levelled, Possible, Round, Bound, InputsDone, Tickets, Popped;
    if rounds == 0 {
      assert After(g, order, k, 0).done == {};
    } else {
      assert After(g, order, k, rounds) == Round(g, order, k, After(g, order, k, rounds - 1));
      var b := After(g, order, k, rounds - 1);
      BoundAfter(g, order, level, levels, k, rounds - 1);
      RoundPossible(g, order, k, b);
      if exists x :: 0 <= x < |order| && x !in b.done { RoundDrops(g, order, level, levels, k, b); }
    }
  }

  /** After as many rounds as the bound says, every task has finished. */
  lemma AllDoneWithinBound(g: Graph, order: seq<Tid>, level: seq<nat>, levels: nat, k: nat)
    requires Levelled(g, order, level, levels) && k >= 1
    ensures forall x :: 0 <= x < |order| ==> x in After(g, order, k, Bound(level, {}, k, levels)).done
  {
    hide Possible, Round, After;
    var rounds := Bound(level, {}, k, levels);
    BoundAfter(g, order, level, levels, k, rounds);
    var done := After(g, order, k, rounds).done;
    assert (forall x :: 0 <= x < |order| ==> x in done) || Bound(level, done, k, levels) == 0;
    forall x | 0 <= x < |order| ensures x in done {
      if x !in done { NothingLeft(level, done, k, levels, x); }
    }
  }

  function UpTo(level: seq<nat>, levels: nat): set<nat> { set x | 0 <= x < |level| && level[x] < levels }

  /** The levels below levels that some task has. */
  function Inhabited(level: seq<nat>, levels: nat): set<nat> { set l | l in level && l < levels }

  lemma InhabitedGrows(level: seq<nat>, levels: nat)
    requires levels > 0
    ensures |Inhabited(level, levels)| ==
      |Inhabited(level, levels - 1)| + (if Left(level, {}, levels - 1) == {} then 0 else 1)
  {
    var here := Left(level, {}, levels - 1);
    if here == {} {
      forall l | l in Inhabited(level, levels) ensures l in Inhabited(level, levels - 1) {
        var x :| 0 <= x < |level| && level[x] == l;
        assert x !in here;
      }
      assert Inhabited(level, levels) == Inhabited(level, levels - 1);
    } else {
      var x :| x in here;
      assert Inhabited(level, levels) == Inhabited(level, levels - 1) + {levels - 1};
    }
  }

  lemma {:induction false} BoundSize(level: seq<nat>, k: nat, levels: nat)
    requires k >= 1
    ensures k * Bound(level, {}, k, levels) <= |UpTo(level, levels)| + |Inhabited(level, levels)| * (k - 1)
  {
    if levels > 0 {
      BoundSize(level, k, levels - 1);
      InhabitedGrows(level, levels);
      var here := Left(level, {}, levels - 1);
      assert UpTo(level, levels) == UpTo(level, levels - 1) + here;
      assert UpTo(level, levels - 1) !! here;
      CeilDivSize(|here|, k);
      Distribute(k, Bound(level, {}, k, levels - 1), CeilDiv(|here|, k), |Inhabited(level, levels)|);
    }
  }

  lemma Distribute(k: int, x: int, y: int, n: int)
    ensures k * (x + y) == k * x + k * y
    ensures n * (k - 1) == (n - 1) * (k - 1) + (k - 1)
  {}

  // ------------------------------------------------------ sorted by the depth

  ghost function LevelsOf(g: Graph, rank: Tid -> nat, order: seq<Tid>): (level: seq<nat>)
    requires Dag(g, rank) && forall x :: 0 <= x < |order| ==> order[x] in g
    ensures |level| == |order| && forall x :: 0 <= x < |order| ==> level[x] == Depth(g, rank, order[x])
  {
    seq(|order|, x requires 0 <= x < |order| => Depth(g, rank, order[x]))
  }

  /** A queue sorted by depth that holds every dependency finishes within R rounds,
      R the sum over the depths of the number of tasks of that depth divided by k,
      rounded up; k * R is at most the number of tasks plus k - 1 per depth that some
      task has. */
  lemma LockStepRounds(g: Graph, rank: Tid -> nat, order: seq<Tid>, levels: nat, k: nat)
    requires Dag(g, rank) && k >= 1
    requires forall x :: 0 <= x < |order| ==> order[x] in g && Depth(g, rank, order[x]) < levels
    requires forall x, y :: 0 <= x <= y < |order| ==> Depth(g, rank, order[x]) <= Depth(g, rank, order[y])
    requires forall x, u :: x in order && DependsOn(g, x, u) ==> u in order
    ensures var rounds := Bound(LevelsOf(g, rank, order), {}, k, levels);
      && (forall x :: 0 <= x < |order| ==> x in After(g, order, k, rounds).done)
      && k * rounds <= |order| + |Inhabited(LevelsOf(g, rank, order), levels)| * (k - 1)
  {
    hide DependsOn, Dag, Depth;
    var level := LevelsOf(g, rank, order);
    forall x, u: Tid | 0 <= x < |order| && DependsOn(g, order[x], u)
      ensures exists y :: 0 <= y < |order| && order[y] == u && level[y] < level[x]
    {
      assert order[x] in order;
      var y :| 0 <= y < |order| && order[y] == u;
      DepthDrops(g, rank, order[x], u);
    }
    AllDoneWithinBound(g, order, level, levels, k);
    BoundSize(level, k, levels);
    TicketsSize(0, |order|);
    SubsetSize(UpTo(level, levels), Tickets(0, |order|));
  }
}
