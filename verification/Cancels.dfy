/** What holds after a client has returned from a call: the queue has been emptied
    once by a clear, and its later waits know it; the task of an add is submitted. */
module Cancels {
  import opened Graphs
  import opened Machine
  import opened Locks
  import opened Programs
  import opened PoolWait

  /** The calls client j has returned from. */
  function Returned(c: Config, j: nat, p: Pc): seq<Op>
    requires ThreadShape(c, j, p) && p.Client?
  {
    var prog := c.progs[j - c.k];
    prog[..|prog| - |p.rest| - (if p.call.Ready? then 0 else 1)]
  }

  ghost predicate CancelThread(c: Config, s: State, j: nat, p: Pc) {
    ThreadShape(c, j, p) && p.Client? ==>
      && (p.call == Clearing(ClRel) ==> s.log.wiped)
      && (Clear in Returned(c, j, p) ==> s.log.wiped && (p.call.Waiting? ==> p.call.late))
  }

  ghost predicate CancelInv(c: Config, s: State) {
    forall j :: 0 <= j < |s.threads| ==> CancelThread(c, s, j, s.threads[j])
  }

  lemma CancelNext(c: Config, s: State, j: nat, rest: seq<Op>, call: Call)
    requires ThreadShape(c, j, Client(rest, call)) && CancelThread(c, s, j, Client(rest, call)) && j >= c.k
    requires SleepsOn(c, Client(rest, call)).None?
    ensures CancelThread(c, s.(log := LogAfter(s, j, Client(rest, call))), j, Next(c, s, Client(rest, call)))
  {
    var p := Client(rest, call);
    ShapeNext(c, s, j, p);
    var prog := c.progs[j - c.k];
    var q := Next(c, s, p);
    var n := |prog| - |rest|;
    if call.Ready? {
      if rest != [] { assert Returned(c, j, q) == Returned(c, j, p); }
    } else if q.call.Ready? {
      assert prog[..n] == prog[..n - 1] + [prog[n - 1]];
    }
  }

  lemma CancelStep(c: Config, s: State, l: Label)
    requires ShapeInv(c, s) && CancelInv(c, s) && Enabled(c, s, l)
    ensures CancelInv(c, Apply(c, s, l))
  {
    assert l.i < |s.threads|;
    var s' := Apply(c, s, l);
    var p := s.threads[l.i];
    assert l.Spurious? ==> s'.log == s.log;
    assert l.Go? ==> SleepsOn(c, p).None?;
    hide Apply, Enabled, Next, LogAfter, SleepsOn;
    if l.Go? {
      ApplyParts(c, s, l.i, l.pick);
      LogGrows(s, l.i, p);
      assert ThreadShape(c, l.i, p) && CancelThread(c, s, l.i, p);
      ShapeNext(c, s, l.i, p);
      if p.Client? { CancelNext(c, s, l.i, p.rest, p.call); }
    }
    OthersAfter(c, s, l, l.i);
    forall j | 0 <= j < |s'.threads| ensures CancelThread(c, s', j, s'.threads[j]) {
      OthersAfter(c, s, l, j);
      assert ThreadShape(c, j, s.threads[j]) && CancelThread(c, s, j, s.threads[j]);
    }
  }

  lemma CancelStart(c: Config)
    ensures CancelInv(c, Start(c))
  {
    var s := Start(c);
    forall j | 0 <= j < |s.threads| ensures CancelThread(c, s, j, s.threads[j]) {
      if j >= c.k { assert s.threads[j] == Client(c.progs[j - c.k], Ready); }
    }
  }

  // --------------------------------------------------------------- submissions

  ghost predicate AddThread(c: Config, s: State, j: nat, p: Pc) {
    ThreadShape(c, j, p) && p.Client? ==>
      && (p.call.Adding? && !p.call.a.AddWantW? && !p.call.a.AddWantT? && !p.call.a.AddEmplace? ==>
            p.call.t in s.log.submitted)
      && (forall t :: Add(t) in Returned(c, j, p) ==> t in s.log.submitted)
  }

  ghost predicate AddInv(c: Config, s: State) {
    && (forall x :: 0 <= x < |c.order| ==> c.order[x] in s.log.submitted)
    && (forall j :: 0 <= j < |s.threads| ==> AddThread(c, s, j, s.threads[j]))
  }

  lemma SubmittedKept(s: State, i: nat, p: Pc)
    ensures s.log.submitted <= LogAfter(s, i, p).submitted
    ensures p.Client? && p.call.Adding? && p.call.a.AddEmplace? ==> p.call.t in LogAfter(s, i, p).submitted
  {}

  /** What the caller has returned from after one more step. */
  lemma ReturnedNext(c: Config, s: State, j: nat, rest: seq<Op>, call: Call)
    requires ThreadShape(c, j, Client(rest, call)) && j >= c.k
    ensures var q := Next(c, s, Client(rest, call));
      && ThreadShape(c, j, q) && q.Client?
      && forall op :: op in Returned(c, j, q) ==>
        (op in Returned(c, j, Client(rest, call))
         || (IsCallOf(call, op) && (call.Adding? ==> call.a.AddNotify?)
             && (call.Waiting? || call.TaskWaiting? ==> call.w.Release?)
             && (call.Destroying? ==> call.d.DtJoin? && call.d.i >= c.k)))
  {
    var p := Client(rest, call);
    ShapeNext(c, s, j, p);
    var prog := c.progs[j - c.k];
    var q := Next(c, s, p);
    var n := |prog| - |rest|;
    if call.Ready? {
      if rest != [] { assert Returned(c, j, q) == Returned(c, j, p); }
    } else if q.call.Ready? {
      assert prog[..n] == prog[..n - 1] + [prog[n - 1]];
    }
  }

  lemma AddingNext(c: Config, s: State, rest: seq<Op>, call: Call)
    ensures var q := Next(c, s, Client(rest, call));
      q.Client? && q.call.Adding? && !q.call.a.AddWantW? ==>
        call.Adding? && q.call.t == call.t && q.call.a == AfterAdd(call.t, call.a).a
  {}

  lemma AddNext(c: Config, s: State, j: nat, rest: seq<Op>, call: Call)
    requires ThreadShape(c, j, Client(rest, call)) && AddThread(c, s, j, Client(rest, call)) && j >= c.k
    ensures AddThread(c, s.(log := LogAfter(s, j, Client(rest, call))), j, Next(c, s, Client(rest, call)))
  {
    hide Next, LogAfter, Returned;
    SubmittedKept(s, j, Client(rest, call));
    ReturnedNext(c, s, j, rest, call);
    AddingNext(c, s, rest, call);
  }

  lemma AddStep(c: Config, s: State, l: Label)
    requires ShapeInv(c, s) && AddInv(c, s) && Enabled(c, s, l)
    ensures AddInv(c, Apply(c, s, l))
  {
    hide Apply, Enabled, Next, LogAfter, SleepsOn, QueueAfter, CountAfter, StopAfter, StoreAfter, Returned;
    SharedAfter(c, s, l);
    var s' := Apply(c, s, l);
    var p := s.threads[l.i];
    if l.Go? {
      SubmittedKept(s, l.i, p);
      assert ThreadShape(c, l.i, p) && AddThread(c, s, l.i, p);
      ShapeNext(c, s, l.i, p);
      if p.Client? { AddNext(c, s, l.i, p.rest, p.call); }
    }
    OthersAfter(c, s, l, l.i);
    forall j | 0 <= j < |s'.threads| ensures AddThread(c, s', j, s'.threads[j]) {
      OthersAfter(c, s, l, j);
      assert ThreadShape(c, j, s.threads[j]) && AddThread(c, s, j, s.threads[j]);
      if SleepsOn(c, s.threads[j]).Some? { AddWake(c, s, j, s.threads[j]); }
    }
  }

  lemma AddWake(c: Config, s: State, j: nat, p: Pc)
    requires SleepsOn(c, p).Some? && ThreadShape(c, j, p) && AddThread(c, s, j, p)
    ensures AddThread(c, s, j, WakeUp(p))
  {}

  lemma AddStart(c: Config)
    ensures AddInv(c, Start(c))
  {
    var s := Start(c);
    forall j | 0 <= j < |s.threads| ensures AddThread(c, s, j, s.threads[j]) {
      if j >= c.k { assert s.threads[j] == Client(c.progs[j - c.k], Ready); }
    }
  }
}
