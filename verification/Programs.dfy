/** The first k threads are workers, the others clients that call what their
    programs say. */
module Programs {
  import opened Graphs
  import opened VoidFilter
  import opened Machine
  import opened Locks

  predicate IsCallOf(call: Call, op: Op) {
    match call
    case Ready => false
    case Adding(t, _) => op == Add(t)
    case Clearing(_) => op == Clear
    case Waiting(_, _, _) => op == Wait
    case TaskWaiting(t, _) => op == TaskWait(t)
    case Destroying(_) => op == Destroy
  }

  /** rest is what remains of prog after the call under way. */
  predicate ClientAt(prog: seq<Op>, rest: seq<Op>, call: Call) {
    && |rest| <= |prog|
    && rest == prog[|prog| - |rest|..]
    && (!call.Ready? ==> |rest| < |prog| && IsCallOf(call, prog[|prog| - |rest| - 1]))
  }

  predicate ThreadShape(c: Config, j: nat, p: Pc) {
    if j < c.k then !p.Client?
    else p.Client? && j - c.k < |c.progs| && ClientAt(c.progs[j - c.k], p.rest, p.call)
  }

  ghost predicate ShapeInv(c: Config, s: State) {
    && |s.threads| == c.k + |c.progs|
    && forall j :: 0 <= j < |s.threads| ==> ThreadShape(c, j, s.threads[j])
  }

  lemma CallNext(c: Config, s: State, prog: seq<Op>, rest: seq<Op>, call: Call)
    requires ClientAt(prog, rest, call)
    ensures var p := Next(c, s, Client(rest, call)); p.Client? && ClientAt(prog, p.rest, p.call)
  {
    match call {
      case Ready =>
        if rest != [] {
          var n := |prog| - |rest|;
          assert prog[n] == rest[0] && prog[n + 1..] == rest[1..];
          assert IsCallOf(StartCall(s, rest[0]), rest[0]);
        }
      case Waiting(seen, late, w) =>
      case TaskWaiting(t, w) =>
      case Adding(t, a) =>
      case Clearing(e) =>
      case Destroying(d) =>
    }
  }

  lemma ShapeNext(c: Config, s: State, j: nat, p: Pc)
    requires ThreadShape(c, j, p)
    ensures ThreadShape(c, j, Next(c, s, p))
  {
    hide Next;
    if p.Client? { CallNext(c, s, c.progs[j - c.k], p.rest, p.call); } else { WorkerNext(c, s, p); }
  }

  lemma WorkerNext(c: Config, s: State, p: Pc)
    requires !p.Client?
    ensures !Next(c, s, p).Client?
  {
    hide KeptOf, SlotValue, Src, Slots;
    match p {
      case Work(x, t, k) =>
      case Publish(x, t, u) =>
      case Fetch(x, t, n, w) =>
      case _ =>
    }
  }

  lemma ShapeStep(c: Config, s: State, l: Label)
    requires ShapeInv(c, s) && Enabled(c, s, l)
    ensures ShapeInv(c, Apply(c, s, l))
  {
    assert l.i < |s.threads|;
    hide Apply, Enabled, Next, ThreadShape, SleepsOn, Wakes, WakeUp;
    OthersAfter(c, s, l, l.i);
    forall j | 0 <= j < |s.threads| ensures ThreadShape(c, j, Apply(c, s, l).threads[j]) {
      OthersAfter(c, s, l, j);
      assert ThreadShape(c, j, s.threads[j]);
      ShapeNext(c, s, j, s.threads[j]);
      ShapeWake(c, j, s.threads[j]);
    }
  }

  lemma ShapeWake(c: Config, j: nat, p: Pc)
    requires ThreadShape(c, j, p)
    ensures ThreadShape(c, j, WakeUp(p))
  {}

  lemma ShapeStart(c: Config)
    ensures ShapeInv(c, Start(c))
  {
    var s := Start(c);
    forall j | 0 <= j < |s.threads| ensures ThreadShape(c, j, s.threads[j]) {
      if j >= c.k { assert s.threads[j] == Client(c.progs[j - c.k], Ready); }
    }
  }

  // --------------------------------------------------- kinds of programs

  ghost predicate Never(c: Config, op: Op) {
    forall i :: 0 <= i < |c.progs| ==> op !in c.progs[i]
  }

  ghost predicate NoAdds(c: Config) { forall t :: Never(c, Add(t)) }

  /** A call under way is in some program. */
  lemma CallInProgram(c: Config, s: State, j: nat, op: Op)
    requires ShapeInv(c, s) && j < |s.threads| && s.threads[j].Client? && IsCallOf(s.threads[j].call, op)
    ensures j >= c.k && op in c.progs[j - c.k] && !Never(c, op)
  {
    assert ThreadShape(c, j, s.threads[j]);
    var call := s.threads[j].call;
    var prog := c.progs[j - c.k];
    var op' := prog[|prog| - |s.threads[j].rest| - 1];
    assert op' in prog;
    assert op == op';
  }
}
