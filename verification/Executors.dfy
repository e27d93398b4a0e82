/** The executor and the pool as objects, used by one thread: what is queued, in
    which order, and that this order is one the runs of the pool need. */
module Executors {
  import opened Graphs
  import opened Search
  import opened Tasks
  import opened Stages
  import opened Programs
  import opened Latches
  import opened ExecutorTheorems
  import Machine

  class ThreadPool {
    const threadCount: nat
    var tasks: seq<Task>
    var activeTaskCount: int
    var workers: nat
    var isShuttingDown: bool

    constructor (threadCount: nat)
      ensures this.threadCount == threadCount && tasks == [] && activeTaskCount == 0 && workers == 0 && !isShuttingDown
    {
      this.threadCount, tasks, activeTaskCount, workers, isShuttingDown := threadCount, [], 0, 0, false;
    }

    /** Queues and counts a task; a null callable is refused. */
    method AddTask(task: Task?) returns (added: bool)
      modifies this`tasks, this`activeTaskCount
      ensures added == (task != null)
      ensures task != null ==> tasks == old(tasks) + [task] && activeTaskCount == old(activeTaskCount) + 1
      ensures task == null ==> tasks == old(tasks) && activeTaskCount == old(activeTaskCount)
    {
      if task == null { return false; }
      tasks := tasks + [task];
      activeTaskCount := activeTaskCount + 1;
      added := true;
    }

    /** Drops the queue and takes its size off the counter; what is running stays
        counted. */
    method ClearQueuedTasks()
      modifies this`tasks, this`activeTaskCount
      ensures tasks == [] && activeTaskCount - |tasks| == old(activeTaskCount - |tasks|)
    {
      activeTaskCount := activeTaskCount - |tasks|;
      if tasks != [] { tasks := []; }
    }

    /** Spawns the workers, one after the other. */
    method Run()
      modifies this`workers
      ensures workers == old(workers) + threadCount
    {
      for i := 0 to threadCount
        invariant workers == old(workers) + i
      {
        workers := workers + 1;
      }
    }

    predicate IsIdle()
      reads this`activeTaskCount
    {
      activeTaskCount == 0
    }
  }

  // -------------------------------------------------------------- the order

  function Addresses(tasks: seq<Task>): (r: seq<Tid>)
    ensures |r| == |tasks| && forall i :: 0 <= i < |tasks| ==> r[i] == tasks[i].address
  {
    seq(|tasks|, i requires 0 <= i < |tasks| => tasks[i].address)
  }

  /** No later task is smaller than an earlier one. */
  ghost predicate Sorted(tasks: seq<Task>)
    reads set i | 0 <= i < |tasks| :: tasks[i]
  {
    forall a, b :: 0 <= a < b < |tasks| ==> !tasks[b].Less(tasks[a])
  }

  lemma {:induction false} SmallestExists(tasks: seq<Task>) returns (i: nat)
    requires tasks != []
    ensures i < |tasks| && forall j :: 0 <= j < |tasks| ==> !tasks[j].Less(tasks[i])
  {
    if |tasks| == 1 { return 0; }
    i := SmallestExists(tasks[..|tasks| - 1]);
    assert tasks[..|tasks| - 1][i] == tasks[i];
    assert forall j :: 0 <= j < |tasks| - 1 ==> tasks[..|tasks| - 1][j] == tasks[j];
    if tasks[|tasks| - 1].Less(tasks[i]) { i := |tasks| - 1; }
  }

  ghost predicate NoneSmaller(tasks: seq<Task>, rest: seq<Task>)
    reads set i | 0 <= i < |tasks| :: tasks[i], set i | 0 <= i < |rest| :: rest[i]
  {
    forall a, b :: 0 <= a < |tasks| && 0 <= b < |rest| ==> !rest[b].Less(tasks[a])
  }

  /** Appending a smallest remaining task keeps what is placed sorted, below the rest. */
  lemma PlaceNext(placed: seq<Task>, rest: seq<Task>, i: nat)
    requires Sorted(placed) && NoneSmaller(placed, rest)
    requires i < |rest| && forall j :: 0 <= j < |rest| ==> !rest[j].Less(rest[i])
    ensures Sorted(placed + [rest[i]]) && NoneSmaller(placed + [rest[i]], rest[..i] + rest[i + 1..])
    ensures multiset(placed + [rest[i]]) + multiset(rest[..i] + rest[i + 1..]) == multiset(placed) + multiset(rest)
  {
    assert rest == rest[..i] + [rest[i]] + rest[i + 1..];
    var left := rest[..i] + rest[i + 1..];
    assert forall b :: 0 <= b < |left| ==> left[b] == rest[if b < i then b else b + 1];
  }

  lemma NothingPlaced(rest: seq<Task>)
    ensures Sorted([]) && NoneSmaller([], rest)
  {}

  /** An unstable sort: any of the smallest remaining tasks may come next, so that
      every sorted permutation is a possible result. */
  method Sort(tasks: seq<Task>) returns (r: seq<Task>)
    ensures multiset(r) == multiset(tasks) && Sorted(r)
  {
    hide Sorted, NoneSmaller;
    var rest := tasks;
    r := [];
    NothingPlaced(tasks);
    while rest != []
      invariant multiset(r) + multiset(rest) == multiset(tasks) && Sorted(r) && NoneSmaller(r, rest)
      decreases |rest|
    {
      ghost var least := SmallestExists(rest);
      var i :| 0 <= i < |rest| && forall j :: 0 <= j < |rest| ==> !rest[j].Less(rest[i]);
      PlaceNext(r, rest, i);
      r := r + [rest[i]];
      rest := rest[..i] + rest[i + 1..];
    }
  }

  ghost predicate DependencyClosed(g: Graph, order: seq<Tid>) {
    forall x, u :: x in order && DependsOn(g, x, u) ==> u in order
  }

  ghost predicate SortedByDepth(g: Graph, rank: Tid -> nat, order: seq<Tid>)
    requires Dag(g, rank)
  {
    && (forall x :: 0 <= x < |order| ==> order[x] in g)
    && (forall a, b :: 0 <= a < b < |order| ==> Depth(g, rank, order[a]) <= Depth(g, rank, order[b]))
  }

  /** However ties are broken, sorting by depth puts every dependency strictly
      before its dependents. */
  lemma SortedIsTopological(g: Graph, rank: Tid -> nat, order: seq<Tid>)
    requires Dag(g, rank) && SortedByDepth(g, rank, order) && DependencyClosed(g, order)
    ensures Topological(g, order)
  {
    hide DependsOn, Dag, Depth;
    forall x, u: Tid | 0 <= x < |order| && DependsOn(g, order[x], u) ensures exists y :: 0 <= y < x && order[y] == u {
      assert order[x] in order;
      var y :| 0 <= y < |order| && order[y] == u;
      DepthDrops(g, rank, order[x], u);
    }
  }

  lemma QueuedAreNodes(g: Graph, rank: Tid -> nat, order: seq<Tid>)
    requires Dag(g, rank) && SortedByDepth(g, rank, order)
    ensures forall x :: 0 <= x < |order| ==> order[x] in g
  {}

  lemma {:induction false} PathGoesBack(g: Graph, order: seq<Tid>, path: seq<Tid>, x: nat) returns (y: nat)
    requires Topological(g, order) && DependencyPath(g, path) && |path| > 1 && x < |order| && order[x] == path[0]
    ensures y < x && order[y] == path[|path| - 1]
    decreases |path|
  {
    hide DependsOn;
    TailIsPath(g, path);
    y :| 0 <= y < x && order[y] == path[1];
    if |path| > 2 { y := PathGoesBack(g, order, path[1..], y); }
  }

  /** Conversely an order can be topological only if it holds every dependency and
      no task of it depends on itself. */
  lemma TopologicalNeeds(g: Graph, order: seq<Tid>)
    requires Topological(g, order) && Distinct(order)
    ensures DependencyClosed(g, order)
    ensures forall path :: DependencyPath(g, path) && |path| > 1 && path[0] in order ==> path[0] != path[|path| - 1]
  {
    hide DependsOn, DependencyPath;
    forall x, u: Tid | x in order && DependsOn(g, x, u) ensures u in order {
      var i :| 0 <= i < |order| && order[i] == x;
      var y :| 0 <= y < i && order[y] == u;
    }
    forall path | DependencyPath(g, path) && |path| > 1 && path[0] in order ensures path[0] != path[|path| - 1] {
      var x :| 0 <= x < |order| && order[x] == path[0];
      var y := PathGoesBack(g, order, path, x);
      assert order[y] != order[x];
    }
  }

  ghost predicate SameAddresses(a: seq<Task>, b: seq<Task>) {
    forall x :: x in Addresses(a) <==> x in Addresses(b)
  }

  /** A permutation has the same members. */
  lemma PermutationKeeps(a: seq<Task>, b: seq<Task>)
    requires multiset(a) == multiset(b)
    ensures |a| == |b| && forall t :: t in a <==> t in b
    ensures SameAddresses(a, b)
  {
    assert |multiset(a)| == |multiset(b)|;
    assert forall t :: t in a <==> t in multiset(a);
    assert forall t :: t in b <==> t in multiset(b);
    forall x ensures x in Addresses(a) <==> x in Addresses(b) {
      if x in Addresses(a) {
        var i :| 0 <= i < |a| && Addresses(a)[i] == x;
        assert a[i] in b;
        var j :| 0 <= j < |b| && b[j] == a[i];
        assert Addresses(b)[j] == x;
      }
      if x in Addresses(b) {
        var i :| 0 <= i < |b| && Addresses(b)[i] == x;
        assert b[i] in a;
        var j :| 0 <= j < |a| && a[j] == b[i];
        assert Addresses(a)[j] == x;
      }
    }
  }

  /** Every one of these tasks has its depth as its reachability. */
  ghost predicate DepthsStored(mem: Memory, rank: Tid -> nat, tasks: seq<Task>)
    requires Dag(GraphOf(mem), rank)
    reads set i | 0 <= i < |tasks| :: tasks[i]
  {
    forall i :: 0 <= i < |tasks| ==>
      tasks[i].address in GraphOf(mem) && tasks[i].GetReachability() == Depth(GraphOf(mem), rank, tasks[i].address)
  }

  // ----------------------------------------------------------- the executor

  class ThreadPoolExecutor {
    var pool: ThreadPool?
    var tasksToRun: seq<Task>

    constructor ()
      ensures pool == null && tasksToRun == []
    {
      pool, tasksToRun := null, [];
    }

    method AddTask(task: Task)
      modifies this`tasksToRun
      ensures tasksToRun == old(tasksToRun) + [task]
    {
      tasksToRun := tasksToRun + [task];
    }

    /** Creates the pool if there is none, computes the reachabilities, sorts the
        tasks by them, submits the tasks in that order and spawns the workers. */
    method Run(hardwareConcurrency: nat, ghost mem: Memory, ghost rank: Tid -> nat)
      requires Wired(mem) && WellFormed(mem) && TasksOf(mem, tasksToRun)
      modifies this, pool, mem.nodes`reachability
      ensures pool != null
      ensures (if old(pool) == null then fresh(pool) && pool.threadCount == hardwareConcurrency else pool == old(pool))
      ensures multiset(tasksToRun) == multiset(old(tasksToRun))
      ensures pool.tasks == old(if pool == null then [] else pool.tasks) + tasksToRun
      ensures pool.isShuttingDown == old(pool != null && pool.isShuttingDown)
      ensures pool.activeTaskCount == old(if pool == null then 0 else pool.activeTaskCount) + |tasksToRun|
      ensures pool.workers == old(if pool == null then 0 else pool.workers) + pool.threadCount
      ensures Dag(GraphOf(mem), rank) && Small(GraphOf(mem)) ==>
        SortedByDepth(GraphOf(mem), rank, Addresses(tasksToRun))
      ensures (Dag(GraphOf(mem), rank) && Small(GraphOf(mem))
               && DependencyClosed(GraphOf(mem), Addresses(old(tasksToRun)))) ==>
        Topological(GraphOf(mem), Addresses(tasksToRun))
      ensures Sorted(tasksToRun)
      ensures forall a :: a in mem.at ==> mem.at[a] in mem.nodes && a in GraphOf(mem)
      ensures forall a :: a in mem.at && !ReachedFrom(GraphOf(mem), RootsOf(old(tasksToRun)), a) ==>
        mem.at[a].GetReachability() == old(mem.at[a].GetReachability())
      ensures Dag(GraphOf(mem), rank) && Small(GraphOf(mem)) ==>
        forall a :: a in mem.at && ReachedFrom(GraphOf(mem), RootsOf(old(tasksToRun)), a) ==>
          mem.at[a].GetReachability() == Depth(GraphOf(mem), rank, a)
      ensures Dag(GraphOf(mem), rank) && Small(GraphOf(mem)) ==> DepthsStored(mem, rank, tasksToRun)
      ensures Small(GraphOf(mem)) && old(AllZero(mem)) ==>
        forall a :: a in mem.at && ReachedFrom(GraphOf(mem), RootsOf(old(tasksToRun)), a) ==>
          mem.at[a].GetReachability() <= |GraphOf(mem)|
    {
      hide WellFormed, GraphOf, Wired, Dag, Depth, ReachedFrom, DependsOn, Topological, Sorted, RootsOf, AllZero,
        DepthsStored, SortedByDepth, DependencyClosed, Small;
      if pool == null { pool := new ThreadPool(hardwareConcurrency); }
      tasksToRun := ComputeAndSort(tasksToRun, mem, rank);
      Submit(pool, tasksToRun);
      pool.Run();
    }

    /** Drops what is queued; without a pool there is nothing to drop. */
    method Cancel()
      modifies pool
      ensures pool != null ==> pool.tasks == [] && pool.activeTaskCount == old(pool.activeTaskCount) - |old(pool.tasks)|
      ensures pool != null ==> pool.workers == old(pool.workers) && pool.isShuttingDown == old(pool.isShuttingDown)
    {
      if pool == null { return; }
      pool.ClearQueuedTasks();
    }

    /** Whether a wait goes through at once: without a pool, or on an idle one. */
    method Wait() returns (through: bool)
      ensures through == (pool != null ==> pool.activeTaskCount == 0)
    {
      if pool == null { return true; }
      through := pool.IsIdle();
    }
  }

  /** The first half of Run: the reachabilities, and the tasks sorted by them. */
  method ComputeAndSort(tasks: seq<Task>, ghost mem: Memory, ghost rank: Tid -> nat) returns (sorted: seq<Task>)
    requires Wired(mem) && WellFormed(mem) && TasksOf(mem, tasks)
    modifies mem.nodes`reachability
    ensures multiset(sorted) == multiset(tasks) && Sorted(sorted)
    ensures forall a :: a in mem.at ==> mem.at[a] in mem.nodes && a in GraphOf(mem)
    ensures forall a :: a in mem.at && !ReachedFrom(GraphOf(mem), RootsOf(tasks), a) ==>
      mem.at[a].GetReachability() == old(mem.at[a].GetReachability())
    ensures Dag(GraphOf(mem), rank) && Small(GraphOf(mem)) ==>
      forall a :: a in mem.at && ReachedFrom(GraphOf(mem), RootsOf(tasks), a) ==>
        mem.at[a].GetReachability() == Depth(GraphOf(mem), rank, a)
    ensures Dag(GraphOf(mem), rank) && Small(GraphOf(mem)) ==>
      DepthsStored(mem, rank, sorted) && SortedByDepth(GraphOf(mem), rank, Addresses(sorted))
    ensures (Dag(GraphOf(mem), rank) && Small(GraphOf(mem)) && DependencyClosed(GraphOf(mem), Addresses(tasks))) ==>
      Topological(GraphOf(mem), Addresses(sorted))
    ensures Small(GraphOf(mem)) && old(AllZero(mem)) ==>
      forall a :: a in mem.at && ReachedFrom(GraphOf(mem), RootsOf(tasks), a) ==>
        mem.at[a].GetReachability() <= |GraphOf(mem)|
  {
    hide WellFormed, GraphOf, Wired, Dag, Depth, ReachedFrom, DependsOn, Topological, Sorted, RootsOf, AllZero,
      DepthsStored, SortedByDepth, DependencyClosed, Small, Placed;
    ghost var order := ComputeReachability(tasks, mem, rank);
    sorted := Sort(tasks);
    OrderIsSorted(mem, rank, tasks, order, sorted);
    BoundedByPlace(mem, order);
  }

  method Submit(pool: ThreadPool, tasks: seq<Task>)
    modifies pool`tasks, pool`activeTaskCount
    ensures pool.tasks == old(pool.tasks) + tasks
    ensures pool.activeTaskCount == old(pool.activeTaskCount) + |tasks|
  {
    for i := 0 to |tasks|
      invariant pool.tasks == old(pool.tasks) + tasks[..i] && pool.activeTaskCount == old(pool.activeTaskCount) + i
    {
      var added := pool.AddTask(tasks[i]);
      assert tasks[..i + 1] == tasks[..i] + [tasks[i]];
    }
    assert tasks[..|tasks|] == tasks;
  }

  /** Tasks sorted by the reachabilities just computed are sorted by depth. */
  lemma OrderIsSorted(mem: Memory, rank: Tid -> nat, given: seq<Task>, order: seq<nat>, sorted: seq<Task>)
    requires WellFormed(mem) && TasksOf(mem, given) && Sorted(sorted) && multiset(sorted) == multiset(given)
    requires forall a :: a in order <==> ReachedFrom(GraphOf(mem), RootsOf(given), a)
    requires forall a :: a in mem.at ==> mem.at[a] in mem.nodes && a in GraphOf(mem)
    requires Dag(GraphOf(mem), rank) && Small(GraphOf(mem)) ==>
      forall a :: a in order ==> a in mem.at && mem.at[a].GetReachability() == Depth(GraphOf(mem), rank, a)
    ensures Dag(GraphOf(mem), rank) && Small(GraphOf(mem)) ==>
      SortedByDepth(GraphOf(mem), rank, Addresses(sorted)) && DepthsStored(mem, rank, sorted)
    ensures Dag(GraphOf(mem), rank) && Small(GraphOf(mem)) && DependencyClosed(GraphOf(mem), Addresses(given)) ==>
      Topological(GraphOf(mem), Addresses(sorted))
  {
    hide WellFormed, GraphOf, Dag, Depth, ReachedFrom, DependsOn, Topological, Small;
    PermutationKeeps(sorted, given);
    var g := GraphOf(mem);
    if Dag(g, rank) && Small(g) {
      forall x | 0 <= x < |sorted|
        ensures sorted[x].address in g && sorted[x].GetReachability() == Depth(g, rank, sorted[x].address)
      {
        assert sorted[x] in given;
        var i :| 0 <= i < |given| && given[i] == sorted[x];
        RootIsReached(g, given, i);
      }
      if DependencyClosed(g, Addresses(given)) {
        assert DependencyClosed(g, Addresses(sorted));
        SortedIsTopological(g, rank, Addresses(sorted));
      }
    }
  }

  lemma BoundedByPlace(mem: Memory, order: seq<nat>)
    requires forall a :: a in mem.at ==> mem.at[a] in mem.nodes
    requires forall a :: a in order ==> a in mem.at
    ensures (forall n :: 0 <= n < |order| ==> Placed(mem.at[order[n]].GetReachability(), n, |GraphOf(mem)|)) ==>
      forall a :: a in order ==> mem.at[a].GetReachability() <= |GraphOf(mem)|
  {
    hide GraphOf;
  }

  lemma RootIsReached(g: Graph, tasks: seq<Task>, i: nat)
    requires i < |tasks|
    ensures ReachedFrom(g, RootsOf(tasks), tasks[i].address)
  {
    ReachesSelf(g, tasks[i].address);
    assert tasks[i].address in RootsOf(tasks);
  }

  // -------------------------------------------------------------- all of it

  /** The run that Run has launched on objects that have not run yet: their graph and
      callables, the queue it left, as many workers as it spawned, clients that add
      nothing, and no callback. */
  ghost predicate Launched(c: Machine.Config, mem: Memory, pool: ThreadPool)
    reads pool, mem.nodes`inEdges, mem.nodes`outEdge, mem.nodes`phase
    reads (set t | t in mem.nodes :: t.outEdge)`retrievable
  {
    && WellFormed(mem) && Wired(mem) && TasksOf(mem, pool.tasks) && BeforeRun(mem, c.fn) && !pool.isShuttingDown
    && c.g == GraphOf(mem) && c.order == Addresses(pool.tasks) && c.k == pool.workers && NoAdds(c) && !c.callback
  }

  /** The starting state shows the flags and the phases of the objects. */
  lemma StartShows(c: Machine.Config, mem: Memory)
    requires WellFormed(mem) && BeforeRun(mem, c.fn)
    ensures Shows(mem, Machine.Start(c).store)
  {}

  /** Run leaves the pool and the tasks in the state the step system starts from: the
      queue, the counter and the flag of the pool, the flags of the edges, the phases
      and the callables of the tasks, and which of them would wait.  It is ready to
      run: for an acyclic graph, distinct tasks, every dependency submitted, and at
      least one worker. */
  lemma LaunchedIsReady(c: Machine.Config, mem: Memory, rank: Tid -> nat, pool: ThreadPool)
    requires Launched(c, mem, pool) && pool.workers >= 1 && pool.activeTaskCount == |pool.tasks|
    requires Dag(c.g, rank) && SortedByDepth(c.g, rank, c.order) && DependencyClosed(c.g, c.order)
    requires Distinct(c.order)
    ensures ReadyToRun(c, rank)
    ensures var s := Machine.Start(c);
      && s.queue == Addresses(pool.tasks) && s.count == pool.activeTaskCount && s.stop == pool.isShuttingDown
      && Shows(mem, s.store)
      && forall a :: a in mem.at ==>
        && (mem.at[a].Blocked() <==> !FlagsUpTo(c, s.store.flag, a, |Slots(c.g, a)|))
        && forall args :: c.fn(a, args) == mem.at[a].callable(args)
  {
    StartShows(c, mem);
    assert forall a, args :: a in mem.at ==> c.fn(a, args) == mem.at[a].callable(args);
    hide DependsOn, Dag, Depth, NoAdds, Topological, WellFormed, Wired, GraphOf, Shows, FlagsUpTo, OwnEdges, TasksOf;
    SortedIsTopological(c.g, rank, c.order);
    QueuedAreNodes(c.g, rank, c.order);
    forall a | a in mem.at
      ensures mem.at[a].Blocked() <==> !FlagsUpTo(c, Machine.Start(c).store.flag, a, |Slots(c.g, a)|)
    {
      BlockedAgrees(c, mem, Machine.Start(c).store, a);
    }
  }

  /** The whole of it: whatever sorted order the executor chose, however many
      workers there are and whatever they do when, every run that cannot go on has
      completed every task with the value of recursive evaluation. */
  lemma LaunchedRunsComplete(c: Machine.Config, mem: Memory, rank: Tid -> nat, pool: ThreadPool, s: Machine.State)
    requires Launched(c, mem, pool) && pool.workers >= 1 && pool.activeTaskCount == |pool.tasks|
    requires Dag(c.g, rank) && SortedByDepth(c.g, rank, c.order) && DependencyClosed(c.g, c.order)
    requires Distinct(c.order) && Undisturbed(c)
    requires Machine.Reachable(c, s) && Machine.Terminal(c, s)
    ensures s.queue == [] && s.count == 0
    ensures forall i :: 0 <= i < |pool.tasks| ==> CompleteWith(c, rank, s, pool.tasks[i].address)
  {
    hide Machine.Reachable, Machine.Terminal, Dag, CompleteWith, Undisturbed, SortedByDepth, DependencyClosed,
      Executor, GraphOf, NoAdds, WellFormed, Wired, TasksOf, BeforeRun, Shows, FlagsUpTo;
    LaunchedIsReady(c, mem, rank, pool);
    EveryRunCompletes(c, rank, s);
    forall i | 0 <= i < |pool.tasks| ensures CompleteWith(c, rank, s, pool.tasks[i].address) {
      assert c.order[i] == pool.tasks[i].address;
    }
  }

  lemma {:induction false} OccursTwice(tasks: seq<Task>, t: Task) returns (i: nat, j: nat)
    requires multiset(tasks)[t] >= 2
    ensures i < j < |tasks| && tasks[i] == t && tasks[j] == t
    decreases |tasks|
  {
    assert tasks == [tasks[0]] + tasks[1..];
    if tasks[0] == t {
      assert t in multiset(tasks[1..]);
      var k :| 0 <= k < |tasks[1..]| && tasks[1..][k] == t;
      i, j := 0, k + 1;
    } else {
      i, j := OccursTwice(tasks[1..], t);
      i, j := i + 1, j + 1;
    }
  }

  lemma CountsTwice(tasks: seq<Task>, i: nat, j: nat)
    requires i < j < |tasks| && tasks[i] == tasks[j]
    ensures multiset(tasks)[tasks[i]] >= 2
  {
    assert tasks == tasks[..i] + [tasks[i]] + tasks[i + 1..j] + [tasks[j]] + tasks[j + 1..];
  }

  /** Two places of a permutation come from two places of the original. */
  lemma Origins(a: seq<Task>, b: seq<Task>, i: nat, j: nat) returns (p: nat, q: nat)
    requires multiset(a) == multiset(b) && i < j < |b|
    ensures p < |a| && q < |a| && p != q && a[p] == b[i] && a[q] == b[j]
  {
    if b[i] == b[j] {
      CountsTwice(b, i, j);
      p, q := OccursTwice(a, b[i]);
    } else {
      assert b[i] in multiset(b) && b[j] in multiset(b);
      p :| 0 <= p < |a| && a[p] == b[i];
      q :| 0 <= q < |a| && a[q] == b[j];
    }
  }

  /** A permutation of distinct tasks is distinct. */
  lemma PermutationDistinct(a: seq<Task>, b: seq<Task>)
    requires multiset(a) == multiset(b) && Distinct(Addresses(a))
    ensures Distinct(Addresses(b))
  {
    forall i, j | 0 <= i < j < |b| ensures Addresses(b)[i] != Addresses(b)[j] {
      var p, q := Origins(a, b, i, j);
      assert Addresses(a)[p] != Addresses(a)[q];
    }
  }

  /** Clients that only wait, for the pool or for tasks. */
  predicate OnlyWait(progs: seq<seq<Machine.Op>>) {
    forall i, n :: 0 <= i < |progs| && 0 <= n < |progs[i]| ==> progs[i][n].Wait? || progs[i][n].TaskWait?
  }

  lemma WaitersOnly(c: Machine.Config)
    requires OnlyWait(c.progs)
    ensures NoAdds(c) && Undisturbed(c)
  {
    forall i, op | 0 <= i < |c.progs| && op in c.progs[i] ensures op.Wait? || op.TaskWait? {
      var n :| 0 <= n < |c.progs[i]| && c.progs[i][n] == op;
    }
  }

  lemma SameTasks(mem: Memory, a: seq<Task>, b: seq<Task>)
    requires TasksOf(mem, a) && forall t :: t in b ==> t in a
    ensures TasksOf(mem, b)
  {
    forall i | 0 <= i < |b| ensures b[i].address in mem.at && mem.at[b[i].address] == b[i] { assert b[i] in a; }
  }

  /** From the objects to the end of every run: run the executor once, on distinct
      tasks of an acyclic graph that hold all their dependencies, with at least one
      worker.  c is what is then running, beside any clients that wait. */
  method RunToCompletion(executor: ThreadPoolExecutor, hardwareConcurrency: nat,
        ghost mem: Memory, ghost rank: Tid -> nat, ghost fn: Callables, ghost progs: seq<seq<Machine.Op>>)
    returns (ghost c: Machine.Config)
    requires Wired(mem) && WellFormed(mem) && TasksOf(mem, executor.tasksToRun)
    requires executor.pool == null && hardwareConcurrency >= 1
    requires Dag(GraphOf(mem), rank) && Small(GraphOf(mem))
    requires Distinct(Addresses(executor.tasksToRun)) && DependencyClosed(GraphOf(mem), Addresses(executor.tasksToRun))
    requires BeforeRun(mem, fn) && OnlyWait(progs)
    modifies executor, mem.nodes`reachability
    ensures executor.pool != null && c.g == GraphOf(mem) && c.fn == fn && c.progs == progs && c.k == hardwareConcurrency
    ensures c.order == Addresses(executor.pool.tasks) && Launched(c, mem, executor.pool)
    ensures multiset(executor.pool.tasks) == multiset(old(executor.tasksToRun))
    ensures Sorted(executor.pool.tasks) && DepthsStored(mem, rank, executor.pool.tasks)
    ensures forall s :: Machine.Reachable(c, s) && Machine.Terminal(c, s) ==>
      s.count == 0
      && forall i :: 0 <= i < |executor.pool.tasks| ==> CompleteWith(c, rank, s, executor.pool.tasks[i].address)
  {
    hide Wired, WellFormed, TasksOf, Dag, Small, Depth, DependsOn, GraphOf, Machine.Reachable, Machine.Terminal,
      CompleteWith, Sorted, Topological, BeforeRun, DepthsStored, ReachedFrom, RootsOf, AllZero;
    ghost var given := executor.tasksToRun;
    executor.Run(hardwareConcurrency, mem, rank);
    c := Machine.Config(GraphOf(mem), fn, hardwareConcurrency, Addresses(executor.pool.tasks), progs, false);
    assert executor.pool.tasks == executor.tasksToRun;
    PermutationDistinct(given, executor.tasksToRun);
    PermutationKeeps(executor.tasksToRun, given);
    SameTasks(mem, given, executor.tasksToRun);
    WaitersOnly(c);
    hide Undisturbed, NoAdds, Addresses;
    forall s | Machine.Reachable(c, s) && Machine.Terminal(c, s)
      ensures s.count == 0
      ensures forall i :: 0 <= i < |executor.pool.tasks| ==> CompleteWith(c, rank, s, executor.pool.tasks[i].address)
    {
      LaunchedRunsComplete(c, mem, rank, executor.pool, s);
    }
  }
}
