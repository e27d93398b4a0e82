/** Dependency paths: the depth of a node is the length of its longest path, and
    a finite graph has a ranking exactly if no path returns to its start. */
module Paths {
  import opened Graphs

  /** The edges of a path, and one more if its last node declares inputs, none of
      which the path follows. */
  function PathWeight(g: Graph, path: seq<Tid>): nat
    requires path != []
  {
    |path| - 1 + (if Slots(g, path[|path| - 1]) == [] then 0 else 1)
  }

  /** No path is longer than the depth of the node it leads to. */
  lemma {:induction false} PathWithinDepth(g: Graph, rank: Tid -> nat, path: seq<Tid>)
    requires Dag(g, rank) && DependencyPath(g, path) && path[0] in g
    ensures PathWeight(g, path) <= Depth(g, rank, path[0])
    decreases |path|
  {
    if |path| > 1 {
      TailIsPath(g, path);
      DepthDrops(g, rank, path[0], path[1]);
      PathWithinDepth(g, rank, path[1..]);
    }
  }

  /** And some path attains it. */
  lemma {:induction false} LongestPath(g: Graph, rank: Tid -> nat, v: Tid) returns (path: seq<Tid>)
    requires Dag(g, rank) && v in g
    ensures DependencyPath(g, path) && path[0] == v
    ensures PathWeight(g, path) == Depth(g, rank, v)
    decreases Depth(g, rank, v)
  {
    path := [v];
    if Slots(g, v) != [] {
      var i := MaxDepthAttained(g, rank, v, |Slots(g, v)|);
      if Src(g, v, i).Some? {
        var u := Src(g, v, i).value;
        assert DependsOn(g, v, u);
        path := LongestPath(g, rank, u);
        ConsIsPath(g, v, path);
        path := [v] + path;
      }
    }
  }

  // ---------------------------------------------------------------- acyclic

  /** No node depends on itself, directly or through others. */
  ghost predicate Acyclic(g: Graph) {
    forall path :: DependencyPath(g, path) && |path| > 1 ==> path[0] != path[|path| - 1]
  }

  ghost function ReachedBy(g: Graph, v: Tid): set<Tid> { set x | x in g && Reaches(g, v, x) }

  ghost function CountReached(g: Graph): Tid -> nat { v => |ReachedBy(g, v)| }

  lemma {:induction false} ProperSubsetSize(a: set<Tid>, b: set<Tid>, x: Tid)
    requires a <= b && x in b && x !in a
    ensures |a| < |b|
  {
    SubsetSize(a, b - {x});
  }

  lemma {:induction false} RankDropsAlong(g: Graph, rank: Tid -> nat, path: seq<Tid>)
    requires Ranked(g, rank) && DependencyPath(g, path) && |path| > 1
    ensures rank(path[|path| - 1]) < rank(path[0])
    decreases |path|
  {
    TailIsPath(g, path);
    var i :| 0 <= i < |Slots(g, path[0])| && Src(g, path[0], i) == Some(path[1]);
    if |path| > 2 { RankDropsAlong(g, rank, path[1..]); }
  }

  lemma DependencyReachesFewer(g: Graph, v: Tid, u: Tid)
    requires Acyclic(g) && v in g && DependsOn(g, v, u)
    ensures |ReachedBy(g, u)| < |ReachedBy(g, v)|
  {
    hide DependsOn, Reaches;
    ReachesSelf(g, v);
    forall x | x in ReachedBy(g, u) ensures x in ReachedBy(g, v) { ReachesStep(g, v, u, x); }
    if v in ReachedBy(g, u) { ClosesCycle(g, v, u); }
    ProperSubsetSize(ReachedBy(g, u), ReachedBy(g, v), v);
  }

  lemma ClosesCycle(g: Graph, v: Tid, u: Tid)
    requires DependsOn(g, v, u) && Reaches(g, u, v)
    ensures !Acyclic(g)
  {
    var path :| DependencyPath(g, path) && path[0] == u && path[|path| - 1] == v;
    ConsIsPath(g, v, path);
    var cycle := [v] + path;
    assert cycle[0] == cycle[|cycle| - 1];
  }

  /** The graphs that have a ranking are exactly those without a cycle. */
  lemma RankedIffAcyclic(g: Graph)
    ensures (exists rank :: Ranked(g, rank)) <==> Acyclic(g)
    ensures Acyclic(g) ==> Ranked(g, CountReached(g))
  {
    hide DependencyPath, DependsOn, Reaches;
    if exists rank :: Ranked(g, rank) {
      var rank :| Ranked(g, rank);
      forall path | DependencyPath(g, path) && |path| > 1 ensures path[0] != path[|path| - 1] {
        RankDropsAlong(g, rank, path);
      }
    }
    if Acyclic(g) {
      forall v, i | v in g && 0 <= i < |Slots(g, v)| && Src(g, v, i).Some?
        ensures CountReached(g)(Src(g, v, i).value) < CountReached(g)(v)
      {
        SlotIsDependency(g, v, i);
        DependencyReachesFewer(g, v, Src(g, v, i).value);
      }
      assert Ranked(g, CountReached(g));
    }
  }

  lemma SlotIsDependency(g: Graph, v: Tid, i: nat)
    requires i < |Slots(g, v)| && Src(g, v, i).Some?
    ensures DependsOn(g, v, Src(g, v, i).value)
  {}
}
