/** The memoised depth-first search, seen as a change of three values: the marker,
    the order in which visits ended, and the reachability of every node. */
module Search {
  import opened Graphs

  datatype Progress = Progress(seen: set<nat>, ended: seq<nat>, reach: map<nat, nat>)

  predicate Small(g: Graph) { |g| < 0x8000_0000 }

  ghost predicate Ok(g: Graph, s: Progress) {
    && s.seen <= g.Keys && s.reach.Keys == g.Keys
    && (forall a :: 0 <= a < |s.ended| ==> s.ended[a] in s.seen)
    && (forall a, b :: 0 <= a < b < |s.ended| ==> s.ended[a] != s.ended[b])
  }

  predicate New(s: Progress, s': Progress, x: nat) { x in s'.seen && x !in s.seen }

  ghost predicate Final(g: Graph, rank: Tid -> nat, s: Progress, x: nat) {
    Dag(g, rank) && x in g && x in s.reach && s.reach[x] == Depth(g, rank, x)
  }

  /** On an acyclic graph every visited node is final, or is still on the stack
      and so ranks at least as high as least. */
  ghost predicate FinalOrOnStack(g: Graph, rank: Tid -> nat, s: Progress, least: nat) {
    Dag(g, rank) && Small(g) ==> forall x :: x in s.seen ==> rank(x) >= least || Final(g, rank, s, x)
  }

  /** A node whose visit has ended has at most its place in the order of endings,
      any other node has 0. */
  ghost predicate WithinPlace(s: Progress) {
    && (forall a :: 0 <= a < |s.ended| && s.ended[a] in s.reach ==> s.reach[s.ended[a]] <= a + 1)
    && (forall x :: x in s.reach && x !in s.ended ==> s.reach[x] == 0)
  }

  /** Each new node is visited once, and every other node is left alone. */
  ghost predicate Grows(g: Graph, s: Progress, s': Progress) {
    && Ok(g, s') && s.seen <= s'.seen && s.ended <= s'.ended
    && (forall x :: x in s'.ended <==> x in s.ended || New(s, s', x))
    && (forall x :: x in s.reach && !New(s, s', x) ==> x in s'.reach && s'.reach[x] == s.reach[x])
  }

  /** The new nodes are reached from root, and nothing they depend on is missed. */
  ghost predicate Explores(g: Graph, s: Progress, s': Progress, root: nat) {
    && (forall x :: New(s, s', x) ==> Reaches(g, root, x))
    && (forall x, y :: New(s, s', x) && DependsOn(g, x, y) ==> y in s'.seen)
  }

  ghost predicate MakesFinal(g: Graph, rank: Tid -> nat, s: Progress, s': Progress) {
    Dag(g, rank) && Small(g) ==> forall x :: New(s, s', x) ==> Final(g, rank, s', x)
  }

  /** What a visit to root does. */
  ghost predicate VisitOk(g: Graph, rank: Tid -> nat, s: Progress, s': Progress, root: nat) {
    && Grows(g, s, s') && Explores(g, s, s', root) && MakesFinal(g, rank, s, s')
    && (Small(g) && WithinPlace(s) ==> WithinPlace(s'))
  }

  lemma NothingNew(g: Graph, rank: Tid -> nat, s: Progress, root: nat)
    requires Ok(g, s)
    ensures VisitOk(g, rank, s, s, root)
  {}

  /** Before an input of root is visited, what is visited is final or on the stack. */
  lemma ReadyForInput(g: Graph, rank: Tid -> nat, s: Progress, s': Progress, root: nat, u: nat)
    requires FinalOrOnStack(g, rank, s, rank(root)) && Ok(g, s) && VisitOk(g, rank, s, s', root)
    requires Dag(g, rank) ==> rank(u) < rank(root)
    ensures FinalOrOnStack(g, rank, s', rank(u) + 1)
  {
    if Dag(g, rank) && Small(g) {
      forall x | x in s'.seen ensures rank(x) >= rank(u) + 1 || Final(g, rank, s', x) {
        if New(s, s', x) {} else if Final(g, rank, s, x) {}
      }
    }
  }

  /** Visiting an input after others is one longer visit. */
  lemma ThenInput(g: Graph, rank: Tid -> nat, s: Progress, s1: Progress, s2: Progress, root: nat, u: nat)
    requires Ok(g, s) && VisitOk(g, rank, s, s1, root) && VisitOk(g, rank, s1, s2, u) && DependsOn(g, root, u)
    ensures VisitOk(g, rank, s, s2, root)
  {
    hide DependsOn, Reaches, Final, WithinPlace;
    GrowsThen(g, s, s1, s2);
    assert forall x :: New(s, s2, x) <==> New(s, s1, x) || New(s1, s2, x);
    hide Ok;
    forall x | New(s, s2, x) ensures Reaches(g, root, x) {
      if New(s1, s2, x) { ReachesStep(g, root, u, x); }
    }
    FinalThen(g, rank, s, s1, s2);
  }

  lemma GrowsThen(g: Graph, s: Progress, s1: Progress, s2: Progress)
    requires Ok(g, s) && Grows(g, s, s1) && Grows(g, s1, s2)
    ensures Grows(g, s, s2)
  {
    assert forall x :: New(s, s2, x) <==> New(s, s1, x) || New(s1, s2, x);
  }

  lemma FinalThen(g: Graph, rank: Tid -> nat, s: Progress, s1: Progress, s2: Progress)
    requires Ok(g, s) && Grows(g, s, s1) && Grows(g, s1, s2) && MakesFinal(g, rank, s, s1)
    requires MakesFinal(g, rank, s1, s2)
    ensures MakesFinal(g, rank, s, s2)
  {
    if Dag(g, rank) && Small(g) {
      forall x | New(s, s2, x) ensures Final(g, rank, s2, x) {
        if !New(s1, s2, x) { assert New(s, s1, x) && Final(g, rank, s1, x); }
      }
    }
  }

  /** The value an input contributes is its depth, and is within its place. */
  lemma InputValue(g: Graph, rank: Tid -> nat, s: Progress, s': Progress, least: nat, u: nat)
    requires Ok(g, s) && VisitOk(g, rank, s, s', u) && FinalOrOnStack(g, rank, s, least)
    requires u in s'.seen && (Dag(g, rank) ==> rank(u) < least)
    ensures u in s'.reach
    ensures Dag(g, rank) && Small(g) ==> s'.reach[u] == Depth(g, rank, u) < 0x8000_0000
    ensures Small(g) && WithinPlace(s') ==> s'.reach[u] <= |s'.ended| <= |g|
  {
    if Dag(g, rank) && Small(g) {
      DepthBound(g, rank, u);
      if u in s.seen { assert Final(g, rank, s, u); } else { assert New(s, s', u) && Final(g, rank, s', u); }
    }
    NoRepeatSize(s'.ended, g.Keys);
  }

  lemma {:induction false} NoRepeatSize(order: seq<nat>, all: set<nat>)
    requires forall a :: 0 <= a < |order| ==> order[a] in all
    requires forall a, b :: 0 <= a < b < |order| ==> order[a] != order[b]
    ensures |order| <= |all|
    decreases |order|
  {
    if order != [] {
      var n := |order| - 1;
      forall a | 0 <= a < |order[..n]| ensures order[..n][a] in all - {order[n]} {}
      NoRepeatSize(order[..n], all - {order[n]});
    }
  }

  /** The state after marking root, visiting its inputs and storing its value. */
  function Stored(s: Progress, root: nat, value: nat): Progress {
    s.(ended := s.ended + [root], reach := s.reach[root := value])
  }

  /** Marking root, visiting its inputs and giving it its value is a visit to it. */
  lemma RootVisited(g: Graph, rank: Tid -> nat, s: Progress, s1: Progress, s2: Progress, root: nat, value: nat)
    requires Ok(g, s) && root in g && root !in s.seen && s1 == s.(seen := s.seen + {root})
    requires VisitOk(g, rank, s1, s2, root)
    requires forall u :: DependsOn(g, root, u) ==> u in s2.seen
    requires Dag(g, rank) && Small(g) ==> value == Depth(g, rank, root)
    requires Small(g) && WithinPlace(s1) ==> value <= |s2.ended| + 1
    ensures VisitOk(g, rank, s, Stored(s2, root, value), root)
  {
    hide DependsOn, Reaches, Depth, Final, WithinPlace, Grows, Explores, Dag, Ok;
    var s3 := Stored(s2, root, value);
    AfterInput(g, rank, s1, s2, root);
    RootGrows(g, s, s1, s2, root, value);
    RootExplores(g, s, s1, s2, root, value);
    RootFinal(g, rank, s1, s2, s3, root);
    assert forall x :: New(s, s3, x) ==> New(s1, s2, x) || x == root;
    if Small(g) { RootPlace(s, s1, s2, root, value); }
  }

  lemma RootExplores(g: Graph, s: Progress, s1: Progress, s2: Progress, root: nat, value: nat)
    requires s1 == s.(seen := s.seen + {root}) && Explores(g, s1, s2, root)
    requires forall u :: DependsOn(g, root, u) ==> u in s2.seen
    ensures Explores(g, s, Stored(s2, root, value), root)
  {
    hide DependsOn, Reaches;
    ReachesSelf(g, root);
    assert forall x :: New(s, Stored(s2, root, value), x) ==> New(s1, s2, x) || x == root;
  }

  lemma RootGrows(g: Graph, s: Progress, s1: Progress, s2: Progress, root: nat, value: nat)
    requires Ok(g, s) && root in g && root !in s.seen && s1 == s.(seen := s.seen + {root}) && Grows(g, s1, s2)
    ensures root !in s2.ended && Grows(g, s, Stored(s2, root, value))
  {
    var s3 := Stored(s2, root, value);
    assert root !in s.ended;
    assert forall x :: New(s, s3, x) <==> New(s1, s2, x) || x == root;
  }

  lemma RootPlace(s: Progress, s1: Progress, s2: Progress, root: nat, value: nat)
    requires s1 == s.(seen := s.seen + {root}) && root in s2.reach
    requires WithinPlace(s1) ==> WithinPlace(s2) && value <= |s2.ended| + 1 && root !in s2.ended
    ensures WithinPlace(s) ==> WithinPlace(Stored(s2, root, value))
  {
    if WithinPlace(s) {
      assert WithinPlace(s1);
      var s3 := Stored(s2, root, value);
      assert forall x :: x in s3.ended <==> x in s2.ended || x == root;
    }
  }

  lemma RootFinal(g: Graph, rank: Tid -> nat, s1: Progress, s2: Progress, s3: Progress, root: nat)
    requires VisitOk(g, rank, s1, s2, root) && root in g && root in s3.reach
    requires s3.reach == s2.reach[root := s3.reach[root]]
    requires Dag(g, rank) && Small(g) ==> s3.reach[root] == Depth(g, rank, root)
    ensures Dag(g, rank) && Small(g) ==> forall x :: New(s1, s2, x) || x == root ==> Final(g, rank, s3, x)
  {
    if Dag(g, rank) && Small(g) {
      forall x | New(s1, s2, x) || x == root ensures Final(g, rank, s3, x) {
        if x != root { assert Final(g, rank, s2, x); }
      }
    }
  }

  /** The maximum of the slot values is the recursive maximum. */
  lemma MaxOfSlots(g: Graph, rank: Tid -> nat, v: Tid, values: seq<int>, r: int)
    requires Dag(g, rank) && v in g && |values| == |Slots(g, v)| > 0
    requires forall j :: 0 <= j < |values| ==> values[j] == SlotDepth(g, rank, v, j)
    requires r in values && forall j :: 0 <= j < |values| ==> values[j] <= r
    ensures r == MaxDepth(g, rank, v, |values|)
  {
    var j :| 0 <= j < |values| && values[j] == r;
    MaxDepthBounds(g, rank, v, |values|, j);
    var i := MaxDepthAttained(g, rank, v, |values|);
  }

  // ------------------------------------------------- reading the inputs in turn

  /** The conversion of a size_t to a 32-bit int, and of an int to a size_t. */
  function ToInt(x: int): int {
    var r := x % 0x1_0000_0000;
    if r < 0x8000_0000 then r else r - 0x1_0000_0000
  }

  /** The conversion to an int keeps the value modulo 2^32 and lands in its range. */
  lemma ToIntWraps(x: int)
    ensures -0x8000_0000 <= ToInt(x) < 0x8000_0000
    ensures exists wraps: int :: x == ToInt(x) + wraps * 0x1_0000_0000
  {
    var wraps := x / 0x1_0000_0000;
    assert x == x % 0x1_0000_0000 + wraps * 0x1_0000_0000;
    assert x == ToInt(x) + (if ToInt(x) < 0 then wraps + 1 else wraps) * 0x1_0000_0000;
  }

  function ToSize(x: int): nat { x % 0x1_0000_0000_0000_0000 }

  /** values are what the first inputs of root contributed; zeroed says that the
      search started from zeroed fields. */
  ghost predicate InputsRead(g: Graph, rank: Tid -> nat, s: Progress, root: nat, values: seq<int>, zeroed: bool) {
    && |values| <= |Slots(g, root)|
    && (forall j :: 0 <= j < |values| && Src(g, root, j).Some? ==> Src(g, root, j).value in s.seen)
    && (Dag(g, rank) && Small(g) && root in g ==>
          forall j :: 0 <= j < |values| ==> values[j] == SlotDepth(g, rank, root, j))
    && (zeroed ==> forall j :: 0 <= j < |values| ==> 0 <= values[j] <= |s.ended|)
  }

  /** What slot number |values| of root contributes. */
  ghost predicate Contributes(g: Graph, rank: Tid -> nat, s: Progress, root: nat, slot: nat, current: nat,
          zeroed: bool) {
    match Src(g, root, slot)
    case None => current == 0
    case Some(u) =>
      (u in s.seen
       && (Dag(g, rank) && Small(g) && root in g ==> u in g && current == Depth(g, rank, u) < 0x8000_0000)
       && (zeroed ==> current <= |s.ended| < 0x8000_0000))
  }

  lemma InputsReadMore(g: Graph, rank: Tid -> nat, s: Progress, root: nat, values: seq<int>, current: nat, zeroed: bool)
    requires InputsRead(g, rank, s, root, values, zeroed) && |values| < |Slots(g, root)|
    requires Contributes(g, rank, s, root, |values|, current, zeroed)
    ensures InputsRead(g, rank, s, root, values + [ToInt(current)], zeroed)
  {
    hide Depth;
  }

  /** What was read stays read while the search goes on. */
  lemma StillRead(g: Graph, rank: Tid -> nat, s: Progress, s': Progress, root: nat, u: nat, values: seq<int>,
          zeroed: bool)
    requires InputsRead(g, rank, s, root, values, zeroed) && VisitOk(g, rank, s, s', u)
    ensures InputsRead(g, rank, s', root, values, zeroed)
  {
    hide SlotDepth, Dag, Explores, MakesFinal, WithinPlace;
  }

  lemma EdgeContributes(g: Graph, rank: Tid -> nat, s: Progress, root: nat, slot: nat, u: nat, zeroed: bool)
    requires Src(g, root, slot) == Some(u) && u in g && u in s.seen && u in s.reach
    requires Dag(g, rank) && Small(g) ==> s.reach[u] == Depth(g, rank, u) < 0x8000_0000
    requires zeroed ==> s.reach[u] <= |s.ended| < 0x8000_0000
    ensures Contributes(g, rank, s, root, slot, s.reach[u], zeroed)
  {
    hide Dag, Depth, Src;
  }

  lemma EdgeDepends(g: Graph, rank: Tid -> nat, root: nat, slot: nat, u: nat)
    requires root in g && slot < |Slots(g, root)| && Src(g, root, slot) == Some(u)
    ensures DependsOn(g, root, u) && (Dag(g, rank) ==> rank(u) < rank(root))
  {}

  lemma VisitSizes(g: Graph, rank: Tid -> nat, s: Progress, s': Progress, root: nat)
    requires VisitOk(g, rank, s, s', root)
    ensures Ok(g, s') && |s'.ended| <= |g|
    ensures Small(g) && WithinPlace(s) ==> WithinPlace(s')
  {
    NoRepeatSize(s'.ended, g.Keys);
  }

  /** One turn of the loop over the inputs, at an edge to u. */
  lemma InputVisited(g: Graph, rank: Tid -> nat, s: Progress, s1: Progress, s2: Progress, root: nat, u: nat,
          values: seq<int>, zeroed: bool)
    requires Ok(g, s) && VisitOk(g, rank, s, s1, root) && VisitOk(g, rank, s1, s2, u)
    requires FinalOrOnStack(g, rank, s, rank(root))
    requires root in g && u in g && u in s2.seen && |values| < |Slots(g, root)| && Src(g, root, |values|) == Some(u)
    requires InputsRead(g, rank, s1, root, values, zeroed) && (zeroed ==> Small(g) && WithinPlace(s))
    ensures VisitOk(g, rank, s, s2, root) && u in s2.reach
    ensures InputsRead(g, rank, s2, root, values + [ToInt(s2.reach[u])], zeroed)
  {
    hide Ok, VisitOk, FinalOrOnStack, InputsRead, Contributes, WithinPlace, Dag, Depth, DependsOn, ToInt, Src;
    EdgeDepends(g, rank, root, |values|, u);
    ReadyForInput(g, rank, s, s1, root, u);
    ThenInput(g, rank, s, s1, s2, root, u);
    VisitSizes(g, rank, s, s1, root);
    VisitSizes(g, rank, s1, s2, u);
    InputValue(g, rank, s1, s2, rank(u) + 1, u);
    StillRead(g, rank, s1, s2, root, u, values, zeroed);
    EdgeContributes(g, rank, s2, root, |values|, u, zeroed);
    InputsReadMore(g, rank, s2, root, values, s2.reach[u], zeroed);
  }

  lemma InputsReadAll(g: Graph, rank: Tid -> nat, s: Progress, root: nat, values: seq<int>, best: int, zeroed: bool)
    requires InputsRead(g, rank, s, root, values, zeroed) && root in g && |values| == |Slots(g, root)| > 0
    requires best in values && forall j :: 0 <= j < |values| ==> values[j] <= best
    ensures forall u :: DependsOn(g, root, u) ==> u in s.seen
    ensures Dag(g, rank) && Small(g) ==> best == MaxDepth(g, rank, root, |values|)
    ensures zeroed ==> 0 <= best <= |s.ended|
  {
    if Dag(g, rank) && Small(g) { MaxOfSlots(g, rank, root, values, best); }
  }

  /** What is stored: the sum of two ints, converted to a size_t. */
  function OneMore(best: int): nat { ToSize(ToInt(best + 1)) }

  lemma OneMoreExact(best: int)
    requires 0 <= best + 1 < 0x8000_0000
    ensures OneMore(best) == best + 1
  {}

  /** What the inputs of root have contributed, as a number. */
  lemma LargestInput(g: Graph, rank: Tid -> nat, s: Progress, s': Progress, root: nat, best: int)
    requires Ok(g, s) && VisitOk(g, rank, s, s', root) && root in g && |Slots(g, root)| > 0
    requires Dag(g, rank) && Small(g) ==> best == MaxDepth(g, rank, root, |Slots(g, root)|)
    requires Small(g) && WithinPlace(s) ==> 0 <= best <= |s'.ended|
    ensures Dag(g, rank) && Small(g) ==> best + 1 == Depth(g, rank, root) <= |g|
    ensures Small(g) && WithinPlace(s) ==> 0 <= best <= |s'.ended| <= |g|
    ensures Small(g) && WithinPlace(s) && root !in s'.ended ==> best + 1 <= |g|
  {
    hide VisitOk, Ok, WithinPlace, MaxDepth;
    VisitSizes(g, rank, s, s', root);
    if Dag(g, rank) && Small(g) {
      assert Depth(g, rank, root) == best + 1;
      DepthBound(g, rank, root);
    }
    hide Depth, Dag;
    if root !in s'.ended { EndedElsewhere(g, s', root); }
  }

  /** A node whose visit has not ended leaves room for its own place. */
  lemma EndedElsewhere(g: Graph, s: Progress, root: nat)
    requires Ok(g, s) && root in g && root !in s.ended
    ensures |s.ended| + 1 <= |g|
  {
    forall a | 0 <= a < |s.ended| ensures s.ended[a] in g.Keys - {root} {}
    NoRepeatSize(s.ended, g.Keys - {root});
  }

  /** The addition of 1 to the largest input does not overflow an int, on an acyclic
      graph or from zeroed fields; so the sum itself is stored. */
  lemma NoOverflow(g: Graph, rank: Tid -> nat, s: Progress, s2: Progress, root: nat, best: int)
    requires Ok(g, s) && root in g && root !in s.seen && |Slots(g, root)| > 0
    requires InputsDone(g, rank, s.(seen := s.seen + {root}), s2, root, best)
    ensures Small(g) && (Dag(g, rank) || WithinPlace(s)) ==>
      0 <= best && best + 1 < 0x8000_0000 && OneMore(best) == best + 1
    ensures Dag(g, rank) && Small(g) ==> OneMore(best) == Depth(g, rank, root)
    ensures Small(g) && WithinPlace(s) ==> OneMore(best) <= |s2.ended| + 1
  {
    hide OneMore, MaxDepth, Explores, MakesFinal, FinalOrOnStack;
    var s1 := s.(seen := s.seen + {root});
    assert Ok(g, s1) && root !in s.ended;
    assert WithinPlace(s) == WithinPlace(s1);
    assert root !in s2.ended by { assert !New(s1, s2, root); }
    hide Ok, WithinPlace, Grows, DependsOn, New;
    LargestInput(g, rank, s1, s2, root, best);
    if Small(g) && (Dag(g, rank) || WithinPlace(s)) {
      MaxDepthNatural(g, rank, root, best);
      OneMoreExact(best);
    }
  }

  lemma MaxDepthNatural(g: Graph, rank: Tid -> nat, root: nat, best: int)
    ensures Dag(g, rank) && root in g && best == MaxDepth(g, rank, root, |Slots(g, root)|) ==> best >= 0
  {}

  /** Before slot i of root is visited, if it has an edge. */
  ghost predicate InputReady(g: Graph, rank: Tid -> nat, s: Progress, root: nat, i: nat) {
    Ok(g, s) && (Src(g, root, i).Some? ==> FinalOrOnStack(g, rank, s, rank(Src(g, root, i).value) + 1))
  }

  /** What visiting slot i of root does, and the value it contributes. */
  ghost predicate InputDone(g: Graph, rank: Tid -> nat, s: Progress, s': Progress, root: nat, i: nat, current: nat) {
    match Src(g, root, i)
    case None => s' == s && current == 0
    case Some(u) => u in g && u in s'.seen && VisitOk(g, rank, s, s', u) && u in s'.reach && current == s'.reach[u]
  }

  lemma BeforeInput(g: Graph, rank: Tid -> nat, s: Progress, s': Progress, root: nat, i: nat)
    requires FinalOrOnStack(g, rank, s, rank(root)) && Ok(g, s) && VisitOk(g, rank, s, s', root)
    requires root in g && i < |Slots(g, root)|
    ensures InputReady(g, rank, s', root, i)
  {
    hide FinalOrOnStack, Dag, DependsOn, Explores, MakesFinal, WithinPlace, Src;
    if Src(g, root, i).Some? {
      var u := Src(g, root, i).value;
      EdgeDepends(g, rank, root, i, u);
      ReadyForInput(g, rank, s, s', root, u);
    }
  }

  /** One turn of the loop over the inputs. */
  lemma InputTurn(g: Graph, rank: Tid -> nat, s: Progress, s1: Progress, s2: Progress, root: nat,
          values: seq<int>, current: nat, zeroed: bool)
    requires Ok(g, s) && Ok(g, s1) && VisitOk(g, rank, s, s1, root) && FinalOrOnStack(g, rank, s, rank(root))
    requires root in g && |values| < |Slots(g, root)| && InputDone(g, rank, s1, s2, root, |values|, current)
    requires InputsRead(g, rank, s1, root, values, zeroed) && (zeroed ==> Small(g) && WithinPlace(s))
    ensures Ok(g, s2) && s.seen <= s2.seen && VisitOk(g, rank, s, s2, root)
    ensures InputsRead(g, rank, s2, root, values + [ToInt(current)], zeroed)
  {
    hide Ok, VisitOk, FinalOrOnStack, InputsRead, WithinPlace, Dag, Depth, DependsOn, ToInt, Src;
    if Src(g, root, |values|).Some? {
      InputVisited(g, rank, s, s1, s2, root, Src(g, root, |values|).value, values, zeroed);
    } else {
      NullInput(g, rank, s1, root, values, zeroed);
    }
    VisitSizes(g, rank, s, s2, root);
    AfterInput(g, rank, s, s2, root);
  }

  lemma AfterInput(g: Graph, rank: Tid -> nat, s: Progress, s': Progress, u: nat)
    requires VisitOk(g, rank, s, s', u)
    ensures s.seen <= s'.seen <= g.Keys && s'.reach.Keys == g.Keys
  {}

  lemma RootMarked(g: Graph, rank: Tid -> nat, s: Progress, root: nat)
    requires Ok(g, s) && root in g && FinalOrOnStack(g, rank, s, rank(root) + 1)
    ensures var s1 := s.(seen := s.seen + {root});
      Ok(g, s1) && FinalOrOnStack(g, rank, s1, rank(root)) && VisitOk(g, rank, s1, s1, root)
      && (Slots(g, root) == [] ==> forall u :: !DependsOn(g, root, u))
      && (Dag(g, rank) && Slots(g, root) == [] ==> Depth(g, rank, root) == 0)
  {
    var s1 := s.(seen := s.seen + {root});
    if Dag(g, rank) && Small(g) {
      forall x | x in s1.seen ensures rank(x) >= rank(root) || Final(g, rank, s1, x) {
        if x in s.seen && rank(x) < rank(root) + 1 { assert Final(g, rank, s, x); }
      }
    }
  }

  /** What visiting all inputs of root does, and the largest of their values. */
  ghost predicate InputsDone(g: Graph, rank: Tid -> nat, s: Progress, s': Progress, root: nat, best: int) {
    && VisitOk(g, rank, s, s', root) && root in s'.reach
    && (forall u :: DependsOn(g, root, u) ==> u in s'.seen)
    && (Dag(g, rank) && Small(g) && root in g ==> best == MaxDepth(g, rank, root, |Slots(g, root)|))
    && (Small(g) && WithinPlace(s) ==> 0 <= best <= |s'.ended|)
  }

  /** Marking root, visiting its inputs and storing the value is a visit to root. */
  lemma RootTurn(g: Graph, rank: Tid -> nat, s: Progress, s2: Progress, root: nat, best: int, value: nat)
    requires Ok(g, s) && FinalOrOnStack(g, rank, s, rank(root) + 1) && root in g && root !in s.seen
    requires if Slots(g, root) == [] then s2 == s.(seen := s.seen + {root}) && value == 0
             else InputsDone(g, rank, s.(seen := s.seen + {root}), s2, root, best) && value == OneMore(best)
    ensures VisitOk(g, rank, s, Stored(s2, root, value), root) && root in s2.seen
    ensures Slots(g, root) != [] && Small(g) && (Dag(g, rank) || WithinPlace(s)) ==> best + 1 == value < 0x8000_0000
  {
    hide Ok, VisitOk, FinalOrOnStack, WithinPlace, MaxDepth, Dag, Depth, DependsOn, OneMore, Stored;
    var s1 := s.(seen := s.seen + {root});
    RootMarked(g, rank, s, root);
    if Slots(g, root) != [] { NoOverflow(g, rank, s, s2, root, best); }
    SamePlaces(s, s1);
    AfterInput(g, rank, s1, s2, root);
    RootVisited(g, rank, s, s1, s2, root, value);
  }

  lemma SamePlaces(s: Progress, s': Progress)
    requires s.ended == s'.ended && s.reach == s'.reach
    ensures WithinPlace(s) == WithinPlace(s')
  {}

  lemma NothingRead(g: Graph, rank: Tid -> nat, s: Progress, root: nat, zeroed: bool)
    ensures InputsRead(g, rank, s, root, [], zeroed)
  {}

  lemma NullInput(g: Graph, rank: Tid -> nat, s: Progress, root: nat, values: seq<int>, zeroed: bool)
    requires InputsRead(g, rank, s, root, values, zeroed) && |values| < |Slots(g, root)| && Src(g, root, |values|).None?
    ensures InputsRead(g, rank, s, root, values + [ToInt(0)], zeroed)
  {
    InputsReadMore(g, rank, s, root, values, 0, zeroed);
  }

  // ------------------------------------------------------- one shared marker

  ghost predicate ReachedFrom(g: Graph, roots: set<nat>, x: nat) { exists r :: r in roots && Reaches(g, r, x) }

  /** What visiting roots one after the other has done since s0. */
  ghost predicate Swept(g: Graph, rank: Tid -> nat, s0: Progress, s: Progress, roots: set<nat>) {
    && Ok(g, s0) && Grows(g, s0, s) && roots <= s.seen
    && (forall x :: x in s.seen ==> ReachedFrom(g, roots, x))
    && (forall x, y :: x in s.seen && DependsOn(g, x, y) ==> y in s.seen)
    && (Dag(g, rank) && Small(g) ==> forall x :: x in s.seen ==> Final(g, rank, s, x))
    && (Small(g) && WithinPlace(s0) ==> WithinPlace(s))
  }

  lemma SweepBegins(g: Graph, rank: Tid -> nat, s: Progress)
    requires Ok(g, s) && s.seen == {}
    ensures Swept(g, rank, s, s, {})
  {}

  lemma SweepReady(g: Graph, rank: Tid -> nat, s0: Progress, s: Progress, roots: set<nat>, least: nat)
    requires Swept(g, rank, s0, s, roots)
    ensures Ok(g, s) && FinalOrOnStack(g, rank, s, least)
  {}

  lemma SweepReaches(g: Graph, s1: Progress, s2: Progress, roots: set<nat>, root: nat)
    requires forall x :: x in s1.seen ==> ReachedFrom(g, roots, x)
    requires Explores(g, s1, s2, root)
    ensures forall x :: x in s2.seen ==> ReachedFrom(g, roots + {root}, x)
  {
    hide DependsOn, Reaches;
    forall x | x in s2.seen ensures ReachedFrom(g, roots + {root}, x) {
      if New(s1, s2, x) {} else { assert ReachedFrom(g, roots, x); }
    }
  }

  lemma SweepFinal(g: Graph, rank: Tid -> nat, s1: Progress, s2: Progress)
    requires Ok(g, s1) && Grows(g, s1, s2) && MakesFinal(g, rank, s1, s2)
    requires Dag(g, rank) && Small(g) ==> forall x :: x in s1.seen ==> Final(g, rank, s1, x)
    ensures Dag(g, rank) && Small(g) ==> forall x :: x in s2.seen ==> Final(g, rank, s2, x)
  {
    hide Dag, Depth;
    if Dag(g, rank) && Small(g) {
      forall x | x in s2.seen ensures Final(g, rank, s2, x) {
        if !New(s1, s2, x) { assert Final(g, rank, s1, x); }
      }
    }
  }

  lemma SweepTurn(g: Graph, rank: Tid -> nat, s0: Progress, s1: Progress, s2: Progress, roots: set<nat>, root: nat)
    requires Swept(g, rank, s0, s1, roots) && VisitOk(g, rank, s1, s2, root) && root in s2.seen
    ensures Swept(g, rank, s0, s2, roots + {root})
  {
    hide DependsOn, ReachedFrom, WithinPlace, Dag, Depth, Final, MakesFinal, Reaches;
    GrowsThen(g, s0, s1, s2);
    SweepReaches(g, s1, s2, roots, root);
    SweepFinal(g, rank, s1, s2);
    hide Ok;
    assert forall x :: x in s2.seen <==> x in s1.seen || New(s1, s2, x);
  }

  /** A sweep that starts with an empty marker visits exactly what its roots
      depend on, each node once. */
  lemma SweepVisits(g: Graph, rank: Tid -> nat, s0: Progress, s: Progress, roots: set<nat>)
    requires Swept(g, rank, s0, s, roots) && s0.seen == {} && s0.ended == []
    ensures forall x :: x in s.ended <==> ReachedFrom(g, roots, x)
    ensures forall x :: x in s.seen <==> ReachedFrom(g, roots, x)
  {
    hide Reaches, DependsOn, Final, WithinPlace;
    forall x | ReachedFrom(g, roots, x) ensures x in s.seen {
      var r :| r in roots && Reaches(g, r, x);
      ReachesWithin(g, s.seen, r, x);
    }
    assert forall x :: x in s.ended <==> New(s0, s, x);
  }

  /** At most the n-th place, counted from 1, of so many. */
  predicate Placed(value: nat, n: nat, size: nat) { value <= n + 1 <= size }

  /** What a sweep leaves behind. */
  lemma SweepEnds(g: Graph, rank: Tid -> nat, s0: Progress, s: Progress, roots: set<nat>)
    requires Swept(g, rank, s0, s, roots) && s0.seen == {} && s0.ended == []
    ensures forall a, b :: 0 <= a < b < |s.ended| ==> s.ended[a] != s.ended[b]
    ensures forall x :: x in s.ended <==> ReachedFrom(g, roots, x)
    ensures forall x :: x in s.ended ==> x in g
    ensures s.reach.Keys == g.Keys && forall x :: x in g && x !in s.ended ==> x in s0.reach && s.reach[x] == s0.reach[x]
    ensures Dag(g, rank) && Small(g) ==> forall x :: x in s.ended ==> s.reach[x] == Depth(g, rank, x)
    ensures Small(g) && (forall x :: x in s0.reach ==> s0.reach[x] == 0) ==>
      forall n :: 0 <= n < |s.ended| ==> Placed(s.reach[s.ended[n]], n, |g|)
  {
    hide ReachedFrom, DependsOn, Depth, Dag, WithinPlace;
    SweepVisits(g, rank, s0, s, roots);
    NoRepeatSize(s.ended, g.Keys);
    assert forall x :: x in s.ended <==> New(s0, s, x);
    if Small(g) && (forall x :: x in s0.reach ==> s0.reach[x] == 0) {
      Zeroed(s0);
      PlaceBound(s);
    }
  }

  lemma Zeroed(s: Progress)
    requires s.ended == [] && forall x :: x in s.reach ==> s.reach[x] == 0
    ensures WithinPlace(s)
  {}

  lemma PlaceBound(s: Progress)
    requires WithinPlace(s)
    ensures forall n :: 0 <= n < |s.ended| && s.ended[n] in s.reach ==> s.reach[s.ended[n]] <= n + 1
  {}

  lemma FreshMarker(g: Graph, rank: Tid -> nat, s: Progress, least: nat)
    requires s.seen == {} && s.ended == [] && s.reach.Keys == g.Keys
    ensures Ok(g, s) && FinalOrOnStack(g, rank, s, least)
  {}

  /** A node without inputs reaches only itself. */
  lemma LoneNode(g: Graph, rank: Tid -> nat, root: nat)
    requires root in g && Slots(g, root) == []
    ensures forall x :: Reaches(g, root, x) <==> x == root
    ensures Dag(g, rank) ==> Depth(g, rank, root) == 0
  {
    ReachesSelf(g, root);
    forall x | Reaches(g, root, x) ensures x == root { ReachesWithin(g, {root}, root, x); }
  }

  lemma ReachesWithin(g: Graph, inside: set<Tid>, v: Tid, u: Tid)
    requires Reaches(g, v, u) && v in inside
    requires forall x, y :: x in inside && DependsOn(g, x, y) ==> y in inside
    ensures u in inside
  {
    hide DependsOn;
    var path :| DependencyPath(g, path) && path[0] == v && path[|path| - 1] == u;
    ClosedHoldsReached(g, inside, path);
  }

  // ---------------------------------------------------- a marker of its own

  /** Visiting the inputs of root with an empty marker, which never marks root
      itself first, and storing the value. */
  lemma UnmarkedVisited(g: Graph, rank: Tid -> nat, s: Progress, s2: Progress, root: nat, best: int)
    requires Ok(g, s) && s.seen == {} && root in g && Slots(g, root) != [] && InputsDone(g, rank, s, s2, root, best)
    ensures s2.reach.Keys == g.Keys
    ensures forall x :: x in g && !Reaches(g, root, x) ==> s2.reach[x] == s.reach[x]
    ensures Dag(g, rank) && Small(g) ==> OneMore(best) == Depth(g, rank, root)
    ensures Dag(g, rank) && Small(g) ==>
      forall x :: x in g && Reaches(g, root, x) && x != root ==> s2.reach[x] == Depth(g, rank, x)
    ensures |g| < 0x7fff_ffff && WithinPlace(s) ==>
      OneMore(best) <= |g| + 1 && forall x :: x in g ==> s2.reach[x] <= |g|
  {
    LargestInput(g, rank, s, s2, root, best);
    hide Reaches, DependsOn, Depth, MaxDepth, Dag, OneMore;
    VisitSizes(g, rank, s, s2, root);
    if |g| < 0x7fff_ffff && WithinPlace(s) {
      OneMoreExact(best);
      PlaceSize(s2);
    }
    hide WithinPlace;
    forall x | x in g && !Reaches(g, root, x) ensures s2.reach[x] == s.reach[x] { assert !New(s, s2, x); }
    if Dag(g, rank) && Small(g) {
      MaxDepthNatural(g, rank, root, best);
      OneMoreExact(best);
      ReachedFinal(g, rank, s, s2, root);
    }
  }

  lemma PlaceSize(s: Progress)
    requires WithinPlace(s)
    ensures forall x :: x in s.reach ==> s.reach[x] <= |s.ended|
  {
    forall x | x in s.reach ensures s.reach[x] <= |s.ended| {
      if x in s.ended { var a :| 0 <= a < |s.ended| && s.ended[a] == x; }
    }
  }

  lemma ReachedFinal(g: Graph, rank: Tid -> nat, s: Progress, s2: Progress, root: nat)
    requires Dag(g, rank) && Small(g) && s.seen == {} && VisitOk(g, rank, s, s2, root) && root in g
    requires forall u :: DependsOn(g, root, u) ==> u in s2.seen
    ensures forall x :: x in g && Reaches(g, root, x) && x != root ==> x in s2.reach && s2.reach[x] == Depth(g, rank, x)
  {
    hide Reaches, DependsOn, Depth, Dag, Grows, WithinPlace;
    forall x | x in g && Reaches(g, root, x) && x != root ensures x in s2.reach && s2.reach[x] == Depth(g, rank, x) {
      forall y, z | y in s2.seen + {root} && DependsOn(g, y, z) ensures z in s2.seen + {root} {
        if y in s2.seen { assert New(s, s2, y); }
      }
      ReachesWithin(g, s2.seen + {root}, root, x);
      assert New(s, s2, x) && Final(g, rank, s2, x);
    }
  }
}
