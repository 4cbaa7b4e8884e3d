// Acyclic imports, and why the dependency traversal of the reflection service
// (fileDescWithDependencies in pkg/rpc/reflection/serverreflection.go) ends: it
// enqueues every import of every file it takes and prunes nothing.
module Dependencies {
  import opened Descriptors

  // Some file reaches itself through its imports.
  ghost predicate OnCycle(u: Universe, n: string) {
    n in u.files && exists m :: m in Imports(u, n) && Reaches(u, m, n)
  }

  // No chain of imports from the root leads to a cycle.
  ghost predicate AcyclicFrom(u: Universe, root: string) {
    forall n :: CycleFree(u, root, n)
  }

  ghost predicate CycleFree(u: Universe, root: string, n: string) {
    Reaches(u, root, n) ==> !OnCycle(u, n)
  }

  // A rank that falls along imports, for some files and everything they import.
  predicate Ranked(u: Universe, rank: map<string, nat>)
    requires WellFormed(u)
  {
    && rank.Keys <= u.files.Keys
    && forall n, m :: n in rank && m in Imports(u, n) ==> m in rank && rank[m] < rank[n]
  }

  // ---------------------------------------------------------------------
  // Heights: the files below a root without cycles have a rank
  // ---------------------------------------------------------------------

  // The longest chain from n, cut off at `fuel` files.
  function Height(u: Universe, n: string, fuel: nat): (h: nat)
    requires WellFormed(u) && n in u.files
    ensures h <= fuel
    decreases fuel, 1, 0
  {
    if fuel == 0 then 0 else 1 + Highest(u, Imports(u, n), fuel - 1)
  }

  function Highest(u: Universe, names: seq<string>, fuel: nat): (h: nat)
    requires WellFormed(u) && forall n :: n in names ==> n in u.files
    ensures h <= fuel
    decreases fuel, 2, |names|
  {
    if names == [] then 0
    else
      var rest := Highest(u, names[1..], fuel);
      var first := Height(u, names[0], fuel);
      if first >= rest then first else rest
  }

  lemma {:induction false} HighestBounds(u: Universe, names: seq<string>, fuel: nat, n: string)
    requires WellFormed(u) && (forall n :: n in names ==> n in u.files) && n in names
    ensures Height(u, n, fuel) <= Highest(u, names, fuel)
  {
    if n != names[0] { HighestBounds(u, names[1..], fuel, n); }
  }

  lemma {:induction false} HighestAttained(u: Universe, names: seq<string>, fuel: nat) returns (n: string)
    requires WellFormed(u) && (forall n :: n in names ==> n in u.files) && names != []
    ensures n in names && Height(u, n, fuel) == Highest(u, names, fuel)
  {
    if |names| == 1 || Height(u, names[0], fuel) >= Highest(u, names[1..], fuel) {
      n := names[0];
    } else {
      n := HighestAttained(u, names[1..], fuel);
    }
  }

  // A height that uses up the fuel is a chain of that many files.
  lemma {:induction false} TallChain(u: Universe, n: string, fuel: nat) returns (path: seq<string>)
    requires WellFormed(u) && n in u.files && fuel > 0 && Height(u, n, fuel) == fuel
    ensures Chain(u, path) && path[0] == n && |path| == fuel
    decreases fuel
  {
    if fuel == 1 {
      path := [n];
    } else {
      var m := HighestAttained(u, Imports(u, n), fuel - 1);
      var rest := TallChain(u, m, fuel - 1);
      path := [n] + rest;
      assert forall i :: 0 < i < |path| ==> path[i] == rest[i - 1];
      forall i: nat | i < |path| - 1 ensures Link(u, path, i) {
        if i > 0 { assert Link(u, rest, i - 1); } else { LinkIsImport(u, path, 0); }
      }
    }
  }

  // A height below the fuel does not grow with more fuel.
  lemma {:induction false} HeightSettles(u: Universe, n: string, fuel: nat)
    requires WellFormed(u) && n in u.files && Height(u, n, fuel) < fuel
    ensures Height(u, n, fuel + 1) == Height(u, n, fuel)
    decreases fuel, 1, 0
  {
    HighestSettles(u, Imports(u, n), fuel - 1);
  }

  lemma {:induction false} HighestSettles(u: Universe, names: seq<string>, fuel: nat)
    requires WellFormed(u) && (forall n :: n in names ==> n in u.files)
    requires names == [] || Highest(u, names, fuel) < fuel
    ensures Highest(u, names, fuel + 1) == Highest(u, names, fuel)
    decreases fuel, 2, |names|
  {
    if names != [] {
      HeightSettles(u, names[0], fuel);
      HighestSettles(u, names[1..], fuel);
    }
  }

  // A chain that visits a file twice closes a cycle.
  lemma RepeatIsCycle(u: Universe, path: seq<string>, i: nat, j: nat)
    requires WellFormed(u) && Chain(u, path) && i < j < |path| && path[i] == path[j]
    ensures OnCycle(u, path[i])
  {
    PartReaches(u, path, i + 1, j);
    LinkImports(u, path, i);
    CycleClosed(u, path[i], path[i + 1]);
  }

  lemma CycleClosed(u: Universe, n: string, m: string)
    requires n in u.files && m in Imports(u, n) && Reaches(u, m, n)
    ensures OnCycle(u, n)
  {}

  lemma {:induction false} DistinctBound(names: seq<string>, all: set<string>)
    requires forall i, j :: 0 <= i < j < |names| ==> names[i] != names[j]
    requires forall i :: 0 <= i < |names| ==> names[i] in all
    ensures |names| <= |all|
  {
    if names != [] {
      var last := |names| - 1;
      DistinctBound(names[..last], all - {names[last]});
    }
  }

  lemma ReachesChain(u: Universe, root: string, path: seq<string>, i: nat)
    requires Chain(u, path) && Reaches(u, root, path[0]) && i < |path|
    ensures Reaches(u, root, path[i])
  {
    PartReaches(u, path, 0, i);
    ReachesOn(u, root, path[0], path[i]);
  }

  lemma NoLongChain(u: Universe, root: string, path: seq<string>)
    requires WellFormed(u) && AcyclicFrom(u, root) && Chain(u, path) && Reaches(u, root, path[0])
    ensures |path| <= |u.files.Keys|
  {
    forall i, j | 0 <= i < j < |path| ensures path[i] != path[j] {
      assert CycleFree(u, root, path[i]);
      if path[i] == path[j] {
        RepeatIsCycle(u, path, i, j);
        ReachesChain(u, root, path, i);
      }
    }
    DistinctBound(path, u.files.Keys);
  }

  lemma HeightFalls(u: Universe, root: string, n: string, m: string)
    requires WellFormed(u) && AcyclicFrom(u, root) && Reaches(u, root, n) && n in u.files && m in Imports(u, n)
    ensures Height(u, m, |u.files.Keys| + 1) < Height(u, n, |u.files.Keys| + 1)
  {
    var limit := |u.files.Keys|;
    if Height(u, n, limit + 1) == limit + 1 {
      var path := TallChain(u, n, limit + 1);
      NoLongChain(u, root, path);
    }
    HighestBounds(u, Imports(u, n), limit, m);
    HeightSettles(u, m, limit);
  }

  // The files below the root.
  ghost function Below(u: Universe, root: string): (below: set<string>)
    ensures forall n :: n in below <==> n in u.files && Reaches(u, root, n)
  {
    set n | n in u.files && Reaches(u, root, n)
  }

  // The height of m is below that of n, with fuel for every file.
  predicate Lower(u: Universe, m: string, n: string)
    requires WellFormed(u)
  {
    && m in u.files && n in u.files
    && Height(u, m, |u.files.Keys| + 1) < Height(u, n, |u.files.Keys| + 1)
  }

  lemma BelowFalls(u: Universe, root: string, n: string, m: string)
    requires WellFormed(u) && AcyclicFrom(u, root) && n in Below(u, root) && m in Imports(u, n)
    ensures m in Below(u, root) && Lower(u, m, n)
  {
    ReachesStep(u, root, n, m);
    HeightFalls(u, root, n, m);
  }

  // The files of `below` import files of `below`, lower ones.
  ghost predicate Falling(u: Universe, below: set<string>)
    requires WellFormed(u) && below <= u.files.Keys
  {
    forall n, m :: Falls(u, below, n, m)
  }

  ghost predicate Falls(u: Universe, below: set<string>, n: string, m: string)
    requires WellFormed(u) && below <= u.files.Keys
  {
    n in below && m in Imports(u, n) ==> m in below && Lower(u, m, n)
  }

  lemma BelowIsFalling(u: Universe, root: string, below: set<string>)
    requires WellFormed(u) && AcyclicFrom(u, root) && below == Below(u, root) && below <= u.files.Keys
    ensures Falling(u, below)
  {
    forall n, m ensures Falls(u, below, n, m) {
      if n in below && m in Imports(u, n) { BelowFalls(u, root, n, m); }
    }
  }

  lemma RankByHeight(u: Universe, below: set<string>) returns (rank: map<string, nat>)
    requires WellFormed(u) && below <= u.files.Keys && Falling(u, below)
    ensures Ranked(u, rank) && rank.Keys == below
  {
    rank := map n | n in below :: Height(u, n, |u.files.Keys| + 1);
    forall n, m | n in rank && m in Imports(u, n) ensures m in rank && rank[m] < rank[n] {
      assert Falls(u, below, n, m);
    }
  }

  lemma AcyclicRank(u: Universe, root: string) returns (rank: map<string, nat>)
    requires WellFormed(u) && AcyclicFrom(u, root)
    ensures Ranked(u, rank) && rank.Keys == Below(u, root)
  {
    var below := Below(u, root);
    assert below <= u.files.Keys;
    BelowIsFalling(u, root, below);
    rank := RankByHeight(u, below);
  }

  // ---------------------------------------------------------------------
  // The queue
  // ---------------------------------------------------------------------

  // One turn of the loop on the names in the queue.
  function Turn(u: Universe, queue: seq<string>): (next: seq<string>)
    requires WellFormed(u) && forall n :: n in queue ==> n in u.files
    ensures forall n :: n in next ==> n in u.files
  {
    if queue == [] then [] else queue[1..] + Imports(u, queue[0])
  }

  function Turns(u: Universe, queue: seq<string>, k: nat): (next: seq<string>)
    requires WellFormed(u) && forall n :: n in queue ==> n in u.files
    ensures forall n :: n in next ==> n in u.files
  {
    if k == 0 then queue else Turn(u, Turns(u, queue, k - 1))
  }

  // The files of the import tree below n, shared files counted each time.
  function TreeSize(u: Universe, rank: map<string, nat>, n: string): nat
    requires WellFormed(u) && Ranked(u, rank) && n in rank
    decreases rank[n], 1, 0
  {
    1 + ForestSize(u, rank, rank[n], Imports(u, n))
  }

  function ForestSize(u: Universe, rank: map<string, nat>, below: nat, names: seq<string>): nat
    requires WellFormed(u) && Ranked(u, rank)
    requires forall n :: n in names ==> n in rank && rank[n] < below
    decreases below, 0, |names|
  {
    if names == [] then 0 else TreeSize(u, rank, names[0]) + ForestSize(u, rank, below, names[1..])
  }

  // The measure of the loop.
  function QueueSize(u: Universe, rank: map<string, nat>, queue: seq<string>): nat
    requires WellFormed(u) && Ranked(u, rank) && forall n :: n in queue ==> n in rank
  {
    if queue == [] then 0 else TreeSize(u, rank, queue[0]) + QueueSize(u, rank, queue[1..])
  }

  lemma {:induction false} QueueSizeAppend(u: Universe, rank: map<string, nat>, a: seq<string>, b: seq<string>)
    requires WellFormed(u) && Ranked(u, rank)
    requires (forall n :: n in a ==> n in rank) && forall n :: n in b ==> n in rank
    ensures QueueSize(u, rank, a + b) == QueueSize(u, rank, a) + QueueSize(u, rank, b)
  {
    if a == [] {
      assert a + b == b;
    } else {
      assert (a + b)[1..] == a[1..] + b;
      QueueSizeAppend(u, rank, a[1..], b);
    }
  }

  lemma {:induction false} ForestIsQueue(u: Universe, rank: map<string, nat>, below: nat, names: seq<string>)
    requires WellFormed(u) && Ranked(u, rank)
    requires forall n :: n in names ==> n in rank && rank[n] < below
    ensures ForestSize(u, rank, below, names) == QueueSize(u, rank, names)
  {
    if names != [] { ForestIsQueue(u, rank, below, names[1..]); }
  }

  /** A turn of the loop takes one file off the unrolled import trees in the queue. */
  lemma TurnLowers(u: Universe, rank: map<string, nat>, queue: seq<string>)
    requires WellFormed(u) && Ranked(u, rank) && (forall n :: n in queue ==> n in rank) && queue != []
    ensures forall n :: n in Turn(u, queue) ==> n in rank
    ensures QueueSize(u, rank, Turn(u, queue)) == QueueSize(u, rank, queue) - 1
  {
    QueueSizeAppend(u, rank, queue[1..], Imports(u, queue[0]));
    ForestIsQueue(u, rank, rank[queue[0]], Imports(u, queue[0]));
  }

  lemma {:induction false} TurnsEnd(u: Universe, rank: map<string, nat>, queue: seq<string>, k: nat)
    requires WellFormed(u) && Ranked(u, rank) && (forall n :: n in queue ==> n in rank)
    ensures forall n :: n in Turns(u, queue, k) ==> n in rank
    ensures QueueSize(u, rank, Turns(u, queue, k)) + k <= QueueSize(u, rank, queue) || Turns(u, queue, k) == []
  {
    if k > 0 {
      TurnsEnd(u, rank, queue, k - 1);
      var before := Turns(u, queue, k - 1);
      if before != [] { TurnLowers(u, rank, before); }
    }
  }

  lemma TurnKeeps(u: Universe, queue: seq<string>, m: string, n: string)
    requires WellFormed(u) && (forall q :: q in queue ==> q in u.files) && m in queue
    ensures m == queue[0] || m in Turn(u, queue)
    ensures n in Imports(u, queue[0]) ==> n in Turn(u, queue)
  {
    assert queue == [queue[0]] + queue[1..];
  }

  // A file in the queue that reaches a cycle leaves one in the queue.
  lemma CycleTurn(u: Universe, queue: seq<string>, m: string, c: string) returns (n: string)
    requires WellFormed(u) && (forall q :: q in queue ==> q in u.files) && m in queue
    requires Reaches(u, m, c) && OnCycle(u, c)
    ensures n in Turn(u, queue) && Reaches(u, n, c)
  {
    n := m;
    TurnKeeps(u, queue, m, m);
    if m == queue[0] {
      n := NextOnTheWay(u, m, c);
      TurnKeeps(u, queue, m, n);
    }
  }

  lemma {:induction false} CycleStays(u: Universe, root: string, c: string, k: nat) returns (n: string)
    requires WellFormed(u) && root in u.files && Reaches(u, root, c) && OnCycle(u, c)
    ensures n in Turns(u, [root], k) && Reaches(u, n, c)
  {
    if k == 0 {
      n := root;
    } else {
      var m := CycleStays(u, root, c, k - 1);
      n := CycleTurn(u, Turns(u, [root], k - 1), m, c);
    }
  }

  lemma NextOnTheWay(u: Universe, m: string, c: string) returns (n: string)
    requires WellFormed(u) && m in u.files && Reaches(u, m, c) && OnCycle(u, c)
    ensures n in Imports(u, m) && Reaches(u, n, c)
  {
    if m == c {
      n :| n in Imports(u, c) && Reaches(u, n, c);
    } else {
      var path :| Chain(u, path) && path[0] == m && path[|path| - 1] == c;
      n := path[1];
      LinkImports(u, path, 0);
      PartReaches(u, path, 1, |path| - 1);
    }
  }

  ghost predicate Ends(u: Universe, root: string)
    requires WellFormed(u) && root in u.files
  {
    exists k :: Turns(u, [root], k) == []
  }

  lemma AcyclicEnds(u: Universe, root: string)
    requires WellFormed(u) && root in u.files && AcyclicFrom(u, root)
    ensures Ends(u, root)
  {
    var rank := AcyclicRank(u, root);
    ReachesSelf(u, root);
    var k := QueueSize(u, rank, [root]) + 1;
    TurnsEnd(u, rank, [root], k);
    assert Turns(u, [root], k) == [];
  }

  lemma CycleNeverEnds(u: Universe, root: string, c: string)
    requires WellFormed(u) && root in u.files && Reaches(u, root, c) && OnCycle(u, c)
    ensures !Ends(u, root)
  {
    forall k: nat ensures Turns(u, [root], k) != [] {
      var n := CycleStays(u, root, c, k);
    }
  }

  /** The traversal from a root empties its queue exactly when no chain of imports
      from that root leads to a cycle: it has no visited check on enqueue that would
      break one. */
  lemma TraversalEndsExactly(u: Universe, root: string)
    requires WellFormed(u) && root in u.files
    ensures Ends(u, root) <==> AcyclicFrom(u, root)
  {
    if AcyclicFrom(u, root) {
      AcyclicEnds(u, root);
    } else {
      var c :| !CycleFree(u, root, c);
      CycleNeverEnds(u, root, c);
    }
  }
}
