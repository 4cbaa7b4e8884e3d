// What the symbol scan of the reflection service computes
// (pkg/rpc/reflection/serverreflection.go): a depth-first walk from the files of the
// registered services along imports, marking each file once; the names a file
// declares lead to the file marked last.
module SymbolScan {
  import opened Wire
  import opened Descriptors

  type Symbols = map<string, File>

  // All `names` now lead to fd.
  function Stamp(symbols: Symbols, names: set<string>, fd: File): Symbols {
    symbols + map n | n in names :: fd
  }

  function Elements(names: seq<string>): set<string> { set n | n in names }

  // The files a depth-first walk marks, in order: `stack` is what is left to visit.
  function Marks(u: Universe, stack: seq<string>, marked: seq<string>): (all: seq<string>)
    requires WellFormed(u) && Elements(stack) <= u.files.Keys && Elements(marked) <= u.files.Keys
    ensures marked <= all && Elements(all) <= u.files.Keys
    decreases u.files.Keys - Elements(marked), |stack|
  {
    if stack == [] then marked
    else if stack[0] in marked then Marks(u, stack[1..], marked)
    else
      assert stack[0] in u.files.Keys - Elements(marked) && stack[0] !in u.files.Keys - Elements(marked + [stack[0]]);
      Marks(u, Imports(u, stack[0]) + stack[1..], marked + [stack[0]])
  }

  // Walking the stack takes the marked files from `marked` to `all`.
  ghost predicate Walk(u: Universe, stack: seq<string>, marked: seq<string>, all: seq<string>)
    requires WellFormed(u)
  {
    Elements(stack) <= u.files.Keys && Elements(marked) <= u.files.Keys && all == Marks(u, stack, marked)
  }

  lemma WalkNothing(u: Universe, marked: seq<string>)
    requires WellFormed(u) && Elements(marked) <= u.files.Keys
    ensures Walk(u, [], marked, marked)
  {}

  lemma WalkMarked(u: Universe, n: string, marked: seq<string>)
    requires WellFormed(u) && Elements(marked) <= u.files.Keys && n in marked
    ensures Walk(u, [n], marked, marked)
  {
    assert n in Elements(marked);
    assert Marks(u, [n][1..], marked) == marked;
  }

  // Their declarations, the later file over the earlier.
  function Index(u: Universe, marked: seq<string>): Symbols
    requires WellFormed(u) && Elements(marked) <= u.files.Keys
  {
    if marked == [] then map[]
    else
      var front, last := marked[..|marked| - 1], u.files[marked[|marked| - 1]];
      assert Elements(front) <= Elements(marked);
      Stamp(Index(u, front), Names(last), last)
  }

  // ---------------------------------------------------------------------
  // Services
  // ---------------------------------------------------------------------

  // What a service's metadata is: nothing usable, the name of its file, or the
  // encoded file itself.
  datatype Metadata = Unusable | FileName(name: string) | Encoded(file: File)

  // parseMetadata and decodeFileDesc.
  function Root(u: Universe, m: Metadata): (root: Option<File>)
    requires WellFormed(u)
  {
    match m
    case Unusable => None
    case FileName(n) => if n in u.registered then Some(u.files[n]) else None
    case Encoded(f) => Some(f)
  }

  // An encoded file is the process's file of that name.
  predicate KnownMetadata(u: Universe, services: map<string, Metadata>) {
    forall s :: s in services && services[s].Encoded? ==>
      services[s].file.name in u.files && u.files[services[s].file.name] == services[s].file
  }

  // The files of the services, in the order they are visited.
  function Roots(u: Universe, services: map<string, Metadata>, visited: seq<string>): (roots: seq<string>)
    requires WellFormed(u) && KnownMetadata(u, services) && Elements(visited) <= services.Keys
    ensures Elements(roots) <= u.files.Keys
    ensures forall n :: n in roots <==> exists s :: s in visited && IsRoot(u, services[s], n)
  {
    if visited == [] then []
    else
      var front, last := visited[..|visited| - 1], visited[|visited| - 1];
      assert visited == front + [last] && Elements(front) <= Elements(visited);
      var root := Root(u, services[last]);
      Roots(u, services, front) + (if root.Some? then [root.value.name] else [])
  }

  predicate IsRoot(u: Universe, m: Metadata, n: string)
    requires WellFormed(u)
  {
    Root(u, m).Some? && Root(u, m).value.name == n
  }

  /** The index getSymbols builds when it visits the services in this order. */
  function Scan(u: Universe, services: map<string, Metadata>, visited: seq<string>): Symbols
    requires WellFormed(u) && KnownMetadata(u, services) && Elements(visited) <= services.Keys
  {
    Index(u, Marks(u, Roots(u, services, visited), []))
  }

  // ---------------------------------------------------------------------
  // Walks
  // ---------------------------------------------------------------------

  // Walking a then b is walking b after a.
  lemma {:induction false} MarksConcat(u: Universe, a: seq<string>, b: seq<string>, marked: seq<string>)
    requires WellFormed(u) && Elements(marked) <= u.files.Keys
    requires Elements(a) <= u.files.Keys && Elements(b) <= u.files.Keys
    ensures Elements(a + b) <= u.files.Keys
    ensures Marks(u, a + b, marked) == Marks(u, b, Marks(u, a, marked))
    decreases u.files.Keys - Elements(marked), |a|
  {
    assert forall n :: n in a + b ==> n in a || n in b;
    if a == [] {
      assert a + b == b;
    } else {
      assert (a + b)[0] == a[0] && (a + b)[1..] == a[1..] + b;
      if a[0] in marked {
        assert Elements(a[1..]) <= Elements(a);
        MarksConcat(u, a[1..], b, marked);
      } else {
        assert Imports(u, a[0]) + (a[1..] + b) == (Imports(u, a[0]) + a[1..]) + b;
        assert a[0] in u.files.Keys - Elements(marked) && a[0] !in u.files.Keys - Elements(marked + [a[0]]);
        MarksConcat(u, Imports(u, a[0]) + a[1..], b, marked + [a[0]]);
      }
    }
  }

  ghost predicate Distinct(names: seq<string>) {
    forall i, j :: 0 <= i < j < |names| ==> names[i] != names[j]
  }

  lemma {:induction false} MarksDistinct(u: Universe, stack: seq<string>, marked: seq<string>)
    requires WellFormed(u) && Elements(stack) <= u.files.Keys && Elements(marked) <= u.files.Keys
    requires Distinct(marked)
    ensures Distinct(Marks(u, stack, marked))
    decreases u.files.Keys - Elements(marked), |stack|
  {
    if stack != [] {
      if stack[0] in marked {
        MarksDistinct(u, stack[1..], marked);
      } else {
        assert stack[0] in u.files.Keys - Elements(marked) && stack[0] !in u.files.Keys - Elements(marked + [stack[0]]);
        MarksDistinct(u, Imports(u, stack[0]) + stack[1..], marked + [stack[0]]);
      }
    }
  }

  // Marked files import marked or stacked files.
  ghost predicate Covered(u: Universe, stack: seq<string>, marked: seq<string>)
    requires WellFormed(u) && Elements(marked) <= u.files.Keys
  {
    forall n, m :: n in marked && m in Imports(u, n) ==> m in marked || m in stack
  }

  lemma {:induction false} MarksCover(u: Universe, stack: seq<string>, marked: seq<string>)
    requires WellFormed(u) && Elements(stack) <= u.files.Keys && Elements(marked) <= u.files.Keys
    requires Covered(u, stack, marked)
    ensures var all := Marks(u, stack, marked); Covered(u, [], all) && forall n :: n in stack ==> n in all
    decreases u.files.Keys - Elements(marked), |stack|
  {
    if stack != [] {
      assert stack == [stack[0]] + stack[1..];
      if stack[0] in marked {
        MarksCover(u, stack[1..], marked);
      } else {
        assert stack[0] in u.files.Keys - Elements(marked) && stack[0] !in u.files.Keys - Elements(marked + [stack[0]]);
        MarksCover(u, Imports(u, stack[0]) + stack[1..], marked + [stack[0]]);
        assert stack[0] in marked + [stack[0]];
      }
    }
  }

  lemma {:induction false} MarksReach(u: Universe, stack: seq<string>, marked: seq<string>, roots: set<string>)
    requires WellFormed(u) && Elements(stack) <= u.files.Keys && Elements(marked) <= u.files.Keys
    requires forall n :: n in stack || n in marked ==> ReachedFrom(u, roots, n)
    ensures forall n :: n in Marks(u, stack, marked) ==> ReachedFrom(u, roots, n)
    decreases u.files.Keys - Elements(marked), |stack|
  {
    if stack != [] {
      if stack[0] in marked {
        MarksReach(u, stack[1..], marked, roots);
      } else {
        var top := stack[0];
        var from :| from in roots && Reaches(u, from, top);
        forall m | m in Imports(u, top) ensures ReachedFrom(u, roots, m) {
          ReachesStep(u, from, top, m);
        }
        assert top in u.files.Keys - Elements(marked) && top !in u.files.Keys - Elements(marked + [top]);
        MarksReach(u, Imports(u, top) + stack[1..], marked + [top], roots);
      }
    }
  }

  lemma ReachedAreMarked(u: Universe, roots: seq<string>, n: string)
    requires WellFormed(u) && Elements(roots) <= u.files.Keys && ReachedFrom(u, Elements(roots), n)
    ensures n in Marks(u, roots, [])
  {
    var all := Marks(u, roots, []);
    MarksCover(u, roots, []);
    var from :| from in Elements(roots) && Reaches(u, from, n);
    ClosedHolds(u, Elements(all), from, n);
  }

  /** The walk marks exactly the files reached from its roots along imports. */
  lemma MarksAreReached(u: Universe, roots: seq<string>)
    requires WellFormed(u) && Elements(roots) <= u.files.Keys
    ensures forall n :: n in Marks(u, roots, []) <==> ReachedFrom(u, Elements(roots), n)
  {
    forall n | n in roots ensures ReachedFrom(u, Elements(roots), n) { ReachesSelf(u, n); }
    MarksReach(u, roots, [], Elements(roots));
    forall n | ReachedFrom(u, Elements(roots), n) ensures n in Marks(u, roots, []) { ReachedAreMarked(u, roots, n); }
  }

  // ---------------------------------------------------------------------
  // What the index is
  // ---------------------------------------------------------------------

  // A naive scan: everything the files declare.
  ghost predicate Declares(u: Universe, names: set<string>, symbol: string, f: File)
    requires WellFormed(u) && names <= u.files.Keys
  {
    f.name in names && u.files[f.name] == f && symbol in Names(f)
  }

  // Every fully qualified name is declared in one of the files.
  ghost predicate DeclaredOnce(u: Universe, names: set<string>)
    requires WellFormed(u) && names <= u.files.Keys
  {
    forall k, f, g :: Declares(u, names, k, f) && Declares(u, names, k, g) ==> f == g
  }

  // The index is sound and complete for the files.
  ghost predicate Indexes(u: Universe, symbols: Symbols, names: set<string>)
    requires WellFormed(u) && names <= u.files.Keys
  {
    && (forall k :: k in symbols ==> Declares(u, names, k, symbols[k]))
    && (forall k, f :: Declares(u, names, k, f) ==> k in symbols)
  }

  lemma {:induction false} IndexOfMarks(u: Universe, marked: seq<string>)
    requires WellFormed(u) && Elements(marked) <= u.files.Keys
    ensures Indexes(u, Index(u, marked), Elements(marked))
  {
    if marked != [] {
      var front, last := marked[..|marked| - 1], marked[|marked| - 1];
      assert marked == front + [last] && Elements(front) <= Elements(marked);
      assert Elements(marked) == Elements(front) + {last};
      IndexOfMarks(u, front);
      IndexesMore(u, Index(u, front), Elements(front), u.files[last]);
    }
  }

  // Marking a file and stamping its names keeps the index sound and complete.
  lemma IndexesMore(u: Universe, symbols: Symbols, names: set<string>, fd: File)
    requires WellFormed(u) && names <= u.files.Keys && Indexes(u, symbols, names)
    requires fd.name in u.files && u.files[fd.name] == fd
    ensures Indexes(u, Stamp(symbols, Names(fd), fd), names + {fd.name})
  {
    forall k, f | Declares(u, names + {fd.name}, k, f) ensures k in symbols || k in Names(fd) {
      if f.name in names { assert Declares(u, names, k, f); }
    }
  }

  /** The index holds exactly the symbols declared by the files reached from those of
      the services, each with a file that declares it; if every name is declared once
      it is the naive scan itself. */
  lemma IndexIsTheScan(u: Universe, services: map<string, Metadata>, visited: seq<string>)
    requires WellFormed(u) && KnownMetadata(u, services) && Elements(visited) <= services.Keys
    ensures var symbols := Scan(u, services, visited);
            var names := Elements(Marks(u, Roots(u, services, visited), []));
            && (forall n :: n in names <==> ReachedFrom(u, Elements(Roots(u, services, visited)), n))
            && (forall k :: k in symbols ==> Declares(u, names, k, symbols[k]))
            && (forall k, f :: Declares(u, names, k, f) ==> k in symbols)
            && (DeclaredOnce(u, names) ==> forall k, f :: Declares(u, names, k, f) <==> k in symbols && symbols[k] == f)
  {
    var roots := Roots(u, services, visited);
    MarksAreReached(u, roots);
    IndexOfMarks(u, Marks(u, roots, []));
  }

  // ---------------------------------------------------------------------
  // The order of services
  // ---------------------------------------------------------------------

  // An order in which the range over a map can visit the services.
  ghost predicate Order(services: map<string, Metadata>, visited: seq<string>) {
    Elements(visited) == services.Keys && Distinct(visited)
  }

  // The order of the services never matters.
  ghost predicate OrderIrrelevant(u: Universe)
    requires WellFormed(u)
  {
    forall services, v, w :: KnownMetadata(u, services) && Order(services, v) && Order(services, w) ==>
      Scan(u, services, v) == Scan(u, services, w)
  }

  lemma OneIndex(u: Universe, names: set<string>, s: Symbols, t: Symbols)
    requires WellFormed(u) && names <= u.files.Keys && DeclaredOnce(u, names)
    requires Indexes(u, s, names) && Indexes(u, t, names)
    ensures s == t
  {
    assert forall k :: k in s ==> Declares(u, names, k, s[k]);
    assert forall k :: k in t ==> Declares(u, names, k, t[k]);
  }

  lemma SameMarks(u: Universe, services: map<string, Metadata>, v: seq<string>, w: seq<string>)
    requires WellFormed(u) && KnownMetadata(u, services) && Order(services, v) && Order(services, w)
    ensures Elements(Marks(u, Roots(u, services, v), [])) == Elements(Marks(u, Roots(u, services, w), []))
  {
    var rv, rw := Roots(u, services, v), Roots(u, services, w);
    assert forall s :: s in v <==> s in Elements(v);
    assert forall s :: s in w <==> s in Elements(w);
    assert Elements(rv) == Elements(rw);
    MarksAreReached(u, rv);
    MarksAreReached(u, rw);
  }

  lemma OnceMeansOrderless(u: Universe, services: map<string, Metadata>, v: seq<string>, w: seq<string>)
    requires WellFormed(u) && KnownMetadata(u, services) && Order(services, v) && Order(services, w)
    requires DeclaredOnce(u, u.files.Keys)
    ensures Scan(u, services, v) == Scan(u, services, w)
  {
    var mv, mw := Marks(u, Roots(u, services, v), []), Marks(u, Roots(u, services, w), []);
    SameMarks(u, services, v, w);
    IndexOfMarks(u, mv);
    IndexOfMarks(u, mw);
    forall k, f, g | Declares(u, Elements(mv), k, f) && Declares(u, Elements(mv), k, g) ensures f == g {
      assert Declares(u, u.files.Keys, k, f) && Declares(u, u.files.Keys, k, g);
    }
    OneIndex(u, Elements(mv), Index(u, mv), Index(u, mw));
  }

  // The file marked last among those that declare the symbol; it owns the symbol.
  lemma {:induction false} Owner(u: Universe, marked: seq<string>, k: string, j: nat) returns (i: nat)
    requires WellFormed(u) && Elements(marked) <= u.files.Keys
    requires j < |marked| && k in Names(u.files[marked[j]])
    ensures j <= i < |marked| && k in Names(u.files[marked[i]])
    ensures k in Index(u, marked) && Index(u, marked)[k] == u.files[marked[i]]
  {
    var front, last := marked[..|marked| - 1], |marked| - 1;
    assert Elements(front) <= Elements(marked);
    if k in Names(u.files[marked[last]]) {
      i := last;
    } else {
      i := Owner(u, front, k, j);
    }
  }

  // The index when f's service is visited before g's.
  function PairScan(u: Universe, f: File, g: File): Symbols
    requires WellFormed(u) && f.name in u.files && g.name in u.files
  {
    Index(u, Marks(u, [f.name, g.name], []))
  }

  lemma PairOrder(u: Universe, f: File, g: File)
    requires WellFormed(u) && f.name in u.files && g.name in u.files && u.files[f.name] == f && u.files[g.name] == g
    requires OrderIrrelevant(u)
    ensures PairScan(u, f, g) == PairScan(u, g, f)
  {
    TwoServices(u, f, g, "f", "g");
  }

  // Services s and t of files f and g.
  lemma TwoServices(u: Universe, f: File, g: File, s: string, t: string)
    requires WellFormed(u) && f.name in u.files && g.name in u.files && u.files[f.name] == f && u.files[g.name] == g
    requires OrderIrrelevant(u) && s != t
    ensures PairScan(u, f, g) == PairScan(u, g, f)
  {
    var services := map[s := Encoded(f), t := Encoded(g)];
    assert KnownMetadata(u, services);
    assert Order(services, [s, t]) && Order(services, [t, s]);
    assert Scan(u, services, [s, t]) == Scan(u, services, [t, s]);
    RootsOfTwo(u, services, s, t, f, g);
    RootsOfTwo(u, services, t, s, g, f);
  }

  lemma RootsOfTwo(u: Universe, services: map<string, Metadata>, s: string, t: string, f: File, g: File)
    requires WellFormed(u) && KnownMetadata(u, services) && s in services && t in services
    requires services[s] == Encoded(f) && services[t] == Encoded(g)
    ensures Roots(u, services, [s, t]) == [f.name, g.name]
  {
    assert [s, t][..1] == [s] && [s][..0] == [];
    assert Roots(u, services, [s]) == [f.name];
  }

  // The first file a walk marks is its first root.
  lemma FirstMarked(u: Universe, roots: seq<string>)
    requires WellFormed(u) && Elements(roots) <= u.files.Keys && roots != []
    ensures Marks(u, roots, []) != [] && Marks(u, roots, [])[0] == roots[0]
  {
    var rest := Imports(u, roots[0]) + roots[1..];
    assert [] + [roots[0]] <= Marks(u, rest, [] + [roots[0]]);
  }

  // With another declaring file in its walk, a first root does not own the symbol.
  lemma FirstIsNotOwner(u: Universe, roots: seq<string>, k: string, g: string)
    requires WellFormed(u) && Elements(roots) <= u.files.Keys && roots != []
    requires g in Marks(u, roots, []) && g != roots[0] && k in Names(u.files[g])
    ensures k in Index(u, Marks(u, roots, [])) && Index(u, Marks(u, roots, []))[k].name != roots[0]
  {
    var all := Marks(u, roots, []);
    FirstMarked(u, roots);
    MarksDistinct(u, roots, []);
    var j :| 0 <= j < |all| && all[j] == g;
    var i := Owner(u, all, k, j);
    assert all[i] != all[0];
  }

  // A file marked from the first root changes nothing as a second one.
  lemma SecondIsMarked(u: Universe, f: string, g: string)
    requires WellFormed(u) && f in u.files && g in Marks(u, [f], [])
    ensures g in u.files && Marks(u, [f, g], []) == Marks(u, [f], [])
  {
    var one := Marks(u, [f], []);
    assert g in Elements(one);
    assert [f] + [g] == [f, g];
    MarksConcat(u, [f], [g], []);
    assert Marks(u, [g], one) == Marks(u, [], one);
  }

  lemma BothMarked(u: Universe, f: string, g: string)
    requires WellFormed(u) && f in u.files && g in u.files
    ensures f in Marks(u, [f, g], []) && g in Marks(u, [f, g], [])
  {
    MarksCover(u, [f, g], []);
    assert f in [f, g] && g in [f, g];
  }

  // One declaring file f reaches another: f and the file that owns the symbol after a
  // walk from f, visited in both orders.
  lemma OneReachesOther(u: Universe, k: string, f: File, g: File)
    requires WellFormed(u) && Declares(u, u.files.Keys, k, f) && Declares(u, u.files.Keys, k, g) && f != g
    requires g.name in Marks(u, [f.name], [])
    ensures !OrderIrrelevant(u)
  {
    var one := Marks(u, [f.name], []);
    FirstIsNotOwner(u, [f.name], k, g.name);
    var j :| 0 <= j < |one| && one[j] == g.name;
    var i := Owner(u, one, k, j);
    var h := u.files[one[i]];
    assert h.name in one && h.name != f.name;
    SecondIsMarked(u, f.name, h.name);
    BothMarked(u, h.name, f.name);
    FirstIsNotOwner(u, [h.name, f.name], k, f.name);
    if OrderIrrelevant(u) { PairOrder(u, f, h); }
  }

  // No declaring file reaches another.
  lemma NoneReachesOther(u: Universe, k: string, f: File, g: File)
    requires WellFormed(u) && Declares(u, u.files.Keys, k, f) && Declares(u, u.files.Keys, k, g) && f != g
    requires forall a, b :: Declares(u, u.files.Keys, k, a) && Declares(u, u.files.Keys, k, b) && a != b
                            ==> b.name !in Marks(u, [a.name], [])
    ensures k in PairScan(u, f, g) && PairScan(u, f, g)[k] == g
  {
    var all := Marks(u, [f.name, g.name], []);
    BothMarked(u, f.name, g.name);
    FirstIsNotOwner(u, [f.name, g.name], k, g.name);
    var j :| 0 <= j < |all| && all[j] == g.name;
    var i := Owner(u, all, k, j);
    var h := u.files[all[i]];
    MarkedFromOne(u, f.name, g.name, h.name);
    assert Declares(u, u.files.Keys, k, h);
  }

  // What two roots reach, one of them does.
  lemma MarkedFromOne(u: Universe, f: string, g: string, h: string)
    requires WellFormed(u) && f in u.files && g in u.files && h in Marks(u, [f, g], [])
    ensures h in Marks(u, [f], []) || h in Marks(u, [g], [])
  {
    MarksAreReached(u, [f, g]);
    MarksAreReached(u, [f]);
    MarksAreReached(u, [g]);
    var from :| from in Elements([f, g]) && Reaches(u, from, h);
    assert from in Elements([f]) || from in Elements([g]);
  }

  lemma TwiceMeansOrdered(u: Universe, k: string, f: File, g: File)
    requires WellFormed(u) && Declares(u, u.files.Keys, k, f) && Declares(u, u.files.Keys, k, g) && f != g
    ensures !OrderIrrelevant(u)
  {
    if a, b :| Declares(u, u.files.Keys, k, a) && Declares(u, u.files.Keys, k, b) && a != b
               && b.name in Marks(u, [a.name], []) {
      OneReachesOther(u, k, a, b);
    } else {
      NoneReachesOther(u, k, f, g);
      NoneReachesOther(u, k, g, f);
      if OrderIrrelevant(u) { PairOrder(u, f, g); }
    }
  }

  /** The index is the same in whatever order the services are visited, for every set
      of services, exactly when no name is declared in two files of the process. */
  lemma OrderIrrelevantExactly(u: Universe)
    requires WellFormed(u)
    ensures OrderIrrelevant(u) <==> DeclaredOnce(u, u.files.Keys)
  {
    if DeclaredOnce(u, u.files.Keys) {
      forall services, v, w | KnownMetadata(u, services) && Order(services, v) && Order(services, w)
        ensures Scan(u, services, v) == Scan(u, services, w)
      {
        OnceMeansOrderless(u, services, v, w);
      }
    } else {
      var k, f, g :| Declares(u, u.files.Keys, k, f) && Declares(u, u.files.Keys, k, g) && f != g;
      TwiceMeansOrdered(u, k, f, g);
    }
  }

  // Two orders of the same services are permutations of each other.
  lemma SameElements(v: seq<string>, w: seq<string>)
    requires Elements(v) == Elements(w) && Distinct(v) && Distinct(w)
    ensures multiset(v) == multiset(w)
  {
    forall n ensures multiset(v)[n] == multiset(w)[n] {
      CountOnce(v, n);
      CountOnce(w, n);
      assert n in v <==> n in Elements(v);
      assert n in w <==> n in Elements(w);
    }
  }

  lemma {:induction false} CountOnce(names: seq<string>, n: string)
    requires Distinct(names)
    ensures multiset(names)[n] == if n in names then 1 else 0
  {
    if names != [] {
      var front, last := names[..|names| - 1], names[|names| - 1];
      assert names == front + [last];
      CountOnce(front, n);
      assert last !in front;
    }
  }
}
