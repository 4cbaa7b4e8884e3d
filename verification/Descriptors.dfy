// Protobuf file descriptors as the reflection service sees them
// (pkg/rpc/reflection/serverreflection.go), the registry they are found in, and
// reachability along imports.
module Descriptors {
  datatype Enum = Enum(name: string, values: seq<string>)

  datatype Message = Message(
    name: string,
    nested: seq<Message>,
    enums: seq<Enum>,
    extensions: seq<string>,
    fields: seq<string>,
    oneofs: seq<string>)

  datatype Service = Service(name: string, methods: seq<string>)

  datatype File = File(
    name: string,
    package: string,
    messages: seq<Message>,
    enums: seq<Enum>,
    extensions: seq<string>,
    services: seq<Service>,
    dependencies: seq<string>)

  // All file descriptors of the process, a name standing for one file, and the
  // names the global protobuf registry knows and can decode.
  datatype Universe = Universe(files: map<string, File>, registered: set<string>)

  predicate WellFormed(u: Universe) {
    && u.registered <= u.files.Keys
    && forall n :: n in u.files ==> u.files[n].name == n
  }

  // The imports of a file that are found; the others are skipped.
  function Imports(u: Universe, n: string): seq<string>
    requires n in u.files
  {
    Found(u, u.files[n].dependencies)
  }

  function Found(u: Universe, names: seq<string>): (found: seq<string>)
    ensures forall n :: n in found ==> n in u.registered
  {
    if names == [] then []
    else
      var last := names[|names| - 1];
      Found(u, names[..|names| - 1]) + (if last in u.registered then [last] else [])
  }

  // They are those of the names that are registered.
  lemma {:induction false} FoundExactly(u: Universe, names: seq<string>, n: string)
    ensures n in Found(u, names) <==> n in names && n in u.registered
  {
    if names != [] {
      var front, last := names[..|names| - 1], names[|names| - 1];
      assert names == front + [last];
      FoundExactly(u, front, n);
    }
  }

  lemma LinkIsImport(u: Universe, path: seq<string>, i: nat)
    requires i + 1 < |path| && path[i] in u.files
    ensures Link(u, path, i) <==> path[i + 1] in Imports(u, path[i])
  {
    FoundExactly(u, u.files[path[i]].dependencies, path[i + 1]);
  }

  lemma FoundAppend(u: Universe, names: seq<string>, n: string)
    ensures Found(u, names + [n]) == Found(u, names) + (if n in u.registered then [n] else [])
  {
    assert (names + [n])[..|names|] == names;
  }

  // ---------------------------------------------------------------------
  // Reachability
  // ---------------------------------------------------------------------

  // A chain of imports.
  predicate Chain(u: Universe, path: seq<string>) {
    && path != []
    && (forall i :: 0 <= i < |path| ==> path[i] in u.files)
    && (forall i :: 0 <= i < |path| - 1 ==> Link(u, path, i))
  }

  // The next file is among the dependencies of the one before, and is registered.
  predicate Link(u: Universe, path: seq<string>, i: nat)
    requires i + 1 < |path| && path[i] in u.files
  {
    path[i + 1] in u.files[path[i]].dependencies && path[i + 1] in u.registered
  }

  ghost predicate Reaches(u: Universe, from: string, to: string) {
    exists path :: Chain(u, path) && path[0] == from && path[|path| - 1] == to
  }

  ghost predicate ReachedFrom(u: Universe, roots: set<string>, to: string) {
    exists from :: from in roots && Reaches(u, from, to)
  }

  // Imports of members are members.
  predicate ImportsClosed(u: Universe, names: set<string>)
    requires names <= u.files.Keys
  {
    forall n, m :: n in names && m in Imports(u, n) ==> m in names
  }

  lemma ChainReaches(u: Universe, path: seq<string>)
    requires Chain(u, path)
    ensures Reaches(u, path[0], path[|path| - 1])
  {}

  // Chains cut, and joined at a file they share.
  lemma CutChain(u: Universe, path: seq<string>, i: nat, j: nat)
    requires Chain(u, path) && i < j <= |path|
    ensures Chain(u, path[i..j])
  {
    var part := path[i..j];
    forall k: nat | k < |part| - 1 ensures Link(u, part, k) { assert Link(u, path, i + k); }
  }

  lemma PartReaches(u: Universe, path: seq<string>, i: nat, j: nat)
    requires Chain(u, path) && i <= j < |path|
    ensures Reaches(u, path[i], path[j])
  {
    CutChain(u, path, i, j + 1);
    ChainReaches(u, path[i..j + 1]);
  }

  lemma LinkImports(u: Universe, path: seq<string>, i: nat)
    requires Chain(u, path) && i + 1 < |path|
    ensures path[i] in u.files && path[i + 1] in Imports(u, path[i])
  {
    assert Link(u, path, i);
    LinkIsImport(u, path, i);
  }

  lemma JoinChains(u: Universe, a: seq<string>, b: seq<string>)
    requires Chain(u, a) && Chain(u, b) && a[|a| - 1] == b[0]
    ensures Chain(u, a + b[1..])
    ensures (a + b[1..])[0] == a[0] && (a + b[1..])[|a + b[1..]| - 1] == b[|b| - 1]
  {
    var all := a + b[1..];
    assert forall k :: |a| <= k < |all| ==> all[k] == b[k - |a| + 1];
    forall k: nat | k < |all| - 1 ensures Link(u, all, k) {
      if k < |a| - 1 { assert Link(u, a, k); } else { assert Link(u, b, k - |a| + 1); }
    }
  }

  lemma ReachesSelf(u: Universe, n: string)
    requires n in u.files
    ensures Reaches(u, n, n)
  {
    assert Chain(u, [n]);
  }

  lemma ReachesImport(u: Universe, n: string, m: string)
    requires WellFormed(u) && n in u.files && m in Imports(u, n)
    ensures Reaches(u, n, m)
  {
    LinkIsImport(u, [n, m], 0);
    assert Link(u, [n, m], 0);
    assert Chain(u, [n, m]);
  }

  lemma ReachesOn(u: Universe, from: string, via: string, to: string)
    requires Reaches(u, from, via) && Reaches(u, via, to)
    ensures Reaches(u, from, to)
  {
    var a :| Chain(u, a) && a[0] == from && a[|a| - 1] == via;
    var b :| Chain(u, b) && b[0] == via && b[|b| - 1] == to;
    JoinChains(u, a, b);
  }

  // A chain read from its end.
  lemma ReachesStep(u: Universe, from: string, via: string, to: string)
    requires WellFormed(u) && Reaches(u, from, via) && via in u.files && to in Imports(u, via)
    ensures Reaches(u, from, to)
  {
    ReachesImport(u, via, to);
    ReachesOn(u, from, via, to);
  }

  // A closed set that holds the start of a chain holds the whole chain.
  lemma {:induction false} ClosedHoldsChain(u: Universe, names: set<string>, path: seq<string>, i: nat)
    requires names <= u.files.Keys && ImportsClosed(u, names)
    requires Chain(u, path) && path[0] in names && i < |path|
    ensures path[i] in names
  {
    if i > 0 {
      ClosedHoldsChain(u, names, path, i - 1);
      LinkImports(u, path, i - 1);
    }
  }

  lemma ClosedHolds(u: Universe, names: set<string>, from: string, to: string)
    requires names <= u.files.Keys && ImportsClosed(u, names) && from in names && Reaches(u, from, to)
    ensures to in names
  {
    var path :| Chain(u, path) && path[0] == from && path[|path| - 1] == to;
    ClosedHoldsChain(u, names, path, |path| - 1);
  }

  // ---------------------------------------------------------------------
  // Declared names
  // ---------------------------------------------------------------------

  // fqn: the name inside a package, message or enum.
  function Fqn(prefix: string, name: string): string {
    if prefix == "" then name else prefix + "." + name
  }

  function Qualified(prefix: string, names: seq<string>): set<string> {
    set n | n in names :: Fqn(prefix, n)
  }

  // Enum values are scoped to the enum itself.
  function EnumNames(prefix: string, e: Enum): set<string> {
    {Fqn(prefix, e.name)} + Qualified(Fqn(prefix, e.name), e.values)
  }

  function EnumsNames(prefix: string, es: seq<Enum>): set<string> {
    set e, n | e in es && n in EnumNames(prefix, e) :: n
  }

  function MessageNames(prefix: string, m: Message): set<string>
    decreases m
  {
    var name := Fqn(prefix, m.name);
    {name} + NamesBelow(name, m)
  }

  // What the message called `name` contains.
  function NamesBelow(name: string, m: Message): set<string>
    decreases m, 0
  {
    MessagesNames(name, m.nested) + EnumsNames(name, m.enums) + MemberNames(name, m)
  }

  // Extensions, fields and oneofs of the message called `name`.
  function MemberNames(name: string, m: Message): set<string> {
    Qualified(name, m.extensions) + Qualified(name, m.fields) + Qualified(name, m.oneofs)
  }

  function MessagesNames(prefix: string, ms: seq<Message>): set<string>
    decreases ms
  {
    if ms == [] then {} else MessagesNames(prefix, ms[..|ms| - 1]) + MessageNames(prefix, ms[|ms| - 1])
  }

  function ServiceNames(prefix: string, s: Service): set<string> {
    {Fqn(prefix, s.name)} + Qualified(Fqn(prefix, s.name), s.methods)
  }

  function ServicesNames(prefix: string, ss: seq<Service>): set<string> {
    set s, n | s in ss && n in ServiceNames(prefix, s) :: n
  }

  /** Every fully qualified name a file declares. */
  function Names(f: File): set<string> {
    MessagesNames(f.package, f.messages) + EnumsNames(f.package, f.enums)
    + Qualified(f.package, f.extensions) + ServicesNames(f.package, f.services)
  }
}
