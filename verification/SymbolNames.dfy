// Which strings the symbol index is keyed by (pkg/rpc/reflection/serverreflection.go):
// the names on the path from the package to a declaration, joined by dots.
module SymbolNames {
  import opened Descriptors
  import opened Subjects
  import opened SymbolScan

  // ---------------------------------------------------------------------
  // Declaration paths
  // ---------------------------------------------------------------------

  // An enum, or a value below its enum.
  predicate InEnum(e: Enum, ns: seq<string>) {
    ns == [e.name] || (|ns| == 2 && ns[0] == e.name && ns[1] in e.values)
  }

  predicate InSome(es: seq<Enum>, ns: seq<string>) { exists e :: e in es && InEnum(e, ns) }

  // A message, or what is declared below it at any depth.
  predicate InMessage(m: Message, ns: seq<string>)
    decreases |ns|, 0
  {
    && ns != [] && ns[0] == m.name
    && (|ns| == 1 || IsBelow(m, ns[1..]))
  }

  predicate IsBelow(m: Message, ns: seq<string>)
    decreases |ns|, 2
  {
    IsMember(m, ns) || InSome(m.enums, ns) || InMessages(m.nested, ns)
  }

  predicate InMessages(ms: seq<Message>, ns: seq<string>)
    decreases |ns|, 1
  {
    exists m :: m in ms && InMessage(m, ns)
  }

  // An extension, a field or a oneof.
  predicate IsMember(m: Message, ns: seq<string>) {
    |ns| == 1 && (ns[0] in m.extensions || ns[0] in m.fields || ns[0] in m.oneofs)
  }

  predicate InService(s: Service, ns: seq<string>) {
    ns == [s.name] || (|ns| == 2 && ns[0] == s.name && ns[1] in s.methods)
  }

  predicate InServices(ss: seq<Service>, ns: seq<string>) { exists s :: s in ss && InService(s, ns) }

  // What a file declares, as the names on the way to it.
  predicate InFile(f: File, ns: seq<string>) {
    || InMessages(f.messages, ns)
    || InSome(f.enums, ns)
    || (|ns| == 1 && ns[0] in f.extensions)
    || InServices(f.services, ns)
  }

  // Names joined by dots, from the first one that is not empty.
  function Joined(names: seq<string>): string {
    if names == [] then "" else if names[0] == "" then Joined(names[1..]) else Dotted(names)
  }

  // With a package, or a name to start with, nothing is left out of the path.
  lemma JoinedNamed(package: string, ns: seq<string>)
    requires ns != [] && ns[0] != ""
    ensures Joined([package] + ns) == if package == "" then Dotted(ns) else Dotted([package] + ns)
  {
    assert ([package] + ns)[1..] == ns;
  }

  lemma {:induction false} DottedNext(names: seq<string>, n: string)
    requires names != []
    ensures Dotted(names + [n]) == Dotted(names) + "." + n
  {
    assert (names + [n])[1..] == names[1..] + [n];
    if |names| > 1 {
      DottedNext(names[1..], n);
      assert names[0] + "." + (Dotted(names[1..]) + "." + n) == names[0] + "." + Dotted(names[1..]) + "." + n;
    }
  }

  lemma {:induction false} JoinedNext(names: seq<string>, n: string)
    ensures Joined(names + [n]) == if Joined(names) == "" then n else Joined(names) + "." + n
  {
    if names == [] {
      assert names + [n] == [n] && [n][1..] == [];
    } else if names[0] == "" {
      assert (names + [n])[1..] == names[1..] + [n];
      JoinedNext(names[1..], n);
    } else {
      DottedNext(names, n);
    }
  }

  lemma InScope(p: seq<string>, n: string)
    ensures Fqn(Joined(p), n) == Joined(p + [n])
  {
    JoinedNext(p, n);
  }

  // ---------------------------------------------------------------------
  // Every name has a path
  // ---------------------------------------------------------------------

  lemma MembersPath(p: seq<string>, names: seq<string>, k: string) returns (n: string)
    requires k in Qualified(Joined(p), names)
    ensures n in names && k == Joined(p + [n])
  {
    n :| n in names && k == Fqn(Joined(p), n);
    InScope(p, n);
  }

  // One name, or one of a list below it.
  lemma NamedPath(p: seq<string>, name: string, below: seq<string>, k: string) returns (ns: seq<string>)
    requires k in {Fqn(Joined(p), name)} + Qualified(Fqn(Joined(p), name), below)
    ensures k == Joined(p + ns)
    ensures ns == [name] || (|ns| == 2 && ns[0] == name && ns[1] in below)
  {
    InScope(p, name);
    if k == Fqn(Joined(p), name) {
      ns := [name];
    } else {
      var n := MembersPath(p + [name], below, k);
      ns := [name, n];
      assert p + [name] + [n] == p + ns;
    }
  }

  lemma EnumsPath(p: seq<string>, es: seq<Enum>, k: string) returns (ns: seq<string>)
    requires k in EnumsNames(Joined(p), es)
    ensures InSome(es, ns) && k == Joined(p + ns)
  {
    var e :| e in es && k in EnumNames(Joined(p), e);
    ns := NamedPath(p, e.name, e.values, k);
    assert InEnum(e, ns);
  }

  lemma ServicesPath(p: seq<string>, ss: seq<Service>, k: string) returns (ns: seq<string>)
    requires k in ServicesNames(Joined(p), ss)
    ensures InServices(ss, ns) && k == Joined(p + ns)
  {
    var s :| s in ss && k in ServiceNames(Joined(p), s);
    ns := NamedPath(p, s.name, s.methods, k);
    assert InService(s, ns);
  }

  lemma {:induction false} MessagesPath(p: seq<string>, ms: seq<Message>, k: string) returns (ns: seq<string>)
    requires k in MessagesNames(Joined(p), ms)
    ensures InMessages(ms, ns) && k == Joined(p + ns)
    decreases ms
  {
    var front, last := ms[..|ms| - 1], ms[|ms| - 1];
    if k in MessageNames(Joined(p), last) {
      ns := MessagePath(p, last, k);
      assert last in ms;
    } else {
      ns := MessagesPath(p, front, k);
      var m :| m in front && InMessage(m, ns);
      assert m in ms;
    }
  }

  lemma {:induction false} MessagePath(p: seq<string>, m: Message, k: string) returns (ns: seq<string>)
    requires k in MessageNames(Joined(p), m)
    ensures InMessage(m, ns) && k == Joined(p + ns)
    decreases m
  {
    var itself := ItselfOrBelow(p, m, k);
    if itself {
      ns := [m.name];
    } else {
      var below := BelowPath(p + [m.name], m, k);
      ns := FromBelow(p, m, below);
    }
  }

  lemma ItselfOrBelow(p: seq<string>, m: Message, k: string) returns (itself: bool)
    requires k in MessageNames(Joined(p), m)
    ensures if itself then k == Joined(p + [m.name]) else k in NamesBelow(Joined(p + [m.name]), m)
  {
    InScope(p, m.name);
    itself := k == Joined(p + [m.name]);
  }

  lemma FromBelow(p: seq<string>, m: Message, below: seq<string>) returns (ns: seq<string>)
    requires IsBelow(m, below)
    ensures InMessage(m, ns) && Joined(p + ns) == Joined(p + [m.name] + below)
  {
    ns := [m.name] + below;
    assert ns[1..] == below && p + ns == p + [m.name] + below;
  }

  // Below the message found at the path q.
  lemma {:induction false} BelowPath(q: seq<string>, m: Message, k: string) returns (ns: seq<string>)
    requires k in NamesBelow(Joined(q), m)
    ensures IsBelow(m, ns)
    ensures k == Joined(q + ns)
    decreases m, 0
  {
    if k in MessagesNames(Joined(q), m.nested) {
      ns := MessagesPath(q, m.nested, k);
    } else if k in EnumsNames(Joined(q), m.enums) {
      ns := EnumsPath(q, m.enums, k);
    } else {
      ns := MemberPath(q, m, k);
    }
  }

  lemma MemberPath(q: seq<string>, m: Message, k: string) returns (ns: seq<string>)
    requires k in MemberNames(Joined(q), m)
    ensures IsMember(m, ns) && k == Joined(q + ns)
  {
    var n: string;
    if k in Qualified(Joined(q), m.extensions) {
      n := MembersPath(q, m.extensions, k);
    } else if k in Qualified(Joined(q), m.fields) {
      n := MembersPath(q, m.fields, k);
    } else {
      n := MembersPath(q, m.oneofs, k);
    }
    ns := [n];
  }

  lemma FilePath(f: File, k: string) returns (ns: seq<string>)
    requires k in Names(f)
    ensures InFile(f, ns) && k == Joined([f.package] + ns)
  {
    var p := [f.package];
    JoinedPackage(f.package);
    if k in MessagesNames(f.package, f.messages) {
      ns := MessagesPath(p, f.messages, k);
    } else if k in EnumsNames(f.package, f.enums) {
      ns := EnumsPath(p, f.enums, k);
    } else if k in Qualified(f.package, f.extensions) {
      var n := MembersPath(p, f.extensions, k);
      ns := [n];
    } else {
      ns := ServicesPath(p, f.services, k);
    }
  }

  lemma JoinedPackage(package: string)
    ensures Joined([package]) == package
  {
    assert [package][1..] == [];
  }

  // ---------------------------------------------------------------------
  // Every path has a name
  // ---------------------------------------------------------------------

  lemma NamesMember(p: seq<string>, names: seq<string>, n: string)
    requires n in names
    ensures Joined(p + [n]) in Qualified(Joined(p), names)
  {
    InScope(p, n);
  }

  lemma NamesNamed(p: seq<string>, name: string, below: seq<string>, ns: seq<string>)
    requires ns == [name] || (|ns| == 2 && ns[0] == name && ns[1] in below)
    ensures Joined(p + ns) in {Fqn(Joined(p), name)} + Qualified(Fqn(Joined(p), name), below)
  {
    InScope(p, name);
    if |ns| == 2 {
      NamesMember(p + [name], below, ns[1]);
      assert p + [name] + [ns[1]] == p + ns;
    }
  }

  lemma NamesEnum(p: seq<string>, es: seq<Enum>, ns: seq<string>)
    requires InSome(es, ns)
    ensures Joined(p + ns) in EnumsNames(Joined(p), es)
  {
    var e :| e in es && InEnum(e, ns);
    NamesNamed(p, e.name, e.values, ns);
    assert Joined(p + ns) in EnumNames(Joined(p), e);
  }

  lemma NamesService(p: seq<string>, ss: seq<Service>, ns: seq<string>)
    requires InServices(ss, ns)
    ensures Joined(p + ns) in ServicesNames(Joined(p), ss)
  {
    var s :| s in ss && InService(s, ns);
    NamesNamed(p, s.name, s.methods, ns);
    assert Joined(p + ns) in ServiceNames(Joined(p), s);
  }

  lemma {:induction false} HoldsMessage(prefix: string, ms: seq<Message>, m: Message, k: string)
    requires m in ms && k in MessageNames(prefix, m)
    ensures k in MessagesNames(prefix, ms)
  {
    var front, last := ms[..|ms| - 1], ms[|ms| - 1];
    assert ms == front + [last];
    if m != last { HoldsMessage(prefix, front, m, k); }
  }

  lemma {:induction false} NamesMessages(p: seq<string>, ms: seq<Message>, ns: seq<string>)
    requires InMessages(ms, ns)
    ensures Joined(p + ns) in MessagesNames(Joined(p), ms)
    decreases |ns|, 1
  {
    var m :| m in ms && InMessage(m, ns);
    NamesMessage(p, m, ns);
    HoldsMessage(Joined(p), ms, m, Joined(p + ns));
  }

  lemma {:induction false} NamesMessage(p: seq<string>, m: Message, ns: seq<string>)
    requires InMessage(m, ns)
    ensures Joined(p + ns) in MessageNames(Joined(p), m)
    decreases |ns|, 0
  {
    InScope(p, m.name);
    if |ns| == 1 {
      assert ns == [m.name];
    } else {
      var q, below := p + [m.name], ns[1..];
      assert q + below == p + ns;
      if IsMember(m, below) {
        NamesMemberOf(q, m, below);
      } else if InSome(m.enums, below) {
        NamesEnum(q, m.enums, below);
      } else {
        NamesMessages(q, m.nested, below);
      }
    }
  }

  lemma NamesMemberOf(q: seq<string>, m: Message, ns: seq<string>)
    requires IsMember(m, ns)
    ensures Joined(q + ns) in MemberNames(Joined(q), m)
  {
    assert ns == [ns[0]];
    InScope(q, ns[0]);
  }

  lemma NamesPath(f: File, ns: seq<string>)
    requires InFile(f, ns)
    ensures Joined([f.package] + ns) in Names(f)
  {
    var p := [f.package];
    JoinedPackage(f.package);
    if InMessages(f.messages, ns) {
      NamesMessages(p, f.messages, ns);
    } else if InSome(f.enums, ns) {
      NamesEnum(p, f.enums, ns);
    } else if |ns| == 1 && ns[0] in f.extensions {
      NamesMember(p, f.extensions, ns[0]);
      assert ns == [ns[0]];
    } else {
      NamesService(p, f.services, ns);
    }
  }

  // ---------------------------------------------------------------------
  // The keys of the index
  // ---------------------------------------------------------------------

  // k is the dotted path, from the package on, of something the file declares.
  ghost predicate NamedIn(f: File, k: string) {
    exists ns :: InFile(f, ns) && k == Joined([f.package] + ns)
  }

  /** The names a file is filed under are the dotted paths to its declarations. */
  lemma NamesExactly(f: File, k: string)
    ensures k in Names(f) <==> NamedIn(f, k)
  {
    if k in Names(f) {
      var ns := FilePath(f, k);
    }
    if NamedIn(f, k) {
      var ns :| InFile(f, ns) && k == Joined([f.package] + ns);
      NamesPath(f, ns);
    }
  }

  // k is the dotted path, from the prefix on, of the message or of something in it.
  ghost predicate NamedInMessage(prefix: string, m: Message, k: string) {
    exists ns :: InMessage(m, ns) && k == Joined([prefix] + ns)
  }

  ghost predicate NamedInEnum(prefix: string, e: Enum, k: string) {
    exists ns :: InEnum(e, ns) && k == Joined([prefix] + ns)
  }

  lemma MessageExactly(prefix: string, m: Message, k: string)
    ensures k in MessageNames(prefix, m) <==> NamedInMessage(prefix, m, k)
  {
    JoinedPackage(prefix);
    if k in MessageNames(prefix, m) {
      var ns := MessagePath([prefix], m, k);
    }
    if NamedInMessage(prefix, m, k) {
      var ns :| InMessage(m, ns) && k == Joined([prefix] + ns);
      NamesMessage([prefix], m, ns);
    }
  }

  lemma EnumExactly(prefix: string, e: Enum, k: string)
    ensures k in EnumNames(prefix, e) <==> NamedInEnum(prefix, e, k)
  {
    JoinedPackage(prefix);
    if k in EnumNames(prefix, e) {
      var ns := NamedPath([prefix], e.name, e.values, k);
      assert InEnum(e, ns);
    }
    if NamedInEnum(prefix, e, k) {
      var ns :| InEnum(e, ns) && k == Joined([prefix] + ns);
      NamesNamed([prefix], e.name, e.values, ns);
    }
  }

  // The key leads to fd if it is named, otherwise to where it led.
  ghost predicate Filed(before: Symbols, after: Symbols, fd: File, k: string, named: bool) {
    if named then k in after && after[k] == fd
    else (k in after <==> k in before) && (k in after ==> after[k] == before[k])
  }

  // The message and what is in it lead to fd now, and nothing else does that did not.
  ghost predicate MessageFiled(before: Symbols, after: Symbols, fd: File, prefix: string, m: Message) {
    forall k :: Filed(before, after, fd, k, NamedInMessage(prefix, m, k))
  }

  ghost predicate EnumFiled(before: Symbols, after: Symbols, fd: File, prefix: string, e: Enum) {
    forall k :: Filed(before, after, fd, k, NamedInEnum(prefix, e, k))
  }

  lemma FilesMessage(before: Symbols, after: Symbols, fd: File, prefix: string, m: Message)
    requires after == Stamp(before, MessageNames(prefix, m), fd)
    ensures MessageFiled(before, after, fd, prefix, m)
  {
    forall k ensures Filed(before, after, fd, k, NamedInMessage(prefix, m, k)) { MessageExactly(prefix, m, k); }
  }

  lemma FilesEnum(before: Symbols, after: Symbols, fd: File, prefix: string, e: Enum)
    requires after == Stamp(before, EnumNames(prefix, e), fd)
    ensures EnumFiled(before, after, fd, prefix, e)
  {
    forall k ensures Filed(before, after, fd, k, NamedInEnum(prefix, e, k)) { EnumExactly(prefix, e, k); }
  }

  lemma FieldKey(prefix: string, n: string)
    ensures Fqn(prefix, n) == Joined([prefix, n])
  {
    JoinedPackage(prefix);
    InScope([prefix], n);
    assert [prefix] + [n] == [prefix, n];
  }

  // The files services point at: registered by name, or given as such.
  ghost predicate PointsAt(u: Universe, services: map<string, Metadata>, n: string) {
    exists s :: s in services &&
      ((services[s] == FileName(n) && n in u.registered) || (services[s].Encoded? && services[s].file.name == n))
  }

  // A file of the process a service points at, or one that such a file imports at any
  // distance.
  ghost predicate Served(u: Universe, services: map<string, Metadata>, f: File) {
    f.name in u.files && u.files[f.name] == f && exists from :: PointsAt(u, services, from) && Reaches(u, from, f.name)
  }

  // The keys are the dotted paths the served files declare; each leads to a file that
  // declares it.
  ghost predicate KeyedByPath(u: Universe, services: map<string, Metadata>, symbols: Symbols) {
    && (forall k :: k in symbols ==> Served(u, services, symbols[k]) && NamedIn(symbols[k], k))
    && (forall k, f :: Served(u, services, f) && NamedIn(f, k) ==> k in symbols)
  }

  lemma RootsAreServices(u: Universe, services: map<string, Metadata>, visited: seq<string>, n: string)
    requires WellFormed(u) && KnownMetadata(u, services) && Elements(visited) == services.Keys
    ensures n in Elements(Roots(u, services, visited)) <==> PointsAt(u, services, n)
  {
    assert forall s :: s in visited <==> s in Elements(visited);
    var roots := Roots(u, services, visited);
    assert n in Elements(roots) <==> n in roots;
    if n in roots {
      var s :| s in visited && IsRoot(u, services[s], n);
      assert s in services;
    }
    if PointsAt(u, services, n) {
      var s :| s in services &&
        ((services[s] == FileName(n) && n in u.registered) || (services[s].Encoded? && services[s].file.name == n));
      assert s in visited && IsRoot(u, services[s], n);
    }
  }

  lemma MarkedAreServed(u: Universe, services: map<string, Metadata>, visited: seq<string>, f: File)
    requires WellFormed(u) && KnownMetadata(u, services) && Elements(visited) == services.Keys
    requires f.name in u.files && u.files[f.name] == f
    ensures f.name in Marks(u, Roots(u, services, visited), []) <==> Served(u, services, f)
  {
    var roots := Roots(u, services, visited);
    MarksAreReached(u, roots);
    if f.name in Marks(u, roots, []) {
      var from :| from in Elements(roots) && Reaches(u, from, f.name);
      RootsAreServices(u, services, visited, from);
    }
    if Served(u, services, f) {
      var from :| PointsAt(u, services, from) && Reaches(u, from, f.name);
      RootsAreServices(u, services, visited, from);
    }
  }

  /** In whatever order the services are visited, the index maps exactly the dotted
      paths of what their files and the imported files declare. */
  lemma KeysExactly(u: Universe, services: map<string, Metadata>, visited: seq<string>)
    requires WellFormed(u) && KnownMetadata(u, services) && Elements(visited) == services.Keys
    ensures KeyedByPath(u, services, Scan(u, services, visited))
  {
    var marked := Marks(u, Roots(u, services, visited), []);
    var symbols := Scan(u, services, visited);
    IndexOfMarks(u, marked);
    forall k | k in symbols ensures Served(u, services, symbols[k]) && NamedIn(symbols[k], k) {
      assert Declares(u, Elements(marked), k, symbols[k]);
      NamesExactly(symbols[k], k);
      MarkedAreServed(u, services, visited, symbols[k]);
    }
    forall k, f | Served(u, services, f) && NamedIn(f, k) ensures k in symbols {
      NamesExactly(f, k);
      MarkedAreServed(u, services, visited, f);
      assert Declares(u, Elements(marked), k, f);
    }
  }
}
