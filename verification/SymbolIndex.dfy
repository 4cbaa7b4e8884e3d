// The symbol index of the reflection service (pkg/rpc/reflection/serverreflection.go):
// the index is filled in place by a recursive scan, which is the walk of SymbolScan.
module SymbolIndex {
  import opened Wire
  import opened Descriptors
  import opened SymbolScan
  import opened SymbolNames
  import opened SortedNames

  lemma StampTwice(symbols: Symbols, a: set<string>, b: set<string>, fd: File)
    ensures Stamp(Stamp(symbols, a, fd), b, fd) == Stamp(symbols, a + b, fd)
  {}

  lemma StampThen(s0: Symbols, a: set<string>, s1: Symbols, b: set<string>, s2: Symbols, fd: File)
    requires s1 == Stamp(s0, a, fd) && s2 == Stamp(s1, b, fd)
    ensures s2 == Stamp(s0, a + b, fd)
  {
    StampTwice(s0, a, b, fd);
  }

  lemma QualifiedNext(prefix: string, names: seq<string>, k: nat)
    requires k < |names|
    ensures Qualified(prefix, names[..k + 1]) == Qualified(prefix, names[..k]) + {Fqn(prefix, names[k])}
  {
    assert names[..k + 1] == names[..k] + [names[k]];
  }

  lemma EnumsNamesNext(prefix: string, ens: seq<Enum>, k: nat)
    requires k < |ens|
    ensures EnumsNames(prefix, ens[..k + 1]) == EnumsNames(prefix, ens[..k]) + EnumNames(prefix, ens[k])
  {
    assert ens[..k + 1] == ens[..k] + [ens[k]];
  }

  lemma ServicesNamesNext(prefix: string, svcs: seq<Service>, k: nat)
    requires k < |svcs|
    ensures ServicesNames(prefix, svcs[..k + 1]) == ServicesNames(prefix, svcs[..k]) + ServiceNames(prefix, svcs[k])
  {
    assert svcs[..k + 1] == svcs[..k] + [svcs[k]];
  }

  lemma MessagesNamesNext(prefix: string, ms: seq<Message>, k: nat)
    requires k < |ms|
    ensures MessagesNames(prefix, ms[..k + 1]) == MessagesNames(prefix, ms[..k]) + MessageNames(prefix, ms[k])
  {
    assert ms[..k + 1][..k] == ms[..k];
  }

  class Indexer {
    ghost const u: Universe
    ghost var marked: seq<string>
    ghost var visited: seq<string>
    const files: map<string, File>
    const registered: set<string>
    var initialized: Flag
    var symbols: Symbols
    var processed: set<string>
    var serviceNames: seq<string>

    constructor (u: Universe)
      requires WellFormed(u)
      ensures this.u == u && Valid() && initialized.Off?
    {
      this.u := u;
      this.files, this.registered := u.files, u.registered;
      initialized, symbols, processed, serviceNames := Off, map[], {}, [];
      marked, visited := [], [];
    }

    // `marked` is the order in which the files of `processed` were marked.
    ghost predicate Scanning()
      reads this
    {
      && u == Universe(files, registered) && WellFormed(u)
      && processed == Elements(marked) <= u.files.Keys
    }

    // `visited` is the order in which the scan visited the services.
    ghost predicate Valid()
      reads this
    {
      && Scanning() && symbols == Index(u, marked)
      && (initialized.Off? ==> marked == [] && serviceNames == [])
      && serviceNames == Sorted(visited)
    }

    method ProcessField(fd: File, prefix: string, name: string)
      modifies this`symbols
      ensures symbols == Stamp(old(symbols), {Fqn(prefix, name)}, fd)
      ensures symbols == old(symbols)[Joined([prefix, name]) := fd]
    {
      FieldKey(prefix, name);
      symbols := symbols[Fqn(prefix, name) := fd];
    }

    // The loops over extensions, fields and oneofs.
    method ProcessFields(fd: File, prefix: string, names: seq<string>)
      modifies this`symbols
      ensures symbols == Stamp(old(symbols), Qualified(prefix, names), fd)
    {
      var k := 0;
      while k < |names|
        invariant 0 <= k <= |names|
        invariant symbols == Stamp(old(symbols), Qualified(prefix, names[..k]), fd)
      {
        ghost var before := symbols;
        ProcessField(fd, prefix, names[k]);
        StampThen(old(symbols), Qualified(prefix, names[..k]), before, {Fqn(prefix, names[k])}, symbols, fd);
        QualifiedNext(prefix, names, k);
        k := k + 1;
      }
      assert names[..k] == names;
    }

    method ProcessEnum(fd: File, prefix: string, en: Enum)
      modifies this`symbols
      ensures symbols == Stamp(old(symbols), EnumNames(prefix, en), fd)
      ensures EnumFiled(old(symbols), symbols, fd, prefix, en)
    {
      var name := Fqn(prefix, en.name);
      ghost var s := symbols;
      symbols := symbols[name := fd];
      ghost var s1 := symbols;
      ProcessFields(fd, name, en.values);
      StampThen(s, {name}, s1, Qualified(name, en.values), symbols, fd);
      FilesEnum(s, symbols, fd, prefix, en);
    }

    method ProcessEnums(fd: File, prefix: string, ens: seq<Enum>)
      modifies this`symbols
      ensures symbols == Stamp(old(symbols), EnumsNames(prefix, ens), fd)
    {
      var k := 0;
      while k < |ens|
        invariant 0 <= k <= |ens|
        invariant symbols == Stamp(old(symbols), EnumsNames(prefix, ens[..k]), fd)
      {
        ghost var before := symbols;
        ProcessEnum(fd, prefix, ens[k]);
        StampThen(old(symbols), EnumsNames(prefix, ens[..k]), before, EnumNames(prefix, ens[k]), symbols, fd);
        EnumsNamesNext(prefix, ens, k);
        k := k + 1;
      }
      assert ens[..k] == ens;
    }

    // The last loops of processMessage.
    method ProcessMembers(fd: File, name: string, msg: Message)
      modifies this`symbols
      ensures symbols == Stamp(old(symbols), MemberNames(name, msg), fd)
    {
      ghost var s := symbols;
      ProcessFields(fd, name, msg.extensions);
      ghost var s1 := symbols;
      ProcessFields(fd, name, msg.fields);
      StampThen(s, Qualified(name, msg.extensions), s1, Qualified(name, msg.fields), symbols, fd);
      ghost var s2 := symbols;
      ProcessFields(fd, name, msg.oneofs);
      StampThen(s, Qualified(name, msg.extensions) + Qualified(name, msg.fields), s2,
                Qualified(name, msg.oneofs), symbols, fd);
    }

    method ProcessMessage(fd: File, prefix: string, msg: Message)
      modifies this`symbols
      ensures symbols == Stamp(old(symbols), MessageNames(prefix, msg), fd)
      ensures MessageFiled(old(symbols), symbols, fd, prefix, msg)
      decreases msg
    {
      var name := Fqn(prefix, msg.name);
      ghost var s := symbols;
      symbols := symbols[name := fd];
      ghost var s1 := symbols;
      ProcessBelow(fd, name, msg);
      StampThen(s, {name}, s1, NamesBelow(name, msg), symbols, fd);
      FilesMessage(s, symbols, fd, prefix, msg);
    }

    // The loops of processMessage.
    method ProcessBelow(fd: File, name: string, msg: Message)
      modifies this`symbols
      ensures symbols == Stamp(old(symbols), NamesBelow(name, msg), fd)
      decreases msg, 0
    {
      ghost var s := symbols;
      ProcessMessages(fd, name, msg.nested);
      ghost var s1 := symbols;
      ProcessEnums(fd, name, msg.enums);
      StampThen(s, MessagesNames(name, msg.nested), s1, EnumsNames(name, msg.enums), symbols, fd);
      ghost var s2 := symbols;
      ProcessMembers(fd, name, msg);
      StampThen(s, MessagesNames(name, msg.nested) + EnumsNames(name, msg.enums), s2,
                MemberNames(name, msg), symbols, fd);
    }

    method ProcessMessages(fd: File, prefix: string, msgs: seq<Message>)
      modifies this`symbols
      ensures symbols == Stamp(old(symbols), MessagesNames(prefix, msgs), fd)
      decreases msgs
    {
      var k := 0;
      while k < |msgs|
        invariant 0 <= k <= |msgs|
        invariant symbols == Stamp(old(symbols), MessagesNames(prefix, msgs[..k]), fd)
      {
        ghost var before := symbols;
        ProcessMessage(fd, prefix, msgs[k]);
        StampThen(old(symbols), MessagesNames(prefix, msgs[..k]), before, MessageNames(prefix, msgs[k]), symbols, fd);
        MessagesNamesNext(prefix, msgs, k);
        k := k + 1;
      }
      assert msgs[..k] == msgs;
    }

    method ProcessService(fd: File, prefix: string, svc: Service)
      modifies this`symbols
      ensures symbols == Stamp(old(symbols), ServiceNames(prefix, svc), fd)
    {
      var name := Fqn(prefix, svc.name);
      symbols := symbols[name := fd];
      ProcessFields(fd, name, svc.methods);
      StampTwice(old(symbols), {name}, Qualified(name, svc.methods), fd);
    }

    method ProcessServices(fd: File, prefix: string, svcs: seq<Service>)
      modifies this`symbols
      ensures symbols == Stamp(old(symbols), ServicesNames(prefix, svcs), fd)
    {
      var k := 0;
      while k < |svcs|
        invariant 0 <= k <= |svcs|
        invariant symbols == Stamp(old(symbols), ServicesNames(prefix, svcs[..k]), fd)
      {
        ghost var before := symbols;
        ProcessService(fd, prefix, svcs[k]);
        StampThen(old(symbols), ServicesNames(prefix, svcs[..k]), before, ServiceNames(prefix, svcs[k]), symbols, fd);
        ServicesNamesNext(prefix, svcs, k);
        k := k + 1;
      }
      assert svcs[..k] == svcs;
    }

    // The declarations of one file.
    method ProcessDeclarations(fd: File)
      modifies this`symbols
      ensures symbols == Stamp(old(symbols), Names(fd), fd)
    {
      ghost var s := symbols;
      ProcessMessages(fd, fd.package, fd.messages);
      ghost var s1 := symbols;
      ProcessEnums(fd, fd.package, fd.enums);
      StampThen(s, MessagesNames(fd.package, fd.messages), s1, EnumsNames(fd.package, fd.enums), symbols, fd);
      ghost var s2 := symbols;
      ProcessFields(fd, fd.package, fd.extensions);
      StampThen(s, MessagesNames(fd.package, fd.messages) + EnumsNames(fd.package, fd.enums), s2,
                Qualified(fd.package, fd.extensions), symbols, fd);
      ghost var s3 := symbols;
      ProcessServices(fd, fd.package, fd.services);
      StampThen(s, MessagesNames(fd.package, fd.messages) + EnumsNames(fd.package, fd.enums)
                   + Qualified(fd.package, fd.extensions), s3,
                ServicesNames(fd.package, fd.services), symbols, fd);
    }

    // processFile: the depth-first walk from fd, even along cycles.
    method ProcessFile(fd: File)
      requires Scanning() && symbols == Index(u, marked) && fd.name in u.files && u.files[fd.name] == fd
      modifies this`symbols, this`processed, this`marked
      ensures Scanning() && symbols == Index(u, marked)
      ensures old(processed) <= processed && Walk(u, [fd.name], old(marked), marked)
      decreases files.Keys - processed, 1, 0
    {
      ghost var before := marked;
      if fd.name in processed {
        WalkMarked(u, fd.name, before);
        return;
      }
      Mark(fd);
      ProcessImports(fd.dependencies);
      FileWalked(u, fd, before, marked);
    }

    // The last loop of processFile.
    method ProcessImports(deps: seq<string>)
      requires Scanning() && symbols == Index(u, marked)
      modifies this`symbols, this`processed, this`marked
      ensures Scanning() && symbols == Index(u, marked)
      ensures old(processed) <= processed && Walk(u, Found(u, deps), old(marked), marked)
      decreases files.Keys - processed, 2, |deps|
    {
      ghost var m := marked;
      var k := 0;
      WalkNothing(u, m);
      while k < |deps|
        invariant 0 <= k <= |deps| && Scanning() && symbols == Index(u, marked)
        invariant old(processed) <= processed
        invariant Walk(u, Found(u, deps[..k]), m, marked)
      {
        ghost var before := marked;
        if deps[k] in registered {
          ProcessFile(files[deps[k]]);
        }
        ImportWalked(u, deps, k, m, before, marked);
        k := k + 1;
      }
      assert deps[..k] == deps;
    }

    // Entering a file in `processed` and its declarations in the index.
    method Mark(fd: File)
      requires Scanning() && symbols == Index(u, marked)
      requires fd.name in u.files && u.files[fd.name] == fd && fd.name !in processed
      modifies this`symbols, this`processed, this`marked
      ensures Scanning() && symbols == Index(u, marked)
      ensures marked == old(marked) + [fd.name] && fd.name in processed && old(processed) <= processed
    {
      processed := processed + {fd.name};
      IndexNext(u, marked, fd.name);
      marked := marked + [fd.name];
      ProcessDeclarations(fd);
    }

    // getSymbols: the scan runs once; the services are visited in any order.
    method GetSymbols(services: map<string, Metadata>)
      requires Valid() && KnownMetadata(u, services)
      modifies this
      ensures Valid() && initialized.On?
      ensures old(initialized).On? ==>
                symbols == old(symbols) && marked == old(marked) && serviceNames == old(serviceNames)
      ensures old(initialized).Off? ==>
                Order(services, visited) && symbols == Scan(u, services, visited) && serviceNames == Sorted(visited)
      ensures old(initialized).Off? ==> KeyedByPath(u, services, symbols)
    {
      if initialized.On? {
        return;
      }
      ScanServices(services);
      KeysExactly(u, services, visited);
      serviceNames := Sorted(serviceNames);
      initialized := On;
    }

    // The services have been visited in the order `visited`, and nothing else.
    ghost predicate Visited(services: map<string, Metadata>)
      reads this
    {
      && Scanning() && symbols == Index(u, marked) && serviceNames == visited
      && KnownMetadata(u, services) && Elements(visited) <= services.Keys && Distinct(visited)
      && Walk(u, Roots(u, services, visited), [], marked)
    }

    method ScanServices(services: map<string, Metadata>)
      requires Valid() && initialized.Off? && KnownMetadata(u, services)
      modifies this`symbols, this`processed, this`marked, this`visited, this`serviceNames
      ensures Visited(services) && Elements(visited) == services.Keys
    {
      visited := [];
      WalkNothing(u, []);
      var left := services.Keys;
      while left != {}
        invariant Visited(services) && Remain(services.Keys, visited, left)
        decreases left
      {
        var svc :| svc in left;
        RemainNext(services.Keys, visited, left, svc);
        VisitService(services, svc);
        left := left - {svc};
      }
      assert Elements(visited) == services.Keys;
    }

    method VisitService(services: map<string, Metadata>, svc: string)
      requires Visited(services) && svc in services && svc !in visited
      modifies this`symbols, this`processed, this`marked, this`visited, this`serviceNames
      ensures Visited(services) && visited == old(visited) + [svc]
    {
      ghost var before := marked;
      serviceNames := serviceNames + [svc];
      var root := Root(Universe(files, registered), services[svc]);
      if root.Some? {
        ProcessFile(root.value);
      }
      ServiceWalked(u, services, visited, svc, before, marked);
      visited := visited + [svc];
    }
  }

  // Which services are left to visit.
  ghost predicate Remain(all: set<string>, visited: seq<string>, left: set<string>) {
    left <= all && Elements(visited) == all - left
  }

  lemma RemainNext(all: set<string>, visited: seq<string>, left: set<string>, svc: string)
    requires Remain(all, visited, left) && svc in left
    ensures svc in all && svc !in visited && Remain(all, visited + [svc], left - {svc})
  {
    assert svc in visited <==> svc in Elements(visited);
    assert Elements(visited + [svc]) == Elements(visited) + {svc};
  }

  lemma IndexNext(u: Universe, marked: seq<string>, n: string)
    requires WellFormed(u) && Elements(marked) <= u.files.Keys && n in u.files
    ensures Elements(marked + [n]) == Elements(marked) + {n}
    ensures Index(u, marked + [n]) == Stamp(Index(u, marked), Names(u.files[n]), u.files[n])
  {
    assert (marked + [n])[..|marked|] == marked;
  }

  // One more import walked.
  lemma ImportWalked(u: Universe, deps: seq<string>, k: nat, m: seq<string>, before: seq<string>, after: seq<string>)
    requires WellFormed(u) && k < |deps| && Walk(u, Found(u, deps[..k]), m, before)
    requires if deps[k] in u.registered then Walk(u, [deps[k]], before, after) else after == before
    ensures Walk(u, Found(u, deps[..k + 1]), m, after)
  {
    assert deps[..k + 1] == deps[..k] + [deps[k]];
    FoundAppend(u, deps[..k], deps[k]);
    if deps[k] in u.registered {
      MarksConcat(u, Found(u, deps[..k]), [deps[k]], m);
    } else {
      assert Found(u, deps[..k]) + [] == Found(u, deps[..k]);
    }
  }

  // A file marked and its imports walked is the file walked.
  lemma FileWalked(u: Universe, fd: File, before: seq<string>, after: seq<string>)
    requires WellFormed(u) && fd.name in u.files && u.files[fd.name] == fd && fd.name !in before
    requires Elements(before) <= u.files.Keys && Walk(u, Found(u, fd.dependencies), before + [fd.name], after)
    ensures Walk(u, [fd.name], before, after)
  {
    assert [fd.name][1..] == [] && Imports(u, fd.name) + [] == Imports(u, fd.name);
  }

  // One more service walked.
  lemma ServiceWalked(u: Universe, services: map<string, Metadata>, visited: seq<string>, svc: string,
                      before: seq<string>, after: seq<string>)
    requires WellFormed(u) && KnownMetadata(u, services) && Elements(visited) <= services.Keys && svc in services
    requires Walk(u, Roots(u, services, visited), [], before)
    requires var root := Root(u, services[svc]);
             if root.Some? then Walk(u, [root.value.name], before, after) else after == before
    ensures Elements(visited + [svc]) == Elements(visited) + {svc}
    ensures Walk(u, Roots(u, services, visited + [svc]), [], after)
  {
    assert (visited + [svc])[..|visited|] == visited;
    var root := Root(u, services[svc]);
    if root.Some? {
      MarksConcat(u, Roots(u, services, visited), [root.value.name], []);
    } else {
      assert Roots(u, services, visited) + [] == Roots(u, services, visited);
    }
  }

  /** The list of services is the same in whatever order they are visited. */
  lemma ServiceListOrderless(services: map<string, Metadata>, v: seq<string>, w: seq<string>)
    requires Order(services, v) && Order(services, w)
    ensures Sorted(v) == Sorted(w)
  {
    SameElements(v, w);
    SortedUnique(v, w);
  }
}
