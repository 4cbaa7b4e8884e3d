// One session of the reflection service (ServerReflectionInfo in
// pkg/rpc/reflection/serverreflection.go): requests answered with file
// descriptors, each dependency sent once per session.
module Reflection {
  import opened Wire
  import opened Descriptors
  import opened SymbolScan
  import opened SymbolNames
  import opened Dependencies

  datatype Query =
    | FileByFilename(name: string)
    | FileContainingSymbol(symbol: string)
    | FileContainingExtension(typeName: string, number: int)
    | AllExtensionNumbersOfType(typeName: string)
    | ListServices
    | Unset

  datatype Answer =
    | Files(files: seq<File>)
    | NotFound
    | ExtensionNumbers(numbers: seq<int>)
    | Services(names: seq<string>)

  // What the session looks things up in besides the registry: the symbol index and
  // the types and extensions linked into the process.
  datatype Lookup = Lookup(
    symbols: Symbols,
    types: map<string, File>,
    extensions: map<(string, int), File>,
    numbers: map<string, seq<int>>,
    services: seq<string>)

  predicate Known(u: Universe, f: File) { f.name in u.files && u.files[f.name] == f }

  ghost predicate KnownLookup(u: Universe, l: Lookup) {
    && (forall s :: s in l.symbols ==> Known(u, l.symbols[s]))
    && (forall t :: t in l.types ==> Known(u, l.types[t]))
    && (forall e :: e in l.extensions ==> Known(u, l.extensions[e]))
  }

  // The file a query asks for, if there is one.
  function Wanted(u: Universe, l: Lookup, q: Query): (root: Option<File>)
    requires WellFormed(u) && KnownLookup(u, l)
    ensures root.Some? ==> Known(u, root.value)
  {
    match q
    case FileByFilename(n) => if n in u.registered then Some(u.files[n]) else None
    case FileContainingSymbol(s) =>
      if s in l.symbols then Some(l.symbols[s]) else if s in l.types then Some(l.types[s]) else None
    case FileContainingExtension(t, k) => if (t, k) in l.extensions then Some(l.extensions[(t, k)]) else None
    case _ => None
  }

  function NamesOf(fs: seq<File>): set<string> {
    set f | f in fs :: f.name
  }

  function QueueNames(queue: seq<File>): seq<string> {
    seq(|queue|, i requires 0 <= i < |queue| => queue[i].name)
  }

  function SentIn(answers: seq<Answer>): set<string> {
    set k, f | 0 <= k < |answers| && answers[k].Files? && f in answers[k].files :: f.name
  }

  // ---------------------------------------------------------------------
  // The breadth-first traversal
  // ---------------------------------------------------------------------

  // The names in the queue and the files already taken from it: what the visited
  // files import is visited or queued.
  ghost predicate Visiting(u: Universe, root: string, queue: seq<string>, visited: set<string>)
    requires WellFormed(u)
  {
    && (forall n :: n in queue ==> n in u.files && Reaches(u, root, n))
    && (forall n :: n in visited ==> n in u.files && Reaches(u, root, n))
    && (forall n, m :: n in visited && m in Imports(u, n) ==> m in visited || m in queue)
    && (root in visited || queue == [root])
  }

  lemma VisitNext(u: Universe, root: string, queue: seq<string>, visited: set<string>)
    requires WellFormed(u) && Visiting(u, root, queue, visited) && queue != []
    ensures Visiting(u, root, Turn(u, queue), visited + {queue[0]})
  {
    assert queue == [queue[0]] + queue[1..];
    forall n | n in Imports(u, queue[0]) ensures Reaches(u, root, n) {
      ReachesStep(u, root, queue[0], n);
    }
  }

  lemma QueueNext(u: Universe, rank: map<string, nat>, root: string, queue: seq<File>, next: seq<File>,
                  visited: set<string>)
    requires WellFormed(u) && Ranked(u, rank) && queue != [] && Known(u, queue[0])
    requires Visiting(u, root, QueueNames(queue), visited)
    requires QueueNames(next) == QueueNames(queue[1..]) + Imports(u, queue[0].name)
    ensures Visiting(u, root, QueueNames(next), visited + {queue[0].name})
    requires forall n :: n in QueueNames(queue) ==> n in rank
    ensures forall n :: n in QueueNames(next) ==> n in rank
    ensures QueueSize(u, rank, QueueNames(next)) < QueueSize(u, rank, QueueNames(queue))
  {
    var names := QueueNames(queue);
    assert QueueNames(queue[1..]) == names[1..];
    VisitNext(u, root, names, visited);
    TurnLowers(u, rank, names);
  }

  lemma VisitedAll(u: Universe, root: string, visited: set<string>)
    requires WellFormed(u) && root in u.files && Visiting(u, root, [], visited)
    ensures forall n :: n in visited <==> Reaches(u, root, n)
  {
    forall n | Reaches(u, root, n) ensures n in visited {
      ClosedHolds(u, visited, root, n);
    }
  }

  // What has been collected: the root, and the visited files not sent before.
  ghost predicate Collected(root: File, sent0: set<string>, visited: set<string>, r: seq<File>, sent: set<string>) {
    && (r == [] <==> visited == {})
    && (r != [] ==> r[0] == root && root.name in visited)
    && sent == sent0 + visited
    && NamesOf(r) == (visited - sent0) + (if r == [] then {} else {root.name})
    && (forall i, j :: 0 <= i < j < |r| ==> r[i].name != r[j].name)
  }

  ghost predicate AllKnown(u: Universe, fs: seq<File>) { forall f :: f in fs ==> Known(u, f) }

  // What the traversal returns and leaves in `sent`.
  ghost predicate Delivers(u: Universe, root: File, sent0: set<string>, r: seq<File>, sent: set<string>) {
    && r != [] && r[0] == root && AllKnown(u, r)
    && (forall i, j :: 0 <= i < j < |r| ==> r[i].name != r[j].name)
    && (forall n :: n in NamesOf(r) <==> n == root.name || (Reaches(u, root.name, n) && n !in sent0))
    && (forall n :: n in sent <==> n in sent0 || Reaches(u, root.name, n))
  }

  lemma Collects(u: Universe, root: File, sent0: set<string>, visited: set<string>, r: seq<File>, sent: set<string>)
    requires WellFormed(u) && Known(u, root) && AllKnown(u, r)
    requires Visiting(u, root.name, [], visited) && Collected(root, sent0, visited, r, sent)
    ensures Delivers(u, root, sent0, r, sent)
  {
    VisitedAll(u, root.name, visited);
  }

  lemma CollectNext(root: File, sent0: set<string>, visited: set<string>, r: seq<File>, sent: set<string>, f: File)
    requires Collected(root, sent0, visited, r, sent) && (r == [] ==> f == root)
    ensures r == [] || f.name !in sent ==>
              Collected(root, sent0, visited + {f.name}, r + [f], sent + {f.name})
    ensures r != [] && f.name in sent ==> Collected(root, sent0, visited + {f.name}, r, sent)
  {
    assert NamesOf(r + [f]) == NamesOf(r) + {f.name};
    forall i | 0 <= i < |r| ensures r[i].name in NamesOf(r) {}
  }

  lemma DeliveredClosed(u: Universe, root: File, sent0: set<string>, r: seq<File>, sent: set<string>)
    requires WellFormed(u) && Known(u, root) && Delivers(u, root, sent0, r, sent)
    requires sent0 <= u.files.Keys && ImportsClosed(u, sent0)
    ensures sent <= u.files.Keys && ImportsClosed(u, sent)
  {
    forall n, m | n in sent && n !in sent0 && m in Imports(u, n) ensures m in sent {
      ReachesStep(u, root.name, n, m);
    }
  }

  // The files the client has been sent in the first k answers.
  function SentBefore(answers: seq<Answer>, k: nat): set<string>
    requires k <= |answers|
  {
    SentIn(answers[..k])
  }

  // ---------------------------------------------------------------------
  // A session
  // ---------------------------------------------------------------------

  // The answer starts with this file.
  predicate StartsWith(a: Answer, root: File) { a.Files? && a.files != [] && a.files[0] == root }

  // The answer a query deserves, dependencies aside: a file of this name, the file the
  // symbol index leads to or else the one that declares the type, the file of the
  // extension; NotFound if there is none.
  ghost predicate Answers(u: Universe, l: Lookup, q: Query, a: Answer)
    requires WellFormed(u) && KnownLookup(u, l)
  {
    match q
    case FileByFilename(n) => if n in u.registered then StartsWith(a, u.files[n]) else a == NotFound
    case FileContainingSymbol(s) =>
      if s in l.symbols then StartsWith(a, l.symbols[s])
      else if s in l.types then StartsWith(a, l.types[s])
      else a == NotFound
    case FileContainingExtension(t, k) =>
      if (t, k) in l.extensions then StartsWith(a, l.extensions[(t, k)]) else a == NotFound
    case AllExtensionNumbersOfType(t) => a == if t in l.numbers then ExtensionNumbers(l.numbers[t]) else NotFound
    case ListServices => a == Services(l.services)
    case Unset => false
  }

  /** Asked for a symbol over the index of the services, a session answers with a file
      that declares it whenever one they lead to does; otherwise the file is that of the
      linked type of that name, and without one the answer is NotFound. */
  lemma SymbolAnswered(u: Universe, services: map<string, Metadata>, visited: seq<string>, l: Lookup, k: string,
                       a: Answer)
    requires WellFormed(u) && KnownMetadata(u, services) && Elements(visited) == services.Keys
    requires l.symbols == Scan(u, services, visited) && KnownLookup(u, l)
    requires Answers(u, l, FileContainingSymbol(k), a)
    ensures if exists f :: Served(u, services, f) && NamedIn(f, k) then
              a.Files? && a.files != [] && Served(u, services, a.files[0]) && NamedIn(a.files[0], k)
            else if k in l.types then StartsWith(a, l.types[k])
            else a == NotFound
  {
    KeysExactly(u, services, visited);
  }

  predicate NoneUnset(queries: seq<Query>) {
    forall k :: 0 <= k < |queries| ==> !queries[k].Unset?
  }

  // The switch knows the request, and the traversal it asks for ends.
  ghost predicate Answerable(u: Universe, l: Lookup, q: Query)
    requires WellFormed(u) && KnownLookup(u, l)
  {
    !q.Unset? && (Wanted(u, l, q).Some? ==> AcyclicFrom(u, Wanted(u, l, q).value.name))
  }

  // After each answer the client holds everything its root depends on.
  ghost predicate Rebuildable(u: Universe, answers: seq<Answer>) {
    forall k, n ::
      (0 <= k < |answers| && answers[k].Files? && answers[k].files != [] && Reaches(u, answers[k].files[0].name, n))
      ==> n in SentBefore(answers, k + 1)
  }

  // A file is sent again only as the root of a request.
  ghost predicate SentOnce(answers: seq<Answer>) {
    forall k, i :: 0 <= k < |answers| && answers[k].Files? && 0 < i < |answers[k].files| ==>
      && answers[k].files[i].name !in SentBefore(answers, k)
      && forall j :: 0 <= j < i ==> answers[k].files[j].name != answers[k].files[i].name
  }

  lemma SentInAppend(answers: seq<Answer>, a: Answer)
    ensures SentIn(answers + [a]) == SentIn(answers) + (if a.Files? then NamesOf(a.files) else {})
  {
    var more := answers + [a];
    assert more[|answers|] == a;
    assert forall k :: 0 <= k < |answers| ==> more[k] == answers[k];
  }

  lemma AnswerNext(u: Universe, answers: seq<Answer>, a: Answer, sent0: set<string>, sent: set<string>)
    requires WellFormed(u) && Rebuildable(u, answers) && SentOnce(answers) && sent0 == SentIn(answers)
    requires a.Files? ==> a.files != [] && Delivers(u, a.files[0], sent0, a.files, sent)
    requires !a.Files? ==> sent == sent0
    ensures Rebuildable(u, answers + [a]) && SentOnce(answers + [a]) && sent == SentIn(answers + [a])
  {
    SentInAppend(answers, a);
    if a.Files? { OnceInAnswer(u, a.files, sent0, sent); }
    RebuildNext(u, answers, a);
    OnceNext(answers, a);
  }

  lemma BeforeIsSame(answers: seq<Answer>, a: Answer)
    ensures forall k :: 0 <= k <= |answers| ==> SentBefore(answers + [a], k) == SentBefore(answers, k)
    ensures SentBefore(answers, |answers|) == SentIn(answers)
    ensures SentBefore(answers + [a], |answers| + 1) == SentIn(answers + [a])
  {
    var more := answers + [a];
    assert answers[..|answers|] == answers && more[..|answers| + 1] == more;
    forall k | 0 <= k <= |answers| ensures SentBefore(more, k) == SentBefore(answers, k) {
      assert more[..k] == answers[..k];
    }
  }

  lemma RebuildNext(u: Universe, answers: seq<Answer>, a: Answer)
    requires Rebuildable(u, answers)
    requires a.Files? && a.files != [] ==> forall n :: Reaches(u, a.files[0].name, n) ==> n in SentIn(answers + [a])
    ensures Rebuildable(u, answers + [a])
  {
    var more := answers + [a];
    BeforeIsSame(answers, a);
    forall k, n | 0 <= k < |more| && more[k].Files? && more[k].files != [] && Reaches(u, more[k].files[0].name, n)
      ensures n in SentBefore(more, k + 1)
    {
      if k < |answers| { assert more[k] == answers[k]; }
    }
  }

  lemma OnceNext(answers: seq<Answer>, a: Answer)
    requires SentOnce(answers)
    requires a.Files? ==> forall i :: 0 < i < |a.files| ==> a.files[i].name !in SentIn(answers)
    requires a.Files? ==> forall i, j :: 0 <= i < j < |a.files| ==> a.files[i].name != a.files[j].name
    ensures SentOnce(answers + [a])
  {
    var more := answers + [a];
    BeforeIsSame(answers, a);
    forall k, i | 0 <= k < |more| && more[k].Files? && 0 < i < |more[k].files|
      ensures more[k].files[i].name !in SentBefore(more, k)
      ensures forall j :: 0 <= j < i ==> more[k].files[j].name != more[k].files[i].name
    {
      if k < |answers| { assert more[k] == answers[k]; }
    }
  }

  lemma OnceInAnswer(u: Universe, files: seq<File>, sent0: set<string>, sent: set<string>)
    requires files != [] && Delivers(u, files[0], sent0, files, sent)
    ensures sent == sent0 + NamesOf(files)
    ensures forall i :: 0 < i < |files| ==> files[i].name !in sent0
  {
    assert Known(u, files[0]);
    ReachesSelf(u, files[0].name);
    forall i | 0 < i < |files| ensures files[i].name !in sent0 {
      assert files[i].name in NamesOf(files);
      assert files[i].name != files[0].name;
    }
  }

  class Session {
    ghost const u: Universe
    const files: map<string, File>
    const registered: set<string>
    const lookup: Lookup
    var sent: set<string>

    constructor (u: Universe, lookup: Lookup)
      requires WellFormed(u) && KnownLookup(u, lookup)
      ensures this.u == u && this.lookup == lookup && Valid() && sent == {}
    {
      this.u, this.files, this.registered, this.lookup := u, u.files, u.registered, lookup;
      sent := {};
    }

    ghost predicate Registry()
      reads this
    {
      u == Universe(files, registered) && WellFormed(u)
    }

    ghost predicate Valid()
      reads this
    {
      Registry() && KnownLookup(u, lookup) && sent <= u.files.Keys && ImportsClosed(u, sent)
    }

    // fileDescWithDependencies: the root first, whether sent before or not, then
    // each file reachable from it that was not, once.
    method FileDescWithDependencies(fd: File) returns (r: seq<File>)
      requires Registry() && Known(u, fd) && AcyclicFrom(u, fd.name)
      modifies this`sent
      ensures Delivers(u, fd, old(sent), r, sent)
    {
      ghost var visited: set<string> := {};
      ghost var rank := AcyclicRank(u, fd.name);
      ReachesSelf(u, fd.name);
      r := [];
      var queue := [fd];
      assert QueueNames(queue) == [fd.name];
      while queue != []
        invariant AllKnown(u, queue) && AllKnown(u, r)
        invariant Visiting(u, fd.name, QueueNames(queue), visited)
        invariant Collected(fd, old(sent), visited, r, sent)
        invariant r == [] ==> queue == [fd]
        invariant forall n :: n in QueueNames(queue) ==> n in rank
        decreases QueueSize(u, rank, QueueNames(queue))
      {
        ghost var was := queue;
        var current := queue[0];
        queue := EnqueueImports(current, queue[1..]);
        QueueNext(u, rank, fd.name, was, queue, visited);
        r := Collect(current, fd, old(sent), visited, r);
        visited := visited + {current.name};
      }
      Collects(u, fd, old(sent), visited, r, sent);
    }

    // The file taken from the queue is returned when it is the root or not yet sent.
    method Collect(current: File, ghost root: File, ghost sent0: set<string>, ghost visited: set<string>, r: seq<File>)
      returns (more: seq<File>)
      requires Collected(root, sent0, visited, r, sent) && (r == [] ==> current == root)
      requires AllKnown(u, r) && Known(u, current)
      modifies this`sent
      ensures Collected(root, sent0, visited + {current.name}, more, sent)
      ensures AllKnown(u, more) && more != []
    {
      CollectNext(root, sent0, visited, r, sent, current);
      more := r;
      if r == [] || current.name !in sent {
        sent := sent + {current.name};
        more := r + [current];
      }
    }

    // The inner loop: every import that is found joins the queue.
    method EnqueueImports(current: File, queue: seq<File>) returns (longer: seq<File>)
      requires Registry() && Known(u, current) && AllKnown(u, queue)
      ensures QueueNames(longer) == QueueNames(queue) + Imports(u, current.name)
      ensures AllKnown(u, longer)
    {
      longer := queue;
      var k := 0;
      while k < |current.dependencies|
        invariant 0 <= k <= |current.dependencies|
        invariant QueueNames(longer) == QueueNames(queue) + Found(u, current.dependencies[..k])
        invariant AllKnown(u, longer)
      {
        var dep := current.dependencies[k];
        FoundAppend(u, current.dependencies[..k], dep);
        assert current.dependencies[..k + 1] == current.dependencies[..k] + [dep];
        if dep in registered {
          assert QueueNames(longer + [files[dep]]) == QueueNames(longer) + [dep];
          longer := longer + [files[dep]];
        }
        k := k + 1;
      }
      assert current.dependencies[..k] == current.dependencies;
    }

    // One turn of the session loop, on a query the switch knows.
    method Respond(q: Query) returns (a: Answer)
      requires Valid() && Answerable(u, lookup, q)
      modifies this`sent
      ensures Valid()
      ensures Answers(u, lookup, q, a)
      ensures a.Files? ==> Delivers(u, a.files[0], old(sent), a.files, sent)
      ensures !a.Files? ==> sent == old(sent)
    {
      if q.AllExtensionNumbersOfType? {
        a := if q.typeName in lookup.numbers then ExtensionNumbers(lookup.numbers[q.typeName]) else NotFound;
      } else if q.ListServices? {
        a := Services(lookup.services);
      } else {
        var root := Wanted(Universe(files, registered), lookup, q);
        if root.None? {
          return NotFound;
        }
        var r := FileDescWithDependencies(root.value);
        DeliveredClosed(u, root.value, old(sent), r, sent);
        a := Files(r);
      }
    }

    // ServerReflectionInfo: false is the InvalidArgument that ends the session at a
    // request without a message. No file that a request before it wants leads to a
    // cycle of imports.
    method ServerReflectionInfo(queries: seq<Query>) returns (answers: seq<Answer>, ok: bool)
      requires Valid() && sent == {}
      requires forall k :: 0 <= k < |queries| && NoneUnset(queries[..k + 1]) ==> Answerable(u, lookup, queries[k])
      modifies this`sent
      ensures Valid() && sent == SentIn(answers)
      ensures ok <==> NoneUnset(queries)
      ensures if ok then |answers| == |queries| else |answers| < |queries| && queries[|answers|].Unset?
      ensures forall k :: 0 <= k < |answers| ==> !queries[k].Unset? && Answers(u, lookup, queries[k], answers[k])
      ensures Rebuildable(u, answers) && SentOnce(answers)
    {
      answers := [];
      while |answers| < |queries|
        invariant |answers| <= |queries| && Valid() && sent == SentIn(answers)
        invariant forall k :: 0 <= k < |answers| ==> !queries[k].Unset? && Answers(u, lookup, queries[k], answers[k])
        invariant Rebuildable(u, answers) && SentOnce(answers)
      {
        var q := queries[|answers|];
        if q.Unset? {
          return answers, false;
        }
        ghost var sent0 := sent;
        assert NoneUnset(queries[..|answers| + 1]);
        var a := Respond(q);
        AnswerNext(u, answers, a, sent0, sent);
        answers := answers + [a];
      }
      ok := true;
    }
  }
}
