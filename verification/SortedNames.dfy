// Sorting strings (sort.Strings in pkg/rpc/reflection/serverreflection.go).
module SortedNames {

  // Lexicographic order.
  predicate AtMost(a: string, b: string) {
    a == [] || (b != [] && (a[0] < b[0] || (a[0] == b[0] && AtMost(a[1..], b[1..]))))
  }

  lemma {:induction false} AtMostTotal(a: string, b: string)
    ensures AtMost(a, b) || AtMost(b, a)
    ensures AtMost(a, b) && AtMost(b, a) ==> a == b
  {
    if a != [] && b != [] && a[0] == b[0] {
      AtMostTotal(a[1..], b[1..]);
      assert a == [a[0]] + a[1..] && b == [b[0]] + b[1..];
    }
  }

  lemma {:induction false} AtMostTransitive(a: string, b: string, c: string)
    requires AtMost(a, b) && AtMost(b, c)
    ensures AtMost(a, c)
  {
    if a != [] && a[0] == b[0] == c[0] { AtMostTransitive(a[1..], b[1..], c[1..]); }
  }

  ghost predicate Ascending(names: seq<string>) {
    forall i, j :: 0 <= i < j < |names| ==> AtMost(names[i], names[j])
  }

  function Insert(names: seq<string>, n: string): (r: seq<string>)
    ensures multiset(r) == multiset(names) + multiset{n}
  {
    if names == [] || AtMost(n, names[0]) then [n] + names
    else
      assert names == [names[0]] + names[1..];
      [names[0]] + Insert(names[1..], n)
  }

  function Sorted(names: seq<string>): (r: seq<string>)
    ensures multiset(r) == multiset(names)
  {
    if names == [] then []
    else
      assert names == names[..|names| - 1] + [names[|names| - 1]];
      Insert(Sorted(names[..|names| - 1]), names[|names| - 1])
  }

  lemma {:induction false} InsertAscends(names: seq<string>, n: string)
    requires Ascending(names)
    ensures Ascending(Insert(names, n))
  {
    if names == [] {
    } else if AtMost(n, names[0]) {
      forall j | 0 <= j < |names| ensures AtMost(n, names[j]) {
        if j > 0 { AtMostTransitive(n, names[0], names[j]); }
      }
    } else {
      AtMostTotal(n, names[0]);
      var rest := Insert(names[1..], n);
      InsertAscends(names[1..], n);
      forall j | 0 <= j < |rest| ensures AtMost(names[0], rest[j]) {
        assert rest[j] in multiset(rest);
        if rest[j] != n {
          assert rest[j] in multiset(names[1..]);
          var i :| 0 <= i < |names[1..]| && names[1..][i] == rest[j];
          assert names[i + 1] == rest[j];
        }
      }
    }
  }

  lemma {:induction false} SortedAscends(names: seq<string>)
    ensures Ascending(Sorted(names))
  {
    if names != [] {
      SortedAscends(names[..|names| - 1]);
      InsertAscends(Sorted(names[..|names| - 1]), names[|names| - 1]);
    }
  }

  // An ascending sequence starts with what is at most everything in it.
  lemma Least(names: seq<string>, n: string)
    requires Ascending(names) && n in names
    ensures AtMost(names[0], n)
  {
    var i :| 0 <= i < |names| && names[i] == n;
    AtMostTotal(n, n);
  }

  lemma SameLeast(a: seq<string>, b: seq<string>)
    requires Ascending(a) && Ascending(b) && multiset(a) == multiset(b) && a != [] && b != []
    ensures a[0] == b[0]
  {
    assert a[0] in multiset(a) && b[0] in multiset(b);
    Least(a, b[0]);
    Least(b, a[0]);
    AtMostTotal(a[0], b[0]);
  }

  lemma TailCounts(a: seq<string>)
    requires a != []
    ensures multiset(a[1..]) == multiset(a) - multiset{a[0]}
  {
    assert a == [a[0]] + a[1..];
  }

  lemma {:induction false} AscendingUnique(a: seq<string>, b: seq<string>)
    requires Ascending(a) && Ascending(b) && multiset(a) == multiset(b)
    ensures a == b
  {
    assert |a| == |multiset(a)| && |b| == |multiset(b)|;
    if a != [] {
      SameLeast(a, b);
      TailCounts(a);
      TailCounts(b);
      AscendingUnique(a[1..], b[1..]);
    }
  }

  /** Sorting forgets the order it was given. */
  lemma SortedUnique(a: seq<string>, b: seq<string>)
    requires multiset(a) == multiset(b)
    ensures Sorted(a) == Sorted(b)
  {
    SortedAscends(a);
    SortedAscends(b);
    AscendingUnique(Sorted(a), Sorted(b));
  }
}
