// NATS subjects of the protocol (pkg/rpc/subjects.go), the subscription patterns of
// the sidecar (pkg/sidecar/ingress.go) and of the server (pkg/rpc/server.go), and
// how NATS matches one against the other.
module Subjects {
  import opened Wire

  const PREFIX_LEGACY := "nrpc"
  const PREFIX_UNARY := "nrpc.unary"
  const PREFIX_STREAM := "nrpc.stream"

  // methodSuffix: strings.ReplaceAll(fullMethod, "/", ".").
  function MethodSuffix(fullMethod: string): string {
    seq(|fullMethod|, i requires 0 <= i < |fullMethod| => if fullMethod[i] == '/' then '.' else fullMethod[i])
  }

  function LegacySubject(svcid: string, fullMethod: string): string {
    (if svcid != "" then PREFIX_LEGACY + "." + svcid else PREFIX_LEGACY) + MethodSuffix(fullMethod)
  }

  function ModernUnarySubject(svcid: string, fullMethod: string): string {
    PREFIX_UNARY + "." + svcid + MethodSuffix(fullMethod)
  }

  function ModernStreamSubject(svcid: string, nid: string, fullMethod: string): string {
    PREFIX_STREAM + "." + svcid + "." + nid + MethodSuffix(fullMethod)
  }

  // subscribeService of the sidecar.
  function UnaryPattern(svcid: string, service: string): string {
    PREFIX_UNARY + "." + svcid + "." + service + ".>"
  }

  function StreamPattern(svcid: string, nid: string, service: string): string {
    PREFIX_STREAM + "." + svcid + "." + nid + "." + service + ".>"
  }

  // The queue group of a unary subscription: one of the replicas gets each call.
  function QueueGroup(svcid: string, service: string): string {
    "u:" + svcid + ":" + service
  }

  // RegisterService of the server: its prefix, subscription and handler keys.
  function ServerPrefix(nid: string, service: string): string {
    if |nid| > 0 then PREFIX_LEGACY + "." + nid + "." + service else PREFIX_LEGACY + "." + service
  }

  function HandlerKey(nid: string, service: string, name: string): string {
    ServerPrefix(nid, service) + "." + name
  }

  // The canonical gRPC path of a method.
  function FullMethod(service: string, name: string): string {
    "/" + service + "/" + name
  }

  // ---------------------------------------------------------------------
  // Tokens
  // ---------------------------------------------------------------------

  // The tokens of a subject, between its dots.
  function Tokens(s: string): (tokens: seq<string>)
    ensures tokens != []
  {
    if s == "" then [""]
    else
      var rest := Tokens(s[1..]);
      if s[0] == '.' then [""] + rest else [[s[0]] + rest[0]] + rest[1..]
  }

  function Dotted(tokens: seq<string>): string
    requires tokens != []
  {
    if |tokens| == 1 then tokens[0] else tokens[0] + "." + Dotted(tokens[1..])
  }

  predicate DotFree(s: string) { '.' !in s }

  predicate SlashFree(s: string) { '/' !in s }

  lemma {:induction false} TokensDotFree(s: string)
    ensures forall t :: t in Tokens(s) ==> DotFree(t)
  {
    if s != "" {
      TokensDotFree(s[1..]);
      var rest := Tokens(s[1..]);
      assert rest[0] in rest;
      assert forall t :: t in rest[1..] ==> t in rest;
    }
  }

  lemma {:induction false} TokensOfDotted(a: string, b: string)
    ensures Tokens(a + "." + b) == Tokens(a) + Tokens(b)
  {
    if a == "" {
      assert (a + "." + b)[1..] == b;
    } else {
      assert (a + "." + b)[1..] == a[1..] + "." + b;
      TokensOfDotted(a[1..], b);
    }
  }

  lemma {:induction false} OneToken(s: string)
    requires DotFree(s)
    ensures Tokens(s) == [s]
  {
    if s != "" {
      OneToken(s[1..]);
      assert [s[0]] + s[1..] == s;
    }
  }

  lemma {:induction false} DottedTokens(s: string)
    ensures Dotted(Tokens(s)) == s
  {
    if s != "" {
      DottedTokens(s[1..]);
      var rest := Tokens(s[1..]);
      assert s == [s[0]] + s[1..];
      if s[0] == '.' {
        assert ([""] + rest)[1..] == rest;
      } else {
        var all := [[s[0]] + rest[0]] + rest[1..];
        assert all[1..] == rest[1..];
        if |rest| > 1 {
          assert [s[0]] + rest[0] + "." + Dotted(rest[1..]) == [s[0]] + (rest[0] + "." + Dotted(rest[1..]));
        }
      }
    }
  }

  lemma SuffixOf(service: string, name: string)
    requires SlashFree(service) && SlashFree(name)
    ensures MethodSuffix(FullMethod(service, name)) == "." + service + "." + name
  {}

  // ---------------------------------------------------------------------
  // Stream subjects can be read back
  // ---------------------------------------------------------------------

  datatype Address = Address(svcid: string, nid: string, service: string, name: string)

  function SubjectOf(a: Address): string {
    ModernStreamSubject(a.svcid, a.nid, FullMethod(a.service, a.name))
  }

  // A reader of stream subjects: third and fourth token, method last.
  function ReadSubject(subject: string): Option<Address> {
    var t := Tokens(subject);
    if |t| < 6 then None
    else Some(Address(t[2], t[3], Dotted(t[4..|t| - 1]), t[|t| - 1]))
  }

  predicate SlashFreePath(a: Address) { SlashFree(a.service) && SlashFree(a.name) }

  lemma TokensOfFour(a: string, b: string, c: string, d: string)
    ensures Tokens(a + "." + b + "." + c + "." + d) == Tokens(a) + Tokens(b) + Tokens(c) + Tokens(d)
  {
    TokensOfDotted(a + "." + b + "." + c, d);
    TokensOfDotted(a + "." + b, c);
    TokensOfDotted(a, b);
  }

  lemma StreamTokens(a: Address)
    requires SlashFreePath(a)
    ensures Tokens(SubjectOf(a)) ==
            Tokens(PREFIX_STREAM) + Tokens(a.svcid) + Tokens(a.nid) + Tokens(a.service) + Tokens(a.name)
  {
    SuffixOf(a.service, a.name);
    var s := PREFIX_STREAM + "." + a.svcid + "." + a.nid + "." + a.service;
    assert SubjectOf(a) == s + "." + a.name;
    TokensOfDotted(s, a.name);
    TokensOfFour(PREFIX_STREAM, a.svcid, a.nid, a.service);
  }

  const NRPC := "nrpc"
  const STREAM := "stream"

  lemma PrefixTokens()
    ensures |Tokens(PREFIX_STREAM)| == 2 && Literal(Tokens(PREFIX_STREAM))
  {
    PrefixParts();
    LongIsPlain(NRPC);
    LongIsPlain(STREAM);
  }

  lemma LongIsPlain(t: string)
    requires |t| > 1
    ensures Plain(t)
  {}

  lemma PrefixParts()
    ensures Tokens(PREFIX_STREAM) == [NRPC, STREAM]
  {
    NamesAreTokens();
    assert PREFIX_STREAM == NRPC + "." + STREAM;
    TokensOfDotted(NRPC, STREAM);
  }

  lemma NamesAreTokens()
    ensures Tokens(NRPC) == [NRPC] && Tokens(STREAM) == [STREAM]
  {
    OneToken(NRPC);
    OneToken(STREAM);
  }

  /** A stream subject is read back to the svcid, nid, service and method it was
      built from exactly when svcid, nid and method are single tokens. */
  lemma ReadBackExactly(a: Address)
    requires SlashFreePath(a)
    ensures ReadSubject(SubjectOf(a)) == Some(a) <==> DotFree(a.svcid) && DotFree(a.nid) && DotFree(a.name)
  {
    if DotFree(a.svcid) && DotFree(a.nid) && DotFree(a.name) {
      ReadsBack(a);
    } else {
      var t := Tokens(SubjectOf(a));
      TokensDotFree(SubjectOf(a));
      assert |t| >= 6 ==> t[2] in t && t[3] in t && t[|t| - 1] in t;
    }
  }

  lemma ReadsBack(a: Address)
    requires SlashFreePath(a) && DotFree(a.svcid) && DotFree(a.nid) && DotFree(a.name)
    ensures ReadSubject(SubjectOf(a)) == Some(a)
  {
    StreamTokens(a);
    PrefixTokens();
    OneToken(a.svcid);
    OneToken(a.nid);
    OneToken(a.name);
    DottedTokens(a.service);
    ReadTokens(Tokens(PREFIX_STREAM), a, Tokens(SubjectOf(a)));
  }

  lemma ReadTokens(pre: seq<string>, a: Address, t: seq<string>)
    requires |pre| == 2 && t == pre + [a.svcid] + [a.nid] + Tokens(a.service) + [a.name]
    ensures |t| >= 6 && t[2] == a.svcid && t[3] == a.nid && t[4..|t| - 1] == Tokens(a.service) && t[|t| - 1] == a.name
  {}

  /** Hence single-token addresses have distinct subjects ... */
  lemma SubjectsDistinct(a: Address, b: Address)
    requires SlashFreePath(a) && DotFree(a.svcid) && DotFree(a.nid) && DotFree(a.name)
    requires SlashFreePath(b) && DotFree(b.svcid) && DotFree(b.nid) && DotFree(b.name)
    ensures SubjectOf(a) == SubjectOf(b) <==> a == b
  {
    ReadBackExactly(a);
    ReadBackExactly(b);
  }

  /** ... while a svcid of two tokens shares its subject with another address. */
  lemma SvcidOfTwoTokens(x: string, y: string, nid: string, service: string, name: string)
    requires SlashFree(nid)
    ensures SubjectOf(Address(x + "." + y, nid, service, name)) == SubjectOf(Address(x, y, nid + "." + service, name))
  {
    var m := FullMethod(nid + "." + service, name);
    assert m == "/" + nid + "." + service + "/" + name;
    assert MethodSuffix(m) == "." + nid + MethodSuffix(FullMethod(service, name));
  }

  // ---------------------------------------------------------------------
  // Subscriptions
  // ---------------------------------------------------------------------

  // NATS: `*` stands for one token, a last `>` for one or more.
  predicate TokensMatch(pattern: seq<string>, subject: seq<string>) {
    if pattern == [] then subject == []
    else if pattern == [">"] then subject != []
    else subject != [] && (pattern[0] == "*" || pattern[0] == subject[0]) && TokensMatch(pattern[1..], subject[1..])
  }

  predicate Matches(pattern: string, subject: string) { TokensMatch(Tokens(pattern), Tokens(subject)) }

  predicate Plain(t: string) { t != "*" && t != ">" }

  predicate Literal(tokens: seq<string>) { forall i :: 0 <= i < |tokens| ==> Plain(tokens[i]) }

  lemma {:induction false} LiteralPrefix(prefix: seq<string>, subject: seq<string>)
    requires Literal(prefix)
    ensures TokensMatch(prefix + [">"], subject) <==> |prefix| < |subject| && prefix == subject[..|prefix|]
  {
    var pattern := prefix + [">"];
    assert [">"][1..] == [];
    if prefix == [] {
      assert pattern == [">"];
    } else {
      assert pattern[1..] == prefix[1..] + [">"];
      assert pattern[0] == prefix[0] && pattern != [">"];
      if subject != [] {
        LiteralPrefix(prefix[1..], subject[1..]);
        assert |prefix| < |subject| ==> subject[..|prefix|] == [subject[0]] + subject[1..][..|prefix| - 1];
        assert prefix == [prefix[0]] + prefix[1..];
      }
    }
  }

  // A stream subscription of the sidecar replica `nid`.
  datatype Subscription = Subscription(svcid: string, nid: string, service: string)

  predicate WellFormedSubscription(p: Subscription) {
    DotFree(p.svcid) && DotFree(p.nid) && Plain(p.svcid) && Plain(p.nid) && Literal(Tokens(p.service))
  }

  function PatternOf(p: Subscription): string { StreamPattern(p.svcid, p.nid, p.service) }

  lemma TokensOfTail(s: string)
    ensures Tokens(s + ".>") == Tokens(s) + [">"]
  {
    assert s + ".>" == s + "." + ">";
    TokensOfDotted(s, ">");
    OneToken(">");
  }

  lemma PatternTokens(prefix: string, svcid: string, nid: string, service: string)
    requires DotFree(svcid) && DotFree(nid)
    ensures Tokens(prefix + "." + svcid + "." + nid + "." + service + ".>") ==
            Tokens(prefix) + [svcid] + [nid] + Tokens(service) + [">"]
  {
    TokensOfTail(prefix + "." + svcid + "." + nid + "." + service);
    TokensOfFour(prefix, svcid, nid, service);
    OneToken(svcid);
    OneToken(nid);
  }

  predicate SingleTokens(a: Address) { DotFree(a.svcid) && DotFree(a.nid) && DotFree(a.name) && SlashFreePath(a) }

  /** A stream frame reaches a sidecar subscription exactly when svcid and nid agree
      and the subscription's service is a token prefix of the frame's. */
  lemma StreamMatchExactly(p: Subscription, a: Address)
    requires WellFormedSubscription(p) && SingleTokens(a)
    ensures Matches(PatternOf(p), SubjectOf(a)) <==>
              p.svcid == a.svcid && p.nid == a.nid && Tokens(p.service) <= Tokens(a.service)
  {
    var pre := Tokens(PREFIX_STREAM);
    PrefixTokens();
    PatternTokens(PREFIX_STREAM, p.svcid, p.nid, p.service);
    StreamTokens(a);
    OneToken(a.svcid);
    OneToken(a.nid);
    OneToken(a.name);
    MatchSplit(pre, p.svcid, p.nid, Tokens(p.service), a.svcid, a.nid, Tokens(a.service), a.name);
  }

  lemma MatchSplit(pre: seq<string>, svcid: string, nid: string, service: seq<string>,
                   svcid': string, nid': string, service': seq<string>, name: string)
    requires Literal(pre) && Plain(svcid) && Plain(nid) && Literal(service)
    ensures TokensMatch(pre + [svcid] + [nid] + service + [">"], pre + [svcid'] + [nid'] + service' + [name]) <==>
              svcid == svcid' && nid == nid' && service <= service'
  {
    var h, h' := pre + [svcid] + [nid], pre + [svcid'] + [nid'];
    assert h == h' <==> svcid == svcid' && nid == nid' by {
      var n := |pre|;
      assert h[n] == svcid && h[n + 1] == nid && h'[n] == svcid' && h'[n + 1] == nid';
    }
    LiteralPrefix(h + service, h' + service' + [name]);
    PrefixSplit(h, service, h', service', name);
  }

  lemma PrefixSplit(h: seq<string>, s: seq<string>, h': seq<string>, s': seq<string>, name: string)
    requires |h| == |h'|
    ensures var all := h' + s' + [name];
            (|h + s| < |all| && h + s == all[..|h + s|]) <==> h == h' && s <= s'
  {
    var all := h' + s' + [name];
    if |h + s| < |all| {
      var cut := all[..|h + s|];
      assert cut == h' + s'[..|s|];
      assert h + s == cut ==> h == (h + s)[..|h|] && s == (h + s)[|h|..];
      assert (h' + s'[..|s|])[..|h|] == h' && (h' + s'[..|s|])[|h|..] == s'[..|s|];
    }
  }

  // Of the subscriptions with one svcid and nid, no service is a token prefix of
  // another.
  ghost predicate PrefixFree(subs: set<Subscription>) {
    forall p, q ::
      (p in subs && q in subs && p.svcid == q.svcid && p.nid == q.nid && Tokens(p.service) <= Tokens(q.service))
      ==> p == q
  }

  // Two subscriptions of one svcid and nid that match one subject have comparable
  // services.
  lemma OverlapIsPrefix(p: Subscription, q: Subscription, subject: string)
    requires WellFormedSubscription(p) && WellFormedSubscription(q) && p.svcid == q.svcid && p.nid == q.nid
    requires Matches(PatternOf(p), subject) && Matches(PatternOf(q), subject)
    ensures Tokens(p.service) <= Tokens(q.service) || Tokens(q.service) <= Tokens(p.service)
  {
    PatternOfTokens(p);
    PatternOfTokens(q);
    ComparablePrefixes(Head(p), Tokens(p.service), Tokens(q.service), Tokens(subject));
  }

  // The tokens of the pattern before the service's.
  function Head(p: Subscription): seq<string> { Tokens(PREFIX_STREAM) + [p.svcid] + [p.nid] }

  lemma PatternOfTokens(p: Subscription)
    requires WellFormedSubscription(p)
    ensures Tokens(PatternOf(p)) == Head(p) + Tokens(p.service) + [">"] && Literal(Head(p))
  {
    PrefixTokens();
    PatternTokens(PREFIX_STREAM, p.svcid, p.nid, p.service);
  }

  lemma ComparablePrefixes(h: seq<string>, a: seq<string>, b: seq<string>, t: seq<string>)
    requires Literal(h) && Literal(a) && Literal(b)
    requires TokensMatch(h + a + [">"], t) && TokensMatch(h + b + [">"], t)
    ensures a <= b || b <= a
  {
    LiteralPrefix(h + a, t);
    LiteralPrefix(h + b, t);
    assert a == (h + a)[|h|..] == t[|h|..|h| + |a|];
    assert b == (h + b)[|h|..] == t[|h|..|h| + |b|];
  }

  // The services of one registration: none is a token prefix of another, and none
  // is listed twice.
  ghost predicate ServicesPrefixFree(services: seq<string>) {
    forall i, j ::
      (0 <= i < |services| && 0 <= j < |services| && Tokens(services[i]) <= Tokens(services[j])) ==> i == j
  }

  predicate WellFormedService(svcid: string, nid: string, service: string) {
    WellFormedSubscription(Subscription(svcid, nid, service)) && SlashFree(service)
  }

  function AddressIn(p: Subscription, name: string): Address { Address(p.svcid, p.nid, p.service, name) }

  /** Stream affinity is structural: every frame of a stream to a registered service
      reaches that service's subscription, and it reaches no other one, on this or
      another sidecar, exactly when the services registered under one svcid and nid
      are prefix-free. */
  lemma OneSubscriptionExactly(subs: set<Subscription>, name: string)
    requires forall p :: p in subs ==> WellFormedSubscription(p) && SlashFree(p.service)
    requires DotFree(name) && SlashFree(name)
    ensures PrefixFree(subs) <==>
              forall p, q :: p in subs && q in subs ==>
                (Matches(PatternOf(q), SubjectOf(AddressIn(p, name))) <==> q == p)
  {
    forall p, q | p in subs && q in subs
      ensures Matches(PatternOf(q), SubjectOf(AddressIn(p, name))) <==>
                q.svcid == p.svcid && q.nid == p.nid && Tokens(q.service) <= Tokens(p.service)
    {
      StreamMatchExactly(q, AddressIn(p, name));
    }
  }

  // ---------------------------------------------------------------------
  // Unary subjects
  // ---------------------------------------------------------------------

  const UNARY := "unary"

  function UnarySubjectOf(svcid: string, service: string, name: string): string {
    ModernUnarySubject(svcid, FullMethod(service, name))
  }

  lemma UnaryIsToken()
    ensures Tokens(UNARY) == [UNARY]
  {
    OneToken(UNARY);
  }

  lemma UnaryParts()
    ensures Tokens(PREFIX_UNARY) == [NRPC, UNARY]
  {
    NamesAreTokens();
    UnaryIsToken();
    assert PREFIX_UNARY == NRPC + "." + UNARY;
    TokensOfDotted(NRPC, UNARY);
  }

  lemma PlainNames()
    ensures Plain(NRPC) && Plain(UNARY) && Plain(STREAM) && UNARY != STREAM
  {
    LongIsPlain(NRPC);
    LongIsPlain(UNARY);
    LongIsPlain(STREAM);
    assert |UNARY| != |STREAM|;
  }

  lemma UnaryTokens(svcid: string, service: string, name: string)
    requires SlashFree(service) && SlashFree(name)
    ensures Tokens(UnarySubjectOf(svcid, service, name)) ==
            [NRPC, UNARY] + Tokens(svcid) + Tokens(service) + Tokens(name)
  {
    UnaryParts();
    UnaryText(PREFIX_UNARY, svcid, service, name);
    TokensOfFour(PREFIX_UNARY, svcid, service, name);
  }

  lemma UnaryText(prefix: string, svcid: string, service: string, name: string)
    requires SlashFree(service) && SlashFree(name)
    ensures prefix + "." + svcid + MethodSuffix(FullMethod(service, name)) ==
            prefix + "." + svcid + "." + service + "." + name
  {
    SuffixOf(service, name);
  }

  lemma UnaryPatternTokens(prefix: string, svcid: string, service: string)
    requires DotFree(svcid)
    ensures Tokens(prefix + "." + svcid + "." + service + ".>") == Tokens(prefix) + [svcid] + Tokens(service) + [">"]
  {
    TokensOfTail(prefix + "." + svcid + "." + service);
    TokensOfDotted(prefix + "." + svcid, service);
    TokensOfDotted(prefix, svcid);
    OneToken(svcid);
  }

  /** A unary call reaches a sidecar's queue subscription exactly when the svcid agrees
      and the subscription's service is a token prefix of the call's. */
  lemma UnaryMatchExactly(svcid: string, service: string, svcid': string, service': string, name: string)
    requires DotFree(svcid) && Plain(svcid) && Literal(Tokens(service))
    requires DotFree(svcid') && SlashFree(service') && DotFree(name) && SlashFree(name)
    ensures Matches(UnaryPattern(svcid, service), UnarySubjectOf(svcid', service', name)) <==>
              svcid == svcid' && Tokens(service) <= Tokens(service')
  {
    UnaryParts();
    PlainNames();
    UnaryPatternTokens(PREFIX_UNARY, svcid, service);
    UnaryTokens(svcid', service', name);
    OneToken(svcid');
    OneToken(name);
    UnarySplit([NRPC, UNARY], svcid, Tokens(service), svcid', Tokens(service'), name);
  }

  lemma UnarySplit(pre: seq<string>, svcid: string, service: seq<string>, svcid': string, service': seq<string>,
                   name: string)
    requires Literal(pre) && Plain(svcid) && Literal(service)
    ensures TokensMatch(pre + [svcid] + service + [">"], pre + [svcid'] + service' + [name]) <==>
              svcid == svcid' && service <= service'
  {
    var h, h' := pre + [svcid], pre + [svcid'];
    assert h == h' <==> svcid == svcid' by { assert h[|pre|] == svcid && h'[|pre|] == svcid'; }
    LiteralPrefix(h + service, h' + service' + [name]);
    PrefixSplit(h, service, h', service', name);
  }

  // A pattern whose second token is plain only matches subjects with that token.
  lemma SecondToken(pattern: seq<string>, subject: seq<string>)
    requires |pattern| > 2 && Plain(pattern[0]) && Plain(pattern[1]) && TokensMatch(pattern, subject)
    ensures |subject| > 1 && subject[1] == pattern[1]
  {
    assert pattern[1..][0] == pattern[1] && |pattern[1..]| > 1;
    assert TokensMatch(pattern[1..], subject[1..]);
  }

  // Behind prefixes that differ in their second token.
  lemma ApartBehind(p: string, q: string, first: string, second: string, second': string, rest: string, rest': string)
    requires Tokens(p) == [first, second] && Tokens(q) == [first, second'] && second != second'
    requires Plain(first) && Plain(second)
    ensures !Matches(p + "." + rest, q + "." + rest')
  {
    TokensOfDotted(p, rest);
    TokensOfDotted(q, rest');
    var pattern, subject := Tokens(p + "." + rest), Tokens(q + "." + rest');
    assert |pattern| > 2 && pattern[0] == first && pattern[1] == second;
    assert |subject| > 2 && subject[1] == second';
    if TokensMatch(pattern, subject) { SecondToken(pattern, subject); }
  }

  lemma UnaryAfterPrefix(prefix: string, svcid: string, service: string)
    ensures prefix + "." + svcid + "." + service + ".>" == prefix + "." + (svcid + "." + service + ".>")
  {}

  lemma StreamAfterPrefix(prefix: string, svcid: string, nid: string, service: string)
    ensures prefix + "." + svcid + "." + nid + "." + service + ".>" ==
            prefix + "." + (svcid + "." + nid + "." + service + ".>")
  {}

  lemma SubjectAfterPrefix(prefix: string, svcid: string, nid: string, suffix: string)
    ensures prefix + "." + svcid + suffix == prefix + "." + (svcid + suffix)
    ensures prefix + "." + svcid + "." + nid + suffix == prefix + "." + (svcid + "." + nid + suffix)
  {}

  /** Unary and stream traffic never meet: for any names at all, no subscription of one
      kind matches a subject of the other. */
  lemma NamespacesDisjoint(svcid: string, service: string, nid: string, svcid': string, fullMethod: string)
    ensures !Matches(UnaryPattern(svcid, service), ModernStreamSubject(svcid', nid, fullMethod))
    ensures !Matches(StreamPattern(svcid, nid, service), ModernUnarySubject(svcid', fullMethod))
  {
    UnaryParts();
    PrefixParts();
    PlainNames();
    var suffix := MethodSuffix(fullMethod);
    UnaryAfterPrefix(PREFIX_UNARY, svcid, service);
    SubjectAfterPrefix(PREFIX_STREAM, svcid', nid, suffix);
    ApartBehind(PREFIX_UNARY, PREFIX_STREAM, NRPC, UNARY, STREAM,
                svcid + "." + service + ".>", svcid' + "." + nid + suffix);
    StreamAfterPrefix(PREFIX_STREAM, svcid, nid, service);
    SubjectAfterPrefix(PREFIX_UNARY, svcid', nid, suffix);
    ApartBehind(PREFIX_STREAM, PREFIX_UNARY, NRPC, STREAM, UNARY,
                svcid + "." + nid + "." + service + ".>", svcid' + suffix);
  }

  // Only this svcid and service have their queue group.
  ghost predicate OwnGroup(svcid: string, service: string) {
    forall b, t :: QueueGroup(b, t) == QueueGroup(svcid, service) ==> b == svcid && t == service
  }

  /** Two unary subscriptions share calls exactly when they are of one svcid and service,
      provided neither name has a colon: only such names own their queue group. */
  lemma QueueGroupExactly(svcid: string, service: string)
    ensures OwnGroup(svcid, service) <==> ':' !in svcid && ':' !in service
  {
    if ':' in svcid {
      var i :| 0 <= i < |svcid| && svcid[i] == ':';
      SharedGroup(svcid[..i], svcid[i + 1..], service);
      assert svcid == svcid[..i] + ":" + svcid[i + 1..];
      assert QueueGroup(svcid[..i], svcid[i + 1..] + ":" + service) == QueueGroup(svcid, service);
    } else if ':' in service {
      var i :| 0 <= i < |service| && service[i] == ':';
      SharedGroup(svcid, service[..i], service[i + 1..]);
      assert service == service[..i] + ":" + service[i + 1..];
      assert QueueGroup(svcid + ":" + service[..i], service[i + 1..]) == QueueGroup(svcid, service);
    } else {
      forall b, t | QueueGroup(b, t) == QueueGroup(svcid, service) ensures b == svcid && t == service {
        OneColon(svcid, service, b, t);
      }
    }
  }

  lemma SharedGroup(a: string, b: string, c: string)
    ensures QueueGroup(a, b + ":" + c) == QueueGroup(a + ":" + b, c)
  {
    assert "u:" + a + ":" + (b + ":" + c) == "u:" + (a + ":" + b) + ":" + c;
  }

  lemma OneColon(a: string, s: string, b: string, t: string)
    requires ':' !in a && ':' !in s && QueueGroup(b, t) == QueueGroup(a, s)
    ensures b == a && t == s
  {
    var g, h := QueueGroup(a, s), QueueGroup(b, t);
    assert g[2..] == a + ":" + s && h[2..] == b + ":" + t;
    var rest := g[2..];
    assert rest[|b|] == ':' && rest[|a|] == ':';
    assert forall i :: 0 <= i < |rest| && i != |a| ==> rest[i] != ':' by {
      assert forall i :: 0 <= i < |a| ==> rest[i] == a[i];
      assert forall i :: |a| < i < |rest| ==> rest[i] == s[i - |a| - 1];
    }
    assert rest[..|a|] == a && rest[..|b|] == b && rest[|a| + 1..] == s && rest[|b| + 1..] == t;
  }

  // ---------------------------------------------------------------------
  // The legacy namespace
  // ---------------------------------------------------------------------

  /** The subject a client calls is the key the server filed the handler under
      exactly for service and method names without a slash. */
  lemma LegacyKeyExactly(id: string, service: string, name: string)
    ensures LegacySubject(id, FullMethod(service, name)) == HandlerKey(id, service, name) <==>
              SlashFree(service) && SlashFree(name)
  {
    var prefix := if id != "" then PREFIX_LEGACY + "." + id else PREFIX_LEGACY;
    var suffix, dotted := MethodSuffix(FullMethod(service, name)), "." + service + "." + name;
    assert HandlerKey(id, service, name) == prefix + dotted;
    assert LegacySubject(id, FullMethod(service, name)) == prefix + suffix;
    SameTail(prefix, suffix, dotted);
    SuffixExactly(service, name);
  }

  lemma SameTail(prefix: string, a: string, b: string)
    ensures prefix + a == prefix + b <==> a == b
  {
    assert (prefix + a)[|prefix|..] == a && (prefix + b)[|prefix|..] == b;
  }

  lemma SuffixExactly(service: string, name: string)
    ensures MethodSuffix(FullMethod(service, name)) == "." + service + "." + name
            <==> SlashFree(service) && SlashFree(name)
  {
    var suffix := MethodSuffix(FullMethod(service, name));
    if suffix == "." + service + "." + name {
      forall i | 0 <= i < |service| ensures service[i] != '/' { assert suffix[1 + i] == service[i]; }
      forall i | 0 <= i < |name| ensures name[i] != '/' { assert suffix[2 + |service| + i] == name[i]; }
    } else if SlashFree(service) && SlashFree(name) {
      SuffixOf(service, name);
    }
  }

  /** The two namespaces overlap: a legacy server called "stream" answers on modern
      stream subjects. */
  lemma LegacyStreamCollides(svcid: string, nid: string, service: string, name: string)
    requires SlashFree(svcid) && SlashFree(nid)
    ensures LegacySubject("stream", FullMethod(svcid + "." + nid + "." + service, name)) ==
            ModernStreamSubject(svcid, nid, FullMethod(service, name))
  {
    LongerSuffix(PREFIX_STREAM, svcid, nid, service, name);
    assert PREFIX_LEGACY + "." + STREAM == PREFIX_STREAM;
  }

  lemma LongerSuffix(prefix: string, svcid: string, nid: string, service: string, name: string)
    requires SlashFree(svcid) && SlashFree(nid)
    ensures prefix + MethodSuffix(FullMethod(svcid + "." + nid + "." + service, name)) ==
            prefix + "." + svcid + "." + nid + MethodSuffix(FullMethod(service, name))
  {
    var m := FullMethod(svcid + "." + nid + "." + service, name);
    assert m == "/" + svcid + "." + nid + "." + service + "/" + name;
    assert MethodSuffix(m) == "." + svcid + "." + nid + MethodSuffix(FullMethod(service, name));
  }
}
