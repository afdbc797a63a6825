/**
 What the route table promises: ambiguity is exactly "some request matches
 both", the most specific rule wins whatever the file order, and the extracted
 parameters rebuild the path.
 */
module Specificity {
  import opened Wrappers
  import opened Schema
  import opened Text
  import opened Config
  import opened Routes

  datatype Request = Request(host: string, verb: string, path: string)

  predicate Serves(c: Compiled, r: Request) {
    Accepts(c, r.host, r.verb, r.path)
  }

  /** What compiling any rule yields. */
  ghost predicate Canonical(c: Compiled) {
    && c.score == Score(c.hosts, c.methods, c.segments, c.wildcard)
    && (forall h :: h in c.hosts ==> ToLower(h) == h)
    && (forall m :: m in c.methods ==> ToUpper(m) == m)
    && forall i :: 0 <= i < |c.segments| && c.segments[i].Literal? ==>
         c.segments[i].text != "" && '/' !in c.segments[i].text
  }

  /** Configured hosts without a port and literals without a query mark; nothing in the loader checks it. */
  ghost predicate WellFormed(c: Compiled) {
    (forall h :: h in c.hosts ==> ':' !in h) && LiteralsReachable(c)
  }

  ghost predicate LiteralsReachable(c: Compiled) {
    forall i :: 0 <= i < |c.segments| && c.segments[i].Literal? ==>
      '?' !in c.segments[i].text && '#' !in c.segments[i].text
  }

  /** Some host name a request can carry is in both scopes. */
  ghost predicate HostReachable(a: set<string>, b: set<string>) {
    exists h :: ':' !in h && ToLower(h) == h && InScope(a, h) && InScope(b, h)
  }

  // ---- paths ------------------------------------------------------------------

  predicate Clean(part: string) {
    part != "" && '/' !in part && '?' !in part && '#' !in part
  }

  ghost predicate AllClean(parts: seq<string>) {
    forall k :: 0 <= k < |parts| ==> Clean(parts[k])
  }

  function Render(parts: seq<string>): string {
    if parts == [] then "/" else "/" + (parts[0] + Render(parts[1..]))
  }

  lemma SplitPathAt(a: string, b: string)
    ensures SplitPath(a + "/" + b) == SplitPath(a) + SplitPath(b)
  {
    SplitAtSeparator(a, '/', b);
    NonEmptyConcat(Split(a, '/'), Split(b, '/'));
  }

  lemma LeadingSlash(path: string)
    ensures SplitPath("/" + path) == SplitPath(path)
  {
    SplitPathAt("", path);
    assert "" + "/" + path == "/" + path;
    assert NonEmpty([""]) == [];
  }

  lemma FirstPart(part: string, rest: string)
    requires Clean(part) && HasPrefix(rest, "/")
    ensures SplitPath("/" + (part + rest)) == [part] + SplitPath(rest)
  {
    var tail := rest[1..];
    assert rest == "/" + tail && part + "/" + tail == part + rest;
    LeadingSlash(part + rest);
    LeadingSlash(tail);
    SplitPathAt(part, tail);
    SplitWithout(part, '/');
    assert NonEmpty([part]) == [part];
  }

  /** Splitting a rendered path gives its parts back. */
  lemma {:induction false} RenderSplits(parts: seq<string>)
    requires AllClean(parts)
    ensures SplitPath(Render(parts)) == parts
  {
    if parts == [] {
      LeadingSlash("");
      assert "/" + "" == "/";
    } else {
      RenderSplits(parts[1..]);
      FirstPart(parts[0], Render(parts[1..]));
    }
  }

  lemma {:induction false} RenderedChars(parts: seq<string>)
    requires AllClean(parts)
    ensures '?' !in Render(parts) && '#' !in Render(parts)
  {
    if parts != [] {
      RenderedChars(parts[1..]);
    }
  }

  lemma {:induction false} UpToAvoids(s: string, stops: set<char>, c: char)
    requires c in UpTo(s, stops)
    ensures c !in stops
  {
    if s != "" && s[0] !in stops && c != s[0] {
      assert c in UpTo(s[1..], stops);
      UpToAvoids(s[1..], stops, c);
    }
  }

  lemma {:induction false} PieceChars(s: string, sep: char, k: nat, c: char)
    requires k < |Split(s, sep)| && c in Split(s, sep)[k]
    ensures c in s
  {
    if s != "" {
      var rest := Split(s[1..], sep);
      if s[0] == sep {
        assert k > 0;
        PieceChars(s[1..], sep, k - 1, c);
      } else if k > 0 {
        PieceChars(s[1..], sep, k, c);
      } else if c != s[0] {
        assert c in rest[0];
        PieceChars(s[1..], sep, 0, c);
      }
    }
  }

  lemma {:induction false} NonEmptyFrom(pieces: seq<string>, part: string)
    requires part in NonEmpty(pieces)
    ensures part in pieces && part != ""
  {
    if pieces[0] == "" || part != pieces[0] {
      assert part in NonEmpty(pieces[1..]);
      NonEmptyFrom(pieces[1..], part);
    }
  }

  /** Every part of a request path is clean. */
  lemma RequestPartsClean(path: string)
    ensures AllClean(SplitPath(PathOnly(path)))
  {
    var p := PathOnly(path);
    var pieces, parts := Split(p, '/'), SplitPath(p);
    forall k | 0 <= k < |parts| ensures Clean(parts[k]) {
      NonEmptyFrom(pieces, parts[k]);
      var i :| 0 <= i < |pieces| && pieces[i] == parts[k];
      forall c | c in parts[k] ensures c !in {'?', '#'} {
        PieceChars(p, '/', i, c);
        UpToAvoids(path, {'?', '#'}, c);
      }
    }
  }

  /** A request built from parts is accepted exactly when its parts are. */
  lemma BuiltRequest(c: Compiled, host: string, verb: string, parts: seq<string>)
    requires ':' !in host && AllClean(parts)
    ensures Serves(c, Request(host, verb, Render(parts)))
       <==> InScope(c.hosts, ToLower(host)) && InScope(c.methods, ToUpper(verb)) && AcceptsParts(c, parts)
  {
    RenderSplits(parts);
    RenderedChars(parts);
    UpToWhole(Render(parts), {'?', '#'});
    SplitWithout(host, ':');
  }

  // ---- compiled rules are canonical ---------------------------------------------

  lemma {:induction false} LiteralsArePieces(ruleId: string, raws: seq<string>, segments: seq<Segment>, i: nat)
    requires ParseSegments(ruleId, raws) == Ok(segments)
    requires i < |segments| && segments[i].Literal?
    ensures segments[i].text in raws && segments[i].text != ""
  {
    if raws[0] == "" {
      LiteralsArePieces(ruleId, raws[1..], segments, i);
    } else {
      var rest := ParseSegments(ruleId, raws[1..]);
      if i > 0 {
        assert segments[i] == rest.value[i - 1];
        LiteralsArePieces(ruleId, raws[1..], rest.value, i - 1);
      }
    }
  }

  lemma CompiledIsCanonical(r: Rule)
    requires CompiledForm(r).Ok?
    ensures Canonical(CompiledForm(r).value) && CompiledForm(r).value.rule == r
  {
    var c := CompiledForm(r).value;
    forall h | h in c.hosts ensures ToLower(h) == h {
      var raw :| raw in r.hosts && h == ToLower(raw);
      LowerIdempotent(raw);
    }
    forall m | m in c.methods ensures ToUpper(m) == m {
      var raw :| raw in r.methods && m == ToUpper(raw);
      UpperIdempotent(raw);
    }
    var raws := Split(Trim(Pattern(r.path).0, {'/'}), '/');
    forall i | 0 <= i < |c.segments| && c.segments[i].Literal?
      ensures c.segments[i].text != "" && '/' !in c.segments[i].text
    {
      LiteralsArePieces(r.id, raws, c.segments, i);
    }
  }

  // ---- the ambiguity test is exact ------------------------------------------------

  ghost predicate ShareRequest(a: Compiled, b: Compiled) {
    exists r :: Serves(a, r) && Serves(b, r)
  }

  /** Segments weigh multiples of ten, so the wildcard's five shows in the score. */
  lemma {:induction false} SegmentsScoreParity(segments: seq<Segment>)
    ensures SegmentsScore(segments) % 10 == 0
  {
    if segments != [] {
      SegmentsScoreParity(segments[..|segments| - 1]);
    }
  }

  lemma EqualScoresEqualWildcards(a: Compiled, b: Compiled)
    requires Canonical(a) && Canonical(b) && a.score == b.score
    ensures a.wildcard == b.wildcard
  {
    SegmentsScoreParity(a.segments);
    SegmentsScoreParity(b.segments);
  }

  /** A served request's parts are clean, so the literals it met are too. */
  lemma ServingIsReachable(c: Compiled, r: Request)
    requires Serves(c, r)
    ensures LiteralsReachable(c)
  {
    var parts := SplitPath(PathOnly(r.path));
    RequestPartsClean(r.path);
    assert forall i :: 0 <= i < |c.segments| && c.segments[i].Literal? ==> c.segments[i].text == parts[i];
  }

  /** Two rules that share a request always overlap. */
  lemma SharingImpliesOverlap(a: Compiled, b: Compiled, r: Request)
    requires Serves(a, r) && Serves(b, r)
    ensures Overlap(a, b) && HostReachable(a.hosts, b.hosts)
  {
    var h := NormalHost(r.host);
    LowerIdempotent(HostOnly(r.host));
    LowerKeeps(HostOnly(r.host), ':');
    assert ':' !in h && ToLower(h) == h && InScope(a.hosts, h) && InScope(b.hosts, h);
    if a.hosts != {} && b.hosts != {} {
      assert h in a.hosts * b.hosts;
    }
    if a.methods != {} && b.methods != {} {
      assert ToUpper(r.verb) in a.methods * b.methods;
    }
  }

  /** A wildcard with more segments than an exact pattern: the test's only excess. */
  predicate Overreaches(a: Compiled, b: Compiled) {
    a.wildcard && !b.wildcard && |a.segments| > |b.segments|
  }

  function MergedPart(a: seq<Segment>, b: seq<Segment>, i: nat): string {
    if i < |a| && a[i].Literal? then a[i].text
    else if i < |b| && b[i].Literal? then b[i].text
    else "0"
  }

  function Merged(a: seq<Segment>, b: seq<Segment>): seq<string> {
    seq(if |a| > |b| then |a| else |b|, i requires 0 <= i => MergedPart(a, b, i))
  }

  /** A name both scopes allow. */
  lemma CommonName(a: set<string>, b: set<string>) returns (name: string)
    requires ScopesOverlap(a, b)
    ensures InScope(a, name) && InScope(b, name)
    ensures name in a || name in b || name == "0"
  {
    if a == {} && b == {} {
      name := "0";
    } else if a == {} {
      name :| name in b;
    } else if b == {} {
      name :| name in a;
    } else {
      name :| name in a * b;
    }
  }

  /** Overlapping patterns accept the parts merged from their literals. */
  lemma MergedAccepted(a: Compiled, b: Compiled)
    requires Canonical(a) && Canonical(b) && LiteralsReachable(a) && LiteralsReachable(b)
    requires Overlap(a, b) && !Overreaches(a, b) && !Overreaches(b, a)
    ensures AllClean(Merged(a.segments, b.segments))
    ensures AcceptsParts(a, Merged(a.segments, b.segments)) && AcceptsParts(b, Merged(a.segments, b.segments))
  {
  }

  /** The request that both of two overlapping, reachable patterns serve. */
  lemma OverlapWitness(a: Compiled, b: Compiled)
    requires Canonical(a) && Canonical(b) && LiteralsReachable(a) && LiteralsReachable(b)
    requires HostReachable(a.hosts, b.hosts)
    requires Overlap(a, b) && !Overreaches(a, b) && !Overreaches(b, a)
    ensures ShareRequest(a, b)
  {
    var host :| ':' !in host && ToLower(host) == host && InScope(a.hosts, host) && InScope(b.hosts, host);
    var verb := CommonName(a.methods, b.methods);
    var parts := Merged(a.segments, b.segments);
    assert ToUpper("0") == "0";
    MergedAccepted(a, b);
    BuiltRequest(a, host, verb, parts);
    BuiltRequest(b, host, verb, parts);
    var r := Request(host, verb, Render(parts));
    assert Serves(a, r) && Serves(b, r);
  }

  /** Exactly when two rules share a request, for all rules. */
  lemma OverlapExact(a: Compiled, b: Compiled)
    requires Canonical(a) && Canonical(b)
    ensures ShareRequest(a, b)
       <==> Overlap(a, b) && !Overreaches(a, b) && !Overreaches(b, a)
            && HostReachable(a.hosts, b.hosts) && LiteralsReachable(a) && LiteralsReachable(b)
  {
    if r :| Serves(a, r) && Serves(b, r) {
      SharingImpliesOverlap(a, b, r);
      ServingIsReachable(a, r);
      ServingIsReachable(b, r);
    }
    if Overlap(a, b) && !Overreaches(a, b) && !Overreaches(b, a)
       && HostReachable(a.hosts, b.hosts) && LiteralsReachable(a) && LiteralsReachable(b) {
      OverlapWitness(a, b);
    }
  }

  /** At equal scores, on well-formed rules, the load-time test fires exactly on real ambiguity. */
  lemma AmbiguityExact(x: Rule, y: Rule)
    requires CompiledForm(x).Ok? && CompiledForm(y).Ok?
    requires WellFormed(CompiledForm(x).value) && WellFormed(CompiledForm(y).value)
    requires CompiledForm(x).value.score == CompiledForm(y).value.score
    ensures Conflict(CompiledForm(x).value, CompiledForm(y).value)
       <==> ShareRequest(CompiledForm(x).value, CompiledForm(y).value)
  {
    var a, b := CompiledForm(x).value, CompiledForm(y).value;
    CompiledIsCanonical(x);
    CompiledIsCanonical(y);
    EqualScoresEqualWildcards(a, b);
    if Overlap(a, b) {
      var h := CommonName(a.hosts, b.hosts);
      assert ToLower("0") == "0";
      assert ':' !in h && ToLower(h) == h;
    }
    OverlapExact(a, b);
  }

  /** Without the score test it over-reports: two parameters and a wildcard against one parameter. */
  lemma OverreachExists()
    ensures exists a, b ::
              Canonical(a) && Canonical(b) && WellFormed(a) && WellFormed(b) && Overlap(a, b) && !ShareRequest(a, b)
  {
    var r := Rule("r", [], [], "/", true, false, UndefinedType(""), FromPrincipal, UndefinedPermission(""),
                  "", false, false, 0, EitherMode, FullyConsistent, []);
    var a := Compiled(r, [Param("x"), Param("y")], true, {}, {}, Score({}, {}, [Param("x"), Param("y")], true));
    var b := Compiled(r, [Param("x")], false, {}, {}, Score({}, {}, [Param("x")], false));
    OverlapExact(a, b);
    assert Overlap(a, b) && Overreaches(a, b);
  }
}
