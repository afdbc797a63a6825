/**
 Patterns as they are written in the file, compiled: and two files in which a
 parameterised pattern takes a request from a static prefix.
 */
module Patterns {
  import opened Wrappers
  import opened Text
  import opened Schema
  import opened Config
  import opened Routes
  import opened Specificity
  import opened TableOrder

  /** A segment as the file writes it. */
  function Written(s: Segment): string {
    if s.Literal? then s.text else "{" + s.name + "}"
  }

  function WrittenAll(segments: seq<Segment>): seq<string> {
    if segments == [] then [] else [Written(segments[0])] + WrittenAll(segments[1..])
  }

  ghost predicate Writable(s: Segment) {
    if s.Literal? then s.text != "" && '/' !in s.text && '{' !in s.text && '}' !in s.text && '*' !in s.text
    else s.name != "" && '/' !in s.name
  }

  lemma WrittenParses(id: string, s: Segment)
    requires Writable(s)
    ensures Written(s) != "" && ParseSegment(id, Written(s)) == Ok(s)
  {
    var raw := Written(s);
    if s.Literal? {
      assert raw[0] in raw;
      assert raw[..1] != "{" by {
        assert raw[..1][0] != "{"[0];
      }
    } else {
      assert raw[..1] == "{" && raw[|raw| - 1..] == "}" && raw[1..|raw| - 1] == s.name;
    }
  }

  lemma PiecesParse(id: string, s: Segment, raws: seq<string>, rest: seq<Segment>)
    requires Written(s) != "" && ParseSegment(id, Written(s)) == Ok(s) && ParseSegments(id, raws) == Ok(rest)
    ensures ParseSegments(id, [Written(s)] + raws) == Ok([s] + rest)
  {
    assert ([Written(s)] + raws)[1..] == raws;
  }

  lemma {:induction false} WrittenAllParse(id: string, segments: seq<Segment>)
    requires forall i :: 0 <= i < |segments| ==> Writable(segments[i])
    ensures ParseSegments(id, WrittenAll(segments)) == Ok(segments)
  {
    if segments != [] {
      WrittenParses(id, segments[0]);
      WrittenAllParse(id, segments[1..]);
      PiecesParse(id, segments[0], WrittenAll(segments[1..]), segments[1..]);
      assert [segments[0]] + segments[1..] == segments;
    }
  }

  /** Empty pieces parse to nothing. */
  lemma {:induction false} EmptyPiecesSkipped(id: string, raws: seq<string>)
    ensures ParseSegments(id, raws) == ParseSegments(id, NonEmpty(raws))
  {
    if raws != [] {
      EmptyPiecesSkipped(id, raws[1..]);
      if raws[0] != "" {
        assert NonEmpty(raws) == [raws[0]] + NonEmpty(raws[1..]);
        assert NonEmpty(raws)[1..] == NonEmpty(raws[1..]);
      } else {
        assert [] + NonEmpty(raws[1..]) == NonEmpty(raws[1..]);
      }
    }
  }

  lemma {:induction false} TrimLeftKeepsPieces(s: string)
    ensures SplitPath(TrimLeft(s, {'/'})) == SplitPath(s)
  {
    if s != "" && s[0] == '/' {
      TrimLeftKeepsPieces(s[1..]);
      LeadingSlash(s[1..]);
      assert "/" + s[1..] == s;
    }
  }

  lemma {:induction false} TrimRightKeepsPieces(s: string)
    ensures SplitPath(TrimRight(s, {'/'})) == SplitPath(s)
  {
    if s != "" && s[|s| - 1] == '/' {
      var front := s[..|s| - 1];
      TrimRightKeepsPieces(front);
      SplitPathAt(front, "");
      assert front + "/" + "" == s;
      assert NonEmpty([""]) == [];
    }
  }

  /** A written pattern compiles to the segments it writes. */
  lemma WrittenPatternCompiles(r: Rule, segments: seq<Segment>)
    requires SplitPath(Pattern(r.path).0) == WrittenAll(segments)
    requires forall i :: 0 <= i < |segments| ==> Writable(segments[i])
    ensures CompiledForm(r).Ok?
    ensures CompiledForm(r).value.segments == segments && CompiledForm(r).value.wildcard == Pattern(r.path).1
    ensures CompiledForm(r).value.rule == r
    ensures r.hosts == [] ==> CompiledForm(r).value.hosts == {}
    ensures r.methods == [] ==> CompiledForm(r).value.methods == {}
  {
    var body := Pattern(r.path).0;
    TrimLeftKeepsPieces(body);
    TrimRightKeepsPieces(TrimLeft(body, {'/'}));
    EmptyPiecesSkipped(r.id, Split(Trim(body, {'/'}), '/'));
    WrittenAllParse(r.id, segments);
  }

  lemma OneRuleCompiles(x: Rule)
    requires CompiledForm(x).Ok?
    ensures Compiles([x], [CompiledForm(x).value])
  {
    CompileOne(x);
    SortOne(CompiledForm(x).value);
  }

  lemma CompileOne(x: Rule)
    requires CompiledForm(x).Ok?
    ensures CompileAll([x]) == Ok([CompiledForm(x).value])
  {
    assert [x][..0] == [];
    assert CompileAll([x][..0]) == Ok([]);
    assert [] + [CompiledForm(x).value] == [CompiledForm(x).value];
  }

  lemma SortOne(a: Compiled)
    ensures StableSorted([a]) == [a]
  {
    assert [a][..0] == [] && StableSorted([a][..0]) == [];
    assert Inserted([], a) == [] + [a] == [a];
  }

  lemma CompileTwo(x: Rule, y: Rule)
    requires CompiledForm(x).Ok? && CompiledForm(y).Ok?
    ensures CompileAll([x, y]) == Ok([CompiledForm(x).value, CompiledForm(y).value])
  {
    CompileOne(x);
    var a, b := CompiledForm(x).value, CompiledForm(y).value;
    CompileOneMore([x], y, [a], Ok(b));
    assert [x] + [y] == [x, y] && [a] + [b] == [a, b];
  }

  lemma CompileOneMore(rules: seq<Rule>, y: Rule, done: seq<Compiled>, c: Result<Compiled, CompileError>)
    requires CompileAll(rules) == Ok(done) && CompiledForm(y) == c && c.Ok?
    ensures CompileAll(rules + [y]) == Ok(done + [c.value])
  {
    assert (rules + [y])[..|rules|] == rules;
  }

  lemma SortTwo(a: Compiled, b: Compiled)
    ensures StableSorted([a, b]) == if a.score >= b.score then [a, b] else [b, a]
  {
    SortOne(a);
    assert [a, b][..1] == [a] && [a] + [b] == [a, b] && [b] + [a] == [b, a];
    assert Inserted([], b) == [b];
  }

  lemma TwoUnambiguous(a: Compiled, b: Compiled)
    requires !Conflict(a, b)
    ensures Unambiguous(StableSorted([a, b]))
    ensures forall c :: c in StableSorted([a, b]) <==> c == a || c == b
  {
    SortTwo(a, b);
    ConflictSymmetric(a, b);
  }

  /** Two compiled rules that do not conflict make a table. */
  lemma TwoRulesCompile(x: Rule, y: Rule) returns (table: seq<Compiled>)
    requires CompiledForm(x).Ok? && CompiledForm(y).Ok? && !Conflict(CompiledForm(x).value, CompiledForm(y).value)
    ensures Compiles([x, y], table)
    ensures forall c :: c in table <==> c == CompiledForm(x).value || c == CompiledForm(y).value
  {
    CompileTwo(x, y);
    TwoUnambiguous(CompiledForm(x).value, CompiledForm(y).value);
    table := StableSorted([CompiledForm(x).value, CompiledForm(y).value]);
  }

  // ---- static prefixes that lose requests ---------------------------------------------------

  lemma OnePiece(p: string)
    requires p != "" && '/' !in p
    ensures SplitPath(p) == [p] && SplitPath("/" + p) == [p]
  {
    LeadingSlash(p);
    SplitWithout(p, '/');
    assert NonEmpty([p]) == [p];
  }

  lemma TwoPieces(p: string, q: string)
    requires p != "" && '/' !in p && q != "" && '/' !in q
    ensures SplitPath("/" + p + "/" + q) == [p, q]
  {
    OnePiece(p);
    OnePiece(q);
    SplitPathAt("/" + p, q);
  }

  /** A rule any verified caller may use. */
  function Page(id: string, methods: seq<string>, path: string): Rule {
    Rule(id, [], methods, path, false, true, UndefinedType(""), FromPrincipal, UndefinedPermission(""),
         "", false, false, 0,
         EitherMode, FullyConsistent, [])
  }

  /** A file or directory name as a request or a pattern can hold it. */
  ghost predicate Name(p: string) {
    Clean(p) && Writable(Literal(p))
  }

  function Directory(p: string): Rule {
    Page("directory", [], "/" + p + "/*")
  }

  lemma DirectoryPattern(p: string)
    ensures Pattern("/" + p + "/*") == ("/" + p, true)
  {
    var path := "/" + p + "/*";
    assert path[|path| - 2..] == "/*" && path[..|path| - 2] == "/" + p;
    assert path[|path| - 1..][0] == '*';
  }

  /** Everything under one directory. */
  lemma DirectoryCompiles(p: string)
    requires Name(p)
    ensures CompiledForm(Directory(p)).Ok?
    ensures var a := CompiledForm(Directory(p)).value;
            StaticPrefix(a) && a.segments == [Literal(p)] && a.hosts == {} && a.methods == {} && Weight(a) == 95
  {
    DirectoryPattern(p);
    OnePiece(p);
    var written := [Literal(p)];
    assert written[1..] == [] && WrittenAll(written) == [p];
    WrittenPatternCompiles(Directory(p), written);
    assert Literals(written[..0]) == 0;
  }

  lemma PieceAsked(p: string)
    requires Name(p)
    ensures SplitPath(PathOnly("/" + p)) == [p]
  {
    UpToWhole("/" + p, {'?', '#'});
    OnePiece(p);
  }

  lemma PieceServed(p: string, c: Compiled)
    requires Name(p) && c.segments == [Literal(p)] && !c.wildcard && c.hosts == {} && c.methods == {}
    ensures Serves(c, Request("h", "GET", "/" + p))
  {
    PieceAsked(p);
  }

  lemma FileServed(p: string, q: string, c: Compiled)
    requires Name(p) && Name(q) && c.hosts == {} && InScope(c.methods, "GET") && AcceptsParts(c, [p, q])
    ensures Serves(c, Request("h", "GET", "/" + p + "/" + q))
  {
    UpToWhole("/" + p + "/" + q, {'?', '#'});
    TwoPieces(p, q);
    assert ToUpper("GET") == "GET";
  }

  lemma WrittenEnds(s: Segment)
    requires Writable(s)
    ensures var raw := Written(s); raw != "" && '/' !in raw && raw[|raw| - 1] != '/' && raw[|raw| - 1] != '*'
  {
    var raw := Written(s);
    if s.Literal? {
      assert raw[|raw| - 1] in raw;
    }
  }

  lemma WrittenTwo(first: Segment, second: Segment)
    ensures WrittenAll([first, second]) == [Written(first), Written(second)]
  {
    assert [first, second][1..] == [second] && [second][1..] == [];
    assert WrittenAll([second]) == [Written(second)];
  }

  lemma WeightOfTwo(first: Segment, second: Segment)
    ensures Literals([first, second]) == (if first.Literal? then 1 else 0) + (if second.Literal? then 1 else 0)
  {
    assert [first, second][..1] == [first] && [first][..0] == [];
    assert Literals([first]) == if first.Literal? then 1 else 0;
  }

  /** A pattern of one segment compiles to it. */
  lemma SingleCompiles(r: Rule, s: Segment)
    requires Writable(s) && r.hosts == [] && r.methods == [] && r.path == "/" + Written(s)
    ensures CompiledForm(r).Ok?
    ensures var c := CompiledForm(r).value;
            c.rule == r && c.segments == [s] && !c.wildcard && c.hosts == {} && c.methods == {}
  {
    WrittenEnds(s);
    NoTrailing("/" + Written(s));
    OnePiece(Written(s));
    assert [s][1..] == [] && WrittenAll([s]) == [Written(s)];
    WrittenPatternCompiles(r, [s]);
  }

  /** A pattern of two segments compiles to them. */
  lemma PairCompiles(r: Rule, first: Segment, second: Segment)
    requires Writable(first) && Writable(second) && r.hosts == []
    requires r.path == "/" + Written(first) + "/" + Written(second)
    ensures CompiledForm(r).Ok?
    ensures var c := CompiledForm(r).value;
            c.rule == r && c.segments == [first, second] && !c.wildcard && c.hosts == {}
            && (r.methods == [] ==> c.methods == {})
            && Weight(c) == (if r.methods != [] then 1000 else 0) + SegmentWeight(first) + SegmentWeight(second)
  {
    var f, s := Written(first), Written(second);
    WrittenEnds(first);
    WrittenEnds(second);
    NoTrailing("/" + f + "/" + s);
    TwoPieces(f, s);
    WrittenTwo(first, second);
    WrittenPatternCompiles(r, [first, second]);
    WeightOfTwo(first, second);
  }

  lemma NoTrailing(path: string)
    requires path != "" && path[|path| - 1] != '/' && path[|path| - 1] != '*'
    ensures Pattern(path) == (path, false)
  {
    assert path[|path| - 1..][0] == path[|path| - 1];
    if |path| >= 2 {
      assert path[|path| - 2..][1] == path[|path| - 1];
    }
  }

  /** Of a file of two rules, the heavier one that serves a request answers it. */
  lemma HeavierAnswers(x: Rule, y: Rule, r: Request) returns (table: seq<Compiled>)
    requires CompiledForm(x).Ok? && CompiledForm(y).Ok?
    requires Weight(CompiledForm(y).value) > Weight(CompiledForm(x).value) && Serves(CompiledForm(y).value, r)
    ensures Compiles([x, y], table)
    ensures Answer(table, r).Some? && Answer(table, r).value.0 == CompiledForm(y).value
  {
    CompiledWeighs(x);
    CompiledWeighs(y);
    table := TwoRulesCompile(x, y);
    MatchIsUniqueBest([x, y], table, r);
  }

  lemma GetOnly(r: Rule)
    requires r.methods == ["GET"] && CompiledForm(r).Ok?
    ensures InScope(CompiledForm(r).value.methods, "GET")
  {
    assert ToUpper("GET") == "GET" && r.methods[0] == "GET";
  }

  /** One parameter and one literal take a file from its directory, for any names. */
  lemma OneParameterCaptures(p: string, q: string, n: string) returns (y: Rule, table: seq<Compiled>)
    requires Name(p) && Name(q) && Writable(Param(n))
    ensures y == Page("file", [], "/" + Written(Param(n)) + "/" + q) && Compiles([Directory(p), y], table)
    ensures var r := Request("h", "GET", "/" + p + "/" + q);
            && CompiledForm(Directory(p)).Ok? && Serves(CompiledForm(Directory(p)).value, r)
            && Answer(table, r).Some? && Answer(table, r).value.0.rule == y
  {
    y := Page("file", [], "/" + Written(Param(n)) + "/" + q);
    DirectoryCompiles(p);
    PairCompiles(y, Param(n), Literal(q));
    FileServed(p, q, CompiledForm(Directory(p)).value);
    FileServed(p, q, CompiledForm(y).value);
    table := HeavierAnswers(Directory(p), y, Request("h", "GET", "/" + p + "/" + q));
  }

  /** Two parameters and a method take it too. */
  lemma ScopedParametersCapture(p: string, q: string, n: string, m: string) returns (y: Rule, table: seq<Compiled>)
    requires Name(p) && Name(q) && Writable(Param(n)) && Writable(Param(m))
    ensures y == Page("pair", ["GET"], "/" + Written(Param(n)) + "/" + Written(Param(m)))
    ensures Compiles([Directory(p), y], table)
    ensures var r := Request("h", "GET", "/" + p + "/" + q);
            && CompiledForm(Directory(p)).Ok? && Serves(CompiledForm(Directory(p)).value, r)
            && Answer(table, r).Some? && Answer(table, r).value.0.rule == y
  {
    y := Page("pair", ["GET"], "/" + Written(Param(n)) + "/" + Written(Param(m)));
    DirectoryCompiles(p);
    PairCompiles(y, Param(n), Param(m));
    GetOnly(y);
    FileServed(p, q, CompiledForm(Directory(p)).value);
    FileServed(p, q, CompiledForm(y).value);
    table := HeavierAnswers(Directory(p), y, Request("h", "GET", "/" + p + "/" + q));
  }

  lemma PageValid(id: string, methods: seq<string>, path: string)
    requires id != "" && HasPrefix(path, "/")
    ensures RuleValid(Page(id, methods, path))
  {
  }

  /** The request is in the scope of the first rule of the file, and the second answers it. */
  ghost predicate Takes(rules: seq<Rule>, request: Request) {
    && |rules| == 2 && rules[0].id != rules[1].id
    && CompiledForm(rules[0]).Ok? && Serves(CompiledForm(rules[0]).value, request)
    && exists table ::
         Compiles(rules, table) && Answer(table, request).Some? && Answer(table, request).value.0.rule == rules[1]
  }

  lemma FileTaken(p: string, q: string, n: string) returns (rules: seq<Rule>, request: Request)
    requires Name(p) && Name(q) && Writable(Param(n))
    ensures |rules| == 2 && rules[0].path == "/" + p + "/*" && rules[1].path == "/" + Written(Param(n)) + "/" + q
    ensures RuleValid(rules[0]) && RuleValid(rules[1])
    ensures request.path == "/" + p + "/" + q && Takes(rules, request)
  {
    var y, table := OneParameterCaptures(p, q, n);
    rules, request := [Directory(p), y], Request("h", "GET", "/" + p + "/" + q);
    PageValid("directory", [], "/" + p + "/*");
    PageValid("file", [], y.path);
    assert Compiles(rules, table);
  }

  lemma StaticAndLogo()
    ensures Name("static") && Name("logo") && Writable(Param("x"))
  {
  }

  lemma StaticLogoSpelled()
    ensures "/" + "static" + "/*" == "/static/*" && "/" + "static" + "/" + "logo" == "/static/logo"
    ensures "/" + Written(Param("x")) + "/" + "logo" == "/{x}/logo"
  {
  }

  /** Among them: `/static/logo` goes to `/{x}/logo`, although everything under `/static` has its own rule. */
  lemma StaticLogoTaken() returns (rules: seq<Rule>, request: Request)
    ensures |rules| == 2 && rules[0].path == "/static/*" && rules[1].path == "/{x}/logo"
    ensures RuleValid(rules[0]) && RuleValid(rules[1])
    ensures request.path == "/static/logo" && Takes(rules, request)
  {
    StaticAndLogo();
    rules, request := FileTaken("static", "logo", "x");
    StaticLogoSpelled();
  }
}
