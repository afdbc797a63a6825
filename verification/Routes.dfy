/**
 The route table. Rules are compiled to segments with a score, sorted by score,
 and refused when two of equal score can match one request; matching is a linear
 scan for the first rule that accepts.
 */
module Routes {
  import opened Wrappers
  import opened Text
  import opened Config

  datatype Segment = Literal(text: string) | Param(name: string)

  datatype Compiled = Compiled(
    rule: Rule,
    segments: seq<Segment>,
    wildcard: bool,
    hosts: set<string>,
    methods: set<string>,
    score: int)

  datatype CompileError =
    | EmptyParameter(ruleId: string)
    | MalformedSegment(ruleId: string, raw: string)
    | Ambiguous(first: string, second: string, score: int)

  type Params = map<string, string>

  // ---- compiling one rule -----------------------------------------------------

  function ParseSegment(ruleId: string, raw: string): Result<Segment, CompileError> {
    if HasPrefix(raw, "{") && HasSuffix(raw, "}") then
      if |raw| <= 2 then Err(EmptyParameter(ruleId)) else Ok(Param(raw[1..|raw| - 1]))
    else if ContainsAny(raw, {'{', '}', '*'}) then Err(MalformedSegment(ruleId, raw))
    else Ok(Literal(raw))
  }

  /** Empty pieces are skipped; the first malformed piece fails the rule. */
  function ParseSegments(ruleId: string, raws: seq<string>): Result<seq<Segment>, CompileError> {
    if raws == [] then Ok([])
    else if raws[0] == "" then ParseSegments(ruleId, raws[1..])
    else
      match ParseSegment(ruleId, raws[0])
      case Err(e) => Err(e)
      case Ok(s) => Prepended([s], ParseSegments(ruleId, raws[1..]))
  }

  function Prepended(done: seq<Segment>, rest: Result<seq<Segment>, CompileError>): Result<seq<Segment>, CompileError> {
    match rest
    case Ok(segments) => Ok(done + segments)
    case Err(e) => Err(e)
  }

  lemma PrependNothing(rest: Result<seq<Segment>, CompileError>)
    ensures Prepended([], rest) == rest
  {
    if rest.Ok? {
      assert [] + rest.value == rest.value;
    }
  }

  function SegmentWeight(s: Segment): int {
    if s.Literal? then 100 else 10
  }

  function SegmentsScore(segments: seq<Segment>): int {
    if segments == [] then 0
    else SegmentsScore(segments[..|segments| - 1]) + SegmentWeight(segments[|segments| - 1])
  }

  function Score(hosts: set<string>, methods: set<string>, segments: seq<Segment>, wildcard: bool): int {
    (if hosts != {} then 10000 else 0) + (if methods != {} then 1000 else 0)
    + SegmentsScore(segments) - (if wildcard then 5 else 0)
  }

  /** The pattern without its trailing wildcard piece, and whether it had one. */
  function Pattern(path: string): (string, bool) {
    var p := TrimSuffix(path, "/");
    var p := if p == "" then "/" else p;
    if HasSuffix(p, "/*") then (TrimSuffix(p, "/*"), true) else (p, false)
  }

  function CompiledForm(r: Rule): Result<Compiled, CompileError> {
    var (body, wildcard) := Pattern(r.path);
    var hosts := set h | h in r.hosts :: ToLower(h);
    var methods := set m | m in r.methods :: ToUpper(m);
    match ParseSegments(r.id, Split(Trim(body, {'/'}), '/'))
    case Err(e) => Err(e)
    case Ok(segments) => Ok(Compiled(r, segments, wildcard, hosts, methods, Score(hosts, methods, segments, wildcard)))
  }

  method LowerCased(names: seq<string>) returns (out: set<string>)
    ensures out == set n | n in names :: ToLower(n)
  {
    out := {};
    for i := 0 to |names|
      invariant out == set n | n in names[..i] :: ToLower(n)
    {
      assert names[..i + 1] == names[..i] + [names[i]];
      out := out + {ToLower(names[i])};
    }
    assert names[..|names|] == names;
  }

  method UpperCased(names: seq<string>) returns (out: set<string>)
    ensures out == set n | n in names :: ToUpper(n)
  {
    out := {};
    for i := 0 to |names|
      invariant out == set n | n in names[..i] :: ToUpper(n)
    {
      assert names[..i + 1] == names[..i] + [names[i]];
      out := out + {ToUpper(names[i])};
    }
    assert names[..|names|] == names;
  }

  method TrimPattern(given: string) returns (path: string, wildcard: bool)
    ensures (path, wildcard) == Pattern(given)
  {
    path := TrimSuffix(given, "/");
    if path == "" {
      path := "/";
    }
    wildcard := false;
    if HasSuffix(path, "/*") {
      wildcard := true;
      path := TrimSuffix(path, "/*");
    }
  }

  method ScopeScore(hosts: set<string>, methods: set<string>) returns (score: int)
    ensures score == Score(hosts, methods, [], false)
  {
    score := 0;
    if |hosts| > 0 {
      score := score + 10000;
    }
    if |methods| > 0 {
      score := score + 1000;
    }
  }

  method CompileRule(r: Rule) returns (result: Result<Compiled, CompileError>)
    ensures result == CompiledForm(r)
  {
    var hosts := LowerCased(r.hosts);
    var methods := UpperCased(r.methods);
    var path, wildcard := TrimPattern(r.path);
    var score := ScopeScore(hosts, methods);
    var parsed, added := ParsePieces(r.id, Split(Trim(path, {'/'}), '/'));
    if parsed.Err? {
      return Err(parsed.error);
    }
    score := score + added;
    if wildcard {
      score := score - 5;
    }
    return Ok(Compiled(r, parsed.value, wildcard, hosts, methods, score));
  }

  /** The loop over path pieces: segments so far and what they add to the score. */
  method ParsePieces(ruleId: string, raws: seq<string>)
    returns (parsed: Result<seq<Segment>, CompileError>, score: int)
    ensures parsed == ParseSegments(ruleId, raws)
    ensures parsed.Ok? ==> score == SegmentsScore(parsed.value)
  {
    score := 0;
    var segments: seq<Segment> := [];
    assert raws[0..] == raws;
    PrependNothing(ParseSegments(ruleId, raws));
    for i := 0 to |raws|
      invariant ParseSegments(ruleId, raws) == Prepended(segments, ParseSegments(ruleId, raws[i..]))
      invariant score == SegmentsScore(segments)
    {
      var raw := raws[i];
      assert raws[i..][1..] == raws[i + 1..];
      if raw == "" {
        continue;
      }
      ghost var rest := ParseSegments(ruleId, raws[i + 1..]);
      if HasPrefix(raw, "{") && HasSuffix(raw, "}") {
        if |raw| <= 2 {
          return Err(EmptyParameter(ruleId)), score;
        }
        var s := Param(raw[1..|raw| - 1]);
        PrependOne(segments, s, rest);
        AppendedScore(segments, s);
        segments := segments + [s];
        score := score + 10;
      } else if ContainsAny(raw, {'{', '}', '*'}) {
        return Err(MalformedSegment(ruleId, raw)), score;
      } else {
        PrependOne(segments, Literal(raw), rest);
        AppendedScore(segments, Literal(raw));
        segments := segments + [Literal(raw)];
        score := score + 100;
      }
    }
    assert raws[|raws|..] == [] && segments + [] == segments;
    return Ok(segments), score;
  }

  lemma PrependOne(done: seq<Segment>, s: Segment, rest: Result<seq<Segment>, CompileError>)
    ensures Prepended(done, Prepended([s], rest)) == Prepended(done + [s], rest)
  {
    if rest.Ok? {
      assert done + ([s] + rest.value) == (done + [s]) + rest.value;
    }
  }

  lemma AppendedScore(segments: seq<Segment>, s: Segment)
    ensures SegmentsScore(segments + [s]) == SegmentsScore(segments) + SegmentWeight(s)
  {
    assert (segments + [s])[..|segments|] == segments;
  }

  // ---- ambiguity --------------------------------------------------------------

  /** The syntactic overlap test. */
  predicate Overlap(a: Compiled, b: Compiled) {
    && ScopesOverlap(a.hosts, b.hosts)
    && ScopesOverlap(a.methods, b.methods)
    && (|a.segments| == |b.segments| || a.wildcard || b.wildcard)
    && forall i :: 0 <= i < |a.segments| && i < |b.segments| ==> Compatible(a.segments[i], b.segments[i])
  }

  /** Empty means unrestricted. */
  predicate ScopesOverlap(a: set<string>, b: set<string>) {
    a == {} || b == {} || a * b != {}
  }

  predicate Compatible(a: Segment, b: Segment) {
    a.Param? || b.Param? || a == b
  }

  predicate Conflict(a: Compiled, b: Compiled) {
    a.score == b.score && Overlap(a, b)
  }

  method Intersects(a: set<string>, b: set<string>) returns (r: bool)
    ensures r == ScopesOverlap(a, b)
  {
    if |a| == 0 || |b| == 0 {
      return true;
    }
    var left := a;
    while left != {}
      invariant left <= a && a * b == left * b
      decreases left
    {
      var h :| h in left;
      if h in b {
        assert h in a * b;
        return true;
      }
      left := left - {h};
    }
    return false;
  }

  method Overlaps(a: Compiled, b: Compiled) returns (r: bool)
    ensures r == Overlap(a, b)
  {
    var hosts := Intersects(a.hosts, b.hosts);
    var methods := Intersects(a.methods, b.methods);
    if !hosts || !methods {
      return false;
    }
    if |a.segments| != |b.segments| && !a.wildcard && !b.wildcard {
      return false;
    }
    var n := |a.segments|;
    if |b.segments| < n {
      n := |b.segments|;
    }
    for i := 0 to n
      invariant forall k :: 0 <= k < i ==> Compatible(a.segments[k], b.segments[k])
    {
      var sa, sb := a.segments[i], b.segments[i];
      if sa.Param? || sb.Param? {
        continue;
      }
      if sa.text != sb.text {
        return false;
      }
    }
    return true;
  }

  // ---- compiling the table ------------------------------------------------------

  function CompileAll(rules: seq<Rule>): Result<seq<Compiled>, CompileError> {
    if rules == [] then Ok([])
    else
      match CompileAll(rules[..|rules| - 1])
      case Err(e) => Err(e)
      case Ok(done) =>
        match CompiledForm(rules[|rules| - 1])
        case Err(e) => Err(e)
        case Ok(c) => Ok(done + [c])
  }

  /** `c` goes after everything that scores at least as much. */
  function Inserted(sorted: seq<Compiled>, c: Compiled): seq<Compiled> {
    if sorted == [] || sorted[|sorted| - 1].score >= c.score then sorted + [c]
    else Inserted(sorted[..|sorted| - 1], c) + [sorted[|sorted| - 1]]
  }

  function StableSorted(table: seq<Compiled>): seq<Compiled> {
    if table == [] then [] else Inserted(StableSorted(table[..|table| - 1]), table[|table| - 1])
  }

  ghost predicate Descending(table: seq<Compiled>) {
    forall i, j :: 0 <= i < j < |table| ==> table[i].score >= table[j].score
  }

  ghost predicate Unambiguous(table: seq<Compiled>) {
    forall i, j :: 0 <= i < j < |table| ==> !Conflict(table[i], table[j])
  }

  /** What a successful compilation installs. */
  ghost predicate Compiles(rules: seq<Rule>, table: seq<Compiled>) {
    && CompileAll(rules).Ok?
    && table == StableSorted(CompileAll(rules).value)
    && Unambiguous(table)
  }

  // ---- matching ---------------------------------------------------------------

  function NormalHost(host: string): string {
    ToLower(HostOnly(host))
  }

  function PathOnly(path: string): string {
    UpTo(path, {'?', '#'})
  }

  function SplitPath(path: string): seq<string> {
    NonEmpty(Split(path, '/'))
  }

  predicate SegmentAccepts(s: Segment, part: string) {
    s.Param? || s.text == part
  }

  predicate AcceptsParts(c: Compiled, parts: seq<string>) {
    && (if c.wildcard then |parts| >= |c.segments| else |parts| == |c.segments|)
    && forall i :: 0 <= i < |c.segments| ==> SegmentAccepts(c.segments[i], parts[i])
  }

  predicate InScope(scope: set<string>, name: string) {
    scope == {} || name in scope
  }

  /** The rule can serve this request. */
  predicate Accepts(c: Compiled, host: string, verb: string, path: string) {
    && InScope(c.hosts, NormalHost(host))
    && InScope(c.methods, ToUpper(verb))
    && AcceptsParts(c, SplitPath(PathOnly(path)))
  }

  /** Path parameters; a repeated name keeps its last value. */
  function Extract(segments: seq<Segment>, parts: seq<string>): Params
    requires |segments| <= |parts|
  {
    if segments == [] then map[]
    else
      var n := |segments| - 1;
      var before := Extract(segments[..n], parts);
      if segments[n].Param? then before[segments[n].name := parts[n]] else before
  }

  /** The first accepting rule of the table and its parameters. */
  function FirstMatch(table: seq<Compiled>, host: string, verb: string, path: string): Option<(Compiled, Params)> {
    if table == [] then None
    else if Accepts(table[0], host, verb, path) then
      Some((table[0], Extract(table[0].segments, SplitPath(PathOnly(path)))))
    else FirstMatch(table[1..], host, verb, path)
  }

  method SplitIntoParts(path: string) returns (out: seq<string>)
    ensures out == SplitPath(path)
  {
    out := [];
    var pieces := Split(path, '/');
    for i := 0 to |pieces|
      invariant out + NonEmpty(pieces[i..]) == NonEmpty(pieces)
    {
      assert pieces[i..][1..] == pieces[i + 1..];
      if pieces[i] != "" {
        assert out + ([pieces[i]] + NonEmpty(pieces[i + 1..])) == (out + [pieces[i]]) + NonEmpty(pieces[i + 1..]);
        out := out + [pieces[i]];
      }
    }
  }

  method MatchSegments(c: Compiled, parts: seq<string>) returns (ok: bool, params: Params)
    ensures ok == AcceptsParts(c, parts)
    ensures ok ==> params == Extract(c.segments, parts)
  {
    params := map[];
    if c.wildcard {
      if |parts| < |c.segments| {
        return false, params;
      }
    } else if |parts| != |c.segments| {
      return false, params;
    }
    for i := 0 to |c.segments|
      invariant forall k :: 0 <= k < i ==> SegmentAccepts(c.segments[k], parts[k])
      invariant params == Extract(c.segments[..i], parts)
    {
      var s := c.segments[i];
      assert c.segments[..i + 1][..i] == c.segments[..i];
      if s.Param? {
        params := params[s.name := parts[i]];
        continue;
      }
      if s.text != parts[i] {
        return false, params;
      }
    }
    assert c.segments[..|c.segments|] == c.segments;
    return true, params;
  }

  /** Puts `c` below everything that scores at least as much. */
  method Insert(sorted: seq<Compiled>, c: Compiled) returns (grown: seq<Compiled>)
    ensures grown == Inserted(sorted, c)
  {
    var j := |sorted|;
    assert sorted[..j] == sorted;
    while j > 0 && sorted[j - 1].score < c.score
      invariant 0 <= j <= |sorted|
      invariant Inserted(sorted, c) == Inserted(sorted[..j], c) + sorted[j..]
    {
      InsertedBefore(sorted, j, c);
      j := j - 1;
    }
    return sorted[..j] + [c] + sorted[j..];
  }

  method SortStable(given: seq<Compiled>) returns (sorted: seq<Compiled>)
    ensures sorted == StableSorted(given)
  {
    sorted := [];
    for i := 0 to |given|
      invariant sorted == StableSorted(given[..i])
    {
      assert given[..i + 1][..i] == given[..i];
      sorted := Insert(sorted, given[i]);
    }
    assert given[..|given|] == given;
  }

  /** The table itself; built once, then only read. */
  class Table {
    var rules: seq<Compiled>

    constructor Empty()
      ensures rules == []
    {
      rules := [];
    }

    /** Compiles every rule and appends it; stops at the first malformed one. */
    method AppendAll(given: seq<Rule>) returns (error: Option<CompileError>)
      requires rules == []
      modifies this
      ensures error.None? ==> CompileAll(given) == Ok(rules)
      ensures error.Some? ==> CompileAll(given) == Err(error.value)
    {
      for i := 0 to |given|
        invariant CompileAll(given[..i]) == Ok(rules)
      {
        var c := CompileRule(given[i]);
        assert given[..i + 1][..i] == given[..i];
        if c.Err? {
          FailurePersists(given, i + 1);
          return Some(c.error);
        }
        rules := rules + [c.value];
      }
      assert given[..|given|] == given;
      return None;
    }

    /** Highest score first, keeping file order among equals. */
    method SortByScore()
      modifies this
      ensures rules == StableSorted(old(rules))
    {
      rules := SortStable(rules);
    }

    method CheckAmbiguity() returns (error: Option<CompileError>)
      ensures error.None? <==> Unambiguous(rules)
      ensures error.Some? ==>
                exists i, j :: 0 <= i < j < |rules| && Conflict(rules[i], rules[j])
                  && error.value == Ambiguous(rules[i].rule.id, rules[j].rule.id, rules[i].score)
    {
      for i := 0 to |rules|
        invariant forall a, b :: 0 <= a < i && a < b < |rules| ==> !Conflict(rules[a], rules[b])
      {
        for j := i + 1 to |rules|
          invariant forall b :: i < b < j ==> !Conflict(rules[i], rules[b])
        {
          var a, b := rules[i], rules[j];
          if a.score != b.score {
            continue;
          }
          var overlap := Overlaps(a, b);
          if overlap {
            return Some(Ambiguous(a.rule.id, b.rule.id, a.score));
          }
        }
      }
      return None;
    }

    method Match(host: string, verb: string, path: string) returns (found: Option<(Compiled, Params)>)
      ensures found == FirstMatch(rules, host, verb, path)
    {
      var h, m := NormalHost(host), ToUpper(verb);
      var parts := SplitIntoParts(PathOnly(path));
      for i := 0 to |rules|
        invariant FirstMatch(rules, host, verb, path) == FirstMatch(rules[i..], host, verb, path)
      {
        var c := rules[i];
        assert rules[i..][1..] == rules[i + 1..];
        if |c.hosts| > 0 && h !in c.hosts {
          continue;
        }
        if |c.methods| > 0 && m !in c.methods {
          continue;
        }
        var ok, params := MatchSegments(c, parts);
        if !ok {
          continue;
        }
        return Some((c, params));
      }
      return None;
    }
  }

  method Compile(given: seq<Rule>) returns (result: Result<Table, CompileError>)
    ensures result.Ok? ==> fresh(result.value) && Compiles(given, result.value.rules)
    ensures result.Err? ==> forall table :: !Compiles(given, table)
    ensures CompileAll(given).Err? ==> result == Err(CompileAll(given).error)
    ensures result.Err? && CompileAll(given).Ok? ==>
              exists a, b :: a in CompileAll(given).value && b in CompileAll(given).value && Conflict(a, b)
                && result.error == Ambiguous(a.rule.id, b.rule.id, a.score)
  {
    var t := new Table.Empty();
    var malformed := t.AppendAll(given);
    if malformed.Some? {
      return Err(malformed.value);
    }
    ghost var compiled := t.rules;
    t.SortByScore();
    var ambiguous := t.CheckAmbiguity();
    if ambiguous.Some? {
      forall c | c in t.rules ensures c in compiled {
        SortedHolds(compiled, c);
      }
      return Err(ambiguous.value);
    }
    return Ok(t);
  }

  lemma {:induction false} FailurePersists(rules: seq<Rule>, n: nat)
    requires n <= |rules| && CompileAll(rules[..n]).Err?
    ensures CompileAll(rules) == CompileAll(rules[..n])
  {
    if n < |rules| {
      assert rules[..|rules| - 1][..n] == rules[..n];
      FailurePersists(rules[..|rules| - 1], n);
    } else {
      assert rules[..n] == rules;
    }
  }

  /** Sorting brings in nothing. */
  lemma {:induction false} SortedHolds(table: seq<Compiled>, c: Compiled)
    requires c in StableSorted(table)
    ensures c in table
  {
    if table != [] {
      var front := table[..|table| - 1];
      InsertedHolds(StableSorted(front), table[|table| - 1], c);
      if c != table[|table| - 1] {
        SortedHolds(front, c);
      }
    }
  }

  lemma {:induction false} InsertedHolds(sorted: seq<Compiled>, added: Compiled, c: Compiled)
    requires c in Inserted(sorted, added)
    ensures c == added || c in sorted
  {
    if !(sorted == [] || sorted[|sorted| - 1].score >= added.score) && c != sorted[|sorted| - 1] {
      InsertedHolds(sorted[..|sorted| - 1], added, c);
    }
  }

  lemma InsertedBefore(sorted: seq<Compiled>, j: nat, c: Compiled)
    requires 0 < j <= |sorted| && sorted[j - 1].score < c.score
    ensures Inserted(sorted[..j], c) + sorted[j..] == Inserted(sorted[..j - 1], c) + sorted[j - 1..]
  {
    assert sorted[..j][..j - 1] == sorted[..j - 1];
    assert sorted[j - 1..] == [sorted[j - 1]] + sorted[j..];
  }
}
