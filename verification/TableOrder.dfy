/**
 A compiled table answers with the unique most specific rule, whatever the
 order of the rules in the file.
 */
module TableOrder {
  import opened Wrappers
  import opened Text
  import opened Config
  import opened Routes
  import opened Specificity

  // ---- sorting ----------------------------------------------------------------

  lemma {:induction false} InsertedCounts(sorted: seq<Compiled>, c: Compiled)
    ensures multiset(Inserted(sorted, c)) == multiset(sorted) + multiset{c}
  {
    if sorted != [] && sorted[|sorted| - 1].score < c.score {
      InsertedCounts(sorted[..|sorted| - 1], c);
      assert sorted == sorted[..|sorted| - 1] + [sorted[|sorted| - 1]];
    }
  }

  lemma {:induction false} InsertedSorts(sorted: seq<Compiled>, c: Compiled)
    requires Descending(sorted)
    ensures Descending(Inserted(sorted, c))
  {
    if sorted != [] && sorted[|sorted| - 1].score < c.score {
      var front, last := sorted[..|sorted| - 1], sorted[|sorted| - 1];
      InsertedSorts(front, c);
      forall x | x in Inserted(front, c) ensures x.score >= last.score {
        InsertedHolds(front, c, x);
      }
    }
  }

  /** The sort is a permutation in descending score. */
  lemma {:induction false} SortedTable(table: seq<Compiled>)
    ensures Descending(StableSorted(table))
    ensures multiset(StableSorted(table)) == multiset(table)
  {
    if table != [] {
      var front, last := table[..|table| - 1], table[|table| - 1];
      SortedTable(front);
      InsertedSorts(StableSorted(front), last);
      InsertedCounts(StableSorted(front), last);
      assert table == front + [last];
    }
  }

  function WithScore(table: seq<Compiled>, score: int): seq<Compiled> {
    if table == [] then []
    else
      var front, last := WithScore(table[..|table| - 1], score), table[|table| - 1];
      if last.score == score then front + [last] else front
  }

  lemma WithScoreAppend(table: seq<Compiled>, c: Compiled, score: int)
    ensures WithScore(table + [c], score) == WithScore(table, score) + (if c.score == score then [c] else [])
  {
    assert (table + [c])[..|table|] == table;
  }

  lemma {:induction false} InsertedStable(sorted: seq<Compiled>, c: Compiled, score: int)
    ensures WithScore(Inserted(sorted, c), score) == WithScore(sorted, score) + (if c.score == score then [c] else [])
  {
    if sorted != [] && sorted[|sorted| - 1].score < c.score {
      var front, last := sorted[..|sorted| - 1], sorted[|sorted| - 1];
      InsertedStable(front, c, score);
      WithScoreAppend(Inserted(front, c), last, score);
    } else {
      WithScoreAppend(sorted, c, score);
    }
  }

  /** Rules of equal score keep their file order. */
  lemma {:induction false} SortIsStable(table: seq<Compiled>, score: int)
    ensures WithScore(StableSorted(table), score) == WithScore(table, score)
  {
    if table != [] {
      var front := table[..|table| - 1];
      SortIsStable(front, score);
      InsertedStable(StableSorted(front), table[|table| - 1], score);
    }
  }

  // ---- the table as a bag of rules -----------------------------------------------

  lemma ConflictSymmetric(a: Compiled, b: Compiled)
    ensures Conflict(a, b) == Conflict(b, a)
  {
    assert a.hosts * b.hosts == b.hosts * a.hosts;
    assert a.methods * b.methods == b.methods * a.methods;
  }

  lemma ConflictReflexive(a: Compiled)
    ensures Conflict(a, a)
  {
    assert a.hosts * a.hosts == a.hosts && a.methods * a.methods == a.methods;
  }

  /** No rule twice, and no two rules in conflict. */
  ghost predicate ConflictFree(bag: multiset<Compiled>) {
    && (forall a :: a in bag ==> bag[a] == 1)
    && forall a, b :: a in bag && b in bag && a != b ==> !Conflict(a, b)
  }

  lemma TwiceCounted(table: seq<Compiled>, i: nat, j: nat)
    requires i < j < |table| && table[i] == table[j]
    ensures multiset(table)[table[i]] >= 2
  {
    assert table == table[..j] + [table[j]] + table[j + 1..];
    assert table[..j][i] in table[..j];
  }

  lemma {:induction false} CountedTwice(table: seq<Compiled>, a: Compiled)
    requires multiset(table)[a] >= 2
    ensures exists i, j :: 0 <= i < j < |table| && table[i] == a && table[j] == a
  {
    var front, last := table[..|table| - 1], table[|table| - 1];
    assert table == front + [last];
    if last == a {
      assert multiset(front)[a] >= 1;
      assert a in front;
      var i :| 0 <= i < |front| && front[i] == a;
      assert table[i] == a && table[|table| - 1] == a;
    } else {
      CountedTwice(front, a);
      var i, j :| 0 <= i < j < |front| && front[i] == a && front[j] == a;
      assert table[i] == a && table[j] == a;
    }
  }

  lemma UnambiguousIsConflictFree(table: seq<Compiled>)
    ensures Unambiguous(table) <==> ConflictFree(multiset(table))
  {
    if Unambiguous(table) {
      forall a | a in multiset(table) ensures multiset(table)[a] == 1 {
        if multiset(table)[a] >= 2 {
          CountedTwice(table, a);
          ConflictReflexive(a);
        }
      }
      forall a, b | a in multiset(table) && b in multiset(table) && a != b ensures !Conflict(a, b) {
        assert a in table && b in table;
        var i :| 0 <= i < |table| && table[i] == a;
        var j :| 0 <= j < |table| && table[j] == b;
        ConflictSymmetric(a, b);
      }
    }
    if ConflictFree(multiset(table)) {
      forall i, j | 0 <= i < j < |table| ensures !Conflict(table[i], table[j]) {
        assert table[i] in multiset(table) && table[j] in multiset(table);
        if table[i] == table[j] {
          TwiceCounted(table, i, j);
        }
      }
    }
  }

  lemma {:induction false} AllCompile(rules: seq<Rule>)
    ensures CompileAll(rules).Ok? <==> forall r :: r in rules ==> CompiledForm(r).Ok?
  {
    if rules != [] {
      var front, last := rules[..|rules| - 1], rules[|rules| - 1];
      AllCompile(front);
      assert forall r :: r in rules <==> r in front || r == last;
    }
  }

  /** One more rule and its compiled form keep the counts alike. */
  lemma CountOneMore(done: seq<Compiled>, made: Compiled, front: seq<Rule>, last: Rule, c: Compiled)
    requires made.rule == last && CompiledForm(last) == Ok(made)
    requires multiset(done)[c] == if CompiledForm(c.rule) == Ok(c) then multiset(front)[c.rule] else 0
    ensures multiset(done + [made])[c]
         == if CompiledForm(c.rule) == Ok(c) then multiset(front + [last])[c.rule] else 0
  {
    assert c == made <==> CompiledForm(c.rule) == Ok(c) && c.rule == last;
    assert multiset(done + [made])[c] == multiset(done)[c] + if c == made then 1 else 0;
    assert multiset(front + [last])[c.rule] == multiset(front)[c.rule] + if c.rule == last then 1 else 0;
  }

  lemma CompileAllLast(front: seq<Rule>, last: Rule) returns (done: seq<Compiled>, made: Compiled)
    requires CompileAll(front + [last]).Ok?
    ensures CompileAll(front) == Ok(done) && CompiledForm(last) == Ok(made) && made.rule == last
    ensures CompileAll(front + [last]) == Ok(done + [made])
  {
    assert (front + [last])[..|front|] == front;
    done, made := CompileAll(front).value, CompiledForm(last).value;
  }

  /** How often a compiled rule occurs is how often its rule does. */
  lemma {:induction false} CompileAllCounts(rules: seq<Rule>, c: Compiled)
    requires CompileAll(rules).Ok?
    ensures multiset(CompileAll(rules).value)[c] == if CompiledForm(c.rule) == Ok(c) then multiset(rules)[c.rule] else 0
  {
    if rules != [] {
      var front, last := rules[..|rules| - 1], rules[|rules| - 1];
      assert rules == front + [last];
      var done, made := CompileAllLast(front, last);
      CompileAllCounts(front, c);
      CountOneMore(done, made, front, last, c);
    }
  }

  lemma {:induction false} ListedOnce(rules: seq<Rule>, r: Rule)
    requires IdsDistinct(rules)
    ensures multiset(rules)[r] <= 1
  {
    if rules != [] {
      var front, last := rules[..|rules| - 1], rules[|rules| - 1];
      assert rules == front + [last];
      ListedOnce(front, r);
      assert last !in front;
    }
  }

  lemma SameIdSameRule(rules: seq<Rule>, r: Rule, q: Rule)
    requires IdsDistinct(rules) && r in rules && q in rules && r.id == q.id
    ensures r == q
  {
    var i :| 0 <= i < |rules| && rules[i] == r;
    var j :| 0 <= j < |rules| && rules[j] == q;
  }

  /** With distinct rule ids in the file, any two entries of the table have different ids. */
  lemma EntriesToldApart(rules: seq<Rule>, i: nat, j: nat)
    requires CompileAll(rules).Ok? && IdsDistinct(rules)
    requires i < j < |StableSorted(CompileAll(rules).value)|
    ensures var table := StableSorted(CompileAll(rules).value); table[i].rule.id != table[j].rule.id
  {
    var all := CompileAll(rules).value;
    var table := StableSorted(all);
    var a, b := table[i], table[j];
    SortedTable(all);
    assert a in multiset(table) && b in multiset(table);
    CompileAllCounts(rules, a);
    CompileAllCounts(rules, b);
    ListedOnce(rules, a.rule);
    assert a.rule in multiset(rules) && b.rule in multiset(rules);
    if a == b {
      TwiceCounted(table, i, j);
    } else if a.rule.id == b.rule.id {
      SameIdSameRule(rules, a.rule, b.rule);
    }
  }

  /** Reordering the file does not change the compiled rules, only their order. */
  lemma CompileAllPermutes(given: seq<Rule>, other: seq<Rule>)
    requires multiset(given) == multiset(other)
    ensures CompileAll(given).Ok? <==> CompileAll(other).Ok?
    ensures CompileAll(given).Ok? ==> multiset(CompileAll(given).value) == multiset(CompileAll(other).value)
  {
    AllCompile(given);
    AllCompile(other);
    forall r ensures r in given <==> r in other {
      assert r in multiset(given) <==> r in multiset(other);
    }
    if CompileAll(given).Ok? {
      var a, b := CompileAll(given).value, CompileAll(other).value;
      forall c ensures multiset(a)[c] == multiset(b)[c] {
        CompileAllCounts(given, c);
        CompileAllCounts(other, c);
      }
    }
  }

  // ---- the answer -------------------------------------------------------------------

  ghost predicate Installable(rules: seq<Rule>) {
    exists table :: Compiles(rules, table)
  }

  /** `c` serves the request and every other serving rule scores less. */
  ghost predicate Best(table: seq<Compiled>, c: Compiled, r: Request) {
    && c in table && Serves(c, r)
    && forall d :: d in table && d != c && Serves(d, r) ==> d.score < c.score
  }

  function Answer(table: seq<Compiled>, r: Request): Option<(Compiled, Params)> {
    FirstMatch(table, r.host, r.verb, r.path)
  }

  function ParamsOf(c: Compiled, r: Request): Params
    requires Serves(c, r)
  {
    Extract(c.segments, SplitPath(PathOnly(r.path)))
  }

  lemma {:induction false} FirstMatchIs(table: seq<Compiled>, r: Request)
    ensures Answer(table, r).None? <==> forall c :: c in table ==> !Serves(c, r)
    ensures Answer(table, r).Some? ==>
              exists i :: 0 <= i < |table| && Serves(table[i], r)
                && Answer(table, r).value == (table[i], ParamsOf(table[i], r))
                && forall j :: 0 <= j < i ==> !Serves(table[j], r)
  {
    if table != [] && !Serves(table[0], r) {
      FirstMatchIs(table[1..], r);
      if Answer(table, r).Some? {
        var i :| 0 <= i < |table| - 1 && Serves(table[1..][i], r)
          && Answer(table, r).value == (table[1..][i], ParamsOf(table[1..][i], r))
          && forall j :: 0 <= j < i ==> !Serves(table[1..][j], r);
        forall j | 0 <= j < i + 1 ensures !Serves(table[j], r) {
          assert j == 0 || table[j] == table[1..][j - 1];
        }
        assert table[i + 1] == table[1..][i];
      }
    }
  }

  /** In a sorted table without conflicts, the first serving rule outscores the others. */
  lemma FirstIsBest(table: seq<Compiled>, r: Request)
    requires Descending(table) && Unambiguous(table) && Answer(table, r).Some?
    ensures Best(table, Answer(table, r).value.0, r)
    ensures Answer(table, r).value.1 == ParamsOf(Answer(table, r).value.0, r)
  {
    FirstMatchIs(table, r);
    var i :| 0 <= i < |table| && Serves(table[i], r)
      && Answer(table, r).value == (table[i], ParamsOf(table[i], r))
      && forall j :: 0 <= j < i ==> !Serves(table[j], r);
    forall d | d in table && d != table[i] && Serves(d, r) ensures d.score < table[i].score {
      var j :| 0 <= j < |table| && table[j] == d;
      SharingImpliesOverlap(table[i], d, r);
      assert i < j && !Conflict(table[i], table[j]);
    }
  }

  lemma BestIsUnique(table: seq<Compiled>, c: Compiled, d: Compiled, r: Request)
    requires Best(table, c, r) && Best(table, d, r)
    ensures c == d
  {
  }

  /** Match answers with the one rule of greatest score, and its parameters. */
  lemma MatchIsUniqueBest(rules: seq<Rule>, table: seq<Compiled>, r: Request)
    requires Compiles(rules, table)
    ensures Answer(table, r).None? <==> forall c :: c in table ==> !Serves(c, r)
    ensures Answer(table, r).Some? ==>
              var (c, params) := Answer(table, r).value; Best(table, c, r) && params == ParamsOf(c, r)
  {
    SortedTable(CompileAll(rules).value);
    FirstMatchIs(table, r);
    if Answer(table, r).Some? {
      FirstIsBest(table, r);
    }
  }

  /** Every rule of the file is in the table, and nothing else. */
  lemma TableHolds(rules: seq<Rule>, table: seq<Compiled>, c: Compiled)
    requires Compiles(rules, table)
    ensures c in table <==> c.rule in rules && CompiledForm(c.rule) == Ok(c)
  {
    SortedTable(CompileAll(rules).value);
    CompileAllCounts(rules, c);
    assert c in table <==> c in multiset(table);
    assert c.rule in rules <==> c.rule in multiset(rules);
  }

  /** Whether a rule list compiles does not depend on its order, nor does any answer. */
  lemma OrderIndependent(given: seq<Rule>, other: seq<Rule>)
    requires multiset(given) == multiset(other)
    ensures Installable(given) <==> Installable(other)
    ensures forall s, t, r :: Compiles(given, s) && Compiles(other, t) ==> Answer(s, r) == Answer(t, r)
  {
    CompileAllPermutes(given, other);
    if CompileAll(given).Ok? {
      var s, t := StableSorted(CompileAll(given).value), StableSorted(CompileAll(other).value);
      SortedTable(CompileAll(given).value);
      SortedTable(CompileAll(other).value);
      UnambiguousIsConflictFree(s);
      UnambiguousIsConflictFree(t);
      assert Unambiguous(s) <==> Unambiguous(t);
      assert Compiles(given, s) <==> Compiles(other, t);
      forall r | Compiles(given, s) ensures Answer(s, r) == Answer(t, r) {
        SameAnswer(s, t, r);
      }
    }
  }

  lemma SameAnswer(s: seq<Compiled>, t: seq<Compiled>, r: Request)
    requires Descending(s) && Unambiguous(s) && Descending(t) && Unambiguous(t)
    requires multiset(s) == multiset(t)
    ensures Answer(s, r) == Answer(t, r)
  {
    forall c ensures c in s <==> c in t {
      assert c in multiset(s) <==> c in multiset(t);
    }
    FirstMatchIs(s, r);
    FirstMatchIs(t, r);
    if Answer(s, r).Some? {
      FirstIsBest(s, r);
      FirstIsBest(t, r);
      BestIsUnique(t, Answer(s, r).value.0, Answer(t, r).value.0, r);
    }
  }

  // ---- specificity follows language inclusion ------------------------------------------

  /** Whatever matches `a` matches `b`. */
  ghost predicate Included(a: Compiled, b: Compiled) {
    forall r :: Serves(a, r) ==> Serves(b, r)
  }

  lemma {:induction false} LongerThanAll(names: set<string>) returns (n: nat)
    ensures forall s :: s in names ==> |s| < n
    decreases |names|
  {
    if names == {} {
      n := 0;
    } else {
      var s :| s in names;
      n := LongerThanAll(names - {s});
      n := if |s| < n then n else |s| + 1;
    }
  }

  function Zeros(n: nat): string {
    seq(n, _ => '0')
  }

  lemma ZerosFixed(n: nat)
    ensures ToLower(Zeros(n)) == Zeros(n) && ToUpper(Zeros(n)) == Zeros(n)
    ensures ':' !in Zeros(n) && (n > 0 ==> Clean(Zeros(n)))
  {
  }

  /** The pattern's literals, with `filler` for each parameter. */
  function Filled(segments: seq<Segment>, filler: string): seq<string> {
    seq(|segments|, i requires 0 <= i < |segments| => if segments[i].Literal? then segments[i].text else filler)
  }

  /** What inclusion forces on the shape of two patterns. */
  ghost predicate Refines(a: Compiled, b: Compiled) {
    && (b.hosts != {} ==> a.hosts != {})
    && (b.methods != {} ==> a.methods != {})
    && |b.segments| <= |a.segments|
    && (!b.wildcard ==> !a.wildcard)
    && forall i :: 0 <= i < |b.segments| && b.segments[i].Literal? ==> a.segments[i].Literal?
  }

  /** A request of `a` that `b` can only serve if it is no more specific. */
  lemma ProbeRequest(a: Compiled, r: Request, filler: string, extra: nat)
    returns (host: string, verb: string, parts: seq<string>)
    requires Canonical(a) && Serves(a, r)
    requires Clean(filler) && ':' !in filler && ToLower(filler) == filler && ToUpper(filler) == filler
    requires extra > 0 ==> a.wildcard
    ensures ':' !in host && AllClean(parts)
    ensures a.hosts == {} ==> ToLower(host) == filler
    ensures a.methods == {} ==> ToUpper(verb) == filler
    ensures parts == Filled(a.segments, filler) + seq(extra, _ => filler)
    ensures Serves(a, Request(host, verb, Render(parts)))
  {
    ServingIsReachable(a, r);
    host := if a.hosts == {} then filler else NormalHost(r.host);
    verb := if a.methods == {} then filler else r.verb;
    parts := Filled(a.segments, filler) + seq(extra, _ => filler);
    LowerIdempotent(HostOnly(r.host));
    LowerKeeps(HostOnly(r.host), ':');
    BuiltRequest(a, host, verb, parts);
  }

  /** A filler longer than every name and literal of `b` can only fill parameters of `b`. */
  lemma AcceptedFill(a: Compiled, b: Compiled, filler: string)
    requires AcceptsParts(b, Filled(a.segments, filler))
    requires forall i :: 0 <= i < |b.segments| && b.segments[i].Literal? ==> |b.segments[i].text| < |filler|
    ensures |b.segments| <= |a.segments| && (!b.wildcard ==> |b.segments| == |a.segments|)
    ensures forall i :: 0 <= i < |b.segments| && b.segments[i].Literal? ==> a.segments[i].Literal?
  {
    forall i | 0 <= i < |b.segments| && b.segments[i].Literal? ensures a.segments[i].Literal? {
      assert SegmentAccepts(b.segments[i], Filled(a.segments, filler)[i]);
    }
  }

  lemma FillerFor(b: Compiled) returns (filler: string)
    ensures Clean(filler) && ':' !in filler && ToLower(filler) == filler && ToUpper(filler) == filler
    ensures filler !in b.hosts && filler !in b.methods
    ensures forall i :: 0 <= i < |b.segments| && b.segments[i].Literal? ==> |b.segments[i].text| < |filler|
  {
    var texts := set i | 0 <= i < |b.segments| && b.segments[i].Literal? :: b.segments[i].text;
    var n1 := LongerThanAll(b.hosts);
    var n2 := LongerThanAll(b.methods);
    var n3 := LongerThanAll(texts);
    filler := Zeros(1 + n1 + n2 + n3);
    ZerosFixed(1 + n1 + n2 + n3);
    assert forall i :: 0 <= i < |b.segments| && b.segments[i].Literal? ==> b.segments[i].text in texts;
  }

  lemma InclusionRefines(a: Compiled, b: Compiled, r: Request)
    requires Canonical(a) && Serves(a, r) && Included(a, b)
    ensures Refines(a, b)
  {
    var filler := FillerFor(b);
    var host, verb, parts := ProbeRequest(a, r, filler, 0);
    assert parts == Filled(a.segments, filler);
    assert Serves(b, Request(host, verb, Render(parts)));
    BuiltRequest(b, host, verb, parts);
    AcceptedFill(a, b, filler);
    if a.wildcard {
      var host', verb', longer := ProbeRequest(a, r, filler, 1);
      assert Serves(b, Request(host', verb', Render(longer)));
      BuiltRequest(b, host', verb', longer);
    }
  }

  lemma {:induction false} SegmentsDominate(a: seq<Segment>, b: seq<Segment>)
    requires |b| <= |a|
    requires forall i :: 0 <= i < |b| && b[i].Literal? ==> a[i].Literal?
    ensures SegmentsScore(a) >= SegmentsScore(b) + 10 * (|a| - |b|)
  {
    if a != [] {
      if |a| > |b| {
        SegmentsDominate(a[..|a| - 1], b);
      } else {
        SegmentsDominate(a[..|a| - 1], b[..|b| - 1]);
      }
    }
  }

  /** The rule whose requests are all requests of `b` is tried before `b`. */
  lemma MostSpecificWins(rules: seq<Rule>, table: seq<Compiled>, x: Rule, y: Rule, r: Request)
    requires Compiles(rules, table)
    requires x in rules && y in rules && x != y
    requires CompiledForm(x).Ok? && CompiledForm(y).Ok?
    requires Included(CompiledForm(x).value, CompiledForm(y).value)
    requires Serves(CompiledForm(x).value, r)
    ensures CompiledForm(x).value.score > CompiledForm(y).value.score
    ensures Answer(table, r).Some? && Answer(table, r).value.0.rule != y
  {
    var a, b := CompiledForm(x).value, CompiledForm(y).value;
    CompiledIsCanonical(x);
    CompiledIsCanonical(y);
    InclusionRefines(a, b, r);
    SegmentsDominate(a.segments, b.segments);
    assert a.score >= b.score;
    TableHolds(rules, table, a);
    TableHolds(rules, table, b);
    assert Serves(b, r);
    SharingImpliesOverlap(a, b, r);
    UnambiguousIsConflictFree(table);
    assert a in multiset(table) && b in multiset(table) && !Conflict(a, b);
    MatchIsUniqueBest(rules, table, r);
    var c := Answer(table, r).value.0;
    if c.rule == y {
      TableHolds(rules, table, c);
    }
  }

  // ---- where literal prefixes stop protecting ---------------------------------------------

  function Literals(segments: seq<Segment>): nat {
    if segments == [] then 0
    else Literals(segments[..|segments| - 1]) + if segments[|segments| - 1].Literal? then 1 else 0
  }

  /** What a pattern weighs, read off its rule: scopes, literals, parameters, wildcard. */
  function Weight(c: Compiled): int {
    (if c.rule.hosts != [] then 10000 else 0) + (if c.rule.methods != [] then 1000 else 0)
    + 100 * Literals(c.segments) + 10 * (|c.segments| - Literals(c.segments)) - (if c.wildcard then 5 else 0)
  }

  lemma {:induction false} SegmentsWeigh(segments: seq<Segment>)
    ensures SegmentsScore(segments) == 100 * Literals(segments) + 10 * (|segments| - Literals(segments))
  {
    if segments != [] {
      SegmentsWeigh(segments[..|segments| - 1]);
    }
  }

  lemma CompiledWeighs(r: Rule)
    requires CompiledForm(r).Ok?
    ensures CompiledForm(r).value.score == Weight(CompiledForm(r).value)
  {
    var c := CompiledForm(r).value;
    SegmentsWeigh(c.segments);
    assert r.hosts != [] ==> ToLower(r.hosts[0]) in c.hosts;
    assert r.methods != [] ==> ToUpper(r.methods[0]) in c.methods;
  }

  /** Everything under some literal path. */
  ghost predicate StaticPrefix(c: Compiled) {
    c.wildcard && forall i :: 0 <= i < |c.segments| ==> c.segments[i].Literal?
  }

  ghost predicate Parameterised(c: Compiled) {
    exists i :: 0 <= i < |c.segments| && c.segments[i].Param?
  }

  /**
   A parameterised pattern that shares a request with a static prefix comes before it, and
   takes that request from it, exactly when it weighs more.
   */
  lemma PrefixCapturedExactly(rules: seq<Rule>, table: seq<Compiled>, a: Compiled, b: Compiled, r: Request)
    requires Compiles(rules, table) && a in table && b in table
    requires StaticPrefix(a) && Parameterised(b)
    requires Serves(a, r) && Serves(b, r)
    ensures b.score > a.score <==> Weight(b) > Weight(a)
    ensures Weight(b) > Weight(a) ==> Answer(table, r).Some? && Answer(table, r).value.0 != a
    ensures Weight(b) <= Weight(a) ==> Answer(table, r).Some? && Answer(table, r).value.0 != b
  {
    TableHolds(rules, table, a);
    TableHolds(rules, table, b);
    CompiledWeighs(a.rule);
    CompiledWeighs(b.rule);
    assert a != b;
    MatchIsUniqueBest(rules, table, r);
  }

  /** Two rules share a request, told from their patterns. */
  ghost predicate Meet(a: Compiled, b: Compiled) {
    && Overlap(a, b) && !Overreaches(a, b) && !Overreaches(b, a)
    && HostReachable(a.hosts, b.hosts) && LiteralsReachable(a) && LiteralsReachable(b)
  }

  /** Any rule answers all its own requests exactly when no other rule that meets it weighs more. */
  lemma KeepsItsRequestsExactly(rules: seq<Rule>, table: seq<Compiled>, a: Compiled)
    requires Compiles(rules, table) && a in table
    ensures (forall r :: Serves(a, r) ==> Answer(table, r).Some? && Answer(table, r).value.0 == a)
       <==> (forall b :: b in table && b != a && Meet(a, b) ==> Weight(b) < Weight(a))
  {
    TableHolds(rules, table, a);
    CompiledIsCanonical(a.rule);
    CompiledWeighs(a.rule);
    if forall b :: b in table && b != a && Meet(a, b) ==> Weight(b) < Weight(a) {
      forall r | Serves(a, r) ensures Answer(table, r).Some? && Answer(table, r).value.0 == a {
        KeepsRequest(rules, table, a, r);
      }
    }
    if forall r :: Serves(a, r) ==> Answer(table, r).Some? && Answer(table, r).value.0 == a {
      forall b | b in table && b != a && Meet(a, b) ensures Weight(b) < Weight(a) {
        TableHolds(rules, table, b);
        CompiledIsCanonical(b.rule);
        CompiledWeighs(b.rule);
        OverlapExact(a, b);
        var r :| Serves(a, r) && Serves(b, r);
        MatchIsUniqueBest(rules, table, r);
      }
    }
  }

  lemma KeepsRequest(rules: seq<Rule>, table: seq<Compiled>, a: Compiled, r: Request)
    requires Compiles(rules, table) && a in table && Serves(a, r)
    requires forall b :: b in table && b != a && Meet(a, b) ==> Weight(b) < Weight(a)
    ensures Answer(table, r).Some? && Answer(table, r).value.0 == a
  {
    MatchIsUniqueBest(rules, table, r);
    var b := Answer(table, r).value.0;
    if b != a {
      TableHolds(rules, table, a);
      TableHolds(rules, table, b);
      CompiledIsCanonical(a.rule);
      CompiledIsCanonical(b.rule);
      CompiledWeighs(a.rule);
      CompiledWeighs(b.rule);
      assert ShareRequest(a, b);
      OverlapExact(a, b);
    }
  }
}
