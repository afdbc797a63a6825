/**
 When a rule of a compiled table answers no request at all: decided by finitely many
 probe requests built from the table's own patterns.
 */
module Probes {
  import opened Wrappers
  import opened Text
  import opened Config
  import opened Routes
  import opened Specificity
  import opened TableOrder

  function Lengths(names: seq<string>): nat {
    if names == [] then 0 else |names[0]| + Lengths(names[1..])
  }

  lemma {:induction false} LengthWithin(names: seq<string>, n: string)
    requires n in names
    ensures |n| <= Lengths(names)
  {
    if names[0] != n {
      LengthWithin(names[1..], n);
    }
  }

  function TextLengths(segments: seq<Segment>): nat {
    if segments == [] then 0
    else (if segments[0].Literal? then |segments[0].text| else 0) + TextLengths(segments[1..])
  }

  lemma {:induction false} TextWithin(segments: seq<Segment>, i: nat)
    requires i < |segments| && segments[i].Literal?
    ensures |segments[i].text| <= TextLengths(segments)
  {
    if i > 0 {
      TextWithin(segments[1..], i - 1);
    }
  }

  /** More than the length of any name in the table, and than the number of segments of any pattern. */
  function Extent(table: seq<Compiled>): nat {
    if table == [] then 1
    else
      Lengths(table[0].rule.hosts) + Lengths(table[0].rule.methods)
      + TextLengths(table[0].segments) + |table[0].segments| + Extent(table[1..])
  }

  lemma {:induction false} ExtentExceeds(table: seq<Compiled>, c: Compiled)
    requires c in table
    ensures Lengths(c.rule.hosts) + Lengths(c.rule.methods) + TextLengths(c.segments) + |c.segments| < Extent(table)
  {
    if table[0] != c {
      ExtentExceeds(table[1..], c);
    } else {
      ExtentPositive(table[1..]);
    }
  }

  lemma {:induction false} ExtentPositive(table: seq<Compiled>)
    ensures Extent(table) >= 1
  {
    if table != [] {
      ExtentPositive(table[1..]);
    }
  }

  /** A name that no rule mentions. */
  function Unmentioned(table: seq<Compiled>): string {
    Zeros(Extent(table))
  }

  function HostNames(table: seq<Compiled>): set<string> {
    set c, h | c in table && h in c.hosts :: h
  }

  function MethodNames(table: seq<Compiled>): set<string> {
    set c, m | c in table && m in c.methods :: m
  }

  /** The literals a request can hold. */
  function PartNames(table: seq<Compiled>): set<string> {
    set c, s | c in table && s in c.segments && s.Literal? && Clean(s.text) :: s.text
  }

  /** All lists of at most `n` of these names. */
  function PartLists(n: nat, names: set<string>): set<seq<string>> {
    if n == 0 then {[]}
    else
      var shorter := PartLists(n - 1, names);
      shorter + (set ps, p | ps in shorter && p in names :: ps + [p])
  }

  lemma {:induction false} InPartLists(ps: seq<string>, n: nat, names: set<string>)
    requires |ps| <= n && forall k :: 0 <= k < |ps| ==> ps[k] in names
    ensures ps in PartLists(n, names)
  {
    if n > 0 {
      if ps == [] {
        InPartLists(ps, n - 1, names);
      } else {
        var front, last := ps[..|ps| - 1], ps[|ps| - 1];
        InPartLists(front, n - 1, names);
        assert ps == front + [last];
      }
    }
  }

  lemma {:induction false} PartListsHold(ps: seq<string>, n: nat, names: set<string>)
    requires ps in PartLists(n, names)
    ensures forall k :: 0 <= k < |ps| ==> ps[k] in names
    decreases n
  {
    if n > 0 {
      if ps in PartLists(n - 1, names) {
        PartListsHold(ps, n - 1, names);
      } else {
        var front, p :| front in PartLists(n - 1, names) && p in names && ps == front + [p];
        PartListsHold(front, n - 1, names);
      }
    }
  }

  /** The probes of a table: every host, method and list of parts made of its own names and one it does not mention. */
  function ProbeRequests(table: seq<Compiled>): set<Request> {
    var other := Unmentioned(table);
    set h, m, ps | h in HostNames(table) + {other} && m in MethodNames(table) + {other}
                   && ps in PartLists(Extent(table), PartNames(table) + {other}) :: Request(h, m, Render(ps))
  }

  /** The rule answers one of the probes. */
  predicate Alive(table: seq<Compiled>, c: Compiled) {
    exists p :: p in ProbeRequests(table) && Answer(table, p).Some? && Answer(table, p).value.0 == c
  }

  // ---- every request looks like a probe ----------------------------------------------------

  function Known(name: string, names: set<string>, other: string): string {
    if name in names then name else other
  }

  function KnownAll(parts: seq<string>, names: set<string>, other: string): seq<string> {
    seq(|parts|, i requires 0 <= i < |parts| => Known(parts[i], names, other))
  }

  /** The parts a probe has instead: known names kept, all others alike, no longer than any pattern can tell. */
  function ProbeParts(table: seq<Compiled>, parts: seq<string>): seq<string> {
    KnownAll(if |parts| <= Extent(table) then parts else parts[..Extent(table)], PartNames(table), Unmentioned(table))
  }

  function Probe(table: seq<Compiled>, q: Request): Request {
    Request(Known(NormalHost(q.host), HostNames(table), Unmentioned(table)),
            Known(ToUpper(q.verb), MethodNames(table), Unmentioned(table)),
            Render(ProbeParts(table, SplitPath(PathOnly(q.path)))))
  }

  lemma ProbeIsListed(table: seq<Compiled>, q: Request)
    ensures Probe(table, q) in ProbeRequests(table)
  {
    var parts := ProbeParts(table, SplitPath(PathOnly(q.path)));
    InPartLists(parts, Extent(table), PartNames(table) + {Unmentioned(table)});
  }

  lemma UnmentionedIsOther(table: seq<Compiled>, c: Compiled)
    requires c in table && CompiledForm(c.rule) == Ok(c)
    ensures Unmentioned(table) !in c.hosts && Unmentioned(table) !in c.methods && |c.segments| < Extent(table)
    ensures forall i :: 0 <= i < |c.segments| && c.segments[i].Literal? ==> c.segments[i].text != Unmentioned(table)
  {
    ExtentExceeds(table, c);
    forall n | n in c.rule.hosts ensures ToLower(n) != Unmentioned(table) {
      LengthWithin(c.rule.hosts, n);
    }
    forall n | n in c.rule.methods ensures ToUpper(n) != Unmentioned(table) {
      LengthWithin(c.rule.methods, n);
    }
    forall i | 0 <= i < |c.segments| && c.segments[i].Literal? ensures c.segments[i].text != Unmentioned(table) {
      TextWithin(c.segments, i);
    }
  }

  /** A pattern cannot tell a request's parts from its probe's. */
  lemma PartsAlike(table: seq<Compiled>, c: Compiled, parts: seq<string>)
    requires c in table && CompiledForm(c.rule) == Ok(c) && AllClean(parts)
    ensures AcceptsParts(c, parts) <==> AcceptsParts(c, ProbeParts(table, parts))
  {
    UnmentionedIsOther(table, c);
    var probe := ProbeParts(table, parts);
    forall i | 0 <= i < |c.segments| && i < |parts|
      ensures SegmentAccepts(c.segments[i], parts[i]) <==> SegmentAccepts(c.segments[i], probe[i])
    {
      var s := c.segments[i];
      assert Clean(parts[i]);
      if s.Literal? && s.text == parts[i] {
        assert s in c.segments && parts[i] in PartNames(table);
      }
    }
  }

  lemma ProbePartsClean(table: seq<Compiled>, parts: seq<string>)
    ensures AllClean(ProbeParts(table, parts))
  {
    ExtentPositive(table);
    ZerosFixed(Extent(table));
  }

  lemma HostAlike(table: seq<Compiled>, c: Compiled, host: string)
    requires c in table && CompiledForm(c.rule) == Ok(c)
    ensures var probe := Known(NormalHost(host), HostNames(table), Unmentioned(table));
            ':' !in probe && ToLower(probe) == probe
            && (InScope(c.hosts, NormalHost(host)) <==> InScope(c.hosts, probe))
  {
    UnmentionedIsOther(table, c);
    ZerosFixed(Extent(table));
    LowerIdempotent(HostOnly(host));
    LowerKeeps(HostOnly(host), ':');
  }

  lemma VerbAlike(table: seq<Compiled>, c: Compiled, verb: string)
    requires c in table && CompiledForm(c.rule) == Ok(c)
    ensures var probe := Known(ToUpper(verb), MethodNames(table), Unmentioned(table));
            ToUpper(probe) == probe && (InScope(c.methods, ToUpper(verb)) <==> InScope(c.methods, probe))
  {
    UnmentionedIsOther(table, c);
    ZerosFixed(Extent(table));
    UpperIdempotent(verb);
  }

  lemma ServesAlike(table: seq<Compiled>, c: Compiled, q: Request)
    requires c in table && CompiledForm(c.rule) == Ok(c)
    ensures Serves(c, q) <==> Serves(c, Probe(table, q))
  {
    var parts := SplitPath(PathOnly(q.path));
    RequestPartsClean(q.path);
    PartsAlike(table, c, parts);
    ProbePartsClean(table, parts);
    HostAlike(table, c, q.host);
    VerbAlike(table, c, q.verb);
    var p := Probe(table, q);
    BuiltRequest(c, p.host, p.verb, ProbeParts(table, parts));
  }

  lemma {:induction false} AnswersAlike(rest: seq<Compiled>, q: Request, p: Request)
    requires forall c :: c in rest ==> (Serves(c, q) <==> Serves(c, p))
    ensures Answer(rest, q).Some? <==> Answer(rest, p).Some?
    ensures Answer(rest, q).Some? ==> Answer(rest, q).value.0 == Answer(rest, p).value.0
  {
    if rest != [] && !Serves(rest[0], q) {
      AnswersAlike(rest[1..], q, p);
    }
  }

  /** A probe's path is no login endpoint: it ends in a slash, and holds no query mark. */
  lemma ProbePath(table: seq<Compiled>, p: Request)
    requires p in ProbeRequests(table)
    ensures p.path != "" && p.path[|p.path| - 1] == '/' && PathOnly(p.path) == p.path
  {
    var other := Unmentioned(table);
    var ps :| ps in PartLists(Extent(table), PartNames(table) + {other}) && p.path == Render(ps);
    PartListsHold(ps, Extent(table), PartNames(table) + {other});
    ExtentPositive(table);
    ZerosFixed(Extent(table));
    RenderedChars(ps);
    RenderEnds(ps);
    UpToWhole(p.path, {'?', '#'});
  }

  lemma {:induction false} RenderEnds(parts: seq<string>)
    ensures Render(parts) != "" && Render(parts)[|Render(parts)| - 1] == '/'
  {
    if parts != [] {
      RenderEnds(parts[1..]);
    }
  }

  /** A rule of a compiled table answers some request exactly when it answers one of finitely many probes. */
  lemma AliveExactly(rules: seq<Rule>, table: seq<Compiled>, c: Compiled)
    requires Compiles(rules, table)
    ensures (exists q :: Answer(table, q).Some? && Answer(table, q).value.0 == c) <==> Alive(table, c)
  {
    if q :| Answer(table, q).Some? && Answer(table, q).value.0 == c {
      var p := Probe(table, q);
      forall d | d in table ensures Serves(d, q) <==> Serves(d, p) {
        TableHolds(rules, table, d);
        ServesAlike(table, d, q);
      }
      AnswersAlike(table, q, p);
      ProbeIsListed(table, q);
    }
  }
}
