/**
 Path parameters: what matching extracts rebuilds the path, and how a request is
 written does not change the answer.
 */
module Parameters {
  import opened Text
  import opened Config
  import opened Routes
  import opened Specificity

  ghost predicate DistinctNames(segments: seq<Segment>) {
    forall i, j :: 0 <= i < j < |segments| && segments[i].Param? && segments[j].Param? ==>
      segments[i].name != segments[j].name
  }

  /** The pattern with its parameters filled in. */
  function Refilled(segments: seq<Segment>, params: Params): seq<string>
    requires forall i :: 0 <= i < |segments| && segments[i].Param? ==> segments[i].name in params
  {
    seq(|segments|, i requires 0 <= i < |segments| =>
      if segments[i].Param? then params[segments[i].name] else segments[i].text)
  }

  /** A name keeps the value of its last occurrence. */
  lemma {:induction false} ExtractLast(segments: seq<Segment>, parts: seq<string>, i: nat)
    requires |segments| <= |parts| && i < |segments| && segments[i].Param?
    ensures segments[i].name in Extract(segments, parts)
    ensures (forall j :: i < j < |segments| && segments[j].Param? ==> segments[j].name != segments[i].name)
            ==> Extract(segments, parts)[segments[i].name] == parts[i]
  {
    var n := |segments| - 1;
    if i < n {
      ExtractLast(segments[..n], parts, i);
    }
  }

  lemma ExtractNames(segments: seq<Segment>, parts: seq<string>)
    requires |segments| <= |parts|
    ensures forall i :: 0 <= i < |segments| && segments[i].Param? ==> segments[i].name in Extract(segments, parts)
  {
    forall i | 0 <= i < |segments| && segments[i].Param? ensures segments[i].name in Extract(segments, parts) {
      ExtractLast(segments, parts, i);
    }
  }

  ghost predicate AcceptsEach(segments: seq<Segment>, parts: seq<string>) {
    |segments| <= |parts| && forall i :: 0 <= i < |segments| ==> SegmentAccepts(segments[i], parts[i])
  }

  /** Extraction followed by refilling gives the parts back. */
  ghost predicate RoundTrips(segments: seq<Segment>, parts: seq<string>)
    requires AcceptsEach(segments, parts)
  {
    ExtractNames(segments, parts);
    Refilled(segments, Extract(segments, parts)) == parts[..|segments|]
  }

  lemma DistinctNamesRoundTrip(segments: seq<Segment>, parts: seq<string>)
    requires DistinctNames(segments) && AcceptsEach(segments, parts)
    ensures RoundTrips(segments, parts)
  {
    ExtractNames(segments, parts);
    forall i | 0 <= i < |segments|
      ensures Refilled(segments, Extract(segments, parts))[i] == parts[i]
    {
      if segments[i].Param? {
        ExtractLast(segments, parts, i);
      }
    }
  }

  /** Parts that tell position `i` apart from every other parameter. */
  function Telling(segments: seq<Segment>, i: nat): seq<string> {
    seq(|segments|, k requires 0 <= k < |segments| =>
      if segments[k].Literal? then segments[k].text else if k == i then "1" else "0")
  }

  lemma {:induction false} RepeatedNameOverwrites(segments: seq<Segment>, parts: seq<string>, i: nat, j: nat)
    requires |segments| <= |parts| && i < j < |segments|
    requires segments[i].Param? && segments[j].Param? && segments[i].name == segments[j].name
    requires forall k :: i < k < |segments| && segments[k].Param? ==> parts[k] == "0"
    ensures segments[i].name in Extract(segments, parts) && Extract(segments, parts)[segments[i].name] == "0"
  {
    var n := |segments| - 1;
    if j < n {
      RepeatedNameOverwrites(segments[..n], parts, i, j);
    }
  }

  /** A pattern's parameters rebuild every path it matches if and only if their names are distinct. */
  lemma RoundTripExactly(segments: seq<Segment>)
    ensures DistinctNames(segments)
       <==> forall parts :: AcceptsEach(segments, parts) ==> RoundTrips(segments, parts)
  {
    if DistinctNames(segments) {
      forall parts | AcceptsEach(segments, parts) ensures RoundTrips(segments, parts) {
        DistinctNamesRoundTrip(segments, parts);
      }
    } else {
      var i, j :| 0 <= i < j < |segments| && segments[i].Param? && segments[j].Param?
        && segments[i].name == segments[j].name;
      var parts := Telling(segments, i);
      assert AcceptsEach(segments, parts);
      RepeatedNameOverwrites(segments, parts, i, j);
      ExtractNames(segments, parts);
      assert Refilled(segments, Extract(segments, parts))[i] == "0" && parts[..|segments|][i] == "1";
    }
  }

  /** The whole path comes back: all of it for an exact pattern, the covered prefix for a wildcard. */
  lemma MatchedPathRebuilds(c: Compiled, r: Request)
    requires Serves(c, r) && DistinctNames(c.segments)
    ensures AcceptsEach(c.segments, SplitPath(PathOnly(r.path)))
    ensures RoundTrips(c.segments, SplitPath(PathOnly(r.path)))
    ensures !c.wildcard ==> SplitPath(PathOnly(r.path))[..|c.segments|] == SplitPath(PathOnly(r.path))
  {
    DistinctNamesRoundTrip(c.segments, SplitPath(PathOnly(r.path)));
  }

  // ---- how a request is written ---------------------------------------------------------

  lemma HostIgnoresPort(host: string, port: string)
    requires ':' !in host
    ensures NormalHost(host + ":" + port) == NormalHost(host)
  {
    SplitAtSeparator(host, ':', port);
    SplitWithout(host, ':');
  }

  lemma HostIgnoresCase(host: string)
    ensures NormalHost(ToLower(host)) == NormalHost(host)
  {
    FoldedSplit(host);
    LowerIdempotent(HostOnly(host));
  }

  lemma {:induction false} FoldedSplit(host: string)
    ensures HostOnly(ToLower(host)) == ToLower(HostOnly(host))
  {
    if host != "" {
      FoldedSplit(host[1..]);
      assert ToLower(host)[1..] == ToLower(host[1..]);
      assert ToLower(host)[0] == LowerChar(host[0]);
      if host[0] != ':' {
        assert HostOnly(host) == [host[0]] + HostOnly(host[1..]);
      }
    }
  }

  /** Query and fragment, a repeated slash and a trailing slash add no part. */
  lemma PathSpelling(a: string, b: string, stop: char)
    requires stop in {'?', '#'}
    ensures PathOnly(a + [stop] + b) == PathOnly(a)
    ensures SplitPath(a + "/" + ("/" + b)) == SplitPath(a + "/" + b)
    ensures SplitPath(a + "/") == SplitPath(a)
  {
    UpToStops(a, stop, b, {'?', '#'});
    SplitPathAt(a, "/" + b);
    SplitPathAt(a, b);
    LeadingSlash(b);
    SplitPathAt(a, "");
    assert a + "/" + "" == a + "/";
    assert NonEmpty([""]) == [];
  }

  /** Two spellings with one normal form get one answer. */
  lemma {:induction false} MatchReadsNormalForm(table: seq<Compiled>, r: Request, q: Request)
    requires NormalHost(r.host) == NormalHost(q.host) && ToUpper(r.verb) == ToUpper(q.verb)
    requires SplitPath(PathOnly(r.path)) == SplitPath(PathOnly(q.path))
    ensures FirstMatch(table, r.host, r.verb, r.path) == FirstMatch(table, q.host, q.verb, q.path)
  {
    if table != [] {
      MatchReadsNormalForm(table[1..], r, q);
    }
  }

  /** Port, letter case, query, fragment, repeated and trailing slashes do not change the answer. */
  lemma AnswerIgnoresSpelling(
    table: seq<Compiled>, r: Request, port: string, stop: char, query: string, left: string, right: string)
    requires ':' !in r.host && '?' !in r.path && '#' !in r.path && stop in {'?', '#'}
    requires r.path == left + "/" + right
    ensures FirstMatch(table, r.host + ":" + port, r.verb, r.path) == FirstMatch(table, r.host, r.verb, r.path)
    ensures FirstMatch(table, ToLower(r.host), ToUpper(r.verb), r.path) == FirstMatch(table, r.host, r.verb, r.path)
    ensures FirstMatch(table, r.host, r.verb, r.path + [stop] + query) == FirstMatch(table, r.host, r.verb, r.path)
    ensures FirstMatch(table, r.host, r.verb, r.path + "/") == FirstMatch(table, r.host, r.verb, r.path)
    ensures FirstMatch(table, r.host, r.verb, left + "/" + ("/" + right)) == FirstMatch(table, r.host, r.verb, r.path)
  {
    HostIgnoresPort(r.host, port);
    MatchReadsNormalForm(table, r.(host := r.host + ":" + port), r);
    HostIgnoresCase(r.host);
    UpperIdempotent(r.verb);
    MatchReadsNormalForm(table, r.(host := ToLower(r.host), verb := ToUpper(r.verb)), r);
    PathSpelling(r.path, query, stop);
    UpToWhole(r.path, {'?', '#'});
    MatchReadsNormalForm(table, r.(path := r.path + [stop] + query), r);
    UpToWhole(r.path + "/", {'?', '#'});
    MatchReadsNormalForm(table, r.(path := r.path + "/"), r);
    PathSpelling(left, right, stop);
    UpToWhole(left + "/" + ("/" + right), {'?', '#'});
    MatchReadsNormalForm(table, r.(path := left + "/" + ("/" + right)), r);
  }
}
