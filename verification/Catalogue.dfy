/**
 The capability catalogue: what can be asked for, by whom, for how long, and
 which capabilities need a person at the moment of use.
 */
module Catalogue {
  import opened Wrappers

  datatype Entry = Entry(id: string, display: string, sensitive: bool)

  datatype Party = Party(name: string, requests: seq<string>)

  datatype Catalogue = Catalogue(
    capabilities: seq<Entry>,
    applications: seq<Party>,
    agents: seq<Party>,
    delegationTtls: seq<int>)

  ghost predicate Known(capabilities: seq<Entry>, id: string) {
    exists i :: 0 <= i < |capabilities| && capabilities[i].id == id
  }

  ghost predicate PartiesValid(parties: seq<Party>, capabilities: seq<Entry>) {
    forall i :: 0 <= i < |parties| ==>
      parties[i].name != "" && forall id :: id in parties[i].requests ==> Known(capabilities, id)
  }

  ghost predicate CapabilitiesValid(capabilities: seq<Entry>) {
    && (forall i :: 0 <= i < |capabilities| ==> capabilities[i].id != "" && capabilities[i].display != "")
    && forall i, j :: 0 <= i < j < |capabilities| ==> capabilities[i].id != capabilities[j].id
  }

  ghost predicate Valid(c: Catalogue) {
    && c.capabilities != []
    && CapabilitiesValid(c.capabilities)
    && PartiesValid(c.applications, c.capabilities)
    && PartiesValid(c.agents, c.capabilities)
    && c.delegationTtls != []
    && forall i :: 0 <= i < |c.delegationTtls| ==> c.delegationTtls[i] > 0
  }

  method ValidateCapabilities(capabilities: seq<Entry>) returns (ok: bool, seen: set<string>)
    ensures ok <==> CapabilitiesValid(capabilities)
    ensures ok ==> forall id :: id in seen <==> Known(capabilities, id)
  {
    seen := {};
    for i := 0 to |capabilities|
      invariant forall k :: 0 <= k < i ==> capabilities[k].id != "" && capabilities[k].display != ""
      invariant forall k, l :: 0 <= k < l < i ==> capabilities[k].id != capabilities[l].id
      invariant forall k :: 0 <= k < i ==> capabilities[k].id in seen
      invariant forall id :: id in seen ==> exists k :: 0 <= k < i && capabilities[k].id == id
    {
      var c := capabilities[i];
      if c.id == "" || c.display == "" || c.id in seen {
        return false, seen;
      }
      seen := seen + {c.id};
    }
    return true, seen;
  }

  method ValidateParties(parties: seq<Party>, seen: set<string>, ghost capabilities: seq<Entry>) returns (ok: bool)
    requires forall id :: id in seen <==> Known(capabilities, id)
    ensures ok <==> PartiesValid(parties, capabilities)
  {
    for i := 0 to |parties|
      invariant PartiesValid(parties[..i], capabilities)
    {
      var p := parties[i];
      if p.name == "" {
        return false;
      }
      for j := 0 to |p.requests|
        invariant forall k :: 0 <= k < j ==> Known(capabilities, p.requests[k])
      {
        if p.requests[j] !in seen {
          assert p.requests[j] in parties[i].requests;
          return false;
        }
      }
    }
    return true;
  }

  method Validate(c: Catalogue) returns (ok: bool)
    ensures ok <==> Valid(c)
  {
    if |c.capabilities| == 0 {
      return false;
    }
    var distinct, seen := ValidateCapabilities(c.capabilities);
    if !distinct {
      return false;
    }
    var applicationsOk := ValidateParties(c.applications, seen, c.capabilities);
    if !applicationsOk {
      return false;
    }
    var agentsOk := ValidateParties(c.agents, seen, c.capabilities);
    if !agentsOk || |c.delegationTtls| == 0 {
      return false;
    }
    for i := 0 to |c.delegationTtls|
      invariant forall k :: 0 <= k < i ==> c.delegationTtls[k] > 0
    {
      if c.delegationTtls[i] <= 0 {
        return false;
      }
    }
    return true;
  }

  /** The first entry with this id decides. */
  function IsSensitive(capabilities: seq<Entry>, id: string): bool {
    if capabilities == [] then false
    else if capabilities[0].id == id then capabilities[0].sensitive
    else IsSensitive(capabilities[1..], id)
  }

  /** Some entry marks it sensitive. */
  ghost predicate MarkedSensitive(c: Catalogue, id: string) {
    exists i :: 0 <= i < |c.capabilities| && c.capabilities[i].id == id && c.capabilities[i].sensitive
  }

  lemma {:induction false} SensitiveAt(capabilities: seq<Entry>, i: nat)
    requires CapabilitiesValid(capabilities) && i < |capabilities|
    ensures IsSensitive(capabilities, capabilities[i].id) == capabilities[i].sensitive
  {
    if i > 0 {
      assert forall k :: 0 <= k < |capabilities| - 1 ==> capabilities[1..][k] == capabilities[k + 1];
      SensitiveAt(capabilities[1..], i - 1);
    }
  }

  lemma {:induction false} SensitiveIsMarked(capabilities: seq<Entry>, id: string) returns (i: nat)
    requires IsSensitive(capabilities, id)
    ensures i < |capabilities| && capabilities[i].id == id && capabilities[i].sensitive
  {
    if capabilities[0].id == id {
      i := 0;
    } else {
      i := SensitiveIsMarked(capabilities[1..], id);
      i := i + 1;
    }
  }

  /** In a valid catalogue the lookup and the marks agree. */
  lemma SensitiveExactly(c: Catalogue, id: string)
    requires Valid(c)
    ensures IsSensitive(c.capabilities, id) <==> MarkedSensitive(c, id)
  {
    if MarkedSensitive(c, id) {
      var i :| 0 <= i < |c.capabilities| && c.capabilities[i].id == id && c.capabilities[i].sensitive;
      SensitiveAt(c.capabilities, i);
    }
    if IsSensitive(c.capabilities, id) {
      var i := SensitiveIsMarked(c.capabilities, id);
    }
  }

  function Find(parties: seq<Party>, name: string): Option<Party> {
    if parties == [] then None
    else if parties[0].name == name then Some(parties[0])
    else Find(parties[1..], name)
  }

  /** The requests that are, or are not, sensitive, in order. */
  function Sieve(capabilities: seq<Entry>, ids: seq<string>, sensitive: bool): seq<string> {
    if ids == [] then []
    else
      var front, last := Sieve(capabilities, ids[..|ids| - 1], sensitive), ids[|ids| - 1];
      if IsSensitive(capabilities, last) == sensitive then front + [last] else front
  }

  /** What an agent may be granted: everything it asks for that is not sensitive. */
  function Allowed(c: Catalogue, agent: string): seq<string> {
    match Find(c.agents, agent)
    case None => []
    case Some(p) => Sieve(c.capabilities, p.requests, false)
  }

  method Delegatable(c: Catalogue, agent: string) returns (allowed: seq<string>, refused: seq<string>)
    ensures allowed == Allowed(c, agent)
    ensures Find(c.agents, agent).Some? ==> refused == Sieve(c.capabilities, Find(c.agents, agent).value.requests, true)
  {
    allowed, refused := [], [];
    var found := Find(c.agents, agent);
    if found.None? {
      return;
    }
    var ids := found.value.requests;
    for i := 0 to |ids|
      invariant allowed == Sieve(c.capabilities, ids[..i], false)
      invariant refused == Sieve(c.capabilities, ids[..i], true)
    {
      assert ids[..i + 1][..i] == ids[..i];
      if IsSensitive(c.capabilities, ids[i]) {
        refused := refused + [ids[i]];
        continue;
      }
      allowed := allowed + [ids[i]];
    }
    assert ids[..|ids|] == ids;
  }

  lemma {:induction false} SieveHolds(capabilities: seq<Entry>, ids: seq<string>, sensitive: bool, id: string)
    ensures id in Sieve(capabilities, ids, sensitive) <==> id in ids && IsSensitive(capabilities, id) == sensitive
  {
    if ids != [] {
      var front, last := ids[..|ids| - 1], ids[|ids| - 1];
      SieveHolds(capabilities, front, sensitive, id);
      assert ids == front + [last];
    }
  }

  /** The first party of this name asks for the capability. */
  ghost predicate Requests(parties: seq<Party>, name: string, id: string) {
    exists i :: 0 <= i < |parties| && parties[i].name == name && id in parties[i].requests
      && forall j :: 0 <= j < i ==> parties[j].name != name
  }

  lemma {:induction false} FindsFirst(parties: seq<Party>, name: string, id: string)
    ensures Requests(parties, name, id)
       <==> Find(parties, name).Some? && id in Find(parties, name).value.requests
  {
    if parties != [] && parties[0].name != name {
      var rest := parties[1..];
      FindsFirst(rest, name, id);
      if i :| 0 <= i < |parties| && parties[i].name == name && id in parties[i].requests
              && forall j :: 0 <= j < i ==> parties[j].name != name {
        assert rest[i - 1] == parties[i] && forall j :: 0 <= j < i - 1 ==> rest[j] == parties[j + 1];
        assert Requests(rest, name, id);
      }
      if i :| 0 <= i < |rest| && rest[i].name == name && id in rest[i].requests
              && forall j :: 0 <= j < i ==> rest[j].name != name {
        assert parties[i + 1] == rest[i] && forall j :: 0 < j < i + 1 ==> parties[j] == rest[j - 1];
      }
    }
  }

  /** Nothing marked sensitive is ever offered for delegation, and nothing else an agent asks for is withheld. */
  lemma AllowedExactly(c: Catalogue, agent: string, id: string)
    requires Valid(c)
    ensures id in Allowed(c, agent) <==> Requests(c.agents, agent, id) && !MarkedSensitive(c, id)
  {
    SensitiveExactly(c, id);
    FindsFirst(c.agents, agent, id);
    if Find(c.agents, agent).Some? {
      SieveHolds(c.capabilities, Find(c.agents, agent).value.requests, false, id);
    }
  }
}
