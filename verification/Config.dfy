/**
 The configuration document: what it may say, the defaults validation fills in,
 and the first-match registry lookups over it.
 */
module Config {
  import opened Wrappers
  import opened Schema
  import opened Text

  datatype AuthMode = UnsetMode | SessionMode | BearerMode | EitherMode | UnknownMode(text: string)

  datatype Consistency = UnsetConsistency | FullyConsistent | AtLeastAsFresh | UnsupportedConsistency(text: string)

  /** `principal`, `literal:<id>` or `path:<param>`. */
  datatype IdSource =
    | FromPrincipal
    | FromLiteral(id: string)
    | FromPath(param: string)
    | UnsupportedSource(text: string)

  datatype App = App(name: string, clientSecret: string, hosts: seq<string>, firstParty: bool)

  datatype AgentEntry = AgentEntry(name: string, objectId: string, workload: string)

  datatype Rule = Rule(
    id: string,
    hosts: seq<string>,
    methods: seq<string>,
    path: string,
    isPublic: bool,
    authenticatedOnly: bool,
    resourceType: ObjectType,
    resourceId: IdSource,
    permission: Permission,
    capability: string,
    consentRequired: bool,
    stepUp: bool,
    stepUpMinAcr: int,
    authMode: AuthMode,
    consistency: Consistency,
    callers: seq<string>)

  datatype Cookie = Cookie(name: string, ttl: int, pendingTtl: int)

  datatype Config = Config(
    issuerExternal: string,
    issuerInternal: string,
    cookie: Cookie,
    endpoint: string,
    timeout: int,
    applications: seq<App>,
    systemPrincipals: map<string, string>,
    agents: seq<AgentEntry>,
    defaultAction: string,
    rules: seq<Rule>)

  /** Durations are nanoseconds. */
  const SECOND: int := 1_000_000_000
  const MINUTE: int := 60 * SECOND
  const HOUR: int := 60 * MINUTE

  // ---- lookups: the first entry that matches ---------------------------------

  function AgentByWorkload(agents: seq<AgentEntry>, spiffeId: string): (r: Option<AgentEntry>)
    ensures r.None? <==> spiffeId == "" || forall i :: 0 <= i < |agents| ==> agents[i].workload != spiffeId
    ensures r.Some? ==>
              exists i :: 0 <= i < |agents| && agents[i] == r.value && agents[i].workload == spiffeId
                && forall j :: 0 <= j < i ==> agents[j].workload != spiffeId
  {
    if spiffeId == "" || agents == [] then None
    else if agents[0].workload == spiffeId then Some(agents[0])
    else
      var r := AgentByWorkload(agents[1..], spiffeId);
      assert forall i :: 0 < i < |agents| ==> agents[i] == agents[1..][i - 1];
      r
  }

  function AgentByClient(agents: seq<AgentEntry>, clientId: string): (r: Option<AgentEntry>)
    ensures r.None? <==> forall i :: 0 <= i < |agents| ==> agents[i].name != clientId
    ensures r.Some? ==>
              exists i :: 0 <= i < |agents| && agents[i] == r.value && agents[i].name == clientId
                && forall j :: 0 <= j < i ==> agents[j].name != clientId
  {
    if agents == [] then None
    else if agents[0].name == clientId then Some(agents[0])
    else
      var r := AgentByClient(agents[1..], clientId);
      assert forall i :: 0 < i < |agents| ==> agents[i] == agents[1..][i - 1];
      r
  }

  function AppByName(apps: seq<App>, name: string): (r: Option<App>)
    ensures r.None? <==> forall i :: 0 <= i < |apps| ==> apps[i].name != name
    ensures r.Some? ==>
              exists i :: 0 <= i < |apps| && apps[i] == r.value && apps[i].name == name
                && forall j :: 0 <= j < i ==> apps[j].name != name
  {
    if apps == [] then None
    else if apps[0].name == name then Some(apps[0])
    else
      var r := AppByName(apps[1..], name);
      assert forall i :: 0 < i < |apps| ==> apps[i] == apps[1..][i - 1];
      r
  }

  /** Case and port are ignored; the first application listing the host serves it. */
  function HostOnly(host: string): string {
    Split(host, ':')[0]
  }

  predicate ListsHost(app: App, host: string) {
    exists h :: h in app.hosts && ToLower(h) == ToLower(HostOnly(host))
  }

  function AppForHost(apps: seq<App>, host: string): (r: Option<App>)
    ensures r.None? <==> forall i :: 0 <= i < |apps| ==> !ListsHost(apps[i], host)
    ensures r.Some? ==>
              exists i :: 0 <= i < |apps| && apps[i] == r.value && ListsHost(apps[i], host)
                && forall j :: 0 <= j < i ==> !ListsHost(apps[j], host)
  {
    if apps == [] then None
    else if ListsHost(apps[0], host) then Some(apps[0])
    else
      var r := AppForHost(apps[1..], host);
      assert forall i :: 0 < i < |apps| ==> apps[i] == apps[1..][i - 1];
      r
  }

  // ---- validation --------------------------------------------------------------

  /** A rule that asks the permission backend a question. */
  predicate ResourceChecked(r: Rule) {
    !r.isPublic && !r.authenticatedOnly
  }

  function RuleDefaults(r: Rule): Rule {
    var r := if r.authMode == UnsetMode then r.(authMode := EitherMode) else r;
    var r := if r.consistency == UnsetConsistency then r.(consistency := AtLeastAsFresh) else r;
    if ResourceChecked(r) && r.stepUp && r.stepUpMinAcr == 0 then r.(stepUpMinAcr := 1) else r
  }

  predicate RuleValid(r: Rule) {
    && r.id != ""
    && HasPrefix(r.path, "/")
    && !r.authMode.UnknownMode?
    && !r.consistency.UnsupportedConsistency?
    && !(r.isPublic && r.authenticatedOnly)
    && (if !ResourceChecked(r) then
          r.resourceType == UndefinedType("") && r.permission == UndefinedPermission("") && !r.consentRequired
        else
          && r.resourceType != UndefinedType("")
          && r.permission != UndefinedPermission("")
          && !r.resourceId.UnsupportedSource?
          && (r.consentRequired || r.stepUp ==> r.capability != ""))
  }

  function CookieDefaults(c: Cookie): Cookie {
    var c := if c.ttl <= 0 then c.(ttl := 8 * HOUR) else c;
    if c.pendingTtl <= 0 then c.(pendingTtl := 10 * MINUTE) else c
  }

  function Normalised(c: Config): Config {
    c.(cookie := CookieDefaults(c.cookie),
       timeout := if c.timeout <= 0 then 3 * SECOND else c.timeout,
       rules := seq(|c.rules|, i requires 0 <= i < |c.rules| => RuleDefaults(c.rules[i])))
  }

  predicate AppValid(a: App) {
    a.name != "" && (a.hosts != [] || a.clientSecret != "")
  }

  /** Every host the applications list, in order. */
  function AllHosts(apps: seq<App>): seq<string> {
    if apps == [] then [] else AllHosts(apps[..|apps| - 1]) + apps[|apps| - 1].hosts
  }

  predicate NoRepeats(xs: seq<string>) {
    forall i, j :: 0 <= i < j < |xs| ==> xs[i] != xs[j]
  }

  ghost predicate IdsDistinct(rules: seq<Rule>) {
    forall i, j :: 0 <= i < j < |rules| ==> rules[i].id != rules[j].id
  }

  ghost predicate Valid(c: Config) {
    && c.issuerExternal != "" && c.issuerInternal != ""
    && c.defaultAction == "DENY"
    && c.cookie.name != ""
    && c.endpoint != ""
    && c.rules != []
    && (forall i :: 0 <= i < |c.applications| ==> AppValid(c.applications[i]))
    && NoRepeats(AllHosts(c.applications))  // no host is claimed twice
    && (forall i :: 0 <= i < |c.rules| ==> RuleValid(c.rules[i]))
    && IdsDistinct(c.rules)
  }

  lemma {:induction false} HostsOfPrefix(apps: seq<App>, n: nat)
    requires n <= |apps|
    ensures AllHosts(apps[..n]) <= AllHosts(apps)
  {
    if n < |apps| {
      HostsOfPrefix(apps[..|apps| - 1], n);
      assert apps[..|apps| - 1][..n] == apps[..n];
    } else {
      assert apps[..n] == apps;
    }
  }

  /** A decoded document; validation writes defaults into it. */
  class Document {
    var config: Config

    constructor (config: Config)
      ensures this.config == config
    {
      this.config := config;
    }

    method Validate() returns (ok: bool)
      modifies this
      ensures ok <==> Valid(old(config))
      ensures ok ==> config == Normalised(old(config))
    {
      ghost var given := config;
      if config.issuerExternal == "" || config.issuerInternal == "" || config.defaultAction != "DENY"
         || config.cookie.name == "" {
        return false;
      }
      if config.cookie.ttl <= 0 {
        config := config.(cookie := config.cookie.(ttl := 8 * HOUR));
      }
      if config.cookie.pendingTtl <= 0 {
        config := config.(cookie := config.cookie.(pendingTtl := 10 * MINUTE));
      }
      if config.endpoint == "" {
        return false;
      }
      if config.timeout <= 0 {
        config := config.(timeout := 3 * SECOND);
      }
      if config.rules == [] {
        return false;
      }
      var appsOk := ValidateApplications(config.applications);
      if !appsOk {
        return false;
      }
      var rulesOk, rules := ValidateRules(config.rules);
      if !rulesOk {
        return false;
      }
      config := config.(rules := rules);
      return true;
    }
  }

  /** Claims one application's hosts; fails on a host already claimed. */
  method ClaimHosts(ghost seen: seq<string>, a: App, claimed: map<string, string>)
    returns (ok: bool, hostToApp: map<string, string>)
    requires NoRepeats(seen)
    requires forall h :: h in claimed <==> h in seen
    ensures ok <==> NoRepeats(seen + a.hosts)
    ensures ok ==> forall h :: h in hostToApp <==> h in seen + a.hosts
  {
    hostToApp := claimed;
    ghost var all := seen + a.hosts;
    for j := 0 to |a.hosts|
      invariant NoRepeats(all[..|seen| + j])
      invariant forall h :: h in hostToApp <==> h in all[..|seen| + j]
    {
      var h := a.hosts[j];
      ghost var n := |seen| + j;
      assert all[n] == h;
      if h in hostToApp {
        assert h in all[..n];
        return false, hostToApp;
      }
      assert all[..n + 1] == all[..n] + [h];
      hostToApp := hostToApp[h := a.name];
    }
    assert all[..|all|] == all;
    return true, hostToApp;
  }

  method ValidateApplications(apps: seq<App>) returns (ok: bool)
    ensures ok <==> (forall i :: 0 <= i < |apps| ==> AppValid(apps[i])) && NoRepeats(AllHosts(apps))
  {
    var hostToApp: map<string, string> := map[];
    for i := 0 to |apps|
      invariant forall a :: 0 <= a < i ==> AppValid(apps[a])
      invariant NoRepeats(AllHosts(apps[..i]))
      invariant forall h :: h in hostToApp <==> h in AllHosts(apps[..i])
    {
      var a := apps[i];
      if a.name == "" || (a.hosts == [] && a.clientSecret == "") {
        return false;
      }
      assert apps[..i + 1][..i] == apps[..i];
      HostsOfPrefix(apps, i + 1);
      ok, hostToApp := ClaimHosts(AllHosts(apps[..i]), a, hostToApp);
      if !ok {
        return false;
      }
    }
    assert apps[..|apps|] == apps;
    return true;
  }

  /** One rule of the loop: its defaults, or its refusal. */
  method ValidateRule(given: Rule) returns (ok: bool, r: Rule)
    ensures ok <==> RuleValid(given)
    ensures ok ==> r == RuleDefaults(given)
  {
    r := given;
    if r.id == "" || !HasPrefix(r.path, "/") {
      return false, r;
    }
    if r.authMode == UnsetMode {
      r := r.(authMode := EitherMode);
    }
    if r.authMode.UnknownMode? {
      return false, r;
    }
    if r.consistency == UnsetConsistency {
      r := r.(consistency := AtLeastAsFresh);
    }
    if r.consistency.UnsupportedConsistency? || (r.isPublic && r.authenticatedOnly) {
      return false, r;
    }
    if r.isPublic || r.authenticatedOnly {
      ok := r.resourceType == UndefinedType("") && r.permission == UndefinedPermission("") && !r.consentRequired;
      return ok, r;
    }
    if r.resourceType == UndefinedType("") || r.permission == UndefinedPermission("")
       || r.resourceId.UnsupportedSource? || (r.consentRequired && r.capability == "") {
      return false, r;
    }
    if r.stepUp {
      if r.capability == "" {
        return false, r;
      }
      if r.stepUpMinAcr == 0 {
        r := r.(stepUpMinAcr := 1);
      }
    }
    return true, r;
  }

  method ValidateRules(given: seq<Rule>) returns (ok: bool, rules: seq<Rule>)
    ensures ok <==> (forall i :: 0 <= i < |given| ==> RuleValid(given[i])) && IdsDistinct(given)
    ensures ok ==> |rules| == |given| && forall i :: 0 <= i < |given| ==> rules[i] == RuleDefaults(given[i])
  {
    rules := given;
    var seen: set<string> := {};
    for i := 0 to |given|
      invariant |rules| == |given|
      invariant forall k :: 0 <= k < i ==> RuleValid(given[k]) && rules[k] == RuleDefaults(given[k])
      invariant forall k :: i <= k < |given| ==> rules[k] == given[k]
      invariant forall a, b :: 0 <= a < b < i ==> given[a].id != given[b].id
      invariant forall k :: 0 <= k < i ==> given[k].id in seen
      invariant forall id :: id in seen ==> exists k :: 0 <= k < i && given[k].id == id
    {
      if rules[i].id in seen {
        return false, rules;
      }
      var valid, r := ValidateRule(rules[i]);
      if !valid {
        return false, rules;
      }
      seen := seen + {r.id};
      rules := rules[i := r];
    }
    return true, rules;
  }

  /** Validating what validation produced changes nothing and still succeeds. */
  lemma NormalisedIsFixpoint(c: Config)
    requires Valid(c)
    ensures Valid(Normalised(c)) && Normalised(Normalised(c)) == Normalised(c)
  {
    var n := Normalised(c);
    assert forall i :: 0 <= i < |c.rules| ==> n.rules[i] == RuleDefaults(c.rules[i]);
    assert Normalised(n).rules == n.rules;
  }

  /** The rule as given, with a mode, a consistency and, where it is looked at, a minimum level filled in. */
  ghost predicate Filled(given: Rule, r: Rule) {
    && r.authMode == (if given.authMode.UnsetMode? then EitherMode else given.authMode)
    && r.consistency == (if given.consistency.UnsetConsistency? then AtLeastAsFresh else given.consistency)
    && r.stepUpMinAcr
       == (if !given.isPublic && !given.authenticatedOnly && given.stepUp && given.stepUpMinAcr == 0 then 1
           else given.stepUpMinAcr)
    && r == given.(authMode := r.authMode, consistency := r.consistency, stepUpMinAcr := r.stepUpMinAcr)
  }

  /** What the document did not say is filled in with these values, and what it said stands. */
  lemma DefaultsAre(c: Config)
    ensures var n := Normalised(c);
            && n.cookie.ttl == (if c.cookie.ttl > 0 then c.cookie.ttl else 28_800_000_000_000)
            && n.cookie.pendingTtl == (if c.cookie.pendingTtl > 0 then c.cookie.pendingTtl else 600_000_000_000)
            && n.timeout == (if c.timeout > 0 then c.timeout else 3_000_000_000)
            && |n.rules| == |c.rules|
            && (forall i :: 0 <= i < |c.rules| ==> Filled(c.rules[i], n.rules[i]))
            && n == c.(cookie := Cookie(c.cookie.name, n.cookie.ttl, n.cookie.pendingTtl),
                       timeout := n.timeout, rules := n.rules)
  {
    var n := Normalised(c);
    assert forall i :: 0 <= i < |c.rules| ==> n.rules[i] == RuleDefaults(c.rules[i]);
  }

  /** What everything else may rely on: positive durations, names, and rules that leave nothing open. */
  ghost predicate Complete(c: Config) {
    && c.cookie.ttl > 0 && c.cookie.pendingTtl > 0 && c.timeout > 0
    && c.cookie.name != "" && c.defaultAction == "DENY" && c.rules != []
    && (forall i :: 0 <= i < |c.applications| ==> c.applications[i].name != "")
    && forall i :: 0 <= i < |c.rules| ==> FullyStated(c.rules[i])
  }

  /** A name, a path from the root, one purpose, a mode, a consistency, and a minimum where it is looked at. */
  predicate FullyStated(r: Rule) {
    && r.id != "" && r.path != "" && r.path[0] == '/'
    && !(r.isPublic && r.authenticatedOnly)
    && (r.isPublic || r.authenticatedOnly ==> !r.consentRequired)
    && r.authMode in {SessionMode, BearerMode, EitherMode}
    && r.consistency in {FullyConsistent, AtLeastAsFresh}
    && (ResourceChecked(r) && r.stepUp ==> r.stepUpMinAcr != 0)
  }

  lemma DefaultsStateAll(r: Rule)
    requires RuleValid(r)
    ensures FullyStated(RuleDefaults(r))
  {
  }

  lemma NormalisedIsComplete(c: Config)
    requires Valid(c)
    ensures Complete(Normalised(c))
  {
    var n := Normalised(c);
    forall i | 0 <= i < |n.rules| ensures FullyStated(n.rules[i]) {
      DefaultsStateAll(c.rules[i]);
      assert n.rules[i] == RuleDefaults(c.rules[i]);
    }
  }
}
