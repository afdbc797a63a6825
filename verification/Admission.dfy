/**
 Which people, system principals and agents a rule can let in at all, read off the
 configuration; and what a person's authentication level decides.
 */
module Admission {
  import opened Wrappers
  import opened Text
  import opened Schema
  import opened Store
  import opened Config
  import opened Routes
  import opened Specificity
  import opened TableOrder
  import opened Sessions
  import opened Decision
  import opened Policy
  import opened Authority
  import opened Probes

  /** Every relationship has the subject its definition declares, as the schema enforces. */
  ghost predicate WellTyped(db: Relationships) {
    forall t :: t in db ==> Declares(t.resource.kind, t.relation) == Some(t.subject.kind)
  }

  predicate LetIn(cfg: Config, table: seq<Compiled>, r: HttpRequest, w: World) {
    var ruling := Decide(cfg, table, r, w).0;
    ruling.Answered? && ruling.response.Permit?
  }

  predicate Endpoint(r: HttpRequest) {
    PathOnly(r.path) == CALLBACK || PathOnly(r.path) == LOGOUT
  }

  /** The verified caller `id` makes a request that `c` answers, against this store. */
  ghost predicate Arrives(
    cfg: Config, table: seq<Compiled>, c: Compiled, r: HttpRequest, w: World, db: Relationships, id: Identity)
  {
    && AnsweredBy(table, r, c)
    && Authenticated(cfg, r, c.rule.authMode, w, id)
    && WellTyped(db)
    && AnswersBy(w, c.rule.consistency == FullyConsistent, StoreAnswers(Live(db, w.now)))
  }

  ghost predicate Welcome(cfg: Config, c: Compiled, r: HttpRequest, id: Identity, live: set<Tuple>)
    requires Serves(c, Asked(r))
  {
    || c.rule.isPublic
    || (&& BoundTo(cfg, r.source, id)
        && (c.rule.callers == [] || r.source in c.rule.callers)
        && (c.rule.authenticatedOnly || Entitled(cfg, c, r, id, live)))
  }

  /** Somebody the policy allows, if the rule is not open to everybody. */
  ghost predicate AllowedSomebody(cfg: Config, c: Compiled, r: HttpRequest, w: World)
    requires Serves(c, Asked(r))
  {
    c.rule.isPublic || exists id :: IdentityAllowed(cfg, c, r, id, w)
  }

  lemma LetInByPolicy(cfg: Config, table: seq<Compiled>, c: Compiled, r: HttpRequest, w: World)
    requires Compiles(cfg.rules, table) && AnsweredBy(table, r, c)
    ensures LetIn(cfg, table, r, w) <==> !Endpoint(r) && AllowedSomebody(cfg, c, r, w)
  {
    if LetIn(cfg, table, r, w) {
      var headers := Decide(cfg, table, r, w).0.response.headers;
      PermitsExactlyPolicy(cfg, table, r, w, headers);
      AllowsByAnswer(cfg, table, r, w, headers);
    }
    if !Endpoint(r) && c.rule.isPublic {
      PermitsExactlyPolicy(cfg, table, r, w, map[]);
      AllowsByAnswer(cfg, table, r, w, map[]);
    } else if !Endpoint(r) {
      if id :| IdentityAllowed(cfg, c, r, id, w) {
        IdentityPermits(cfg, table, r, w, c, id);
      }
    }
  }

  /** The caller is the one its token names. */
  lemma OneCaller(cfg: Config, r: HttpRequest, mode: AuthMode, w: World, id: Identity, other: Identity)
    requires Authenticated(cfg, r, mode, w, id) && Authenticated(cfg, r, mode, w, other)
    ensures id == other
  {
    IdentifyKnows(cfg, r, mode, w, id);
    IdentifyKnows(cfg, r, mode, w, other);
  }

  lemma AllowedIsWelcome(
    cfg: Config, table: seq<Compiled>, c: Compiled, r: HttpRequest, w: World, db: Relationships, id: Identity)
    requires Arrives(cfg, table, c, r, w, db, id)
    ensures AllowedSomebody(cfg, c, r, w) <==> Welcome(cfg, c, r, id, Live(db, w.now))
  {
    if !c.rule.isPublic {
      if ResourceChecked(c.rule) {
        EntitledIsAllowed(cfg, c, r, w, id, Live(db, w.now));
      }
      assert IdentityAllowed(cfg, c, r, id, w) <==> Welcome(cfg, c, r, id, Live(db, w.now));
      if other :| IdentityAllowed(cfg, c, r, other, w) {
        OneCaller(cfg, r, c.rule.authMode, w, id, other);
      }
    }
  }

  /** A verified caller is let in exactly when welcome. */
  lemma WelcomeExactly(
    cfg: Config, table: seq<Compiled>, c: Compiled, r: HttpRequest, w: World, db: Relationships, id: Identity)
    requires Compiles(cfg.rules, table) && Arrives(cfg, table, c, r, w, db, id)
    ensures LetIn(cfg, table, r, w) <==> !Endpoint(r) && Welcome(cfg, c, r, id, Live(db, w.now))
  {
    LetInByPolicy(cfg, table, c, r, w);
    AllowedIsWelcome(cfg, table, c, r, w, db, id);
  }

  // ---- the authentication level -------------------------------------------------------------

  /** The same world, with this authentication level in every token. */
  function AtLevel(w: World, level: int): World {
    w.(verify := raw => if w.verify(raw).Some? then Some(w.verify(raw).value.(acr := level)) else None)
  }

  lemma LevelKeepsCaller(cfg: Config, r: HttpRequest, mode: AuthMode, w: World, id: Identity, level: int)
    requires Authenticated(cfg, r, mode, w, id) && id.kind == Human
    ensures Authenticated(cfg, r, mode, AtLevel(w, level), id.(acr := level))
  {
    assert Presents(cfg, r, mode, AtLevel(w, level), id.token);
  }

  /**
   Two runs that differ in a person's authentication level alone: if the first is let in,
   the second is exactly when the rule does not look at the level or the level suffices.
   */
  lemma LevelDecidesExactly(
    cfg: Config, table: seq<Compiled>, c: Compiled, r: HttpRequest, w: World,
    db: Relationships, id: Identity, level: int)
    requires Compiles(cfg.rules, table) && Arrives(cfg, table, c, r, w, db, id) && id.kind == Human
    requires LetIn(cfg, table, r, w)
    ensures Arrives(cfg, table, c, r, AtLevel(w, level), db, id.(acr := level))
    ensures LetIn(cfg, table, r, AtLevel(w, level))
       <==> !ResourceChecked(c.rule) || !c.rule.stepUp || level >= c.rule.stepUpMinAcr
  {
    var v, me := AtLevel(w, level), id.(acr := level);
    LevelKeepsCaller(cfg, r, c.rule.authMode, w, id, level);
    WelcomeExactly(cfg, table, c, r, w, db, id);
    WelcomeExactly(cfg, table, c, r, v, db, me);
    LevelWelcome(cfg, c, r, id, level, Live(db, w.now));
  }

  lemma LevelWelcome(cfg: Config, c: Compiled, r: HttpRequest, id: Identity, level: int, live: set<Tuple>)
    requires Serves(c, Asked(r)) && Welcome(cfg, c, r, id, live) && id.kind == Human
    ensures Welcome(cfg, c, r, id.(acr := level), live)
       <==> !ResourceChecked(c.rule) || !c.rule.stepUp || level >= c.rule.stepUpMinAcr
  {
    assert BoundTo(cfg, r.source, id) ==> BoundTo(cfg, r.source, id.(acr := level));
    if ResourceChecked(c.rule) {
      LevelKeepsEntitlement(cfg, c, r, id, level, live);
    }
  }

  lemma LevelKeepsEntitlement(cfg: Config, c: Compiled, r: HttpRequest, id: Identity, level: int, live: set<Tuple>)
    requires Serves(c, Asked(r)) && Entitled(cfg, c, r, id, live) && id.kind == Human
    ensures Entitled(cfg, c, r, id.(acr := level), live) <==> StepUpSatisfied(c.rule, id.(acr := level))
  {
    var me, resource := id.(acr := level), ResolveResource(c.rule, ParamsOf(c, Asked(r)), id.subject).value;
    assert BoundTo(cfg, r.source, me);
    forall q | MustAsk(cfg, c.rule, resource, me, q) ensures AnswersYes(live, q) {
      assert MustAsk(cfg, c.rule, resource, id, q);
    }
  }

  // ---- which callers a rule lets in -------------------------------------------------------------

  /** Some caller of this kind, under some token, session and store, gets through the rule. */
  ghost predicate Admits(cfg: Config, table: seq<Compiled>, c: Compiled, kind: Kind) {
    exists r, w, db, id :: Arrives(cfg, table, c, r, w, db, id) && id.kind == kind && LetIn(cfg, table, r, w)
  }

  ghost predicate AnswersTo(table: seq<Compiled>, c: Compiled, q: Request) {
    && Serves(c, q)
    && Answer(table, q).Some? && Answer(table, q).value.0 == c
    && PathOnly(q.path) != CALLBACK && PathOnly(q.path) != LOGOUT
  }

  /** A token of this application is a person's. */
  predicate PeoplesApp(cfg: Config, app: string) {
    && AppByName(cfg.applications, app).Some?
    && AgentByClient(cfg.agents, app).None?
    && app !in cfg.systemPrincipals
  }

  /** A token of this client is a system principal's. */
  predicate SystemClient(cfg: Config, client: string) {
    client in cfg.systemPrincipals && AgentByClient(cfg.agents, client).None?
  }

  /** A cookie header can carry a cookie of this name. */
  predicate CookieName(name: string) {
    ';' !in name && '=' !in name && (name != "" ==> name[0] !in BLANKS)
  }

  /** Some workload that runs no agent may call. */
  ghost predicate TakesCallers(cfg: Config, rule: Rule) {
    rule.callers == [] || exists i :: 0 <= i < |rule.callers| && AgentByWorkload(cfg.agents, rule.callers[i]).None?
  }

  /** The binding lets this workload present this agent. */
  predicate MayPresent(cfg: Config, source: string, a: AgentEntry) {
    match AgentByWorkload(cfg.agents, source)
    case Some(bound) => bound.objectId == a.objectId
    case None => a.workload == ""
  }

  /** Some workload that may call may present the agent. */
  ghost predicate TakesAgent(cfg: Config, rule: Rule, a: AgentEntry) {
    if rule.callers == [] then
      a.workload == "" || exists i :: 0 <= i < |cfg.agents| && MayPresent(cfg, cfg.agents[i].workload, a)
    else
      exists i :: 0 <= i < |rule.callers| && MayPresent(cfg, rule.callers[i], a)
  }

  /** The rule finds its resource in every request it answers. */
  ghost predicate Resolvable(c: Compiled) {
    match c.rule.resourceId
    case FromPath(name) => Param(name) in c.segments
    case UnsupportedSource(_) => false
    case _ => true
  }

  /** A relation that gives a person this permission. */
  function PersonRelation(kind: ObjectType, permission: Permission): Option<Relation> {
    match (kind, permission)
    case (SystemPrincipal, Administrate) => Some(Operator)
    case (ConsentGrant, Revoke) => Some(Subject)
    case (UserProfile, View) => Some(Owner)
    case (UserProfile, Edit) => Some(Owner)
    case (Home, Administrate) => Some(Owner)
    case (Home, Operate) => Some(Owner)
    case (Home, View) => Some(Owner)
    case (Device, View) => Some(Operator)
    case (Device, Operate) => Some(Operator)
    case (Device, OperateLock) => Some(Operator)
    case (Agent, Administrate) => Some(Operator)
    case (Agent, ActFor) => Some(EnrolledFor)
    case (Delegation, Revoke) => Some(Delegator)
    case (_, Direct(relation)) => if Declares(kind, relation) == Some(User) then Some(relation) else None
    case _ => None
  }

  /** A relation that gives a system principal this permission. */
  function SystemRelation(kind: ObjectType, permission: Permission): Option<Relation> {
    match (kind, permission)
    case (Device, PushTelemetry) => Some(Self)
    case (_, Direct(relation)) => if Declares(kind, relation) == Some(SystemPrincipal) then Some(relation) else None
    case _ => None
  }

  /** A relation that gives such a subject this permission. */
  function GivingRelation(subject: ObjectType, kind: ObjectType, permission: Permission): Option<Relation> {
    if subject == SystemPrincipal then SystemRelation(kind, permission) else PersonRelation(kind, permission)
  }

  /** The rule answers a request, and its callers can present themselves. */
  ghost predicate FileOpens(cfg: Config, table: seq<Compiled>, c: Compiled) {
    Alive(table, c) && (c.rule.authMode == SessionMode ==> CookieName(cfg.cookie.name))
  }

  /** What the file must say for any person to get through the rule. */
  ghost predicate FileAdmitsPeople(cfg: Config, table: seq<Compiled>, c: Compiled) {
    && FileOpens(cfg, table, c)
    && (exists app :: PeoplesApp(cfg, app))
    && (!c.rule.isPublic ==> TakesCallers(cfg, c.rule))
    && (ResourceChecked(c.rule) ==> Resolvable(c) && PersonRelation(c.rule.resourceType, c.rule.permission).Some?)
  }

  /** And any system principal. */
  ghost predicate FileAdmitsSystems(cfg: Config, table: seq<Compiled>, c: Compiled) {
    && FileOpens(cfg, table, c)
    && (exists client :: SystemClient(cfg, client))
    && (!c.rule.isPublic ==> TakesCallers(cfg, c.rule))
    && (ResourceChecked(c.rule) ==>
          !c.rule.stepUp && Resolvable(c) && SystemRelation(c.rule.resourceType, c.rule.permission).Some?)
  }

  /** And any agent. */
  ghost predicate FileAdmitsAgents(cfg: Config, table: seq<Compiled>, c: Compiled) {
    && FileOpens(cfg, table, c)
    && (exists a :: Named(cfg, a) && (!c.rule.isPublic ==> TakesAgent(cfg, c.rule, a)))
    && (ResourceChecked(c.rule) ==>
          !c.rule.stepUp && Resolvable(c) && PersonRelation(c.rule.resourceType, c.rule.permission).Some?)
  }

  lemma RelationGives(o: Object, permission: Permission, who: Object, live: set<Tuple>)
    requires who.kind in {User, SystemPrincipal} && GivingRelation(who.kind, o.kind, permission).Some?
    requires Tuple(o, GivingRelation(who.kind, o.kind, permission).value, who) in live
    ensures AnswersYes(live, Query(o, permission, who))
    ensures Declares(o.kind, GivingRelation(who.kind, o.kind, permission).value) == Some(who.kind)
  {
  }

  lemma HeldByRelation(o: Object, permission: Permission, who: Object, db: Relationships, now: int)
    requires WellTyped(db) && who.kind in {User, SystemPrincipal}
    requires AnswersYes(Live(db, now), Query(o, permission, who))
    ensures GivingRelation(who.kind, o.kind, permission).Some?
  {
  }

  /** Every extracted value is the part of some parameter of that name. */
  lemma {:induction false} ExtractedFrom(segments: seq<Segment>, parts: seq<string>, name: string) returns (i: nat)
    requires |segments| <= |parts| && name in Extract(segments, parts)
    ensures i < |segments| && segments[i] == Param(name) && Extract(segments, parts)[name] == parts[i]
  {
    var n := |segments| - 1;
    if segments[n] == Param(name) {
      i := n;
    } else {
      i := ExtractedFrom(segments[..n], parts, name);
    }
  }

  /** The last parameter of this name stands at `i`. */
  ghost predicate LastNamed(segments: seq<Segment>, name: string, i: int) {
    0 <= i < |segments| && segments[i] == Param(name) && forall j :: i < j < |segments| ==> segments[j] != Param(name)
  }

  lemma {:induction false} LastNamedExtracted(segments: seq<Segment>, parts: seq<string>, name: string, i: int)
    requires |segments| <= |parts| && LastNamed(segments, name, i)
    ensures name in Extract(segments, parts) && Extract(segments, parts)[name] == parts[i]
  {
    var n := |segments| - 1;
    if i < n {
      LastNamedExtracted(segments[..n], parts, name, i);
    }
  }

  lemma {:induction false} LastOfName(segments: seq<Segment>, name: string, i: nat) returns (last: nat)
    requires i < |segments| && segments[i] == Param(name)
    ensures LastNamed(segments, name, last)
  {
    var n := |segments| - 1;
    if segments[n] == Param(name) {
      last := n;
    } else {
      last := LastOfName(segments[..n], name, i);
    }
  }

  /** What the rule says its resource is, in this request: the caller itself, an id, or a part of the path. */
  ghost predicate Names(c: Compiled, q: Request, subject: string, resource: string)
    requires Serves(c, q)
  {
    match c.rule.resourceId
    case FromPrincipal => resource == subject
    case FromLiteral(id) => resource == id
    case FromPath(name) =>
      exists i :: LastNamed(c.segments, name, i) && resource == SplitPath(PathOnly(q.path))[i]
    case UnsupportedSource(_) => false
  }

  /** And that is the one the request is about. */
  lemma ResourceNamedExactly(c: Compiled, q: Request, subject: string, resource: string)
    requires Serves(c, q)
    ensures ResolveResource(c.rule, ParamsOf(c, q), subject) == Some(resource) <==> Names(c, q, subject, resource)
  {
    if c.rule.resourceId.FromPath? {
      var name, parts := c.rule.resourceId.param, SplitPath(PathOnly(q.path));
      RequestPartsClean(q.path);
      if name in ParamsOf(c, q) {
        var i := ExtractedFrom(c.segments, parts, name);
        var last := LastOfName(c.segments, name, i);
        LastNamedExtracted(c.segments, parts, name, last);
      }
      if i :| LastNamed(c.segments, name, i) && resource == parts[i] {
        LastNamedExtracted(c.segments, parts, name, i);
        assert Clean(parts[i]);
      }
    }
  }

  lemma {:induction false} ParamExtracted(segments: seq<Segment>, parts: seq<string>, i: nat)
    requires |segments| <= |parts| && i < |segments| && segments[i].Param?
    ensures segments[i].name in Extract(segments, parts)
  {
    if i < |segments| - 1 {
      ParamExtracted(segments[..|segments| - 1], parts, i);
    }
  }

  lemma ExtractsExactly(segments: seq<Segment>, parts: seq<string>, name: string)
    requires |segments| <= |parts| && AllClean(parts)
    ensures name in Extract(segments, parts) && Extract(segments, parts)[name] != "" <==> Param(name) in segments
  {
    if name in Extract(segments, parts) {
      var i := ExtractedFrom(segments, parts, name);
      assert Clean(parts[i]);
    }
    if Param(name) in segments {
      var i :| 0 <= i < |segments| && segments[i] == Param(name);
      ParamExtracted(segments, parts, i);
    }
  }

  /** The resource is found in every request of the rule or in none. */
  lemma ResolvesExactly(c: Compiled, q: Request, subject: string)
    requires Serves(c, q)
    ensures ResolveResource(c.rule, ParamsOf(c, q), subject).Some? <==> Resolvable(c)
  {
    if c.rule.resourceId.FromPath? {
      var name, parts := c.rule.resourceId.param, SplitPath(PathOnly(q.path));
      RequestPartsClean(q.path);
      ExtractsExactly(c.segments, parts, name);
    }
  }

  // ---- headers that carry a token or a session ------------------------------------------------

  /** Text that trimming leaves alone. */
  predicate Trimmed(s: string) {
    s != "" && s[0] !in BLANKS && s[|s| - 1] !in BLANKS
  }

  /** The scheme is read in any letter case. */
  lemma BearerRead(r: HttpRequest, scheme: string, token: string)
    requires Trimmed(token) && HeaderOf(r, "authorization") == scheme + token && ToLower(scheme) == "bearer "
    ensures Bearer(r) == token
  {
    var v := HeaderOf(r, "authorization");
    assert |scheme| == |ToLower(scheme)| == 7;
    assert v[..7] == scheme && v[7..] == token;
  }

  lemma BearerTokenRead(r: HttpRequest, token: string)
    requires Trimmed(token) && HeaderOf(r, "authorization") == "Bearer " + token
    ensures Bearer(r) == token
  {
    assert ToLower("Bearer ") == "bearer ";
    BearerRead(r, "Bearer ", token);
  }

  lemma {:induction false} AfterEqualsAt(name: string, value: string)
    requires '=' !in name
    ensures AfterEquals(name + "=" + value) == value
  {
    var part := name + "=" + value;
    if name == "" {
      assert part[1..] == value;
    } else {
      assert name[0] in name;
      AfterEqualsAt(name[1..], value);
      assert part[1..] == name[1..] + "=" + value;
    }
  }

  /** What is before the first stop is followed by a stop. */
  lemma {:induction false} UpToEnds(s: string, stop: char)
    requires stop in s
    ensures var head := UpTo(s, {stop}); |head| < |s| && s[|head|] == stop && s[..|head|] == head
  {
    if s[0] != stop {
      UpToEnds(s[1..], stop);
      assert s == [s[0]] + s[1..];
    }
  }

  lemma NamedPart(part: string, name: string, value: string)
    requires '=' !in name && part == name + "=" + value
    ensures '=' in part && UpTo(part, {'='}) == name && AfterEquals(part) == value
  {
    UpToStops(name, '=', value, {'='});
    UpToWhole(name, {'='});
    assert name + ['='] + value == part && part[|name|] == '=';
    AfterEqualsAt(name, value);
  }

  /** Of several cookies of one name the first counts. */
  lemma {:induction false} FirstCookieWins(parts: seq<string>, name: string, i: nat, value: string)
    requires '=' !in name && i < |parts| && Trim(parts[i], BLANKS) == name + "=" + value
    requires forall j :: 0 <= j < i ==> !HasPrefix(Trim(parts[j], BLANKS), name + "=")
    ensures CookieIn(parts, name) == value
  {
    var part := Trim(parts[0], BLANKS);
    if i == 0 {
      NamedPart(part, name, value);
    } else {
      if '=' in part {
        UpToEnds(part, '=');
        var head := UpTo(part, {'='});
        assert part[..|head| + 1] == head + "=";
      }
      assert forall j :: 0 <= j < i - 1 ==> parts[1..][j] == parts[j + 1];
      FirstCookieWins(parts[1..], name, i - 1, value);
    }
  }

  lemma CookieRead(cfg: Config, r: HttpRequest, sid: string)
    requires CookieName(cfg.cookie.name) && Trimmed(sid) && ';' !in sid
    requires HeaderOf(r, "cookie") == cfg.cookie.name + "=" + sid
    ensures SessionId(cfg, r) == sid
  {
    var part := cfg.cookie.name + "=" + sid;
    SplitWithout(part, ';');
    assert Trimmed(part);
    FirstCookieWins([part], cfg.cookie.name, 0, sid);
  }

  lemma {:induction false} UpToIsPrefix(s: string, stops: set<char>)
    ensures UpTo(s, stops) <= s
    ensures forall c :: c in stops ==> c !in UpTo(s, stops)
  {
    if s != "" && s[0] !in stops {
      UpToIsPrefix(s[1..], stops);
    }
  }

  lemma {:induction false} TrimLeftStarts(s: string, blanks: set<char>)
    ensures TrimLeft(s, blanks) == "" || TrimLeft(s, blanks)[0] !in blanks
    ensures forall c :: c in TrimLeft(s, blanks) ==> c in s
  {
    if s != "" && s[0] in blanks {
      TrimLeftStarts(s[1..], blanks);
    }
  }

  lemma {:induction false} TrimRightIsPrefix(s: string, blanks: set<char>)
    ensures TrimRight(s, blanks) <= s
  {
    if s != "" && s[|s| - 1] in blanks {
      TrimRightIsPrefix(s[..|s| - 1], blanks);
    }
  }

  /** Only a cookie name is ever found. */
  lemma {:induction false} FoundIsCookieName(parts: seq<string>, name: string)
    requires forall k :: 0 <= k < |parts| ==> ';' !in parts[k]
    requires CookieIn(parts, name) != ""
    ensures CookieName(name)
  {
    var left := TrimLeft(parts[0], BLANKS);
    var part := TrimRight(left, BLANKS);
    TrimLeftStarts(parts[0], BLANKS);
    TrimRightIsPrefix(left, BLANKS);
    UpToIsPrefix(part, {'='});
    if '=' in part && UpTo(part, {'='}) == name {
      assert forall c :: c in name ==> c in part && c in left;
      assert name != "" ==> name[0] == part[0] == left[0];
    } else {
      FoundIsCookieName(parts[1..], name);
    }
  }

  // ---- what a caller needs ------------------------------------------------------------------------

  /** Some workload that may call may present this caller. */
  ghost predicate Takes(cfg: Config, rule: Rule, id: Identity) {
    exists source :: TakesFrom(cfg, rule, source, id)
  }

  ghost predicate TakesFrom(cfg: Config, rule: Rule, source: string, id: Identity) {
    (rule.callers == [] || source in rule.callers) && BoundTo(cfg, source, id)
  }

  /** The rule, as written, has nothing against this caller. */
  ghost predicate Suits(cfg: Config, c: Compiled, id: Identity) {
    && (!c.rule.isPublic ==> Takes(cfg, c.rule, id))
    && (ResourceChecked(c.rule) ==>
          && StepUpSatisfied(c.rule, id) && Resolvable(c)
          && GivingRelation(SubjectOf(id).kind, c.rule.resourceType, c.rule.permission).Some?)
  }

  lemma WelcomeSuits(cfg: Config, c: Compiled, r: HttpRequest, id: Identity, db: Relationships, now: int)
    requires Serves(c, Asked(r)) && Welcome(cfg, c, r, id, Live(db, now)) && WellTyped(db)
    ensures Suits(cfg, c, id)
  {
    if !c.rule.isPublic {
      assert TakesFrom(cfg, c.rule, r.source, id);
    }
    if ResourceChecked(c.rule) {
      ResolvesExactly(c, Asked(r), id.subject);
      var o := Object(c.rule.resourceType, ResolveResource(c.rule, ParamsOf(c, Asked(r)), id.subject).value);
      assert MustAsk(cfg, c.rule, o.id, id, Query(o, c.rule.permission, SubjectOf(id)));
      HeldByRelation(o, c.rule.permission, SubjectOf(id), db, now);
    }
  }

  lemma AnsweringIsAlive(rules: seq<Rule>, table: seq<Compiled>, c: Compiled, r: HttpRequest)
    requires Compiles(rules, table) && AnsweredBy(table, r, c)
    ensures Alive(table, c)
  {
    AliveExactly(rules, table, c);
    assert Answer(table, Asked(r)).value.0 == c;
  }

  lemma PresentedByCookie(cfg: Config, r: HttpRequest, w: World, id: Identity)
    requires Authenticated(cfg, r, SessionMode, w, id)
    ensures CookieName(cfg.cookie.name)
  {
    FoundIsCookieName(Split(HeaderOf(r, "cookie"), ';'), cfg.cookie.name);
  }

  lemma AdmittedNeeds(
    cfg: Config, table: seq<Compiled>, c: Compiled, r: HttpRequest, w: World, db: Relationships, id: Identity)
    requires Compiles(cfg.rules, table) && Arrives(cfg, table, c, r, w, db, id) && LetIn(cfg, table, r, w)
    ensures FileOpens(cfg, table, c) && Suits(cfg, c, id)
  {
    WelcomeExactly(cfg, table, c, r, w, db, id);
    WelcomeSuits(cfg, c, r, id, db, w.now);
    AnsweringIsAlive(cfg.rules, table, c, r);
    if c.rule.authMode == SessionMode {
      PresentedByCookie(cfg, r, w, id);
    }
  }

  // ---- and that it is enough ------------------------------------------------------------------------

  /** A request for `q` that carries a token, or a session when only that will do. */
  function Knock(cfg: Config, c: Compiled, q: Request, source: string): HttpRequest {
    HttpRequest(q.verb, q.path, map[], q.host, "",
                if c.rule.authMode == SessionMode then map["cookie" := cfg.cookie.name + "=" + "s"]
                else map["authorization" := "Bearer " + "t"],
                source)
  }

  /** A verifier that knows one token, a store that holds one session, a backend that reads `db`. */
  function OneTokenWorld(client: string, level: int, db: Relationships): World {
    World(0, raw => if raw == "t" then Some(Claims("u", client, "", level)) else None,
          (_, _, _, _, _) => None, (_, _, _) => None, _ => None,
          sid => if sid == "s" then Some(OneSession(client)) else None, true, None,
          (full, queries) => Bulk(StoreAnswers(Live(db, 0)), queries))
  }

  function OneSession(app: string): Session {
    Session("s", app, true, "", "", "", "", "t", "", "", MINUTE, "u", "", 0, 0)
  }

  /** The caller that world's token names. */
  predicate Carried(cfg: Config, client: string, level: int, id: Identity) {
    FromClaims(cfg, Claims("u", client, "", level), "t") == Known(id)
  }

  function PersonOf(app: string, level: int): Identity {
    Identity(Human, "u", app, "", "t", "", level)
  }

  function AgentOf(a: AgentEntry, level: int): Identity {
    Identity(AgentActor, "u", a.name, "", "t", a.objectId, level)
  }

  function SystemOf(client: string, principal: string): Identity {
    Identity(System, principal, client, principal, "t", "", 0)
  }

  lemma KnockPresents(
    cfg: Config, c: Compiled, q: Request, source: string, client: string, level: int, db: Relationships)
    requires c.rule.authMode == SessionMode ==> CookieName(cfg.cookie.name)
    ensures Presents(cfg, Knock(cfg, c, q, source), c.rule.authMode, OneTokenWorld(client, level, db), "t")
  {
    var r := Knock(cfg, c, q, source);
    if c.rule.authMode == SessionMode {
      CookieRead(cfg, r, "s");
    } else {
      BearerTokenRead(r, "t");
    }
  }

  lemma KnockAuthenticates(
    cfg: Config, c: Compiled, q: Request, source: string, client: string, level: int, db: Relationships, id: Identity)
    requires c.rule.authMode == SessionMode ==> CookieName(cfg.cookie.name)
    requires Carried(cfg, client, level, id)
    ensures Authenticated(cfg, Knock(cfg, c, q, source), c.rule.authMode, OneTokenWorld(client, level, db), id)
  {
    KnockPresents(cfg, c, q, source, client, level, db);
  }

  /** A store in which the caller has whatever the backend may be asked about. */
  function GivenTo(c: Compiled, resource: string, id: Identity): Relationships
    requires GivingRelation(SubjectOf(id).kind, c.rule.resourceType, c.rule.permission).Some?
  {
    var relation := GivingRelation(SubjectOf(id).kind, c.rule.resourceType, c.rule.permission).value;
    map[Tuple(Object(c.rule.resourceType, resource), relation, SubjectOf(id)) := None,
        Edge(ConsentGrant, id.subject, id.application, c.rule.capability) := None,
        Tuple(Object(Agent, id.agent), EnrolledFor, Object(User, id.subject)) := None,
        Edge(Delegation, id.subject, id.agent, c.rule.capability) := None]
  }

  lemma GivenIsTyped(c: Compiled, resource: string, id: Identity)
    requires GivingRelation(SubjectOf(id).kind, c.rule.resourceType, c.rule.permission).Some?
    ensures WellTyped(GivenTo(c, resource, id))
    ensures AnswersYes(Live(GivenTo(c, resource, id), 0),
                       Query(Object(c.rule.resourceType, resource), c.rule.permission, SubjectOf(id)))
  {
    var db := GivenTo(c, resource, id);
    RelationGives(Object(c.rule.resourceType, resource), c.rule.permission, SubjectOf(id), Live(db, 0));
  }

  lemma GivenSuffices(cfg: Config, c: Compiled, r: HttpRequest, id: Identity)
    requires Serves(c, Asked(r)) && TakesFrom(cfg, c.rule, r.source, id)
    requires StepUpSatisfied(c.rule, id) && Resolvable(c)
    requires GivingRelation(SubjectOf(id).kind, c.rule.resourceType, c.rule.permission).Some?
    ensures ResolveResource(c.rule, ParamsOf(c, Asked(r)), id.subject).Some?
    ensures var db := GivenTo(c, ResolveResource(c.rule, ParamsOf(c, Asked(r)), id.subject).value, id);
            WellTyped(db) && Entitled(cfg, c, r, id, Live(db, 0))
  {
    ResolvesExactly(c, Asked(r), id.subject);
    var resource := ResolveResource(c.rule, ParamsOf(c, Asked(r)), id.subject).value;
    var db := GivenTo(c, resource, id);
    GivenIsTyped(c, resource, id);
    forall q | MustAsk(cfg, c.rule, resource, id, q) ensures AnswersYes(Live(db, 0), q) {
    }
  }

  lemma KnockIsLetIn(
    cfg: Config, table: seq<Compiled>, c: Compiled, q: Request, source: string,
    client: string, level: int, db: Relationships, id: Identity)
    requires Compiles(cfg.rules, table) && AnswersTo(table, c, q) && Carried(cfg, client, level, id)
    requires c.rule.authMode == SessionMode ==> CookieName(cfg.cookie.name)
    requires WellTyped(db) && Welcome(cfg, c, Knock(cfg, c, q, source), id, Live(db, 0))
    ensures var r, w := Knock(cfg, c, q, source), OneTokenWorld(client, level, db);
            Arrives(cfg, table, c, r, w, db, id) && LetIn(cfg, table, r, w)
  {
    var r, w := Knock(cfg, c, q, source), OneTokenWorld(client, level, db);
    KnockAuthenticates(cfg, c, q, source, client, level, db, id);
    assert Asked(r) == q;
    assert Arrives(cfg, table, c, r, w, db, id);
    WelcomeExactly(cfg, table, c, r, w, db, id);
  }

  lemma WelcomeGiven(cfg: Config, c: Compiled, r: HttpRequest, id: Identity) returns (db: Relationships)
    requires Serves(c, Asked(r)) && Suits(cfg, c, id) && (!c.rule.isPublic ==> TakesFrom(cfg, c.rule, r.source, id))
    ensures WellTyped(db) && Welcome(cfg, c, r, id, Live(db, 0))
  {
    db := map[];
    if ResourceChecked(c.rule) {
      GivenSuffices(cfg, c, r, id);
      db := GivenTo(c, ResolveResource(c.rule, ParamsOf(c, Asked(r)), id.subject).value, id);
    }
  }

  lemma AliveAnswers(rules: seq<Rule>, table: seq<Compiled>, c: Compiled) returns (q: Request)
    requires Compiles(rules, table) && Alive(table, c)
    ensures AnswersTo(table, c, q)
  {
    q :| q in ProbeRequests(table) && Answer(table, q).Some? && Answer(table, q).value.0 == c;
    ProbePath(table, q);
    MatchIsUniqueBest(rules, table, q);
  }

  /** A caller that a token can name, and that suits the rule, gets through it. */
  lemma SuitedIsAdmitted(cfg: Config, table: seq<Compiled>, c: Compiled, client: string, level: int, id: Identity)
    requires Compiles(cfg.rules, table) && FileOpens(cfg, table, c)
    requires Carried(cfg, client, level, id) && Suits(cfg, c, id)
    ensures Admits(cfg, table, c, id.kind)
  {
    var q := AliveAnswers(cfg.rules, table, c);
    var source := "";
    if !c.rule.isPublic {
      source :| TakesFrom(cfg, c.rule, source, id);
    }
    assert Asked(Knock(cfg, c, q, source)) == q;
    var db := WelcomeGiven(cfg, c, Knock(cfg, c, q, source), id);
    KnockIsLetIn(cfg, table, c, q, source, client, level, db, id);
  }

  // ---- read off the file -------------------------------------------------------------------------------

  /** Callers that are no agents need a workload that runs none. */
  lemma TakesOthersExactly(cfg: Config, rule: Rule, id: Identity)
    requires id.kind != AgentActor
    ensures Takes(cfg, rule, id) <==> TakesCallers(cfg, rule)
  {
    if source :| TakesFrom(cfg, rule, source, id) {
      assert AgentByWorkload(cfg.agents, source).None?;
      if rule.callers != [] {
        var i :| 0 <= i < |rule.callers| && rule.callers[i] == source;
      }
    }
    if TakesCallers(cfg, rule) {
      var source := "";
      if rule.callers != [] {
        var i :| 0 <= i < |rule.callers| && AgentByWorkload(cfg.agents, rule.callers[i]).None?;
        source := rule.callers[i];
      }
      assert TakesFrom(cfg, rule, source, id);
    }
  }

  lemma BoundIsPresented(cfg: Config, source: string, a: AgentEntry, id: Identity)
    requires AgentByClient(cfg.agents, id.application) == Some(a) && id.kind == AgentActor && id.agent == a.objectId
    ensures BoundTo(cfg, source, id) <==> MayPresent(cfg, source, a)
  {
  }

  lemma TakesAgentExactly(cfg: Config, rule: Rule, a: AgentEntry, id: Identity)
    requires AgentByClient(cfg.agents, id.application) == Some(a) && id.kind == AgentActor && id.agent == a.objectId
    ensures Takes(cfg, rule, id) <==> TakesAgent(cfg, rule, a)
  {
    if source :| TakesFrom(cfg, rule, source, id) {
      BoundIsPresented(cfg, source, a, id);
      PresentingTakes(cfg, rule, source, a);
    }
    if TakesAgent(cfg, rule, a) {
      var source := PresenterOf(cfg, rule, a);
      BoundIsPresented(cfg, source, a, id);
      assert TakesFrom(cfg, rule, source, id);
    }
  }

  lemma PresentingTakes(cfg: Config, rule: Rule, source: string, a: AgentEntry)
    requires MayPresent(cfg, source, a) && (rule.callers == [] || source in rule.callers)
    ensures TakesAgent(cfg, rule, a)
  {
    if rule.callers != [] {
      var i :| 0 <= i < |rule.callers| && rule.callers[i] == source;
    } else if AgentByWorkload(cfg.agents, source).Some? {
      var i :| 0 <= i < |cfg.agents| && cfg.agents[i].workload == source;
    }
  }

  lemma PresenterOf(cfg: Config, rule: Rule, a: AgentEntry) returns (source: string)
    requires TakesAgent(cfg, rule, a)
    ensures MayPresent(cfg, source, a) && (rule.callers == [] || source in rule.callers)
  {
    source := "";
    if rule.callers != [] {
      var i :| 0 <= i < |rule.callers| && MayPresent(cfg, rule.callers[i], a);
      source := rule.callers[i];
    } else if a.workload != "" {
      var i :| 0 <= i < |cfg.agents| && MayPresent(cfg, cfg.agents[i].workload, a);
      source := cfg.agents[i].workload;
    }
  }

  /** What a verified caller of each kind says about the registries. */
  lemma CallerIsRegistered(cfg: Config, r: HttpRequest, mode: AuthMode, w: World, id: Identity)
    requires Authenticated(cfg, r, mode, w, id)
    ensures id.kind == Human ==> PeoplesApp(cfg, id.application)
    ensures id.kind == System ==> SystemClient(cfg, id.application)
    ensures id.kind == AgentActor ==>
              exists a ::
                Named(cfg, a) && AgentByClient(cfg.agents, id.application) == Some(a) && id.agent == a.objectId
  {
    if id.kind == AgentActor {
      var a := AgentByClient(cfg.agents, id.application).value;
      assert Named(cfg, a);
    }
  }

  lemma AdmittedByFile(
    cfg: Config, table: seq<Compiled>, c: Compiled, r: HttpRequest, w: World, db: Relationships, id: Identity)
    requires Compiles(cfg.rules, table) && Arrives(cfg, table, c, r, w, db, id) && LetIn(cfg, table, r, w)
    ensures id.kind == Human ==> FileAdmitsPeople(cfg, table, c)
    ensures id.kind == System ==> FileAdmitsSystems(cfg, table, c)
    ensures id.kind == AgentActor ==> FileAdmitsAgents(cfg, table, c)
  {
    AdmittedNeeds(cfg, table, c, r, w, db, id);
    CallerIsRegistered(cfg, r, c.rule.authMode, w, id);
    if id.kind == AgentActor {
      var a :| Named(cfg, a) && AgentByClient(cfg.agents, id.application) == Some(a) && id.agent == a.objectId;
      TakesAgentExactly(cfg, c.rule, a, id);
      assert Named(cfg, a) && (!c.rule.isPublic ==> TakesAgent(cfg, c.rule, a));
    } else {
      TakesOthersExactly(cfg, c.rule, id);
    }
  }

  lemma AdmittingFile(cfg: Config, table: seq<Compiled>, c: Compiled, kind: Kind)
    requires Compiles(cfg.rules, table) && Admits(cfg, table, c, kind)
    ensures kind == Human ==> FileAdmitsPeople(cfg, table, c)
    ensures kind == System ==> FileAdmitsSystems(cfg, table, c)
    ensures kind == AgentActor ==> FileAdmitsAgents(cfg, table, c)
  {
    var r, w, db, id :| Arrives(cfg, table, c, r, w, db, id) && id.kind == kind && LetIn(cfg, table, r, w);
    AdmittedByFile(cfg, table, c, r, w, db, id);
  }

  lemma PersonSuits(cfg: Config, c: Compiled, app: string, level: int)
    requires !c.rule.isPublic ==> TakesCallers(cfg, c.rule)
    requires ResourceChecked(c.rule) ==>
               Resolvable(c) && PersonRelation(c.rule.resourceType, c.rule.permission).Some?
    requires level >= c.rule.stepUpMinAcr
    ensures Suits(cfg, c, PersonOf(app, level))
  {
    TakesOthersExactly(cfg, c.rule, PersonOf(app, level));
  }

  lemma AgentSuits(cfg: Config, c: Compiled, a: AgentEntry)
    requires Named(cfg, a) && (!c.rule.isPublic ==> TakesAgent(cfg, c.rule, a))
    requires ResourceChecked(c.rule) ==>
               !c.rule.stepUp && Resolvable(c) && PersonRelation(c.rule.resourceType, c.rule.permission).Some?
    ensures Suits(cfg, c, AgentOf(a, 0)) && Carried(cfg, a.name, 0, AgentOf(a, 0))
  {
    TakesAgentExactly(cfg, c.rule, a, AgentOf(a, 0));
  }

  lemma FileLetsPeopleIn(cfg: Config, table: seq<Compiled>, c: Compiled)
    requires Compiles(cfg.rules, table) && FileAdmitsPeople(cfg, table, c)
    ensures Admits(cfg, table, c, Human)
  {
    var app :| PeoplesApp(cfg, app);
    PersonSuits(cfg, c, app, c.rule.stepUpMinAcr);
    SuitedIsAdmitted(cfg, table, c, app, c.rule.stepUpMinAcr, PersonOf(app, c.rule.stepUpMinAcr));
  }

  /** Some person can get through a rule exactly when the file says so. */
  lemma AdmitsPeopleExactly(cfg: Config, table: seq<Compiled>, c: Compiled)
    requires Compiles(cfg.rules, table)
    ensures Admits(cfg, table, c, Human) <==> FileAdmitsPeople(cfg, table, c)
  {
    if Admits(cfg, table, c, Human) {
      AdmittingFile(cfg, table, c, Human);
    }
    if FileAdmitsPeople(cfg, table, c) {
      FileLetsPeopleIn(cfg, table, c);
    }
  }

  lemma FileLetsSystemsIn(cfg: Config, table: seq<Compiled>, c: Compiled)
    requires Compiles(cfg.rules, table) && FileAdmitsSystems(cfg, table, c)
    ensures Admits(cfg, table, c, System)
  {
    var client :| SystemClient(cfg, client);
    var id := SystemOf(client, cfg.systemPrincipals[client]);
    TakesOthersExactly(cfg, c.rule, id);
    SuitedIsAdmitted(cfg, table, c, client, 0, id);
  }

  /** Some system principal can, exactly when the file says so. */
  lemma AdmitsSystemsExactly(cfg: Config, table: seq<Compiled>, c: Compiled)
    requires Compiles(cfg.rules, table)
    ensures Admits(cfg, table, c, System) <==> FileAdmitsSystems(cfg, table, c)
  {
    if Admits(cfg, table, c, System) {
      AdmittingFile(cfg, table, c, System);
    }
    if FileAdmitsSystems(cfg, table, c) {
      FileLetsSystemsIn(cfg, table, c);
    }
  }

  lemma FileLetsAgentsIn(cfg: Config, table: seq<Compiled>, c: Compiled)
    requires Compiles(cfg.rules, table) && FileAdmitsAgents(cfg, table, c)
    ensures Admits(cfg, table, c, AgentActor)
  {
    var a :| Named(cfg, a) && (!c.rule.isPublic ==> TakesAgent(cfg, c.rule, a));
    AgentSuits(cfg, c, a);
    SuitedIsAdmitted(cfg, table, c, a.name, 0, AgentOf(a, 0));
  }

  /** Some agent can, exactly when the file says so. */
  lemma AdmitsAgentsExactly(cfg: Config, table: seq<Compiled>, c: Compiled)
    requires Compiles(cfg.rules, table)
    ensures Admits(cfg, table, c, AgentActor) <==> FileAdmitsAgents(cfg, table, c)
  {
    if Admits(cfg, table, c, AgentActor) {
      AdmittingFile(cfg, table, c, AgentActor);
    }
    if FileAdmitsAgents(cfg, table, c) {
      FileLetsAgentsIn(cfg, table, c);
    }
  }
}
