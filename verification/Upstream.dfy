/**
 What a permitted request carries to the service behind: who the caller is, under which
 application, and the very token that was verified.
 */
module Upstream {
  import opened Wrappers
  import opened Schema
  import opened Config
  import opened Routes
  import opened TableOrder
  import opened Decision
  import opened Policy
  import opened Authority
  import opened Admission
  import opened Pipeline

  /** The client of a token is a registered system, not an agent. */
  predicate OfSystem(cfg: Config, claims: Claims) {
    AgentByClient(cfg.agents, claims.azp).None? && claims.azp in cfg.systemPrincipals
  }

  /** Whom a verified token stands for: its registered principal for a system, its subject for everybody else. */
  function StandsFor(cfg: Config, claims: Claims): Object {
    if OfSystem(cfg, claims) then Object(SystemPrincipal, cfg.systemPrincipals[claims.azp])
    else Object(User, claims.subject)
  }

  /** And how it is shown: a system by its principal, everybody else as the token says. */
  function DisplayOf(cfg: Config, claims: Claims): string {
    if OfSystem(cfg, claims) then cfg.systemPrincipals[claims.azp] else claims.display
  }

  /** The caller a verified token names: agents before systems before applications, and nobody else. */
  lemma TokenNamesCaller(cfg: Config, claims: Claims, token: string)
    ensures var who := FromClaims(cfg, claims, token);
            var agent := AgentByClient(cfg.agents, claims.azp);
            if agent.None? && !OfSystem(cfg, claims) && AppByName(cfg.applications, claims.azp).None? then
              who == Stopped(Refuse(403, UnknownApplication))
            else
              && who.Known?
              && SubjectOf(who.identity) == StandsFor(cfg, claims)
              && who.identity.application == claims.azp && who.identity.token == token
              && (who.identity.kind == AgentActor <==> agent.Some?)
              && (agent.Some? ==> who.identity.agent == agent.value.objectId)
              && (who.identity.kind == System <==> OfSystem(cfg, claims))
              && who.identity.display == DisplayOf(cfg, claims)
              && who.identity.acr == (if OfSystem(cfg, claims) then 0 else claims.acr)
  {
  }

  /** What a reader of a header gets: the empty text when it is absent. */
  function Get(headers: map<string, string>, name: string): string {
    if name in headers then headers[name] else ""
  }

  lemma HeadersSay(id: Identity)
    ensures var h := UpstreamHeaders(id);
            && Get(h, "x-user-id") == id.subject
            && Get(h, "x-user-name") == id.display
            && Get(h, "x-application") == id.application
            && Get(h, "authorization") == (if id.token == "" then "" else "Bearer " + id.token)
  {
  }

  /** Forwarding drops empty values, which no reader can see. */
  lemma ForwardedReadsTheSame(headers: map<string, string>, name: string)
    ensures Translated(Answered(Permit(headers))).code == OK
    ensures Get(Translated(Answered(Permit(headers))).headers, name) == Get(headers, name)
  {
  }

  /** The backend was asked, and said yes, whether this subject holds the rule's permission. */
  ghost predicate AskedAbout(w: World, rule: Rule, who: Object, resource: string) {
    exists queries, i ::
      && w.checkBulk(rule.consistency == FullyConsistent, queries).Some?
      && 0 <= i < |queries| && i < |w.checkBulk(rule.consistency == FullyConsistent, queries).value|
      && queries[i] == Query(Object(rule.resourceType, resource), rule.permission, who)
      && w.checkBulk(rule.consistency == FullyConsistent, queries).value[i] == Permitted
  }

  lemma AllowedWasAsked(cfg: Config, rule: Rule, resource: string, id: Identity, w: World)
    requires AllPermitted(cfg, rule, resource, id, w)
    ensures AskedAbout(w, rule, SubjectOf(id), resource)
  {
    var queries := QueriesOf(Plan(cfg, rule, resource, id));
    assert queries[0] == PermissionQuestion(rule, resource, id).query;
    assert w.checkBulk(rule.consistency == FullyConsistent, queries).value[0] == Permitted;
  }

  /** The caller behind a permit: the token presented and verified, the claims in it, the subject asked about. */
  lemma PermitHasCaller(cfg: Config, table: seq<Compiled>, r: HttpRequest, w: World, headers: map<string, string>)
    returns (c: Compiled, id: Identity, claims: Claims)
    requires Compiles(cfg.rules, table) && Permits(Decide(cfg, table, r, w).0, headers)
    requires Answer(table, Asked(r)).Some? && !Answer(table, Asked(r)).value.0.rule.isPublic
    ensures AnsweredBy(table, r, c) && headers == UpstreamHeaders(id)
    ensures Presents(cfg, r, c.rule.authMode, w, id.token) && w.verify(id.token) == Some(claims)
    ensures FromClaims(cfg, claims, id.token) == Known(id)
    ensures ResourceChecked(c.rule) ==>
              exists resource :: Names(c, Asked(r), id.subject, resource)
                              && AskedAbout(w, c.rule, SubjectOf(id), resource)
  {
    c, id := PermitHasIdentity(cfg, table, r, w, headers);
    claims := w.verify(id.token).value;
    if ResourceChecked(c.rule) {
      var resource := ResolveResource(c.rule, ParamsOf(c, Asked(r)), id.subject).value;
      AllowedWasAsked(cfg, c.rule, resource, id, w);
      ResourceNamedExactly(c, Asked(r), id.subject, resource);
    }
  }

  /**
   Every permit on a rule that is not public tells the service behind, in the gRPC answer: the id of
   the subject the backend was asked about, on the resource the rule names, which is the one the
   verified token stands for; the client the token was issued to; and the token itself.
   */
  lemma UpstreamLearnsCaller(cfg: Config, table: seq<Compiled>, r: HttpRequest, w: World)
    returns (c: Compiled, token: string, claims: Claims)
    requires Compiles(cfg.rules, table) && Translated(Decide(cfg, table, r, w).0).code == OK
    requires Answer(table, Asked(r)).Some? && !Answer(table, Asked(r)).value.0.rule.isPublic
    ensures AnsweredBy(table, r, c)
    ensures Presents(cfg, r, c.rule.authMode, w, token) && w.verify(token) == Some(claims)
    ensures var sent := Translated(Decide(cfg, table, r, w).0).headers;
            && Get(sent, "x-user-id") == StandsFor(cfg, claims).id
            && Get(sent, "x-application") == claims.azp
            && Get(sent, "authorization") == (if token == "" then "" else "Bearer " + token)
            && Get(sent, "x-user-name") == DisplayOf(cfg, claims)
    ensures ResourceChecked(c.rule) ==>
              exists resource :: Names(c, Asked(r), StandsFor(cfg, claims).id, resource)
                              && AskedAbout(w, c.rule, StandsFor(cfg, claims), resource)
  {
    var headers := Decide(cfg, table, r, w).0.response.headers;
    var id;
    c, id, claims := PermitHasCaller(cfg, table, r, w, headers);
    token := id.token;
    TokenNamesCaller(cfg, claims, token);
    HeadersSay(id);
    ForwardedReadsTheSame(headers, "x-user-id");
    ForwardedReadsTheSame(headers, "x-user-name");
    ForwardedReadsTheSame(headers, "x-application");
    ForwardedReadsTheSame(headers, "authorization");
  }

  /** A public rule names no caller to it. */
  lemma PublicNamesNobody(cfg: Config, table: seq<Compiled>, r: HttpRequest, w: World)
    requires Compiles(cfg.rules, table) && Translated(Decide(cfg, table, r, w).0).code == OK
    requires Answer(table, Asked(r)).Some? && Answer(table, Asked(r)).value.0.rule.isPublic
    ensures var sent := Translated(Decide(cfg, table, r, w).0).headers;
            && Get(sent, "x-user-id") == "" && Get(sent, "x-user-name") == ""
            && Get(sent, "x-application") == "" && Get(sent, "authorization") == ""
  {
    var headers := Decide(cfg, table, r, w).0.response.headers;
    PermitsExactlyPolicy(cfg, table, r, w, headers);
    AllowsByAnswer(cfg, table, r, w, headers);
    assert headers == map[];
  }
}
