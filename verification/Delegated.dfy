/**
 Pipeline, console and store together: what a permitted agent request proves about
 the history of the whole system.
 */
module Delegated {
  import opened Schema
  import opened Store
  import opened Config
  import opened Routes
  import opened Specificity
  import opened TableOrder
  import opened Decision
  import opened Policy
  import opened Authority
  import C = Catalogue
  import K = Console

  /** The request `r`, answered by rule `c`, is permitted to an agent against this state of the store. */
  ghost predicate AgentPermitted(
    cfg: Config, table: seq<Compiled>, s: K.State, r: HttpRequest, w: World, headers: map<string, string>,
    c: Compiled, id: Identity)
  {
    && Compiles(cfg.rules, table)
    && AnsweredBy(table, r, c) && ResourceChecked(c.rule)
    && Authenticated(cfg, r, c.rule.authMode, w, id) && id.kind == AgentActor
    && ReadsStore(table, r, w, s.db, s.now)
    && Permits(Decide(cfg, table, r, w).0, headers)
  }

  /** Everything a permit needs beside consent and delegation, on this state of the store. */
  ghost predicate Qualifies(cfg: Config, c: Compiled, r: HttpRequest, id: Identity, live: set<Tuple>)
    requires Serves(c, Asked(r))
  {
    && BoundTo(cfg, r.source, id)
    && (c.rule.callers == [] || r.source in c.rule.callers)
    && StepUpSatisfied(c.rule, id)
    && (id.kind == AgentActor ==> Holds(live, EnrolmentQuery(id.agent, id.subject)))
    && ResolveResource(c.rule, ParamsOf(c, Asked(r)), id.subject).Some?
    && var resource := ResolveResource(c.rule, ParamsOf(c, Asked(r)), id.subject).value;
       AnswersYes(live, Query(Object(c.rule.resourceType, resource), c.rule.permission, SubjectOf(id)))
  }

  /** The request `r` of the caller `id` is answered by the resource-checked rule `c`, against this store. */
  ghost predicate Asks(
    cfg: Config, table: seq<Compiled>, s: K.State, r: HttpRequest, w: World, c: Compiled, id: Identity)
  {
    && Compiles(cfg.rules, table)
    && AnsweredBy(table, r, c) && ResourceChecked(c.rule)
    && PathOnly(r.path) != CALLBACK && PathOnly(r.path) != LOGOUT
    && Authenticated(cfg, r, c.rule.authMode, w, id)
    && ReadsStore(table, r, w, s.db, s.now)
  }

  lemma EntitledAgent(cfg: Config, c: Compiled, r: HttpRequest, id: Identity, live: set<Tuple>)
    requires Serves(c, Asked(r)) && id.kind == AgentActor && c.rule.capability != ""
    ensures Entitled(cfg, c, r, id, live)
       <==> Qualifies(cfg, c, r, id, live) && Edge(Delegation, id.subject, id.agent, c.rule.capability) in live
  {
    if ResolveResource(c.rule, ParamsOf(c, Asked(r)), id.subject).Some? {
      var resource := ResolveResource(c.rule, ParamsOf(c, Asked(r)), id.subject).value;
      assert MustAsk(cfg, c.rule, resource, id, DelegationQuestion(c.rule, id).query);
      assert MustAsk(cfg, c.rule, resource, id, EnrolmentQuery(id.agent, id.subject));
      assert MustAsk(cfg, c.rule, resource, id, PermissionQuestion(c.rule, resource, id).query);
    }
  }

  lemma EntitledApp(cfg: Config, c: Compiled, r: HttpRequest, id: Identity, live: set<Tuple>)
    requires Serves(c, Asked(r)) && c.rule.consentRequired && id.kind == Human
    requires AppByName(cfg.applications, id.application).Some?
    requires !AppByName(cfg.applications, id.application).value.firstParty
    ensures Entitled(cfg, c, r, id, live)
       <==> Qualifies(cfg, c, r, id, live) && Edge(ConsentGrant, id.subject, id.application, c.rule.capability) in live
  {
    if ResolveResource(c.rule, ParamsOf(c, Asked(r)), id.subject).Some? {
      var resource := ResolveResource(c.rule, ParamsOf(c, Asked(r)), id.subject).value;
      assert MustAsk(cfg, c.rule, resource, id, ConsentQuestion(c.rule, id).query);
      assert MustAsk(cfg, c.rule, resource, id, PermissionQuestion(c.rule, resource, id).query);
    }
  }

  /**
   In every interleaving of console posts, other writers, ticks and requests: an agent that
   asks for a rule with a capability is permitted exactly when that very user delegated the
   capability to it in the run, as the latest word and not yet lapsed, and it qualifies
   otherwise: enrolled now, the user holding the permission now, no step-up.
   */
  lemma AgentPermittedExactly(
    cat: C.Catalogue, start: K.State, events: seq<K.Event>,
    cfg: Config, table: seq<Compiled>, r: HttpRequest, w: World, c: Compiled, id: Identity)
    requires C.Valid(cat) && K.NoDelegations(start)
    requires forall k :: 0 <= k < |events| ==> K.GrantsOnlyHere(events[k]) && K.Apart(events[k], id.subject)
    requires Asks(cfg, table, K.Run(cat, start, events), r, w, c, id)
    requires id.kind == AgentActor && c.rule.capability != ""
    ensures var end := K.Run(cat, start, events);
            Permits(Decide(cfg, table, r, w).0, UpstreamHeaders(id))
            <==> Qualifies(cfg, c, r, id, Live(end.db, end.now))
                 && exists i: nat, ttl ::
                      i < |events| && K.DelegatedAt(cat, start, events, i, id.subject, id.agent, c.rule.capability, ttl)
  {
    var end := K.Run(cat, start, events);
    PermitsExactlyTheEntitled(cfg, table, r, w, Live(end.db, end.now), c, id);
    EntitledAgent(cfg, c, r, id, Live(end.db, end.now));
    K.DelegationLiveExactly(cat, start, events, id.subject, id.agent, c.rule.capability);
  }

  /**
   A person's request through a registered third-party application is permitted exactly with consent
   that very person gave and has not withdrawn.
   */
  lemma AppPermittedExactly(
    cat: C.Catalogue, start: K.State, events: seq<K.Event>,
    cfg: Config, table: seq<Compiled>, r: HttpRequest, w: World, c: Compiled, id: Identity)
    requires C.Valid(cat) && Edge(ConsentGrant, id.subject, id.application, c.rule.capability) !in start.db
    requires forall k :: 0 <= k < |events| ==> K.GrantsOnlyHere(events[k]) && K.Apart(events[k], id.subject)
    requires Asks(cfg, table, K.Run(cat, start, events), r, w, c, id)
    requires c.rule.consentRequired && id.kind == Human
    requires AppByName(cfg.applications, id.application).Some?
    requires !AppByName(cfg.applications, id.application).value.firstParty
    ensures var end := K.Run(cat, start, events);
            Permits(Decide(cfg, table, r, w).0, UpstreamHeaders(id))
            <==> Qualifies(cfg, c, r, id, Live(end.db, end.now))
                 && exists i: nat ::
                      i < |events|
                      && K.ConsentedAt(cat, start, events, i, id.subject, id.application, c.rule.capability)
  {
    var end := K.Run(cat, start, events);
    PermitsExactlyTheEntitled(cfg, table, r, w, Live(end.db, end.now), c, id);
    EntitledApp(cfg, c, r, id, Live(end.db, end.now));
    K.ConsentLiveExactly(cat, start, events, id.subject, id.application, c.rule.capability);
  }

  lemma EntitledPerson(cfg: Config, c: Compiled, r: HttpRequest, id: Identity, live: set<Tuple>)
    requires Serves(c, Asked(r)) && id.kind == Human && (c.rule.consentRequired ==> FirstParty(cfg, id))
    ensures Entitled(cfg, c, r, id, live) <==> Qualifies(cfg, c, r, id, live)
  {
    if ResolveResource(c.rule, ParamsOf(c, Asked(r)), id.subject).Some? {
      var resource := ResolveResource(c.rule, ParamsOf(c, Asked(r)), id.subject).value;
      assert MustAsk(cfg, c.rule, resource, id, PermissionQuestion(c.rule, resource, id).query);
    }
  }

  /** Where no consent is required, or the application is first-party, exactly when the person qualifies. */
  lemma PersonPermittedExactly(
    cfg: Config, table: seq<Compiled>, s: K.State, r: HttpRequest, w: World, c: Compiled, id: Identity)
    requires Asks(cfg, table, s, r, w, c, id) && id.kind == Human
    requires c.rule.consentRequired ==>
               && AppByName(cfg.applications, id.application).Some?
               && AppByName(cfg.applications, id.application).value.firstParty
    ensures Permits(Decide(cfg, table, r, w).0, UpstreamHeaders(id))
       <==> Qualifies(cfg, c, r, id, Live(s.db, s.now))
  {
    PermitsExactlyTheEntitled(cfg, table, r, w, Live(s.db, s.now), c, id);
    EntitledPerson(cfg, c, r, id, Live(s.db, s.now));
  }

  /** No agent ever exercises a capability the catalogue marks sensitive, with or without step-up on the rule. */
  lemma SensitiveStaysOutOfReach(
    cat: C.Catalogue, start: K.State, events: seq<K.Event>,
    cfg: Config, table: seq<Compiled>, r: HttpRequest, w: World, headers: map<string, string>,
    c: Compiled, id: Identity)
    requires C.Valid(cat) && K.Bounded(cat, start)
    requires forall k :: 0 <= k < |events| ==> K.GrantsOnlyHere(events[k])
    requires AgentPermitted(cfg, table, K.Run(cat, start, events), r, w, headers, c, id) && c.rule.capability != ""
    ensures !C.MarkedSensitive(cat, c.rule.capability) && !c.rule.stepUp
    ensures var end := K.Run(cat, start, events);
            var edge := Edge(Delegation, id.subject, id.agent, c.rule.capability);
            edge in end.db && end.db[edge].Some? && end.now < end.db[edge].value <= end.now + K.MaxTtl(cat)
  {
    var end := K.Run(cat, start, events);
    K.RunsStayBounded(cat, start, events);
    var _ := AgentPermitRests(cfg, table, r, w, end.db, end.now, headers, c, id);
    assert K.IsDelegated(Edge(Delegation, id.subject, id.agent, c.rule.capability));
  }

  /** An agent nobody enrolled is permitted nothing that is resource-checked. */
  lemma UnenrolledRefused(
    cfg: Config, table: seq<Compiled>, s: K.State, r: HttpRequest, w: World, headers: map<string, string>,
    c: Compiled, id: Identity)
    requires K.Unenrolled(s.db, id.agent)
    ensures !AgentPermitted(cfg, table, s, r, w, headers, c, id)
  {
    if AgentPermitted(cfg, table, s, r, w, headers, c, id) {
      var _ := AgentPermitRests(cfg, table, r, w, s.db, s.now, headers, c, id);
    }
  }

  /** After an accepted decommission and until a new enrolment, the agent is refused on every resource-checked rule. */
  lemma DecommissionedAgentRefused(
    cat: C.Catalogue, s: K.State, p: K.Post, events: seq<K.Event>,
    cfg: Config, table: seq<Compiled>, r: HttpRequest, w: World, headers: map<string, string>,
    c: Compiled, id: Identity)
    requires C.Valid(cat)
    requires K.Effect(cat, s.db, s.now, p).0.Decommissioning? && K.Effect(cat, s.db, s.now, p).0.kind == Agent
    requires id.agent == K.Effect(cat, s.db, s.now, p).0.id
    requires forall k :: 0 <= k < |events| ==> K.NoEnrolment(events[k], id.agent)
    ensures !AgentPermitted(cfg, table, K.Run(cat, K.Step(cat, s, K.Posted(p)), events), r, w, headers, c, id)
  {
    var after := K.Step(cat, s, K.Posted(p));
    K.DecommissionUnenrols(cat, s, p);
    K.DecommissionIsFinal(cat, after, events, id.agent);
    UnenrolledRefused(cfg, table, K.Run(cat, after, events), r, w, headers, c, id);
  }
}
