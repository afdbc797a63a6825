/**
 Consequences of the policy for actors: an agent is held to its workload, never
 exceeds the person it acts for, and more relationships never mean fewer permits.
 */
module Authority {
  import opened Wrappers
  import opened Schema
  import opened Store
  import opened Config
  import opened Routes
  import opened Specificity
  import opened TableOrder
  import opened Parameters
  import opened Decision
  import opened Policy
  import T = SchemaTable
  import V = Derivations

  // ---- what is asked --------------------------------------------------------------------

  /** The caller's token is one of our own applications'. */
  predicate FirstParty(cfg: Config, id: Identity) {
    AppByName(cfg.applications, id.application).Some? && AppByName(cfg.applications, id.application).value.firstParty
  }

  /** Which questions a request is planned to ask, and no others. */
  ghost predicate MustAsk(cfg: Config, rule: Rule, resource: string, id: Identity, q: Query) {
    || q == Query(Object(rule.resourceType, resource), rule.permission, SubjectOf(id))
    || (rule.consentRequired && id.kind == Human && !FirstParty(cfg, id)
        && q == Query(Object(ConsentGrant, PairId(id.subject, id.application)),
                    Includes, Object(Capability, rule.capability)))
    || (id.kind == AgentActor && q == EnrolmentQuery(id.agent, id.subject))
    || (id.kind == AgentActor && rule.capability != ""
        && q == Query(Object(Delegation, PairId(id.subject, id.agent)), Includes, Object(Capability, rule.capability)))
  }

  lemma PlanAsksExactly(cfg: Config, rule: Rule, resource: string, id: Identity, q: Query)
    ensures q in QueriesOf(Plan(cfg, rule, resource, id)) <==> MustAsk(cfg, rule, resource, id, q)
    ensures 1 <= |Plan(cfg, rule, resource, id)| <= 3
  {
    var plan := Plan(cfg, rule, resource, id);
    var consent := if ConsentApplies(cfg, rule, id) then [ConsentQuestion(rule, id)] else [];
    var enrolment := if id.kind == AgentActor then [EnrolmentQuestion(id)] else [];
    var delegation := if id.kind == AgentActor && rule.capability != "" then [DelegationQuestion(rule, id)] else [];
    assert plan == [PermissionQuestion(rule, resource, id)] + consent + enrolment + delegation;
    assert q in QueriesOf(plan) <==> exists x :: x in plan && x.query == q by {
      if q in QueriesOf(plan) {
        var i :| 0 <= i < |plan| && QueriesOf(plan)[i] == q;
        assert plan[i] in plan;
      }
      if x :| x in plan && x.query == q {
        var i :| 0 <= i < |plan| && plan[i] == x;
        assert QueriesOf(plan)[i] == q;
      }
    }
    if MustAsk(cfg, rule, resource, id, q) {
      assert PermissionQuestion(rule, resource, id) in plan;
      assert ConsentApplies(cfg, rule, id) ==> ConsentQuestion(rule, id) in plan;
      assert id.kind == AgentActor ==> EnrolmentQuestion(id) in plan;
      assert id.kind == AgentActor && rule.capability != "" ==> DelegationQuestion(rule, id) in plan;
    }
  }

  /**
   Under a loaded configuration no question leaves its resource, its permission or its capability without
   a name, and no step-up challenge its capability: this is what the loader's demands are for.
   */
  lemma LoadedQuestionsAreNamed(given: Config, i: nat, resource: string, id: Identity, q: Query)
    requires Valid(given) && i < |given.rules| && ResourceChecked(given.rules[i])
    ensures var cfg := Normalised(given); var rule := cfg.rules[i];
            && (q in QueriesOf(Plan(cfg, rule, resource, id)) ==>
                  && q.resource.kind != UndefinedType("") && q.permission != UndefinedPermission("")
                  && (q.subject.kind == Capability ==> q.subject.id != ""))
            && (StepUpGate(rule, id).Some? ==> StepUpGate(rule, id).value.challenge.capability != "")
            && !rule.resourceId.UnsupportedSource?
  {
    var cfg := Normalised(given);
    assert RuleValid(given.rules[i]) && cfg.rules[i] == RuleDefaults(given.rules[i]);
    PlanAsksExactly(cfg, cfg.rules[i], resource, id, q);
  }

  lemma FirstPartyExactly(cfg: Config, id: Identity)
    ensures FirstParty(cfg, id)
       <==> exists i ::
              0 <= i < |cfg.applications| && cfg.applications[i].name == id.application
              && cfg.applications[i].firstParty
              && forall j :: 0 <= j < i ==> cfg.applications[j].name != id.application
  {
    if i :| 0 <= i < |cfg.applications| && cfg.applications[i].name == id.application
            && forall j :: 0 <= j < i ==> cfg.applications[j].name != id.application {
      assert AppByName(cfg.applications, id.application) == Some(cfg.applications[i]);
    }
  }

  /**
   Consent to a capability is asked for exactly when the rule requires it, a person calls, and the
   first application of the token's name is not first-party.
   */
  lemma ConsentAskedExactly(cfg: Config, rule: Rule, resource: string, id: Identity)
    ensures (exists q ::
               q in QueriesOf(Plan(cfg, rule, resource, id))
               && q.resource.kind == ConsentGrant && q.permission == Includes && q.subject.kind == Capability)
       <==> rule.consentRequired && id.kind == Human
            && !exists i ::
                  0 <= i < |cfg.applications| && cfg.applications[i].name == id.application
                  && cfg.applications[i].firstParty
                  && forall j :: 0 <= j < i ==> cfg.applications[j].name != id.application
  {
    FirstPartyExactly(cfg, id);
    var consent := ConsentQuestion(rule, id).query;
    PlanAsksExactly(cfg, rule, resource, id, consent);
    if q :| q in QueriesOf(Plan(cfg, rule, resource, id))
            && q.resource.kind == ConsentGrant && q.permission == Includes && q.subject.kind == Capability {
      PlanAsksExactly(cfg, rule, resource, id, q);
    }
  }

  /** A `path:` rule asks about exactly the segment its parameter stands for. */
  lemma PathNamesItsSegment(c: Compiled, r: Request, subject: string, i: nat)
    requires Serves(c, r) && DistinctNames(c.segments)
    requires i < |c.segments| && c.segments[i].Param? && c.rule.resourceId == FromPath(c.segments[i].name)
    ensures ResolveResource(c.rule, ParamsOf(c, r), subject) == Some(SplitPath(PathOnly(r.path))[i])
  {
    ExtractLast(c.segments, SplitPath(PathOnly(r.path)), i);
    RequestPartsClean(r.path);
  }

  // ---- backends that answer each question on its own ---------------------------------------

  type Answers = Query -> Option<Outcome>

  function Bulk(f: Answers, queries: seq<Query>): Option<seq<Outcome>> {
    if forall q :: q in queries ==> f(q).Some? then
      Some(seq(|queries|, i requires 0 <= i < |queries| && f(queries[i]).Some? => f(queries[i]).value))
    else None
  }

  /** At this consistency the backend answers every bulk question by question. */
  ghost predicate AnswersBy(w: World, full: bool, f: Answers) {
    forall queries :: w.checkBulk(full, queries) == Bulk(f, queries)
  }

  /** What the schema answers on one set of live relationships. */
  function StoreAnswers(live: set<Tuple>): Answers {
    (q: Query) =>
      if Defined(q.resource.kind, q.permission) then Some(if Holds(live, q) then Permitted else Denied) else None
  }

  /** One bulk check: answers for all when the table has terms for all, each a yes exactly when derivable. */
  lemma BulkAnswersExactly(live: set<Tuple>, queries: seq<Query>)
    ensures EvaluateBulk(live, queries).Some?
       <==> forall q :: q in queries ==> T.TermsOf(q.resource.kind, q.permission) != {}
    ensures EvaluateBulk(live, queries).Some? ==>
              var answers := EvaluateBulk(live, queries).value;
              |answers| == |queries|
              && forall i :: 0 <= i < |queries| ==>
                   answers[i] == (if T.Derivable(live, queries[i]) then Permitted else Denied)
  {
    forall q | q in queries
      ensures Defined(q.resource.kind, q.permission) <==> T.TermsOf(q.resource.kind, q.permission) != {}
    {
      T.PermissionsAgree(q.resource.kind, q.permission);
    }
    forall i | 0 <= i < |queries| ensures Holds(live, queries[i]) <==> T.Derivable(live, queries[i]) {
      V.HoldsExactly(live, queries[i]);
    }
  }

  lemma StoreAnswersBulk(live: set<Tuple>, queries: seq<Query>)
    ensures Bulk(StoreAnswers(live), queries) == EvaluateBulk(live, queries)
    ensures var answers := Bulk(StoreAnswers(live), queries);
            && (answers.Some? <==> forall q :: q in queries ==> T.TermsOf(q.resource.kind, q.permission) != {})
            && (answers.Some? ==>
                  |answers.value| == |queries|
                  && forall i :: 0 <= i < |queries| ==>
                       answers.value[i] == if T.Derivable(live, queries[i]) then Permitted else Denied)
  {
    BulkAnswersExactly(live, queries);
    var f := StoreAnswers(live);
    assert forall q :: q in queries ==> (f(q).Some? <==> Defined(q.resource.kind, q.permission));
    if forall q :: q in queries ==> Defined(q.resource.kind, q.permission) {
      var one, all := Bulk(f, queries).value, EvaluateBulk(live, queries).value;
      assert forall i :: 0 <= i < |queries| ==> one[i] == all[i];
      assert one == all;
    }
  }

  lemma AllPermittedBy(cfg: Config, rule: Rule, resource: string, id: Identity, w: World, f: Answers)
    requires AnswersBy(w, rule.consistency == FullyConsistent, f)
    ensures AllPermitted(cfg, rule, resource, id, w)
       <==> forall q :: MustAsk(cfg, rule, resource, id, q) ==> f(q) == Some(Permitted)
  {
    var queries := QueriesOf(Plan(cfg, rule, resource, id));
    assert w.checkBulk(rule.consistency == FullyConsistent, queries) == Bulk(f, queries);
    forall q ensures q in queries <==> MustAsk(cfg, rule, resource, id, q) {
      PlanAsksExactly(cfg, rule, resource, id, q);
    }
    if AllPermitted(cfg, rule, resource, id, w) {
      var answers := Bulk(f, queries).value;
      forall q | q in queries ensures f(q) == Some(Permitted) {
        var i :| 0 <= i < |queries| && queries[i] == q;
        assert answers[i] == f(queries[i]).value && answers[i] == Permitted;
      }
    }
  }

  /** Asked, and answered with a plain no. */
  ghost predicate Refuses(f: Answers, q: Question) {
    f(q.query) == Some(Denied)
  }

  ghost predicate Grants(f: Answers, q: Question) {
    f(q.query) == Some(Permitted)
  }

  /** The backend can answer every question of the request. */
  ghost predicate Answerable(cfg: Config, rule: Rule, resource: string, id: Identity, f: Answers) {
    forall q :: MustAsk(cfg, rule, resource, id, q) ==> f(q).Some?
  }

  /** The answers the scan sees are the backend's, question by question. */
  lemma AskedAnswers(cfg: Config, rule: Rule, resource: string, id: Identity, w: World, f: Answers)
    returns (answers: seq<Outcome>)
    requires AnswersBy(w, rule.consistency == FullyConsistent, f) && Answerable(cfg, rule, resource, id, f)
    ensures var plan := Plan(cfg, rule, resource, id);
            && Ask(cfg, rule, resource, id, w) == Scan(plan, answers, id)
            && |answers| == |plan| && forall i :: 0 <= i < |plan| ==> f(plan[i].query) == Some(answers[i])
  {
    var plan := Plan(cfg, rule, resource, id);
    var queries := QueriesOf(plan);
    assert w.checkBulk(rule.consistency == FullyConsistent, queries) == Bulk(f, queries);
    forall q | q in queries ensures f(q).Some? {
      PlanAsksExactly(cfg, rule, resource, id, q);
    }
    answers := Bulk(f, queries).value;
    assert forall i :: 0 <= i < |plan| ==> queries[i] == plan[i].query && f(queries[i]) == Some(answers[i]);
  }

  /**
   What a refusal discloses: the missing permission comes first, so a caller is told to
   ask for consent or delegation only when nothing asked before it is missing.
   */
  lemma RefusalsDiagnoseExactly(cfg: Config, rule: Rule, resource: string, id: Identity, w: World, f: Answers)
    requires AnswersBy(w, rule.consistency == FullyConsistent, f) && Answerable(cfg, rule, resource, id, f)
    ensures var ruling, permission := Ask(cfg, rule, resource, id, w), PermissionQuestion(rule, resource, id);
            var agent := id.kind == AgentActor;
            && (ruling == Answered(Refuse(403, PermissionDenied)) <==> Refuses(f, permission))
            && (ruling == Answered(Deny(403, ConsentRequired, ConsentChallenge(id.application, rule.capability)))
                <==> Grants(f, permission) && rule.consentRequired && id.kind == Human && !FirstParty(cfg, id)
                     && Refuses(f, ConsentQuestion(rule, id)))
            && (ruling == Answered(Refuse(403, AgentNotEnrolled))
                <==> Grants(f, permission) && agent && Refuses(f, EnrolmentQuestion(id)))
            && (ruling == Answered(Deny(403, DelegationRequired, DelegationChallenge(id.agent, rule.capability)))
                <==> Grants(f, permission) && agent && Grants(f, EnrolmentQuestion(id))
                     && rule.capability != "" && Refuses(f, DelegationQuestion(rule, id)))
  {
    var plan := Plan(cfg, rule, resource, id);
    var answers := AskedAnswers(cfg, rule, resource, id, w, f);
    var k := if answers[0] != Permitted then 0
             else if |plan| > 1 && answers[1] != Permitted then 1
             else if |plan| > 2 && answers[2] != Permitted then 2 else 3;
    if k < |plan| {
      ScanStopsAtFirst(plan, answers, id, k);
    } else {
      ScanPermits(plan, answers, id, UpstreamHeaders(id));
    }
  }

  lemma {:induction false} ScanGivesReasons(plan: seq<Question>, answers: seq<Outcome>, id: Identity)
    ensures var ruling := Scan(plan, answers, id);
            ruling.Answered? ==>
              && !ruling.response.Redirect?
              && (ruling.response.Deny? ==>
                    ruling.response.reason == ConditionalResult
                    || exists i :: 0 <= i < |plan| && plan[i].reason == ruling.response.reason)
  {
    if plan != [] && answers != [] {
      ScanGivesReasons(plan[1..], answers[1..], id);
    }
  }

  /** The reasons the backend's answers can give are its own, and no gate's before it. */
  lemma AskGivesReasons(cfg: Config, rule: Rule, resource: string, id: Identity, w: World)
    ensures var ruling := Ask(cfg, rule, resource, id, w);
            ruling.Answered? && ruling.response.Deny? ==>
              ruling.response.reason in {PermissionDenied, ConsentRequired, AgentNotEnrolled, DelegationRequired,
                                         ConditionalResult, BackendUnavailable}
  {
    var plan := Plan(cfg, rule, resource, id);
    var answers := w.checkBulk(rule.consistency == FullyConsistent, QueriesOf(plan));
    if answers.Some? {
      ScanGivesReasons(plan, answers.value, id);
    }
  }

  /** Answered with a denial for this reason. */
  predicate DeniedFor(ruling: Ruling, reason: Reason) {
    ruling.Answered? && ruling.response.Deny? && ruling.response.reason == reason
  }

  /** Each gate before the backend refuses in its own name, exactly when it is the first that fails. */
  lemma RefusalsNameTheirGate(cfg: Config, c: Compiled, params: Params, r: HttpRequest, id: Identity, w: World)
    ensures var ruling := DecideFor(cfg, Some((c, params)), r, id, w);
            var registered := BoundTo(cfg, r.source, id) && (c.rule.callers == [] || r.source in c.rule.callers);
            var raised := c.rule.stepUp ==> id.kind == Human && id.acr >= c.rule.stepUpMinAcr;
            && (DeniedFor(ruling, ActorNotBound) <==> !BoundTo(cfg, r.source, id))
            && (DeniedFor(ruling, WorkloadNotRegistered)
                <==> BoundTo(cfg, r.source, id) && c.rule.callers != [] && r.source !in c.rule.callers)
            && (DeniedFor(ruling, StepUpRequired) <==> registered && !c.rule.authenticatedOnly && !raised)
            && (DeniedFor(ruling, StepUpRequired) ==>
                  ruling.response.challenge == StepUpChallenge(c.rule.capability, c.rule.stepUpMinAcr))
            && (DeniedFor(ruling, InternalError)
                <==> registered && !c.rule.authenticatedOnly && raised
                     && ResolveResource(c.rule, params, id.subject).None?)
  {
    BindingPasses(cfg, r.source, id);
    var resource := ResolveResource(c.rule, params, id.subject);
    if resource.Some? {
      AskGivesReasons(cfg, c.rule, resource.value, id, w);
    }
  }

  /** The request is answered by this rule. */
  ghost predicate AnsweredBy(table: seq<Compiled>, r: HttpRequest, c: Compiled) {
    Answer(table, Asked(r)).Some? && Answer(table, Asked(r)).value.0 == c && Serves(c, Asked(r))
  }

  /** A permit on a rule that is not public belongs to one identified caller. */
  lemma PermitHasIdentity(
    cfg: Config, table: seq<Compiled>, r: HttpRequest, w: World, headers: map<string, string>)
    returns (c: Compiled, id: Identity)
    requires Compiles(cfg.rules, table) && Permits(Decide(cfg, table, r, w).0, headers)
    requires Answer(table, Asked(r)).Some? && !Answer(table, Asked(r)).value.0.rule.isPublic
    ensures AnsweredBy(table, r, c) && IdentityAllowed(cfg, c, r, id, w) && headers == UpstreamHeaders(id)
  {
    PermitsExactlyPolicy(cfg, table, r, w, headers);
    AllowsByAnswer(cfg, table, r, w, headers);
    c := Answer(table, Asked(r)).value.0;
    id :| IdentityAllowed(cfg, c, r, id, w) && headers == UpstreamHeaders(id);
  }

  /** The identified caller of a permitted request is the one the policy allowed. */
  lemma PermittedCaller(
    cfg: Config, table: seq<Compiled>, r: HttpRequest, w: World, headers: map<string, string>,
    c: Compiled, id: Identity)
    requires Compiles(cfg.rules, table) && Permits(Decide(cfg, table, r, w).0, headers)
    requires AnsweredBy(table, r, c) && !c.rule.isPublic
    requires Authenticated(cfg, r, c.rule.authMode, w, id)
    ensures IdentityAllowed(cfg, c, r, id, w)
    ensures PathOnly(r.path) != CALLBACK && PathOnly(r.path) != LOGOUT
  {
    var c', other := PermitHasIdentity(cfg, table, r, w, headers);
    IdentifyKnows(cfg, r, c.rule.authMode, w, id);
    IdentifyKnows(cfg, r, c.rule.authMode, w, other);
    PermitsExactlyPolicy(cfg, table, r, w, headers);
  }

  /** And an allowed identity is permitted. */
  lemma IdentityPermits(cfg: Config, table: seq<Compiled>, r: HttpRequest, w: World, c: Compiled, id: Identity)
    requires Compiles(cfg.rules, table) && AnsweredBy(table, r, c) && !c.rule.isPublic
    requires PathOnly(r.path) != CALLBACK && PathOnly(r.path) != LOGOUT
    requires IdentityAllowed(cfg, c, r, id, w)
    ensures Permits(Decide(cfg, table, r, w).0, UpstreamHeaders(id))
  {
    AllowsByAnswer(cfg, table, r, w, UpstreamHeaders(id));
    PermitsExactlyPolicy(cfg, table, r, w, UpstreamHeaders(id));
  }

  // ---- the workload and the actor it presents ------------------------------------------------

  /** Some verified token yields this identity. */
  ghost predicate Obtainable(cfg: Config, id: Identity) {
    exists c, raw :: FromClaims(cfg, c, raw) == Known(id)
  }

  /** A workload bound to an agent presents only that agent. */
  ghost predicate WorkloadHeld(cfg: Config) {
    forall source, id, a ::
      Obtainable(cfg, id) && BoundTo(cfg, source, id) && AgentByWorkload(cfg.agents, source) == Some(a)
      ==> id.kind == AgentActor && AgentByClient(cfg.agents, id.application) == Some(a)
  }

  /** An agent with a workload is presented only from it. */
  ghost predicate AgentHeld(cfg: Config) {
    forall source, id, a ::
      Obtainable(cfg, id) && BoundTo(cfg, source, id) && id.kind == AgentActor
      && AgentByClient(cfg.agents, id.application) == Some(a) && a.workload != ""
      ==> source == a.workload
  }

  /** `a` is the entry its own name finds. */
  predicate Named(cfg: Config, a: AgentEntry) {
    AgentByClient(cfg.agents, a.name) == Some(a)
  }

  /** `a` is the entry its own workload finds. */
  predicate Bound(cfg: Config, a: AgentEntry) {
    AgentByWorkload(cfg.agents, a.workload) == Some(a)
  }

  /** What a registry must satisfy for the first half: one object, one entry. */
  ghost predicate ObjectsNameEntries(cfg: Config) {
    forall a, b :: Named(cfg, b) && Bound(cfg, a) && a.objectId == b.objectId ==> a == b
  }

  /** And for the second: one object, one workload. */
  ghost predicate ObjectsNameWorkloads(cfg: Config) {
    forall a, b :: Named(cfg, b) && Bound(cfg, a) && a.objectId == b.objectId && b.workload != "" ==>
      a.workload == b.workload
  }

  lemma ObtainableAgent(cfg: Config, id: Identity)
    requires Obtainable(cfg, id) && id.kind == AgentActor
    ensures exists b :: Named(cfg, b) && AgentByClient(cfg.agents, id.application) == Some(b) && id.agent == b.objectId
  {
    var c, raw :| FromClaims(cfg, c, raw) == Known(id);
    var b := AgentByClient(cfg.agents, c.azp).value;
    assert Named(cfg, b);
  }

  lemma BoundEntry(cfg: Config, source: string, a: AgentEntry)
    requires AgentByWorkload(cfg.agents, source) == Some(a)
    ensures Bound(cfg, a) && a.workload == source
  {
  }

  function AnyClaims(azp: string): Claims {
    Claims("u", azp, "", 0)
  }

  function AgentIdentity(b: AgentEntry): Identity {
    Identity(AgentActor, "u", b.name, "", "", b.objectId, 0)
  }

  lemma AgentIdentityObtainable(cfg: Config, b: AgentEntry)
    requires Named(cfg, b)
    ensures Obtainable(cfg, AgentIdentity(b))
  {
    assert FromClaims(cfg, AnyClaims(b.name), "") == Known(AgentIdentity(b));
  }

  /** The binding holds in both directions exactly for registries whose objects are not shared. */
  lemma ActorBindingExactly(cfg: Config)
    ensures WorkloadHeld(cfg) <==> ObjectsNameEntries(cfg)
    ensures AgentHeld(cfg) <==> ObjectsNameWorkloads(cfg)
  {
    forall a, b | Named(cfg, b) && Bound(cfg, a) && a.objectId == b.objectId
      ensures WorkloadHeld(cfg) ==> a == b
      ensures AgentHeld(cfg) && b.workload != "" ==> a.workload == b.workload
    {
      AgentIdentityObtainable(cfg, b);
      assert BoundTo(cfg, a.workload, AgentIdentity(b));
    }
    forall source, id, a
      | Obtainable(cfg, id) && BoundTo(cfg, source, id) && AgentByWorkload(cfg.agents, source) == Some(a)
      ensures ObjectsNameEntries(cfg) ==> id.kind == AgentActor && AgentByClient(cfg.agents, id.application) == Some(a)
    {
      ObtainableAgent(cfg, id);
      BoundEntry(cfg, source, a);
    }
    forall source, id, a
      | Obtainable(cfg, id) && BoundTo(cfg, source, id) && id.kind == AgentActor
        && AgentByClient(cfg.agents, id.application) == Some(a) && a.workload != ""
      ensures ObjectsNameWorkloads(cfg) ==> source == a.workload
    {
      ObtainableAgent(cfg, id);
      var bound := AgentByWorkload(cfg.agents, source).value;
      BoundEntry(cfg, source, bound);
    }
  }

  ghost predicate DistinctAgents(agents: seq<AgentEntry>) {
    forall i, j :: 0 <= i < j < |agents| ==>
      agents[i].objectId != agents[j].objectId && agents[i].name != agents[j].name
  }

  lemma NamedIsListed(cfg: Config, b: AgentEntry) returns (j: nat)
    requires Named(cfg, b)
    ensures j < |cfg.agents| && cfg.agents[j] == b
  {
    j :| 0 <= j < |cfg.agents| && cfg.agents[j] == b;
  }

  lemma BoundIsListed(cfg: Config, a: AgentEntry) returns (i: nat)
    requires Bound(cfg, a)
    ensures i < |cfg.agents| && cfg.agents[i] == a
  {
    i :| 0 <= i < |cfg.agents| && cfg.agents[i] == a;
  }

  lemma DistinctObjectsName(cfg: Config, a: AgentEntry, b: AgentEntry)
    requires DistinctAgents(cfg.agents) && Named(cfg, b) && Bound(cfg, a) && a.objectId == b.objectId
    ensures a == b
  {
    var i := BoundIsListed(cfg, a);
    var j := NamedIsListed(cfg, b);
    assert i == j;
  }

  /** Distinct agents satisfy it; the loader does not check that they are. */
  lemma DistinctAgentsAreHeld(cfg: Config)
    requires DistinctAgents(cfg.agents)
    ensures WorkloadHeld(cfg) && AgentHeld(cfg)
  {
    assert ObjectsNameEntries(cfg) && ObjectsNameWorkloads(cfg) by {
      forall a, b | Named(cfg, b) && Bound(cfg, a) && a.objectId == b.objectId ensures a == b {
        DistinctObjectsName(cfg, a, b);
      }
    }
    ActorBindingExactly(cfg);
  }

  /** Both halves for every permit on a rule that is not public. */
  lemma PermitsAreBound(cfg: Config, table: seq<Compiled>, r: HttpRequest, w: World, headers: map<string, string>)
    returns (id: Identity)
    requires Compiles(cfg.rules, table) && WorkloadHeld(cfg) && AgentHeld(cfg)
    requires Permits(Decide(cfg, table, r, w).0, headers)
    requires Answer(table, Asked(r)).Some? && !Answer(table, Asked(r)).value.0.rule.isPublic
    ensures headers == UpstreamHeaders(id)
    ensures Authenticated(cfg, r, Answer(table, Asked(r)).value.0.rule.authMode, w, id)
    ensures forall a :: AgentByWorkload(cfg.agents, r.source) == Some(a) ==>
              id.kind == AgentActor && AgentByClient(cfg.agents, id.application) == Some(a)
    ensures forall a ::
              id.kind == AgentActor && AgentByClient(cfg.agents, id.application) == Some(a) && a.workload != "" ==>
                r.source == a.workload
  {
    var c;
    c, id := PermitHasIdentity(cfg, table, r, w, headers);
    assert FromClaims(cfg, w.verify(id.token).value, id.token) == Known(id);
    assert Obtainable(cfg, id);
  }

  // ---- an agent and the person behind it ---------------------------------------------------------

  /** An agent's answers include the person's own permission question. */
  lemma AgentAsksForPerson(
    cfg: Config, rule: Rule, resource: string, agent: Identity, w: World, me: Identity, v: World, f: Answers)
    requires AnswersBy(w, rule.consistency == FullyConsistent, f)
    requires AnswersBy(v, rule.consistency == FullyConsistent, f)
    requires agent.kind == AgentActor && me.kind == Human && FirstParty(cfg, me) && me.subject == agent.subject
    requires AllPermitted(cfg, rule, resource, agent, w)
    ensures AllPermitted(cfg, rule, resource, me, v)
  {
    AllPermittedBy(cfg, rule, resource, agent, w, f);
    AllPermittedBy(cfg, rule, resource, me, v, f);
    assert SubjectOf(me) == SubjectOf(agent);
    forall q | MustAsk(cfg, rule, resource, me, q) ensures MustAsk(cfg, rule, resource, agent, q) {}
  }

  /** Whatever an agent may do for a person, that person may do through a first-party application. */
  lemma AgentNeverExceedsPrincipal(
    cfg: Config, table: seq<Compiled>, f: Answers, c: Compiled,
    r: HttpRequest, w: World, headers: map<string, string>, agent: Identity,
    q: HttpRequest, v: World, me: Identity)
    requires Compiles(cfg.rules, table)
    requires AnsweredBy(table, r, c) && ResourceChecked(c.rule)
    requires AnswersBy(w, c.rule.consistency == FullyConsistent, f)
    requires AnswersBy(v, c.rule.consistency == FullyConsistent, f)
    // the agent's request is permitted
    requires Permits(Decide(cfg, table, r, w).0, headers)
    requires Authenticated(cfg, r, c.rule.authMode, w, agent) && agent.kind == AgentActor
    // the same request, from the person, through a first-party application and a registered, unbound caller
    requires Asked(q) == Asked(r)
    requires Authenticated(cfg, q, c.rule.authMode, v, me) && me.kind == Human && FirstParty(cfg, me)
    requires me.subject == agent.subject
    requires AgentByWorkload(cfg.agents, q.source).None? && (c.rule.callers == [] || q.source in c.rule.callers)
    ensures Permits(Decide(cfg, table, q, v).0, UpstreamHeaders(me))
  {
    PermittedCaller(cfg, table, r, w, headers, c, agent);
    var resource := ResolveResource(c.rule, ParamsOf(c, Asked(r)), agent.subject).value;
    AgentAsksForPerson(cfg, c.rule, resource, agent, w, me, v, f);
    IdentityPermits(cfg, table, q, v, c, me);
  }

  // ---- more relationships, no fewer permits ---------------------------------------------------------

  ghost predicate AtLeast(more: Answers, fewer: Answers) {
    forall q :: fewer(q) == Some(Permitted) ==> more(q) == Some(Permitted)
  }

  /** Replacing the backend by one that says yes at least as often keeps every permit. */
  lemma PermitsAreMonotone(
    cfg: Config, table: seq<Compiled>, r: HttpRequest, w: World, v: World, f: Answers, g: Answers,
    headers: map<string, string>)
    requires Compiles(cfg.rules, table) && v == w.(checkBulk := v.checkBulk) && AtLeast(g, f)
    requires Answer(table, Asked(r)).Some? ==>
               var full := Answer(table, Asked(r)).value.0.rule.consistency == FullyConsistent;
               AnswersBy(w, full, f) && AnswersBy(v, full, g)
    requires Permits(Decide(cfg, table, r, w).0, headers)
    ensures Permits(Decide(cfg, table, r, v).0, headers)
  {
    PermitsExactlyPolicy(cfg, table, r, w, headers);
    PermitsExactlyPolicy(cfg, table, r, v, headers);
    AllowsByAnswer(cfg, table, r, w, headers);
    AllowsByAnswer(cfg, table, r, v, headers);
    var c := Answer(table, Asked(r)).value.0;
    if !c.rule.isPublic {
      var id :| IdentityAllowed(cfg, c, r, id, w) && headers == UpstreamHeaders(id);
      MoreKeepsAllowed(cfg, c, r, id, w, v, f, g);
    }
  }

  lemma MoreKeepsAllowed(
    cfg: Config, c: Compiled, r: HttpRequest, id: Identity, w: World, v: World, f: Answers, g: Answers)
    requires Serves(c, Asked(r)) && v == w.(checkBulk := v.checkBulk) && AtLeast(g, f)
    requires AnswersBy(w, c.rule.consistency == FullyConsistent, f)
    requires AnswersBy(v, c.rule.consistency == FullyConsistent, g)
    requires IdentityAllowed(cfg, c, r, id, w)
    ensures IdentityAllowed(cfg, c, r, id, v)
  {
    if !c.rule.authenticatedOnly {
      var resource := ResolveResource(c.rule, ParamsOf(c, Asked(r)), id.subject).value;
      AllPermittedBy(cfg, c.rule, resource, id, w, f);
      AllPermittedBy(cfg, c.rule, resource, id, v, g);
    }
  }

  /** The backend answers from these relationships at this time, at the consistency the request's rule asks for. */
  ghost predicate ReadsStore(table: seq<Compiled>, r: HttpRequest, w: World, db: Relationships, now: int) {
    Answer(table, Asked(r)).Some? ==>
      AnswersBy(w, Answer(table, Asked(r)).value.0.rule.consistency == FullyConsistent, StoreAnswers(Live(db, now)))
  }

  /** Adding relationships never turns a permit into a denial; deleting them or waiting never the reverse. */
  lemma StoreDecisionsMonotone(
    cfg: Config, table: seq<Compiled>, r: HttpRequest, w: World, v: World,
    fewer: Relationships, later: int, more: Relationships, earlier: int, headers: map<string, string>)
    requires Compiles(cfg.rules, table) && v == w.(checkBulk := v.checkBulk)
    requires Live(fewer, later) <= Live(more, earlier)
    requires ReadsStore(table, r, w, fewer, later) && ReadsStore(table, r, v, more, earlier)
    requires Permits(Decide(cfg, table, r, w).0, headers)
    ensures Permits(Decide(cfg, table, r, v).0, headers)
  {
    var f, g := StoreAnswers(Live(fewer, later)), StoreAnswers(Live(more, earlier));
    forall q | f(q) == Some(Permitted) ensures g(q) == Some(Permitted) {
      HoldsMonotone(Live(fewer, later), Live(more, earlier), q);
    }
    PermitsAreMonotone(cfg, table, r, w, v, f, g, headers);
  }

  // ---- what a permit rests on ---------------------------------------------------------------------

  ghost predicate AnswersYes(live: set<Tuple>, q: Query) {
    Defined(q.resource.kind, q.permission) && Holds(live, q)
  }

  /** What the store and the request must say for this caller, beside being that caller. */
  ghost predicate Entitled(cfg: Config, c: Compiled, r: HttpRequest, id: Identity, live: set<Tuple>)
    requires Serves(c, Asked(r))
  {
    && BoundTo(cfg, r.source, id)
    && (c.rule.callers == [] || r.source in c.rule.callers)
    && StepUpSatisfied(c.rule, id)
    && ResolveResource(c.rule, ParamsOf(c, Asked(r)), id.subject).Some?
    && forall q :: MustAsk(cfg, c.rule, ResolveResource(c.rule, ParamsOf(c, Asked(r)), id.subject).value, id, q) ==>
                     AnswersYes(live, q)
  }

  lemma EntitledIsAllowed(cfg: Config, c: Compiled, r: HttpRequest, w: World, id: Identity, live: set<Tuple>)
    requires Serves(c, Asked(r)) && ResourceChecked(c.rule) && Authenticated(cfg, r, c.rule.authMode, w, id)
    requires AnswersBy(w, c.rule.consistency == FullyConsistent, StoreAnswers(live))
    ensures IdentityAllowed(cfg, c, r, id, w) <==> Entitled(cfg, c, r, id, live)
  {
    var resource := ResolveResource(c.rule, ParamsOf(c, Asked(r)), id.subject);
    if resource.Some? {
      AllPermittedBy(cfg, c.rule, resource.value, id, w, StoreAnswers(live));
      assert forall q :: StoreAnswers(live)(q) == Some(Permitted) <==> AnswersYes(live, q);
    }
  }

  /** On a resource-checked rule an identified caller is permitted exactly when entitled by the store. */
  lemma PermitsExactlyTheEntitled(
    cfg: Config, table: seq<Compiled>, r: HttpRequest, w: World, live: set<Tuple>, c: Compiled, id: Identity)
    requires Compiles(cfg.rules, table) && AnsweredBy(table, r, c) && ResourceChecked(c.rule)
    requires PathOnly(r.path) != CALLBACK && PathOnly(r.path) != LOGOUT
    requires Authenticated(cfg, r, c.rule.authMode, w, id)
    requires AnswersBy(w, c.rule.consistency == FullyConsistent, StoreAnswers(live))
    ensures Permits(Decide(cfg, table, r, w).0, UpstreamHeaders(id)) <==> Entitled(cfg, c, r, id, live)
  {
    EntitledIsAllowed(cfg, c, r, w, id, live);
    if Permits(Decide(cfg, table, r, w).0, UpstreamHeaders(id)) {
      PermittedCaller(cfg, table, r, w, UpstreamHeaders(id), c, id);
    }
    if IdentityAllowed(cfg, c, r, id, w) {
      IdentityPermits(cfg, table, r, w, c, id);
    }
  }

  // ---- what a permit for an agent rests on ----------------------------------------------------------------

  /** All questions of an agent's request answered yes by the store. */
  lemma AgentAnswersRest(cfg: Config, rule: Rule, resource: string, id: Identity, w: World, live: set<Tuple>)
    requires AnswersBy(w, rule.consistency == FullyConsistent, StoreAnswers(live))
    requires id.kind == AgentActor && AllPermitted(cfg, rule, resource, id, w)
    ensures Holds(live, EnrolmentQuery(id.agent, id.subject))
    ensures rule.capability != "" ==> Edge(Delegation, id.subject, id.agent, rule.capability) in live
    ensures Holds(live, Query(Object(rule.resourceType, resource), rule.permission, Object(User, id.subject)))
  {
    var f := StoreAnswers(live);
    AllPermittedBy(cfg, rule, resource, id, w, f);
    var permission := Query(Object(rule.resourceType, resource), rule.permission, SubjectOf(id));
    assert MustAsk(cfg, rule, resource, id, permission) && f(permission) == Some(Permitted);
    var enrolment := EnrolmentQuery(id.agent, id.subject);
    assert MustAsk(cfg, rule, resource, id, enrolment) && f(enrolment) == Some(Permitted);
    if rule.capability != "" {
      var delegation := DelegationQuestion(rule, id).query;
      assert MustAsk(cfg, rule, resource, id, delegation) && f(delegation) == Some(Permitted);
    }
  }

  /** On a resource-checked rule: no step-up, enrolment, the rule's capability delegated, and allowed as the person. */
  lemma AgentPermitRests(
    cfg: Config, table: seq<Compiled>, r: HttpRequest, w: World, db: Relationships, now: int,
    headers: map<string, string>,
    c: Compiled, id: Identity) returns (resource: string)
    requires Compiles(cfg.rules, table) && ReadsStore(table, r, w, db, now)
    requires Permits(Decide(cfg, table, r, w).0, headers)
    requires AnsweredBy(table, r, c) && ResourceChecked(c.rule)
    requires Authenticated(cfg, r, c.rule.authMode, w, id) && id.kind == AgentActor
    ensures !c.rule.stepUp
    ensures Holds(Live(db, now), EnrolmentQuery(id.agent, id.subject))
    ensures c.rule.capability != "" ==> Edge(Delegation, id.subject, id.agent, c.rule.capability) in Live(db, now)
    ensures ResolveResource(c.rule, ParamsOf(c, Asked(r)), id.subject) == Some(resource)
    ensures Holds(Live(db, now), Query(Object(c.rule.resourceType, resource),
                                c.rule.permission, Object(User, id.subject)))
  {
    PermittedCaller(cfg, table, r, w, headers, c, id);
    resource := ResolveResource(c.rule, ParamsOf(c, Asked(r)), id.subject).value;
    AgentAnswersRest(cfg, c.rule, resource, id, w, Live(db, now));
  }
}
