/**
 The policy the pipeline enforces, stated without its steps, and the proof that
 a request is permitted exactly when the policy allows it, whatever the token
 verifier, the session store and the permission backend do.
 */
module Policy {
  import opened Wrappers
  import opened Schema
  import opened Config
  import opened Routes
  import opened Specificity
  import opened TableOrder
  import opened Decision

  // ---- the policy --------------------------------------------------------------------

  /** The cookie names an authenticated session whose access token, renewed if stale, is `token`. */
  ghost predicate SessionHolds(cfg: Config, r: HttpRequest, w: World, token: string) {
    && SessionId(cfg, r) != ""
    && w.session(SessionId(cfg, r)).Some?
    && var s := w.session(SessionId(cfg, r)).value;
       && s.authenticated
       && if !Stale(s, w.now) then token == s.accessToken
          else
            && AppByName(cfg.applications, s.application).Some?
            && var app := AppByName(cfg.applications, s.application).value;
               && w.refresh(app.name, app.clientSecret, s.refreshToken).Some?
               && token == w.refresh(app.name, app.clientSecret, s.refreshToken).value.access
               && w.putOk
  }

  /** A bearer token wins over a session unless the rule takes sessions only. */
  ghost predicate Presents(cfg: Config, r: HttpRequest, mode: AuthMode, w: World, token: string) {
    if Bearer(r) != "" && mode != SessionMode then token == Bearer(r)
    else mode != BearerMode && SessionHolds(cfg, r, w, token)
  }

  ghost predicate Authenticated(cfg: Config, r: HttpRequest, mode: AuthMode, w: World, id: Identity) {
    && Presents(cfg, r, mode, w, id.token)
    && w.verify(id.token).Some?
    && FromClaims(cfg, w.verify(id.token).value, id.token) == Known(id)
  }

  ghost predicate BoundTo(cfg: Config, source: string, id: Identity) {
    && (forall a :: AgentByWorkload(cfg.agents, source) == Some(a) ==> id.kind == AgentActor && id.agent == a.objectId)
    && (forall a ::
          AgentByClient(cfg.agents, id.application) == Some(a) && id.kind == AgentActor && a.workload != "" ==>
            AgentByWorkload(cfg.agents, source).Some?)
  }

  predicate StepUpSatisfied(rule: Rule, id: Identity) {
    rule.stepUp ==> id.kind == Human && id.acr >= rule.stepUpMinAcr
  }

  /** The questions of this request, all answered with a plain yes. */
  ghost predicate AllPermitted(cfg: Config, rule: Rule, resource: string, id: Identity, w: World) {
    var plan := Plan(cfg, rule, resource, id);
    var answers := w.checkBulk(rule.consistency == FullyConsistent, QueriesOf(plan));
    answers.Some? && |answers.value| >= |plan| && forall i :: 0 <= i < |plan| ==> answers.value[i] == Permitted
  }

  ghost predicate ResourceAllowed(cfg: Config, c: Compiled, r: HttpRequest, id: Identity, w: World)
    requires Serves(c, Asked(r))
  {
    && StepUpSatisfied(c.rule, id)
    && var resource := ResolveResource(c.rule, ParamsOf(c, Asked(r)), id.subject);
       resource.Some? && AllPermitted(cfg, c.rule, resource.value, id, w)
  }

  function Asked(r: HttpRequest): Request {
    Request(r.host, r.verb, r.path)
  }

  ghost predicate IdentityAllowed(cfg: Config, c: Compiled, r: HttpRequest, id: Identity, w: World)
    requires Serves(c, Asked(r))
  {
    && Authenticated(cfg, r, c.rule.authMode, w, id)
    && BoundTo(cfg, r.source, id)
    && (c.rule.callers == [] || r.source in c.rule.callers)
    && (c.rule.authenticatedOnly || ResourceAllowed(cfg, c, r, id, w))
  }

  /** Allowed by rule `c`, with these headers added for the upstream. */
  ghost predicate AllowedBy(cfg: Config, c: Compiled, r: HttpRequest, w: World, headers: map<string, string>)
    requires Serves(c, Asked(r))
  {
    if c.rule.isPublic then headers == map[]
    else exists id :: IdentityAllowed(cfg, c, r, id, w) && headers == UpstreamHeaders(id)
  }

  ghost predicate Allows(cfg: Config, table: seq<Compiled>, r: HttpRequest, w: World, headers: map<string, string>) {
    && PathOnly(r.path) != CALLBACK && PathOnly(r.path) != LOGOUT
    && exists c :: Best(table, c, Asked(r)) && AllowedBy(cfg, c, r, w, headers)
  }

  // ---- the procedure enforces it ----------------------------------------------------------

  ghost predicate Permits(ruling: Ruling, headers: map<string, string>) {
    ruling == Answered(Permit(headers))
  }

  /** The scan permits only on as many plain yeses as there were questions. */
  lemma {:induction false} ScanPermits(
    plan: seq<Question>, answers: seq<Outcome>, id: Identity, headers: map<string, string>)
    ensures Permits(Scan(plan, answers, id), headers)
       <==> headers == UpstreamHeaders(id) && |answers| >= |plan|
            && forall i :: 0 <= i < |plan| ==> answers[i] == Permitted
  {
    if plan != [] && answers != [] {
      ScanPermits(plan[1..], answers[1..], id, headers);
      if answers[0] == Permitted {
        assert (forall i :: 0 <= i < |plan| && i < |answers| ==> answers[i] == Permitted)
          <==> (forall i :: 0 <= i < |plan| - 1 && i < |answers| - 1 ==> answers[1..][i] == Permitted) by {
          assert forall i :: 0 < i < |answers| ==> answers[i] == answers[1..][i - 1];
        }
      }
    }
  }

  lemma AskPermits(cfg: Config, rule: Rule, resource: string, id: Identity, w: World, headers: map<string, string>)
    ensures Permits(Ask(cfg, rule, resource, id, w), headers)
       <==> headers == UpstreamHeaders(id) && AllPermitted(cfg, rule, resource, id, w)
  {
    var plan := Plan(cfg, rule, resource, id);
    var answers := w.checkBulk(rule.consistency == FullyConsistent, QueriesOf(plan));
    if answers.Some? {
      ScanPermits(plan, answers.value, id, headers);
    }
  }

  lemma IdentifyKnows(cfg: Config, r: HttpRequest, mode: AuthMode, w: World, id: Identity)
    ensures Identify(cfg, r, mode, w).0 == Known(id) <==> Authenticated(cfg, r, mode, w, id)
  {
  }

  lemma BindingPasses(cfg: Config, source: string, id: Identity)
    ensures ActorBinding(cfg, source, id).None? <==> BoundTo(cfg, source, id)
  {
  }

  lemma DecideForPermits(
    cfg: Config, c: Compiled, params: Params, r: HttpRequest, id: Identity, w: World, headers: map<string, string>)
    requires Serves(c, Asked(r)) && params == ParamsOf(c, Asked(r)) && Authenticated(cfg, r, c.rule.authMode, w, id)
    ensures Permits(DecideFor(cfg, Some((c, params)), r, id, w), headers)
       <==> headers == UpstreamHeaders(id) && IdentityAllowed(cfg, c, r, id, w)
  {
    BindingPasses(cfg, r.source, id);
    if ActorBinding(cfg, r.source, id).None? && CheckWorkload(c.rule, r.source).None? && !c.rule.authenticatedOnly {
      ResourcePermits(cfg, c, params, r, id, w, headers);
    }
  }

  /** From the step-up gate on: what follows once caller and workload are accepted. */
  lemma ResourcePermits(
    cfg: Config, c: Compiled, params: Params, r: HttpRequest, id: Identity, w: World, headers: map<string, string>)
    requires Serves(c, Asked(r)) && params == ParamsOf(c, Asked(r))
    requires ActorBinding(cfg, r.source, id).None? && CheckWorkload(c.rule, r.source).None? && !c.rule.authenticatedOnly
    ensures Permits(DecideFor(cfg, Some((c, params)), r, id, w), headers)
       <==> headers == UpstreamHeaders(id) && ResourceAllowed(cfg, c, r, id, w)
  {
    var resource := ResolveResource(c.rule, params, id.subject);
    if StepUpGate(c.rule, id).None? && resource.Some? {
      AskPermits(cfg, c.rule, resource.value, id, w, headers);
    }
  }

  /** A response on a rule that is not public permits exactly for an allowed identity. */
  lemma DecidePermitsFor(
    cfg: Config, c: Compiled, params: Params, r: HttpRequest, w: World, headers: map<string, string>)
    requires Serves(c, Asked(r)) && params == ParamsOf(c, Asked(r)) && !c.rule.isPublic
    ensures AllowedBy(cfg, c, r, w, headers)
       <==> Identify(cfg, r, c.rule.authMode, w).0.Known?
            && Permits(DecideFor(cfg, Some((c, params)), r,
                                 Identify(cfg, r, c.rule.authMode, w).0.identity, w), headers)
  {
    var identified := Identify(cfg, r, c.rule.authMode, w).0;
    if identified.Known? {
      IdentifyKnows(cfg, r, c.rule.authMode, w, identified.identity);
      DecideForPermits(cfg, c, params, r, identified.identity, w, headers);
    }
    if AllowedBy(cfg, c, r, w, headers) {
      var id :| IdentityAllowed(cfg, c, r, id, w) && headers == UpstreamHeaders(id);
      IdentifyKnows(cfg, r, c.rule.authMode, w, id);
    }
  }

  /** The policy speaks of the best rule; the table's answer is that rule. */
  lemma AllowsByAnswer(cfg: Config, table: seq<Compiled>, r: HttpRequest, w: World, headers: map<string, string>)
    requires Compiles(cfg.rules, table)
    ensures Answer(table, Asked(r)).Some? ==>
              var (c, params) := Answer(table, Asked(r)).value;
              Best(table, c, Asked(r)) && params == ParamsOf(c, Asked(r))
    ensures Allows(cfg, table, r, w, headers)
       <==> PathOnly(r.path) != CALLBACK && PathOnly(r.path) != LOGOUT && Answer(table, Asked(r)).Some?
            && AllowedBy(cfg, Answer(table, Asked(r)).value.0, r, w, headers)
  {
    MatchIsUniqueBest(cfg.rules, table, Asked(r));
    if Allows(cfg, table, r, w, headers) {
      var c :| Best(table, c, Asked(r)) && AllowedBy(cfg, c, r, w, headers);
      BestIsUnique(table, c, Answer(table, Asked(r)).value.0, Asked(r));
    }
  }

  /** Permitted if and only if the policy allows it, whatever every collaborator answers. */
  lemma PermitsExactlyPolicy(cfg: Config, table: seq<Compiled>, r: HttpRequest, w: World, headers: map<string, string>)
    requires Compiles(cfg.rules, table)
    ensures Permits(Decide(cfg, table, r, w).0, headers) <==> Allows(cfg, table, r, w, headers)
  {
    AllowsByAnswer(cfg, table, r, w, headers);
    var found := Answer(table, Asked(r));
    if PathOnly(r.path) != CALLBACK && PathOnly(r.path) != LOGOUT {
      if found.Some? {
        if !found.value.0.rule.isPublic {
          DecidePermitsFor(cfg, found.value.0, found.value.1, r, w, headers);
        }
      }
    }
  }

  /** The first answer that is not a plain yes gives the refusal: its question's reason, unless it was conditional. */
  lemma {:induction false} ScanStopsAtFirst(plan: seq<Question>, answers: seq<Outcome>, id: Identity, k: nat)
    requires k < |plan| && k < |answers| && answers[k] != Permitted
    requires forall i :: 0 <= i < k ==> answers[i] == Permitted
    ensures Scan(plan, answers, id)
         == Answered(Deny(403, if answers[k] == Conditional then ConditionalResult else plan[k].reason,
                          plan[k].challenge))
  {
    if k > 0 {
      assert plan[1..][k - 1] == plan[k] && answers[1..][k - 1] == answers[k];
      ScanStopsAtFirst(plan[1..], answers[1..], id, k - 1);
    }
  }

  // ---- when a decision panics ------------------------------------------------------------------

  /** The scan runs off the end exactly when the answers are too few and all of them yes. */
  lemma {:induction false} PanicsExactly(plan: seq<Question>, answers: seq<Outcome>, id: Identity)
    ensures Scan(plan, answers, id) == Panicked
       <==> |answers| < |plan| && forall i :: 0 <= i < |answers| ==> answers[i] == Permitted
  {
    if plan != [] && answers != [] {
      PanicsExactly(plan[1..], answers[1..], id);
      assert forall i :: 0 < i < |answers| ==> answers[i] == answers[1..][i - 1];
    }
  }

  /** The backend answers each question or none. */
  ghost predicate AnswersEach(w: World) {
    forall full, queries :: w.checkBulk(full, queries).Some? ==> |w.checkBulk(full, queries).value| == |queries|
  }

  /** With such a backend no decision panics. */
  lemma NeverPanics(cfg: Config, table: seq<Compiled>, r: HttpRequest, w: World)
    requires AnswersEach(w)
    ensures Decide(cfg, table, r, w).0 != Panicked
  {
    forall rule, resource, id ensures Ask(cfg, rule, resource, id, w) != Panicked {
      AskNeverPanics(cfg, rule, resource, id, w);
    }
  }

  lemma AskNeverPanics(cfg: Config, rule: Rule, resource: string, id: Identity, w: World)
    requires AnswersEach(w)
    ensures Ask(cfg, rule, resource, id, w) != Panicked
  {
    var plan := Plan(cfg, rule, resource, id);
    var answers := w.checkBulk(rule.consistency == FullyConsistent, QueriesOf(plan));
    if answers.Some? {
      PanicsExactly(plan, answers.value, id);
    }
  }
}
