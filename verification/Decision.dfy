/**
 One authorization decision, as a function of the configuration, the route table,
 the request and what the outside world answers. Beside the response it lists the
 session-store writes the decision makes.
 */
module Decision {
  import opened Wrappers
  import opened Text
  import opened Schema
  import opened Store
  import opened Config
  import opened Routes
  import opened Sessions

  /** `query` is the parsed query string of `path`; header names are lower case. */
  datatype HttpRequest = HttpRequest(
    verb: string,
    path: string,
    query: map<string, string>,
    host: string,
    scheme: string,
    headers: map<string, string>,
    source: string)

  function HeaderOf(r: HttpRequest, name: string): string {
    if name in r.headers then r.headers[name] else ""
  }

  function QueryParam(m: map<string, string>, name: string): string {
    if name in m then m[name] else ""
  }

  /** A verified access token's claims; `acr` is -1 when absent or not a number. */
  datatype Claims = Claims(subject: string, azp: string, display: string, acr: int)

  datatype Tokens = Tokens(access: string, refresh: string, id: string, expiresIn: int)

  /** Values drawn from the random source for one login. */
  datatype Fresh = Fresh(state: string, nonce: string, verifier: string, id: string)

  /**
   Everything outside the pipeline, as arbitrary functions: clock, token verifier,
   identity provider, session store, random source and permission backend.
   */
  datatype World = World(
    now: int,
    verify: string -> Option<Claims>,
    exchange: (string, string, string, string, string) -> Option<Tokens>,
    refresh: (string, string, string) -> Option<Tokens>,
    nonceOf: string -> Option<string>,
    session: string -> Option<Session>,
    putOk: bool,
    drawn: Option<Fresh>,
    checkBulk: (bool, seq<Query>) -> Option<seq<Outcome>>)

  datatype Kind = Human | System | AgentActor

  /** `agent` is the agent's object id when an agent acts for the subject. */
  datatype Identity = Identity(
    kind: Kind, subject: string, application: string, display: string, token: string, agent: string, acr: int)

  function SubjectOf(id: Identity): Object {
    Object(if id.kind == System then SystemPrincipal else User, id.subject)
  }

  datatype Reason =
    | TokenInvalid
    | NoSession
    | UnknownApplication
    | InternalError
    | NoRouteMatch
    | ActorNotBound
    | WorkloadNotRegistered
    | StepUpRequired
    | PermissionDenied
    | ConsentRequired
    | AgentNotEnrolled
    | DelegationRequired
    | ConditionalResult
    | BackendUnavailable

  /** What a denial tells the caller to do next. */
  datatype Challenge =
    | NoChallenge
    | StepUpChallenge(capability: string, minAcr: int)
    | ConsentChallenge(application: string, capability: string)
    | DelegationChallenge(agent: string, capability: string)

  datatype Target =
    | Authorize(client: string, redirectUri: string, state: string, nonce: string, verifier: string)
    | ReturnTo(url: string)
    | EndSession(idToken: string, home: string)

  datatype SetCookie = SetCookie(id: string, ttl: int) | ClearCookie

  datatype Response =
    | Permit(headers: map<string, string>)
    | Deny(status: int, reason: Reason, challenge: Challenge)
    | Redirect(target: Target, cookie: SetCookie)

  function Refuse(status: int, reason: Reason): Response {
    Deny(status, reason, NoChallenge)
  }

  /** Session-store writes that took effect. */
  datatype StoreOp = Keep(session: Session, ttl: int) | Drop(id: string)

  datatype Identified = Known(identity: Identity) | Stopped(response: Response)

  /** `Panicked` is an index past the end of the backend's answers. */
  datatype Ruling = Answered(response: Response) | Panicked

  // ---- reading the request ------------------------------------------------------

  const CALLBACK: string := "/_id/callback"
  const LOGOUT: string := "/_id/logout"
  const BLANKS: set<char> := {' ', '\t', '\r', '\n', '\U{000B}', '\U{000C}'}

  function Bearer(r: HttpRequest): string {
    var v := HeaderOf(r, "authorization");
    if |v| > 7 && ToLower(v[..7]) == "bearer " then Trim(v[7..], BLANKS) else ""
  }

  /** The value of the first cookie with this name. */
  function CookieIn(parts: seq<string>, name: string): string {
    if parts == [] then ""
    else
      var part := Trim(parts[0], BLANKS);
      if '=' in part && UpTo(part, {'='}) == name then AfterEquals(part) else CookieIn(parts[1..], name)
  }

  function AfterEquals(part: string): string {
    if part == "" then "" else if part[0] == '=' then part[1..] else AfterEquals(part[1..])
  }

  function SessionId(cfg: Config, r: HttpRequest): string {
    CookieIn(Split(HeaderOf(r, "cookie"), ';'), cfg.cookie.name)
  }

  predicate WantsHtml(r: HttpRequest) {
    r.verb == "GET" && Contains(HeaderOf(r, "accept"), "text/html")
  }

  function ForwardedScheme(r: HttpRequest): string {
    var scheme := if HeaderOf(r, "x-forwarded-proto") != "" then HeaderOf(r, "x-forwarded-proto") else r.scheme;
    if scheme == "" then "http" else scheme
  }

  function ExternalUrl(r: HttpRequest): string {
    ForwardedScheme(r) + "://" + r.host + r.path
  }

  function RedirectUri(r: HttpRequest): string {
    ForwardedScheme(r) + "://" + r.host + CALLBACK
  }

  // ---- who is asking ----------------------------------------------------------------

  /** Where identification stopped, or the refusal that stands for going on. */
  function Stops(who: Identified): Response {
    if who.Stopped? then who.response else Refuse(401, NoSession)
  }

  /** The registries decide what kind of caller a verified token names. */
  function FromClaims(cfg: Config, c: Claims, raw: string): (who: Identified)
    ensures !Stops(who).Permit?
    ensures who.Known? ==> who.identity.token == raw
  {
    match AgentByClient(cfg.agents, c.azp)
    case Some(agent) => Known(Identity(AgentActor, c.subject, c.azp, c.display, raw, agent.objectId, c.acr))
    case None =>
      if c.azp in cfg.systemPrincipals then
        var principal := cfg.systemPrincipals[c.azp];
        Known(Identity(System, principal, c.azp, principal, raw, "", 0))
      else if AppByName(cfg.applications, c.azp).None? then Stopped(Refuse(403, UnknownApplication))
      else Known(Identity(Human, c.subject, c.azp, c.display, raw, "", c.acr))
  }

  function Pending(cfg: Config, app: App, r: HttpRequest, f: Fresh): Session {
    Session(f.id, app.name, false, f.state, f.nonce, f.verifier, ExternalUrl(r), "", "", "", 0, "", "", 0, 0)
  }

  /** Begins the code flow for a browser; denies anything else. */
  function StartLogin(cfg: Config, r: HttpRequest, w: World): (started: (Response, seq<StoreOp>))
    ensures !started.0.Permit?
  {
    var app := AppForHost(cfg.applications, r.host);
    if app.None? || !WantsHtml(r) then (Refuse(401, NoSession), [])
    else if w.drawn.None? || !w.putOk then (Refuse(403, InternalError), [])
    else
      var f := w.drawn.value;
      (Redirect(Authorize(app.value.name, RedirectUri(r), f.state, f.nonce, f.verifier),
       SetCookie(f.id, cfg.cookie.pendingTtl)),
       [Keep(Pending(cfg, app.value, r, f), cfg.cookie.pendingTtl)])
  }

  /** Fifteen seconds before the access token expires it counts as stale. */
  predicate Stale(s: Session, now: int) {
    now > s.expiresAt - 15 * SECOND
  }

  function Refreshed(s: Session, t: Tokens, now: int): Session {
    s.(accessToken := t.access,
       refreshToken := if t.refresh != "" then t.refresh else s.refreshToken,
       expiresAt := now + t.expiresIn * SECOND)
  }

  /** Stops and starts a login, after the session writes already made. */
  function Restart(cfg: Config, r: HttpRequest, w: World, done: seq<StoreOp>): (who: (Identified, seq<StoreOp>))
    ensures who.0.Stopped? && !who.0.response.Permit?
  {
    var (response, ops) := StartLogin(cfg, r, w);
    (Stopped(response), done + ops)
  }

  /** A session whose access token is current, renewed first when stale. */
  function FromSession(cfg: Config, r: HttpRequest, w: World, sid: string, s: Session, done: seq<StoreOp>)
    : (who: (Identified, seq<StoreOp>))
    ensures !Stops(who.0).Permit?
    ensures who.0.Known? ==>
              && w.verify(s.accessToken).Some?
              && who.0 == FromClaims(cfg, w.verify(s.accessToken).value, s.accessToken)
  {
    match w.verify(s.accessToken)
    case None => Restart(cfg, r, w, done + [Drop(sid)])
    case Some(c) => (FromClaims(cfg, c, s.accessToken), done)
  }

  function IdentifyBySession(cfg: Config, r: HttpRequest, w: World): (who: (Identified, seq<StoreOp>))
    ensures !Stops(who.0).Permit?
  {
    var sid := SessionId(cfg, r);
    if sid == "" then Restart(cfg, r, w, [])
    else
      match w.session(sid)
      case None => Restart(cfg, r, w, [])
      case Some(s) =>
        if !s.authenticated then Restart(cfg, r, w, [])
        else if !Stale(s, w.now) then FromSession(cfg, r, w, sid, s, [])
        else
          match AppByName(cfg.applications, s.application)
          case None => Restart(cfg, r, w, [])
          case Some(app) =>
            match w.refresh(app.name, app.clientSecret, s.refreshToken)
            case None => Restart(cfg, r, w, [Drop(sid)])
            case Some(t) =>
              var renewed := Refreshed(s, t, w.now);
              if !w.putOk then (Stopped(Refuse(403, InternalError)), [])
              else FromSession(cfg, r, w, sid, renewed, [Keep(renewed, cfg.cookie.ttl)])
  }

  function Identify(cfg: Config, r: HttpRequest, mode: AuthMode, w: World): (who: (Identified, seq<StoreOp>))
    ensures !Stops(who.0).Permit?
  {
    if Bearer(r) != "" && mode != SessionMode then
      match w.verify(Bearer(r))
      case None => (Stopped(Refuse(401, TokenInvalid)), [])
      case Some(c) => (FromClaims(cfg, c, Bearer(r)), [])
    else if mode == BearerMode then (Stopped(Refuse(401, NoSession)), [])
    else IdentifyBySession(cfg, r, w)
  }

  // ---- the login endpoints ---------------------------------------------------------------

  function HandleCallback(cfg: Config, r: HttpRequest, w: World): (answer: (Response, seq<StoreOp>))
    ensures !answer.0.Permit?
  {
    var code, state := QueryParam(r.query, "code"), QueryParam(r.query, "state");
    var sid := SessionId(cfg, r);
    if QueryParam(r.query, "error") != "" then (Refuse(403, TokenInvalid), [])
    else if sid == "" || code == "" || state == "" then (Refuse(400, TokenInvalid), [])
    else
      match w.session(sid)
      case None => (Refuse(400, NoSession), [])
      case Some(s) =>
        Redeem(cfg, r, w, sid, s, code, state)
  }

  /** The code of a pending session bought back for tokens, and the session replaced under a new id. */
  function Redeem(cfg: Config, r: HttpRequest, w: World, sid: string, s: Session, code: string, state: string)
    : (answer: (Response, seq<StoreOp>))
    ensures !answer.0.Permit?
  {
    if s.state == "" || s.state != state then (Refuse(400, TokenInvalid), [])
    else
      match AppByName(cfg.applications, s.application)
      case None => (Refuse(403, UnknownApplication), [])
      case Some(app) =>
        match w.exchange(app.name, app.clientSecret, code, RedirectUri(r), s.codeVerifier)
        case None => (Refuse(403, TokenInvalid), [])
        case Some(t) =>
          if t.id != "" && w.nonceOf(t.id) != Some(s.nonce) then (Refuse(403, TokenInvalid), [])
          else
            match w.verify(t.access)
            case None => (Refuse(403, TokenInvalid), [])
            case Some(c) =>
              if w.drawn.None? then (Refuse(403, InternalError), [])
              else if !w.putOk then (Refuse(403, InternalError), [Drop(sid)])
              else
                var back := if s.returnTo != "" then s.returnTo else r.scheme + "://" + r.host + "/";
                (Redirect(ReturnTo(back), SetCookie(w.drawn.value.id, cfg.cookie.ttl)),
                 [Drop(sid), Keep(LoggedIn(w.drawn.value.id, app, t, c, w.now), cfg.cookie.ttl)])
  }

  function LoggedIn(id: string, app: App, t: Tokens, c: Claims, now: int): Session {
    Session(id, app.name, true, "", "", "", "", t.access, t.refresh, t.id, now + t.expiresIn * SECOND,
            c.subject, c.display, 0, 0)
  }

  function HandleLogout(cfg: Config, r: HttpRequest, w: World): (answer: (Response, seq<StoreOp>))
    ensures !answer.0.Permit?
  {
    var sid := SessionId(cfg, r);
    var scheme := if HeaderOf(r, "x-forwarded-proto") != "" then HeaderOf(r, "x-forwarded-proto") else r.scheme;
    var home := scheme + "://" + r.host + "/";
    if sid == "" then (Redirect(EndSession("", home), ClearCookie), [])
    else
      var idToken := match w.session(sid) case Some(s) => s.idToken case None => "";
      (Redirect(EndSession(idToken, home), ClearCookie), [Drop(sid)])
  }

  // ---- the gates before the backend is asked ------------------------------------------------

  /** A workload bound to an agent presents only that agent; a bound agent comes only from its workload. */
  function ActorBinding(cfg: Config, source: string, id: Identity): Option<Response> {
    match AgentByWorkload(cfg.agents, source)
    case Some(bound) =>
      if id.kind != AgentActor || id.agent != bound.objectId then Some(Refuse(403, ActorNotBound)) else None
    case None =>
      if id.kind == AgentActor && AgentByClient(cfg.agents, id.application).Some?
         && AgentByClient(cfg.agents, id.application).value.workload != ""
      then Some(Refuse(403, ActorNotBound)) else None
  }

  function CheckWorkload(rule: Rule, source: string): Option<Response> {
    if rule.callers == [] || source in rule.callers then None else Some(Refuse(403, WorkloadNotRegistered))
  }

  function StepUpGate(rule: Rule, id: Identity): Option<Response> {
    if rule.stepUp && (id.kind == AgentActor || id.kind == System || id.acr < rule.stepUpMinAcr) then
      Some(Deny(403, StepUpRequired, StepUpChallenge(rule.capability, rule.stepUpMinAcr)))
    else None
  }

  function ResolveResource(rule: Rule, params: Params, subject: string): Option<string> {
    match rule.resourceId
    case FromPrincipal => Some(subject)
    case FromLiteral(id) => Some(id)
    case FromPath(name) => if name in params && params[name] != "" then Some(params[name]) else None
    case UnsupportedSource(_) => None
  }

  // ---- the questions ------------------------------------------------------------------------------

  datatype Question = Question(query: Query, reason: Reason, challenge: Challenge)

  predicate ConsentApplies(cfg: Config, rule: Rule, id: Identity) {
    && rule.consentRequired
    && id.kind == Human
    && !(AppByName(cfg.applications, id.application).Some?
         && AppByName(cfg.applications, id.application).value.firstParty)
  }

  function PermissionQuestion(rule: Rule, resource: string, id: Identity): Question {
    Question(Query(Object(rule.resourceType, resource), rule.permission, SubjectOf(id)), PermissionDenied, NoChallenge)
  }

  function ConsentQuestion(rule: Rule, id: Identity): Question {
    Question(Query(Object(ConsentGrant, PairId(id.subject, id.application)),
                   Includes, Object(Capability, rule.capability)),
             ConsentRequired, ConsentChallenge(id.application, rule.capability))
  }

  function EnrolmentQuestion(id: Identity): Question {
    Question(EnrolmentQuery(id.agent, id.subject), AgentNotEnrolled, NoChallenge)
  }

  function DelegationQuestion(rule: Rule, id: Identity): Question {
    Question(Query(Object(Delegation, PairId(id.subject, id.agent)), Includes, Object(Capability, rule.capability)),
             DelegationRequired, DelegationChallenge(id.agent, rule.capability))
  }

  function Plan(cfg: Config, rule: Rule, resource: string, id: Identity): seq<Question> {
    [PermissionQuestion(rule, resource, id)]
    + (if ConsentApplies(cfg, rule, id) then [ConsentQuestion(rule, id)] else [])
    + (if id.kind == AgentActor then [EnrolmentQuestion(id)] else [])
    + (if id.kind == AgentActor && rule.capability != "" then [DelegationQuestion(rule, id)] else [])
  }

  function QueriesOf(plan: seq<Question>): seq<Query> {
    seq(|plan|, i requires 0 <= i < |plan| => plan[i].query)
  }

  function Classify(o: Outcome, q: Question): Option<Response> {
    match o
    case Permitted => None
    case Conditional => Some(Deny(403, ConditionalResult, q.challenge))
    case Denied => Some(Deny(403, q.reason, q.challenge))
  }

  function UpstreamHeaders(id: Identity): map<string, string> {
    var h := map["x-user-id" := id.subject, "x-user-name" := id.display, "x-application" := id.application];
    if id.token != "" then h["authorization" := "Bearer " + id.token] else h
  }

  /** The first answer that is not a plain yes decides. */
  function Scan(plan: seq<Question>, answers: seq<Outcome>, id: Identity): Ruling {
    if plan == [] then Answered(Permit(UpstreamHeaders(id)))
    else if answers == [] then Panicked
    else
      match Classify(answers[0], plan[0])
      case Some(refusal) => Answered(refusal)
      case None => Scan(plan[1..], answers[1..], id)
  }

  function Ask(cfg: Config, rule: Rule, resource: string, id: Identity, w: World): Ruling {
    var plan := Plan(cfg, rule, resource, id);
    match w.checkBulk(rule.consistency == FullyConsistent, QueriesOf(plan))
    case None => Answered(Refuse(403, BackendUnavailable))
    case Some(answers) => Scan(plan, answers, id)
  }

  // ---- the whole decision -----------------------------------------------------------------------------

  /** After identity: binding, route, workload, step-up, resource, questions. */
  function DecideFor(cfg: Config, found: Option<(Compiled, Params)>, r: HttpRequest, id: Identity, w: World): Ruling {
    if ActorBinding(cfg, r.source, id).Some? then Answered(ActorBinding(cfg, r.source, id).value)
    else if found.None? then Answered(Refuse(403, NoRouteMatch))
    else
      var rule, params := found.value.0.rule, found.value.1;
      if CheckWorkload(rule, r.source).Some? then Answered(CheckWorkload(rule, r.source).value)
      else if rule.authenticatedOnly then Answered(Permit(UpstreamHeaders(id)))
      else if StepUpGate(rule, id).Some? then Answered(StepUpGate(rule, id).value)
      else
        match ResolveResource(rule, params, id.subject)
        case None => Answered(Refuse(403, InternalError))
        case Some(resource) => Ask(cfg, rule, resource, id, w)
  }

  function ModeOf(found: Option<(Compiled, Params)>): AuthMode {
    if found.Some? then found.value.0.rule.authMode else EitherMode
  }

  /** Every request that is not one of the two login endpoints, with the rule found for it. */
  function DecideFound(cfg: Config, found: Option<(Compiled, Params)>, r: HttpRequest, w: World)
    : (Ruling, seq<StoreOp>) {
    if found.Some? && found.value.0.rule.isPublic then (Answered(Permit(map[])), [])
    else
      var (identified, ops) := Identify(cfg, r, ModeOf(found), w);
      match identified
      case Stopped(response) => (Answered(response), ops)
      case Known(id) => (DecideFor(cfg, found, r, id, w), ops)
  }

  function Decide(cfg: Config, table: seq<Compiled>, r: HttpRequest, w: World): (Ruling, seq<StoreOp>) {
    if PathOnly(r.path) == CALLBACK then
      var (response, ops) := HandleCallback(cfg, r, w);
      (Answered(response), ops)
    else if PathOnly(r.path) == LOGOUT then
      var (response, ops) := HandleLogout(cfg, r, w);
      (Answered(response), ops)
    else DecideFound(cfg, FirstMatch(table, r.host, r.verb, r.path), r, w)
  }
}
