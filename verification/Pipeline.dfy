/**
 The pipeline as it runs: a snapshot read once per request, a session store it
 reads and writes, a plan it builds and scans. Each method is proved equal to the
 decision function on the store's live sessions.
 */
module Pipeline {
  import opened Wrappers
  import opened Text
  import opened Schema
  import opened Config
  import opened Routes
  import opened TableOrder
  import opened Sessions
  import opened Decision
  import opened Policy
  import opened SessionWrites

  // ---- snapshots ---------------------------------------------------------------------------

  /** A configuration and the table compiled from it, always together. */
  class Snapshot {
    const config: Config
    const table: Table

    constructor (config: Config, table: Table)
      ensures this.config == config && this.table == table
    {
      this.config := config;
      this.table := table;
    }

    ghost predicate Valid()
      reads this, table
    {
      Compiles(config.rules, table.rules)
    }
  }

  method NewSnapshot(config: Config) returns (result: Result<Snapshot, CompileError>)
    ensures result.Ok? ==> fresh(result.value) && fresh(result.value.table) && result.value.Valid()
    ensures result.Ok? ==> result.value.config == config
    ensures result.Ok? <==> Installable(config.rules)
  {
    var compiled := Compile(config.rules);
    if compiled.Err? {
      return Err(compiled.error);
    }
    var snapshot := new Snapshot(config, compiled.value);
    return Ok(snapshot);
  }

  class Pipeline {
    var snapshot: Snapshot
    const sessions: MemStore

    constructor (snapshot: Snapshot, sessions: MemStore)
      ensures this.snapshot == snapshot && this.sessions == sessions
    {
      this.snapshot := snapshot;
      this.sessions := sessions;
    }

    /** Callers may only pass a snapshot that compiled. */
    method Swap(next: Snapshot)
      requires next.Valid()
      modifies this
      ensures snapshot == next
    {
      snapshot := next;
    }

    /** Begins the code flow, keeping the pending session. */
    method BeginLogin(cfg: Config, r: HttpRequest, w: World) returns (response: Response, ghost ops: seq<StoreOp>)
      modifies sessions
      ensures forall c :: (response, ops) == StartLogin(cfg, r, WithStore(w, c))
      ensures sessions.Contents() == Made(old(sessions.Contents()), ops, w.now)
    {
      ops := [];
      var app := AppForHost(cfg.applications, r.host);
      if app.None? || !WantsHtml(r) {
        return Refuse(401, NoSession), ops;
      }
      if w.drawn.None? {
        return Refuse(403, InternalError), ops;
      }
      var f := w.drawn.value;
      var pending := new SessionRef(Pending(cfg, app.value, r, f));
      ghost var c := sessions.Contents();
      assert c == old(sessions.Contents());
      ops := [Keep(pending.value, cfg.cookie.pendingTtl)];
      MadeOne(c, ops[0], w.now);
      sessions.Put(pending, cfg.cookie.pendingTtl, w.now);
      response := Redirect(Authorize(app.value.name, RedirectUri(r), f.state, f.nonce, f.verifier),
                           SetCookie(f.id, cfg.cookie.pendingTtl));
    }

    /** Starts over after the session writes `done`. */
    method RestartLogin(cfg: Config, r: HttpRequest, w: World, ghost base: Contents, ghost done: seq<StoreOp>)
      returns (who: Identified, ghost ops: seq<StoreOp>)
      requires sessions.Contents() == Made(base, done, w.now)
      modifies sessions
      ensures forall c :: (who, ops) == Restart(cfg, r, WithStore(w, c), done)
      ensures sessions.Contents() == Made(base, ops, w.now)
    {
      var response, started := BeginLogin(cfg, r, w);
      MadeConcat(base, done, started, w.now);
      ops := done + started;
      who := Stopped(response);
    }

    /** Verifies the session's current access token; drops a session that fails. */
    method Resume(
      cfg: Config, r: HttpRequest, w: World, sid: string, s: Session, ghost base: Contents, ghost done: seq<StoreOp>)
      returns (who: Identified, ghost ops: seq<StoreOp>)
      requires sessions.Contents() == Made(base, done, w.now)
      modifies sessions
      ensures forall c :: (who, ops) == FromSession(cfg, r, WithStore(w, c), sid, s, done)
      ensures sessions.Contents() == Made(base, ops, w.now)
    {
      var claims := w.verify(s.accessToken);
      if claims.None? {
        MadeOneMore(base, done, Drop(sid), w.now);
        sessions.Delete(sid, w.now);
        who, ops := RestartLogin(cfg, r, w, base, done + [Drop(sid)]);
        return;
      }
      return FromClaims(cfg, claims.value, s.accessToken), done;
    }

    /** The principal, from the bearer token or from the session, renewing a stale session. */
    method IdentifyCaller(cfg: Config, r: HttpRequest, mode: AuthMode, w: World)
      returns (who: Identified, ghost ops: seq<StoreOp>)
      modifies sessions
      ensures (who, ops) == Identify(cfg, r, mode, WithStore(w, old(sessions.Contents())))
      ensures Forgets(sessions.Contents(), Made(old(sessions.Contents()), ops, w.now), w.now)
    {
      var raw := Bearer(r);
      if raw != "" && mode != SessionMode {
        var claims := w.verify(raw);
        if claims.None? {
          return Stopped(Refuse(401, TokenInvalid)), [];
        }
        return FromClaims(cfg, claims.value, raw), [];
      }
      if mode == BearerMode {
        return Stopped(Refuse(401, NoSession)), [];
      }
      who, ops := IdentifySession(cfg, r, w);
    }

    method IdentifySession(cfg: Config, r: HttpRequest, w: World) returns (who: Identified, ghost ops: seq<StoreOp>)
      modifies sessions
      ensures (who, ops) == IdentifyBySession(cfg, r, WithStore(w, old(sessions.Contents())))
      ensures Forgets(sessions.Contents(), Made(old(sessions.Contents()), ops, w.now), w.now)
    {
      ghost var given := sessions.Contents();
      var sid := SessionId(cfg, r);
      if sid == "" {
        who, ops := RestartLogin(cfg, r, w, given, []);
        return;
      }
      var sess := sessions.Get(sid, w.now);
      ghost var base := sessions.Contents();
      GetForgets(given, sid, w.now);
      if sess == null {
        who, ops := RestartLogin(cfg, r, w, base, []);
        MadeForgets(base, given, ops, w.now);
        return;
      }
      who, ops := IdentifyLive(cfg, r, w, sid, sess, base);
      MadeForgets(base, given, ops, w.now);
    }

    /** What follows once the cookie's session has been read. */
    method IdentifyLive(cfg: Config, r: HttpRequest, w: World, sid: string, sess: SessionRef, ghost base: Contents)
      returns (who: Identified, ghost ops: seq<StoreOp>)
      requires sessions.Contents() == base && forall id :: id in sessions.data ==> sessions.data[id] != sess
      modifies sessions, sess
      ensures forall c ::
                SessionsAt(c, w.now)(sid) == Some(old(sess.value)) && sid == SessionId(cfg, r) && sid != "" ==>
                  (who, ops) == IdentifyBySession(cfg, r, WithStore(w, c))
      ensures sessions.Contents() == Made(base, ops, w.now)
    {
      if !sess.value.authenticated {
        who, ops := RestartLogin(cfg, r, w, base, []);
        return;
      }
      ops := [];
      if w.now > sess.value.expiresAt - 15 * SECOND {
        var app := AppByName(cfg.applications, sess.value.application);
        if app.None? {
          who, ops := RestartLogin(cfg, r, w, base, []);
          return;
        }
        var tok := w.refresh(app.value.name, app.value.clientSecret, sess.value.refreshToken);
        if tok.None? {
          MadeOne(base, Drop(sid), w.now);
          sessions.Delete(sid, w.now);
          who, ops := RestartLogin(cfg, r, w, base, [Drop(sid)]);
          return;
        }
        sess.value := sess.value.(accessToken := tok.value.access);
        if tok.value.refresh != "" {
          sess.value := sess.value.(refreshToken := tok.value.refresh);
        }
        sess.value := sess.value.(expiresAt := w.now + tok.value.expiresIn * SECOND);
        assert sess.value == Refreshed(old(sess.value), tok.value, w.now);
        assert sessions.Contents() == base;
        MadeOne(base, Keep(sess.value, cfg.cookie.ttl), w.now);
        sessions.Put(sess, cfg.cookie.ttl, w.now);
        ops := [Keep(sess.value, cfg.cookie.ttl)];
      }
      who, ops := Resume(cfg, r, w, sid, sess.value, base, ops);
    }

    /** The permission, consent, enrolment and delegation questions, in one bulk call. */
    method AskBackend(cfg: Config, rule: Rule, resource: string, id: Identity, w: World) returns (ruling: Ruling)
      ensures ruling == Ask(cfg, rule, resource, id, w)
    {
      var plan := [PermissionQuestion(rule, resource, id)];
      if ConsentApplies(cfg, rule, id) {
        plan := plan + [ConsentQuestion(rule, id)];
      }
      if id.kind == AgentActor {
        plan := plan + [EnrolmentQuestion(id)];
        if rule.capability != "" {
          plan := plan + [DelegationQuestion(rule, id)];
        }
      }
      assert plan == Plan(cfg, rule, resource, id);
      var queries: seq<Query> := [];
      for i := 0 to |plan|
        invariant |queries| == i && forall k :: 0 <= k < i ==> queries[k] == plan[k].query
      {
        queries := queries + [plan[i].query];
      }
      assert queries == QueriesOf(plan);
      var answers := w.checkBulk(rule.consistency == FullyConsistent, queries);
      if answers.None? {
        return Answered(Refuse(403, BackendUnavailable));
      }
      ruling := ScanAnswers(plan, answers.value, id);
    }

    /** The loop over outcomes: the first refusal, or a panic past the end of the answers. */
    method ScanAnswers(plan: seq<Question>, answers: seq<Outcome>, id: Identity) returns (ruling: Ruling)
      ensures ruling == Scan(plan, answers, id)
    {
      assert plan[0..] == plan && answers[0..] == answers;
      for i := 0 to |plan|
        invariant i <= |answers|
        invariant Scan(plan, answers, id) == Scan(plan[i..], answers[i..], id)
      {
        assert plan[i..][1..] == plan[i + 1..];
        if i >= |answers| {
          assert answers[i..] == [];
          return Panicked;
        }
        assert answers[i..][1..] == answers[i + 1..];
        var refusal := Classify(answers[i], plan[i]);
        if refusal.Some? {
          return Answered(refusal.value);
        }
      }
      assert plan[|plan|..] == [];
      return Answered(Permit(UpstreamHeaders(id)));
    }

    /** Exchanges the code of a live pending session for an authenticated one under a new id. */
    method Callback(cfg: Config, r: HttpRequest, w: World) returns (response: Response, ghost ops: seq<StoreOp>)
      modifies sessions
      ensures (response, ops) == HandleCallback(cfg, r, WithStore(w, old(sessions.Contents())))
      ensures Forgets(sessions.Contents(), Made(old(sessions.Contents()), ops, w.now), w.now)
    {
      ghost var given := sessions.Contents();
      ops := [];
      var code, state := QueryParam(r.query, "code"), QueryParam(r.query, "state");
      if QueryParam(r.query, "error") != "" {
        return Refuse(403, TokenInvalid), ops;
      }
      var sid := SessionId(cfg, r);
      if sid == "" || code == "" || state == "" {
        return Refuse(400, TokenInvalid), ops;
      }
      var sess := sessions.Get(sid, w.now);
      GetForgets(given, sid, w.now);
      if sess == null {
        return Refuse(400, NoSession), ops;
      }
      ghost var base := sessions.Contents();
      response, ops := CompleteLogin(cfg, r, w, sid, sess.value, code, state, base);
      MadeForgets(base, given, ops, w.now);
    }

    method CompleteLogin(
      cfg: Config, r: HttpRequest, w: World, sid: string, s: Session, code: string, state: string, ghost base: Contents)
      returns (response: Response, ghost ops: seq<StoreOp>)
      requires sessions.Contents() == base
      modifies sessions
      ensures forall c :: (response, ops) == Redeem(cfg, r, WithStore(w, c), sid, s, code, state)
      ensures sessions.Contents() == Made(base, ops, w.now)
    {
      ops := [];
      if s.state == "" || s.state != state {
        return Refuse(400, TokenInvalid), ops;
      }
      var app := AppByName(cfg.applications, s.application);
      if app.None? {
        return Refuse(403, UnknownApplication), ops;
      }
      var tok := w.exchange(app.value.name, app.value.clientSecret, code, RedirectUri(r), s.codeVerifier);
      if tok.None? {
        return Refuse(403, TokenInvalid), ops;
      }
      if tok.value.id != "" {
        if w.nonceOf(tok.value.id) != Some(s.nonce) {
          return Refuse(403, TokenInvalid), ops;
        }
      }
      var claims := w.verify(tok.value.access);
      if claims.None? {
        return Refuse(403, TokenInvalid), ops;
      }
      var returnTo := s.returnTo;
      if returnTo == "" {
        returnTo := r.scheme + "://" + r.host + "/";
      }
      if w.drawn.None? {
        return Refuse(403, InternalError), ops;
      }
      var newId := w.drawn.value.id;
      var authed := LoggedIn(newId, app.value, tok.value, claims.value, w.now);
      ops := ReplaceSession(sid, authed, cfg.cookie.ttl, w.now, base);
      response := Redirect(ReturnTo(returnTo), SetCookie(newId, cfg.cookie.ttl));
    }

    /** A fresh identifier on a change of privilege: the old session goes, the new one comes. */
    method ReplaceSession(sid: string, authed: Session, ttl: int, now: int, ghost base: Contents)
      returns (ghost ops: seq<StoreOp>)
      requires sessions.Contents() == base
      modifies sessions
      ensures ops == [Drop(sid), Keep(authed, ttl)]
      ensures sessions.Contents() == Made(base, ops, now)
    {
      MadeOne(base, Drop(sid), now);
      sessions.Delete(sid, now);
      var kept := new SessionRef(authed);
      MadeOneMore(base, [Drop(sid)], Keep(authed, ttl), now);
      ops := [Drop(sid), Keep(authed, ttl)];
      assert ops == [Drop(sid)] + [Keep(authed, ttl)];
      assert sessions.Contents() == Made(base, [Drop(sid)], now);
      sessions.Put(kept, ttl, now);
    }

    method Logout(cfg: Config, r: HttpRequest, w: World) returns (response: Response, ghost ops: seq<StoreOp>)
      modifies sessions
      ensures (response, ops) == HandleLogout(cfg, r, WithStore(w, old(sessions.Contents())))
      ensures Forgets(sessions.Contents(), Made(old(sessions.Contents()), ops, w.now), w.now)
    {
      ghost var given := sessions.Contents();
      ops := [];
      var idToken := "";
      var sid := SessionId(cfg, r);
      if sid != "" {
        var sess := sessions.Get(sid, w.now);
        GetForgets(given, sid, w.now);
        if sess != null {
          idToken := sess.value.idToken;
        }
        ghost var base := sessions.Contents();
        ops := [Drop(sid)];
        MadeOne(base, Drop(sid), w.now);
        sessions.Delete(sid, w.now);
        MadeForgets(base, given, ops, w.now);
      }
      var home := r.scheme + "://" + r.host + "/";
      if HeaderOf(r, "x-forwarded-proto") != "" {
        home := HeaderOf(r, "x-forwarded-proto") + "://" + r.host + "/";
      }
      response := Redirect(EndSession(idToken, home), ClearCookie);
    }

    /** One decision, made entirely against the snapshot installed when it started. */
    method Check(r: HttpRequest, w: World) returns (ruling: Ruling, ghost ops: seq<StoreOp>)
      modifies sessions
      ensures (ruling, ops)
           == Decide(snapshot.config, snapshot.table.rules, r, WithStore(w, old(sessions.Contents())))
      ensures Forgets(sessions.Contents(), Made(old(sessions.Contents()), ops, w.now), w.now)
    {
      var cfg, table := snapshot.config, snapshot.table;
      ops := [];
      if PathOnly(r.path) == CALLBACK {
        var response;
        response, ops := Callback(cfg, r, w);
        return Answered(response), ops;
      }
      if PathOnly(r.path) == LOGOUT {
        var response;
        response, ops := Logout(cfg, r, w);
        return Answered(response), ops;
      }
      var found := table.Match(r.host, r.verb, r.path);
      ruling, ops := CheckFound(cfg, found, r, w);
    }

    /** Every other request: who is calling, then the gates. */
    method CheckFound(cfg: Config, found: Option<(Compiled, Params)>, r: HttpRequest, w: World)
      returns (ruling: Ruling, ghost ops: seq<StoreOp>)
      modifies sessions
      ensures (ruling, ops) == DecideFound(cfg, found, r, WithStore(w, old(sessions.Contents())))
      ensures Forgets(sessions.Contents(), Made(old(sessions.Contents()), ops, w.now), w.now)
    {
      ops := [];
      if found.Some? && found.value.0.rule.isPublic {
        return Answered(Permit(map[])), ops;
      }
      var who;
      who, ops := IdentifyCaller(cfg, r, ModeOf(found), w);
      if who.Stopped? {
        return Answered(who.response), ops;
      }
      ruling := Decided(cfg, found, r, who.identity, w);
    }

    /** From the actor binding on: the gates in order, then the backend. */
    method Decided(cfg: Config, found: Option<(Compiled, Params)>, r: HttpRequest, id: Identity, w: World)
      returns (ruling: Ruling)
      ensures forall c :: ruling == DecideFor(cfg, found, r, id, WithStore(w, c))
    {
      var binding := ActorBinding(cfg, r.source, id);
      if binding.Some? {
        return Answered(binding.value);
      }
      if found.None? {
        return Answered(Refuse(403, NoRouteMatch));
      }
      var rule, params := found.value.0.rule, found.value.1;
      var registered := CheckWorkload(rule, r.source);
      if registered.Some? {
        return Answered(registered.value);
      }
      if rule.authenticatedOnly {
        return Answered(Permit(UpstreamHeaders(id)));
      }
      var gate := StepUpGate(rule, id);
      if gate.Some? {
        return Answered(gate.value);
      }
      var resource := ResolveResource(rule, params, id.subject);
      if resource.None? {
        return Answered(Refuse(403, InternalError));
      }
      ruling := AskBackend(cfg, rule, resource.value, id, w);
    }
  }

  // ---- the gRPC adapter ------------------------------------------------------------------

  datatype Code = OK | PermissionDenied

  datatype CheckResponse = CheckResponse(code: Code, httpStatus: int, headers: map<string, string>)

  /** Empty header values are not forwarded. */
  function NonEmptyHeaders(h: map<string, string>): map<string, string> {
    map k | k in h && h[k] != "" :: h[k]
  }

  function DeniedWith(status: int, headers: map<string, string>): CheckResponse {
    CheckResponse(Code.PermissionDenied, status, NonEmptyHeaders(headers))
  }

  /** Only a permit becomes OK; a panic becomes a denial. */
  function Translated(ruling: Ruling): CheckResponse {
    match ruling
    case Panicked => DeniedWith(500, map[])
    case Answered(Permit(headers)) => CheckResponse(OK, 200, NonEmptyHeaders(headers))
    case Answered(Redirect(_, _)) => DeniedWith(302, map["cache-control" := "no-store"])
    case Answered(Deny(status, _, _)) =>
      DeniedWith(if status == 0 then 403 else status, map["content-type" := "application/json"])
  }

  /** `lowered` has every raw header under its lower-case name. */
  ghost predicate LowerCasedHeaders(raw: map<string, string>, lowered: map<string, string>) {
    && (forall k :: k in raw ==> ToLower(k) in lowered)
    && forall l :: l in lowered ==> exists k :: k in raw && ToLower(k) == l && raw[k] == lowered[l]
  }

  method LowerHeaders(raw: map<string, string>) returns (headers: map<string, string>)
    ensures LowerCasedHeaders(raw, headers)
  {
    headers := map[];
    var left := raw.Keys;
    while left != {}
      invariant left <= raw.Keys
      invariant forall k :: k in raw && k !in left ==> ToLower(k) in headers
      invariant forall l :: l in headers ==> exists k :: k in raw && ToLower(k) == l && raw[k] == headers[l]
      decreases left
    {
      var k :| k in left;
      left := left - {k};
      headers := headers[ToLower(k) := raw[k]];
    }
  }

  class Server {
    const pipeline: Pipeline

    constructor (pipeline: Pipeline)
      ensures this.pipeline == pipeline
    {
      this.pipeline := pipeline;
    }

    /** `http` is absent when the check carries no HTTP attributes; header names arrive in any case. */
    method Check(http: Option<HttpRequest>, w: World) returns (response: CheckResponse, ghost asked: HttpRequest)
      modifies pipeline.sessions
      ensures http.None? ==> response == DeniedWith(403, map[])
      ensures http.Some? ==>
                && asked == http.value.(headers := asked.headers)
                && LowerCasedHeaders(http.value.headers, asked.headers)
      ensures http.Some? ==>
                response == Translated(Decide(pipeline.snapshot.config, pipeline.snapshot.table.rules, asked,
                                              WithStore(w, old(pipeline.sessions.Contents()))).0)
      ensures http.Some? && old(pipeline.snapshot.Valid()) ==>
                (response.code == OK <==>
                   exists headers ::
                     Allows(pipeline.snapshot.config, pipeline.snapshot.table.rules, asked,
                            WithStore(w, old(pipeline.sessions.Contents())), headers))
    {
      if http.None? {
        asked := HttpRequest("", "", map[], "", "", map[], "");
        return DeniedWith(403, map[]), asked;
      }
      var headers := LowerHeaders(http.value.headers);
      var r := http.value.(headers := headers);
      ghost var seen := WithStore(w, pipeline.sessions.Contents());
      var ruling, _ := pipeline.Check(r, w);
      if pipeline.snapshot.Valid() {
        OkExactlyPolicy(pipeline.snapshot.config, pipeline.snapshot.table.rules, r, seen);
      }
      return Translated(ruling), r;
    }
  }

  /** The gRPC answer is OK if and only if the policy allows the request. */
  lemma OkExactlyPolicy(cfg: Config, table: seq<Compiled>, r: HttpRequest, w: World)
    requires Compiles(cfg.rules, table)
    ensures Translated(Decide(cfg, table, r, w).0).code == OK <==> exists headers :: Allows(cfg, table, r, w, headers)
  {
    var ruling := Decide(cfg, table, r, w).0;
    if Translated(ruling).code == OK {
      PermitsExactlyPolicy(cfg, table, r, w, ruling.response.headers);
    }
    if headers :| Allows(cfg, table, r, w, headers) {
      PermitsExactlyPolicy(cfg, table, r, w, headers);
    }
  }
}
