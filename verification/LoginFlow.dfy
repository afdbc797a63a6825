/**
 A login from end to end: what the browser is sent away with, what its return needs, and
 that the session it ends with can be used, over single requests and over whole runs.
 */
module LoginFlow {
  import opened Wrappers
  import opened Text
  import opened Config
  import opened Routes
  import opened Sessions
  import opened Decision
  import opened SessionWrites
  import opened Logins
  import U = Upstream

  // ---- the way out --------------------------------------------------------------------------

  /** The scheme the browser used: the forwarded one, else the connection's own, else plain HTTP. */
  predicate SeenUnder(r: HttpRequest, scheme: string) {
    if HeaderOf(r, "x-forwarded-proto") != "" then scheme == HeaderOf(r, "x-forwarded-proto")
    else if r.scheme != "" then scheme == r.scheme
    else scheme == "http"
  }

  /** A browser asking for a page of some application's host is sent to log in; everybody else is told 401. */
  lemma SentToLoginExactly(cfg: Config, r: HttpRequest, w: World)
    ensures var response := StartLogin(cfg, r, w).0;
            var browser := r.verb == "GET" && Contains(HeaderOf(r, "accept"), "text/html")
                           && exists i :: 0 <= i < |cfg.applications| && ListsHost(cfg.applications[i], r.host);
            && (response.Redirect? <==> browser && w.drawn.Some? && w.putOk)
            && (!browser ==> response == Deny(401, NoSession, NoChallenge))
            && (browser && !response.Redirect? ==> response == Deny(403, InternalError, NoChallenge))
  {
  }

  /** A request that is sent to log in: where to, with what, and what is kept under the cookie. */
  lemma LoginBegins(cfg: Config, r: HttpRequest, w: World, c: Contents, scheme: string) returns (s: Session)
    requires StartLogin(cfg, r, WithStore(w, c)).0.Redirect? && SeenUnder(r, scheme)
    ensures w.drawn.Some? && s.id == w.drawn.value.id && s.state == w.drawn.value.state
    ensures s.nonce == w.drawn.value.nonce && s.codeVerifier == w.drawn.value.verifier && !s.authenticated
    ensures s.returnTo == scheme + "://" + r.host + r.path
    ensures exists i ::
              0 <= i < |cfg.applications| && cfg.applications[i].name == s.application
              && ListsHost(cfg.applications[i], r.host)
              && forall j :: 0 <= j < i ==> !ListsHost(cfg.applications[j], r.host)
    ensures StartLogin(cfg, r, WithStore(w, c)).0
         == Redirect(Authorize(s.application, scheme + "://" + r.host + "/_id/callback",
                               s.state, s.nonce, s.codeVerifier),
                     SetCookie(s.id, cfg.cookie.pendingTtl))
    ensures LiveAt(Made(c, StartLogin(cfg, r, WithStore(w, c)).1, w.now), s.id, w.now)
         == if cfg.cookie.pendingTtl < 0 then None else Some(Stamped(s, cfg.cookie.pendingTtl, w.now))
  {
    var ops := StartLogin(cfg, r, WithStore(w, c)).1;
    s := ops[0].session;
    MadeOne(c, ops[0], w.now);
  }

  // ---- the way back --------------------------------------------------------------------------

  /** What a callback with this session must bring to log its caller in. */
  ghost predicate Earns(cfg: Config, r: HttpRequest, w: World, s: Session, t: Tokens, claims: Claims) {
    Returns(cfg, r, w, s) && Proven(cfg, r, w, s, t, claims)
  }

  /** A callback logs its caller in exactly when the provider reports no error and everything checks out. */
  lemma CallbackSucceedsExactly(cfg: Config, r: HttpRequest, w: World)
    requires PathOnly(r.path) == CALLBACK
    ensures HandleCallback(cfg, r, w).0.Redirect?
       <==> && QueryParam(r.query, "error") == ""
            && QueryParam(r.query, "code") != "" && SessionId(cfg, r) != ""
            && w.drawn.Some? && w.putOk
            && exists s, t, claims :: Earns(cfg, r, w, s, t, claims)
  {
    if HandleCallback(cfg, r, w).0.Redirect? {
      var s := w.session(SessionId(cfg, r)).value;
      var t := Exchanged(AppByName(cfg.applications, s.application).value, r, w, s).value;
      assert Earns(cfg, r, w, s, t, w.verify(t.access).value);
    }
  }

  /** What it then keeps and answers, for the tokens that earned it. */
  lemma CallbackKeepsTokens(cfg: Config, r: HttpRequest, w: World, s: Session, t: Tokens, claims: Claims)
    returns (kept: Session)
    requires HandleCallback(cfg, r, w).0.Redirect? && Earns(cfg, r, w, s, t, claims)
    ensures HandleCallback(cfg, r, w).1 == [Drop(SessionId(cfg, r)), Keep(kept, cfg.cookie.ttl)]
    ensures w.drawn.Some? && kept.id == w.drawn.value.id
    ensures HandleCallback(cfg, r, w).0.cookie == SetCookie(kept.id, cfg.cookie.ttl)
    ensures s.returnTo != "" ==> HandleCallback(cfg, r, w).0.target == ReturnTo(s.returnTo)
    ensures kept.authenticated && kept.accessToken == t.access && kept.refreshToken == t.refresh
    ensures kept.idToken == t.id && kept.subject == claims.subject && kept.application == s.application
    ensures kept.expiresAt == w.now + t.expiresIn * 1_000_000_000
  {
    kept := HandleCallback(cfg, r, w).1[1].session;
  }

  /**
   A browser sent to log in, that returns within the time limit with its cookie, the state and a code the
   provider exchanges for the client, address and verifier it was sent with, is logged in and sent back to
   where it first wanted to go.
   */
  lemma ReturnLogsIn(
    cfg: Config, r: HttpRequest, w: World, c: Contents, scheme: string,
    client: string, uri: string, state: string, nonce: string, verifier: string, sid: string, ttl: int,
    back: Config, q: HttpRequest, v: World, d: Contents, t: Tokens, claims: Claims)
    // the way out
    requires StartLogin(cfg, r, WithStore(w, c)).0
          == Redirect(Authorize(client, uri, state, nonce, verifier), SetCookie(sid, ttl))
    requires SeenUnder(r, scheme) && state != "" && sid != "" && ttl >= 0
    requires Forgets(d, Made(c, StartLogin(cfg, r, WithStore(w, c)).1, w.now), v.now)
    // the way back
    requires PathOnly(q.path) == CALLBACK && SeenUnder(q, scheme) && q.host == r.host
    requires SessionId(back, q) == sid && v.now <= w.now + ttl
    requires QueryParam(q.query, "error") == "" && QueryParam(q.query, "code") != ""
    requires QueryParam(q.query, "state") == state
    requires AppByName(back.applications, client).Some?
    requires var secret := AppByName(back.applications, client).value.clientSecret;
             v.exchange(client, secret, QueryParam(q.query, "code"), uri, verifier) == Some(t)
    requires t.id != "" ==> v.nonceOf(t.id) == Some(nonce)
    requires v.verify(t.access) == Some(claims) && v.drawn.Some?
    ensures HandleCallback(back, q, WithStore(v, d)).0
         == Redirect(ReturnTo(scheme + "://" + r.host + r.path), SetCookie(v.drawn.value.id, back.cookie.ttl))
    ensures exists s :: Earns(back, q, WithStore(v, d), s, t, claims)
  {
    var begun := LoginBegins(cfg, r, w, c, scheme);
    var made := Made(c, StartLogin(cfg, r, WithStore(w, c)).1, w.now);
    ForgetsLooksTheSame(d, made, v.now, sid);
    var s := Stamped(begun, ttl, w.now);
    assert LiveAt(made, sid, v.now) == Some(s);
    ReturnEarns(back, q, WithStore(v, d), s, t, claims, uri, scheme);
    CallbackSucceedsExactly(back, q, WithStore(v, d));
    var _ := CallbackKeepsTokens(back, q, WithStore(v, d), s, t, claims);
  }

  lemma ReturnEarns(
    cfg: Config, q: HttpRequest, w: World, s: Session, t: Tokens, claims: Claims, uri: string, scheme: string)
    requires PathOnly(q.path) == CALLBACK && SeenUnder(q, scheme)
    requires uri == scheme + "://" + q.host + "/_id/callback"
    requires w.session(SessionId(cfg, q)) == Some(s) && s.state != "" && QueryParam(q.query, "state") == s.state
    requires AppByName(cfg.applications, s.application).Some?
    requires var secret := AppByName(cfg.applications, s.application).value.clientSecret;
             w.exchange(s.application, secret, QueryParam(q.query, "code"), uri, s.codeVerifier) == Some(t)
    requires t.id != "" ==> w.nonceOf(t.id) == Some(s.nonce)
    requires w.verify(t.access) == Some(claims)
    ensures Earns(cfg, q, w, s, t, claims)
  {
    assert RedirectUri(q) == uri;
  }

  // ---- the session that comes of it --------------------------------------------------------------

  /**
   Two requests: after a callback that logged its caller in, the next one that carries the cookie it set,
   while the session and the token last, is identified by that token, as whoever it stands for, and writes
   nothing.
   */
  lemma LoginIsUsable(
    cfg: Config, q: HttpRequest, v: World, d: Contents, s: Session, t: Tokens, claims: Claims,
    url: string, id: string, ttl: int,
    next: Config, r: HttpRequest, w: World, c: Contents)
    requires HandleCallback(cfg, q, WithStore(v, d)).0 == Redirect(ReturnTo(url), SetCookie(id, ttl))
    requires Earns(cfg, q, WithStore(v, d), s, t, claims)
    requires Forgets(c, Made(d, HandleCallback(cfg, q, WithStore(v, d)).1, v.now), w.now)
    requires SessionId(next, r) == id && id != ""
    requires w.now <= v.now + ttl && w.now + 15_000_000_000 <= v.now + t.expiresIn * 1_000_000_000
    requires w.verify(t.access) == Some(claims)
    ensures IdentifyBySession(next, r, WithStore(w, c)) == (FromClaims(next, claims, t.access), [])
    ensures var who := FromClaims(next, claims, t.access);
            who.Known? ==> SubjectOf(who.identity) == U.StandsFor(next, claims)
  {
    var kept := CallbackKeepsTokens(cfg, q, WithStore(v, d), s, t, claims);
    var made := Made(d, HandleCallback(cfg, q, WithStore(v, d)).1, v.now);
    ReplacedByKept(d, SessionId(cfg, q), kept, ttl, v.now);
    ForgetsLooksTheSame(c, made, w.now, id);
    assert LiveAt(made, id, w.now) == Some(Stamped(kept, ttl, v.now));
    FreshIsUsed(next, r, WithStore(w, c), Stamped(kept, ttl, v.now));
    U.TokenNamesCaller(next, claims, t.access);
  }

  lemma ReplacedByKept(c: Contents, sid: string, kept: Session, ttl: int, now: int)
    ensures kept.id in Made(c, [Drop(sid), Keep(kept, ttl)], now)
    ensures Made(c, [Drop(sid), Keep(kept, ttl)], now)[kept.id] == Stamped(kept, ttl, now)
  {
    MadeOneMore(c, [Drop(sid)], Keep(kept, ttl), now);
    assert [Drop(sid)] + [Keep(kept, ttl)] == [Drop(sid), Keep(kept, ttl)];
  }

  lemma FreshIsUsed(cfg: Config, r: HttpRequest, w: World, s: Session)
    requires SessionId(cfg, r) != "" && w.session(SessionId(cfg, r)) == Some(s)
    requires s.authenticated && w.now + 15_000_000_000 <= s.expiresAt && w.verify(s.accessToken).Some?
    ensures IdentifyBySession(cfg, r, w) == (FromClaims(cfg, w.verify(s.accessToken).value, s.accessToken), [])
  {
  }

  /** A caller known by the cookie brings a token good for fifteen more seconds, or one just renewed. */
  lemma SessionTokenIsCurrent(cfg: Config, r: HttpRequest, w: World)
    requires IdentifyBySession(cfg, r, w).0.Known?
    ensures w.session(SessionId(cfg, r)).Some?
    ensures var s, token := w.session(SessionId(cfg, r)).value, IdentifyBySession(cfg, r, w).0.identity.token;
            if w.now + 15_000_000_000 <= s.expiresAt then token == s.accessToken
            else Renewal(cfg, w, s).Some? && token == Renewal(cfg, w, s).value.access
  {
  }

  /** The session's token, renewed if need be, fails: the provider renews nothing, or the verifier refuses it. */
  ghost predicate Fails(cfg: Config, w: World, s: Session) {
    if w.now + 15_000_000_000 <= s.expiresAt then w.verify(s.accessToken).None?
    else
      && AppByName(cfg.applications, s.application).Some?
      && (Renewal(cfg, w, s).None? || w.verify(Renewal(cfg, w, s).value.access).None?)
  }

  /** A session whose token fails is gone afterwards, and its caller is not known. */
  lemma FailedSessionIsGone(cfg: Config, r: HttpRequest, w: World, c: Contents)
    requires SessionId(cfg, r) != "" && LiveAt(c, SessionId(cfg, r), w.now).Some?
    requires c[SessionId(cfg, r)].authenticated && Fails(cfg, w, c[SessionId(cfg, r)])
    requires w.drawn.Some? ==> w.drawn.value.id != SessionId(cfg, r)
    ensures IdentifyBySession(cfg, r, WithStore(w, c)).0.Stopped?
    ensures SessionId(cfg, r) !in Made(c, IdentifyBySession(cfg, r, WithStore(w, c)).1, w.now)
  {
    var before := FailureRestarts(cfg, r, WithStore(w, c), c[SessionId(cfg, r)]);
    RestartedIsGone(cfg, r, WithStore(w, c), c, before, SessionId(cfg, r));
  }

  /** After a failure the session is dropped and a login started over. */
  lemma FailureRestarts(cfg: Config, r: HttpRequest, w: World, s: Session) returns (before: seq<StoreOp>)
    requires SessionId(cfg, r) != "" && w.session(SessionId(cfg, r)) == Some(s)
    requires s.authenticated && Fails(cfg, w, s) && w.putOk
    ensures IdentifyBySession(cfg, r, w) == Restart(cfg, r, w, before + [Drop(SessionId(cfg, r))])
  {
    if w.now + 15_000_000_000 <= s.expiresAt || Renewal(cfg, w, s).None? {
      before := [];
      assert before + [Drop(SessionId(cfg, r))] == [Drop(SessionId(cfg, r))];
    } else {
      before := [Keep(Refreshed(s, Renewal(cfg, w, s).value, w.now), cfg.cookie.ttl)];
    }
  }

  /** A session dropped before a login is started over stays dropped. */
  lemma RestartedIsGone(cfg: Config, r: HttpRequest, w: World, c: Contents, before: seq<StoreOp>, sid: string)
    requires w.drawn.Some? ==> w.drawn.value.id != sid
    ensures sid !in Made(c, Restart(cfg, r, w, before + [Drop(sid)]).1, w.now)
  {
    MadeOneMore(c, before, Drop(sid), w.now);
    var done, ops := before + [Drop(sid)], StartLogin(cfg, r, w).1;
    MadeConcat(c, done, ops, w.now);
    if ops != [] {
      MadeOne(Made(c, done, w.now), ops[0], w.now);
    }
  }

  // ---- over whole runs ---------------------------------------------------------------------------

  /** The session `s` under `id` holds what the provider handed out at this step: at its login, or at a renewal. */
  ghost predicate Issued(c: Contents, step: Step, id: string, s: Session, t: Tokens) {
    && step.Request?
    && s.accessToken == t.access && s.expiresAt == step.w.now + t.expiresIn * 1_000_000_000
    && (|| (s.refreshToken == t.refresh && exists pending, claims :: Completes(c, step, s, pending, t, claims))
        || (&& id in c && c[id].authenticated
            && Renewal(step.cfg, step.w, c[id]) == Some(t)
            && s.refreshToken == if t.refresh != "" then t.refresh else c[id].refreshToken))
  }

  ghost predicate IssuedBefore(steps: seq<Step>, states: seq<Contents>, k: nat, id: string, s: Session)
    requires k <= |steps| < |states|
  {
    exists a: nat, t :: a < k && Issued(states[a], steps[a], id, s, t)
  }

  /** What a step keeps, if authenticated, it was issued then. */
  lemma KeptIsIssued(c: Contents, step: Step, op: StoreOp) returns (t: Tokens)
    requires KeptBy(c, step, op) && op.session.authenticated
    requires forall id :: id in c ==> c[id].id == id
    ensures Issued(c, step, op.session.id, Stamped(op.session, op.ttl, step.w.now), t)
  {
    var w, kept := WithStore(step.w, c), Stamped(op.session, op.ttl, step.w.now);
    if KeepsRenewed(step.cfg, step.r, w, op) {
      t := Renewal(step.cfg, w, w.session(SessionId(step.cfg, step.r)).value).value;
    } else {
      var pending, claims;
      pending, t, claims :| KeepsLogin(step.cfg, step.r, w, op, pending, t, claims);
      LoginCompletes(c, step, op, pending, t, claims);
    }
  }

  lemma StepIssues(c: Contents, step: Step, next: Contents, id: string) returns (t: Tokens)
    requires Explained(c, step, next) && id in next && next[id].authenticated && !(id in c && next[id] == c[id])
    requires forall other :: other in c ==> c[other].id == other
    ensures Issued(c, step, id, next[id], t)
  {
    var op :| KeptBy(c, step, op) && op.session.id == id && next[id] == Stamped(op.session, op.ttl, step.w.now);
    t := KeptIsIssued(c, step, op);
  }

  lemma StillIssued(steps: seq<Step>, states: seq<Contents>, k: nat, id: string, s: Session)
    requires k < |steps| < |states| && IssuedBefore(steps, states, k, id, s)
    ensures IssuedBefore(steps, states, k + 1, id, s)
  {
    var a: nat, t :| a < k && Issued(states[a], steps[a], id, s, t);
    assert Issued(states[a], steps[a], id, s, t);
  }

  /** What a step leaves there was issued before it, or by it. */
  lemma NextIssued(steps: seq<Step>, states: seq<Contents>, k: nat, id: string)
    requires k < |steps| < |states| && AllIssued(steps, states, k)
    requires Explained(states[k], steps[k], states[k + 1])
    requires forall other :: other in states[k] ==> states[k][other].id == other
    requires id in states[k + 1] && states[k + 1][id].authenticated
    ensures IssuedBefore(steps, states, k + 1, id, states[k + 1][id])
  {
    if id in states[k] && states[k + 1][id] == states[k][id] {
      StillIssued(steps, states, k, id, states[k][id]);
    } else {
      var t := StepIssues(states[k], steps[k], states[k + 1], id);
    }
  }

  ghost predicate AllIssued(steps: seq<Step>, states: seq<Contents>, k: nat)
    requires k <= |steps| < |states|
  {
    forall id :: id in states[k] && states[k][id].authenticated ==> IssuedBefore(steps, states, k, id, states[k][id])
  }

  lemma StepKeepsIssued(steps: seq<Step>, states: seq<Contents>, k: nat)
    requires IsRun(steps, states) && k < |steps| && AllIssued(steps, states, k)
    ensures AllIssued(steps, states, k + 1)
  {
    StoredIdsWereDrawn(steps, states, k);
    RunExplained(steps, states, k);
    var next := states[k + 1];
    forall id | id in next && next[id].authenticated ensures IssuedBefore(steps, states, k + 1, id, next[id]) {
      NextIssued(steps, states, k, id);
    }
  }

  /**
   In every reachable state the tokens of an authenticated session are ones the provider handed out for it:
   at the exchange that completed its login, or at a renewal with the refresh token it then held; and its
   expiry is the one that came with them.
   */
  lemma {:induction false} TokensAreIssued(steps: seq<Step>, states: seq<Contents>, k: nat)
    requires IsRun(steps, states) && k <= |steps|
    ensures AllIssued(steps, states, k)
  {
    if k > 0 {
      TokensAreIssued(steps, states, k - 1);
      StepKeepsIssued(steps, states, k - 1);
    }
  }

  /** The cookie a callback sets names that very login, in every later state that still holds a session under it. */
  lemma CookieNamesItsLogin(steps: seq<Step>, states: seq<Contents>, i: nat, j: nat, id: string)
    requires IsRun(steps, states) && FreshDraws(steps) && i < j <= |steps| && Succeeds(steps, states, i)
    requires RulingOf(states[i], steps[i]).0.response.cookie == SetCookie(id, steps[i].cfg.cookie.ttl)
    requires id in states[j]
    ensures exists l: Login :: l.at == i && LoggedInBy(steps, states, j, states[j][id], l)
  {
    CallbackAuthenticates(steps, states, i, id);
    LoginLasts(steps, states, i, j, id);
  }

  lemma LoginLasts(steps: seq<Step>, states: seq<Contents>, i: nat, j: nat, id: string)
    requires IsRun(steps, states) && FreshDraws(steps) && i < j <= |steps|
    requires DrawnId(steps[i]) == Some(id) && (id in states[i + 1] ==> states[i + 1][id].authenticated)
    requires id in states[j]
    ensures exists l: Login :: l.at == i && LoggedInBy(steps, states, j, states[j][id], l)
  {
    if id !in states[i + 1] {
      GoneForGood(steps, states, i + 1, j, id);
    } else {
      PendingStaysPending(steps, states, i + 1, j, id);
      SessionsAreAccountedFor(steps, states, j);
      var l :| LoggedInBy(steps, states, j, states[j][id], l);
      DrawnByOne(steps, l.at, i, id);
    }
  }

  lemma DrawnByOne(steps: seq<Step>, a: nat, b: nat, id: string)
    requires FreshDraws(steps) && a < |steps| && b < |steps|
    requires DrawnId(steps[a]) == Some(id) == DrawnId(steps[b])
    ensures a == b
  {
  }

  lemma CallbackAuthenticates(steps: seq<Step>, states: seq<Contents>, i: nat, id: string)
    requires IsRun(steps, states) && i < |steps| && Succeeds(steps, states, i)
    requires RulingOf(states[i], steps[i]).0.response.cookie == SetCookie(id, steps[i].cfg.cookie.ttl)
    ensures DrawnId(steps[i]) == Some(id)
    ensures id in states[i + 1] ==> states[i + 1][id].authenticated
  {
    var step, w := steps[i], WithStore(steps[i].w, states[i]);
    CallbackSucceedsExactly(step.cfg, step.r, w);
    var s, t, claims :| Earns(step.cfg, step.r, w, s, t, claims);
    var kept := CallbackKeepsTokens(step.cfg, step.r, w, s, t, claims);
    ReplacedByKept(states[i], SessionId(step.cfg, step.r), kept, step.cfg.cookie.ttl, step.w.now);
    assert Follows(steps, states, i);
  }

  /** A logout ends, at the provider, the login behind the session: it hands back that login's own ID token. */
  lemma LogoutEndsItsLogin(steps: seq<Step>, states: seq<Contents>, k: nat, scheme: string)
    requires IsRun(steps, states) && k < |steps| && steps[k].Request?
    requires PathOnly(steps[k].r.path) == LOGOUT && CookieAt(steps, k) != ""
    requires LiveAt(states[k], CookieAt(steps, k), steps[k].w.now).Some?
    requires states[k][CookieAt(steps, k)].authenticated
    requires var r := steps[k].r; SeenUnder(r, scheme) && (r.scheme == "" ==> HeaderOf(r, "x-forwarded-proto") != "")
    ensures exists l: Login ::
              LoggedInBy(steps, states, k, states[k][CookieAt(steps, k)], l)
              && RulingOf(states[k], steps[k]).0
                 == Answered(Redirect(EndSession(l.tokens.id, scheme + "://" + steps[k].r.host + "/"), ClearCookie))
  {
    SessionsAreAccountedFor(steps, states, k);
    var l :| LoggedInBy(steps, states, k, states[k][CookieAt(steps, k)], l);
    assert RulingOf(states[k], steps[k]).0
        == Answered(Redirect(EndSession(l.tokens.id, scheme + "://" + steps[k].r.host + "/"), ClearCookie));
  }
}
