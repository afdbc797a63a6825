/**
 Whole runs of the login machine: requests, each taken as one atomic step, over a
 session store that expires and reaps. State binding is section 10.12 of RFC 6749,
 the nonce is section 3.1.3.7 of OpenID Connect Core 1.0.
 */
module Logins {
  import opened Wrappers
  import opened Config
  import opened Routes
  import opened Sessions
  import opened Decision
  import opened SessionWrites

  /** The configuration may differ from request to request: it can be reloaded between them. */
  datatype Step =
    | Request(cfg: Config, table: seq<Compiled>, r: HttpRequest, w: World)
    | Sweep(at: int)

  function RulingOf(c: Contents, step: Step): (Ruling, seq<StoreOp>)
    requires step.Request?
  {
    Decide(step.cfg, step.table, step.r, WithStore(step.w, c))
  }

  function After(c: Contents, step: Step): Contents {
    match step
    case Request(_, _, _, w) => Made(c, RulingOf(c, step).1, w.now)
    case Sweep(at) => AfterOp(c, ReapOp, at)
  }

  /** The step's writes are made; besides, any session may have been forgotten, as expiry and the reaper do. */
  ghost predicate Follows(steps: seq<Step>, states: seq<Contents>, i: nat)
    requires i < |steps| && |states| == |steps| + 1
  {
    Within(states[i + 1], After(states[i], steps[i]))
  }

  /** `states[i]` is what the store holds just before step `i`; it starts empty. */
  ghost predicate IsRun(steps: seq<Step>, states: seq<Contents>) {
    && |states| == |steps| + 1
    && states[0] == map[]
    && forall i :: 0 <= i < |steps| ==> Follows(steps, states, i)
  }

  function DrawnId(step: Step): Option<string> {
    if step.Request? && step.w.drawn.Some? then Some(step.w.drawn.value.id) else None
  }

  /** The random source never repeats a session id. */
  ghost predicate FreshDraws(steps: seq<Step>) {
    forall i, j :: 0 <= i < j < |steps| && DrawnId(steps[i]).Some? ==> DrawnId(steps[i]) != DrawnId(steps[j])
  }

  // ---- what a request may keep -----------------------------------------------------------

  /** The pending session a browser's request begins, if it can begin one. */
  function PendingFor(cfg: Config, r: HttpRequest, w: World): Option<Session> {
    var app := AppForHost(cfg.applications, r.host);
    if app.Some? && WantsHtml(r) && w.drawn.Some? then Some(Pending(cfg, app.value, r, w.drawn.value)) else None
  }

  ghost predicate KeepsPending(cfg: Config, r: HttpRequest, w: World, op: StoreOp) {
    op.Keep? && PendingFor(cfg, r, w) == Some(op.session) && op.ttl == cfg.cookie.pendingTtl
  }

  /** What the provider answers when the session's refresh token is presented for its application. */
  function Renewal(cfg: Config, w: World, s: Session): Option<Tokens> {
    match AppByName(cfg.applications, s.application)
    case None => None
    case Some(app) => w.refresh(app.name, app.clientSecret, s.refreshToken)
  }

  ghost predicate KeepsRenewed(cfg: Config, r: HttpRequest, w: World, op: StoreOp) {
    && w.session(SessionId(cfg, r)).Some?
    && var s := w.session(SessionId(cfg, r)).value;
       && s.authenticated
       && Renewal(cfg, w, s).Some?
       && op == Keep(Refreshed(s, Renewal(cfg, w, s).value, w.now), cfg.cookie.ttl)
  }

  function Exchanged(app: App, r: HttpRequest, w: World, s: Session): Option<Tokens> {
    w.exchange(app.name, app.clientSecret, QueryParam(r.query, "code"), RedirectUri(r), s.codeVerifier)
  }

  /** Code exchange, nonce and access token all check out for the session `s`. */
  ghost predicate Proven(cfg: Config, r: HttpRequest, w: World, s: Session, t: Tokens, c: Claims) {
    && AppByName(cfg.applications, s.application).Some?
    && Exchanged(AppByName(cfg.applications, s.application).value, r, w, s) == Some(t)
    && (t.id != "" ==> w.nonceOf(t.id) == Some(s.nonce))
    && w.verify(t.access) == Some(c)
  }

  /** A callback that presents the cookie of the live session `s` together with its state. */
  ghost predicate Returns(cfg: Config, r: HttpRequest, w: World, s: Session) {
    && PathOnly(r.path) == CALLBACK
    && w.session(SessionId(cfg, r)) == Some(s)
    && s.state != ""
    && QueryParam(r.query, "state") == s.state
  }

  ghost predicate KeepsLogin(cfg: Config, r: HttpRequest, w: World, op: StoreOp, s: Session, t: Tokens, c: Claims) {
    && Returns(cfg, r, w, s)
    && Proven(cfg, r, w, s, t, c)
    && w.drawn.Some?
    && op == Keep(LoggedIn(w.drawn.value.id,
                           AppByName(cfg.applications, s.application).value, t, c, w.now), cfg.cookie.ttl)
  }

  lemma StartKeeps(cfg: Config, r: HttpRequest, w: World, op: StoreOp)
    requires op in StartLogin(cfg, r, w).1
    ensures KeepsPending(cfg, r, w, op)
  {
  }

  lemma RestartKeeps(cfg: Config, r: HttpRequest, w: World, done: seq<StoreOp>, op: StoreOp)
    requires op in Restart(cfg, r, w, done).1 && op !in done
    ensures KeepsPending(cfg, r, w, op)
  {
    StartKeeps(cfg, r, w, op);
  }

  lemma ResumeKeeps(cfg: Config, r: HttpRequest, w: World, sid: string, s: Session, done: seq<StoreOp>, op: StoreOp)
    requires op in FromSession(cfg, r, w, sid, s, done).1 && op.Keep? && op !in done
    ensures KeepsPending(cfg, r, w, op)
  {
    if w.verify(s.accessToken).None? {
      RestartKeeps(cfg, r, w, done + [Drop(sid)], op);
    }
  }

  lemma SessionKeeps(cfg: Config, r: HttpRequest, w: World, op: StoreOp)
    requires op in IdentifyBySession(cfg, r, w).1 && op.Keep?
    ensures KeepsPending(cfg, r, w, op) || KeepsRenewed(cfg, r, w, op)
  {
    var sid := SessionId(cfg, r);
    if op in StartLogin(cfg, r, w).1 {
      StartKeeps(cfg, r, w, op);
    } else {
      var s := w.session(sid).value;
      var app := AppByName(cfg.applications, s.application);
      if !Stale(s, w.now) {
        ResumeKeeps(cfg, r, w, sid, s, [], op);
      } else {
        var t := w.refresh(app.value.name, app.value.clientSecret, s.refreshToken).value;
        var renewed := Refreshed(s, t, w.now);
        if op != Keep(renewed, cfg.cookie.ttl) {
          ResumeKeeps(cfg, r, w, sid, renewed, [Keep(renewed, cfg.cookie.ttl)], op);
        }
      }
    }
  }

  lemma CallbackKeeps(cfg: Config, r: HttpRequest, w: World, op: StoreOp)
    requires PathOnly(r.path) == CALLBACK && op in HandleCallback(cfg, r, w).1 && op.Keep?
    ensures exists s, t, c :: KeepsLogin(cfg, r, w, op, s, t, c)
  {
    var s := w.session(SessionId(cfg, r)).value;
    var app := AppByName(cfg.applications, s.application).value;
    var t := Exchanged(app, r, w, s).value;
    var c := w.verify(t.access).value;
    assert KeepsLogin(cfg, r, w, op, s, t, c);
  }

  /** Whatever a request keeps is a new pending session, a renewed one or a completed login. */
  lemma DecisionKeeps(cfg: Config, table: seq<Compiled>, r: HttpRequest, w: World, op: StoreOp)
    requires op in Decide(cfg, table, r, w).1 && op.Keep?
    ensures || KeepsPending(cfg, r, w, op)
            || KeepsRenewed(cfg, r, w, op)
            || exists s, t, c :: KeepsLogin(cfg, r, w, op, s, t, c)
  {
    if PathOnly(r.path) == CALLBACK {
      CallbackKeeps(cfg, r, w, op);
    } else if PathOnly(r.path) != LOGOUT {
      SessionKeeps(cfg, r, w, op);
    }
  }

  /** An entry after some writes was there before, or one of them kept it. */
  lemma {:induction false} MadeFrom(c: Contents, ops: seq<StoreOp>, now: int, id: string)
    requires id in Made(c, ops, now)
    ensures || (id in c && Made(c, ops, now)[id] == c[id])
            || exists op :: op in ops && op.Keep? && op.session.id == id
                  && Made(c, ops, now)[id] == Stamped(op.session, op.ttl, now)
  {
    if ops != [] {
      var front, last := ops[..|ops| - 1], ops[|ops| - 1];
      if last.Keep? && last.session.id == id {
        assert last in ops;
      } else {
        MadeFrom(c, front, now, id);
      }
    }
  }

  /** The request `step`, on contents `c`, may keep `op`. */
  ghost predicate KeptBy(c: Contents, step: Step, op: StoreOp) {
    && step.Request?
    && op.Keep?
    && (|| KeepsPending(step.cfg, step.r, WithStore(step.w, c), op)
        || KeepsRenewed(step.cfg, step.r, WithStore(step.w, c), op)
        || exists s, t, claims :: KeepsLogin(step.cfg, step.r, WithStore(step.w, c), op, s, t, claims))
  }

  /** Everything in `next` was in `c`, or is what the step may keep. */
  ghost predicate Explained(c: Contents, step: Step, next: Contents) {
    forall id :: id in next && !(id in c && next[id] == c[id]) ==>
                   exists op :: KeptBy(c, step, op) && op.session.id == id
                             && next[id] == Stamped(op.session, op.ttl, step.w.now)
  }

  lemma AfterExplained(c: Contents, step: Step)
    ensures Explained(c, step, After(c, step))
  {
    var next := After(c, step);
    forall id | id in next && !(id in c && next[id] == c[id])
      ensures exists op :: KeptBy(c, step, op) && op.session.id == id
                              && next[id] == Stamped(op.session, op.ttl, step.w.now)
    {
      var ops := RulingOf(c, step).1;
      MadeFrom(c, ops, step.w.now, id);
      var op :| op in ops && op.Keep? && op.session.id == id && next[id] == Stamped(op.session, op.ttl, step.w.now);
      DecisionKeeps(step.cfg, step.table, step.r, WithStore(step.w, c), op);
    }
  }

  lemma RunExplained(steps: seq<Step>, states: seq<Contents>, k: nat)
    requires IsRun(steps, states) && k < |steps|
    ensures Explained(states[k], steps[k], states[k + 1])
  {
    assert Follows(steps, states, k);
    AfterExplained(states[k], steps[k]);
  }

  // ---- where a session came from -----------------------------------------------------------

  /** Step `b` began the pending session `s`. */
  ghost predicate Began(steps: seq<Step>, b: nat, s: Session) {
    && b < |steps|
    && steps[b].Request?
    && PendingFor(steps[b].cfg, steps[b].r, steps[b].w).Some?
    && s == Stamped(PendingFor(steps[b].cfg, steps[b].r, steps[b].w).value,
                   steps[b].cfg.cookie.pendingTtl, steps[b].w.now)
  }

  /** A login: begun at step `begun` with session `pending`, completed at step `at`. */
  datatype Login = Login(begun: nat, at: nat, pending: Session, tokens: Tokens, claims: Claims)

  /** The request `step`, on contents `c`, turns `pending` into the authenticated session `s`. */
  ghost predicate Completes(c: Contents, step: Step, s: Session, pending: Session, t: Tokens, claims: Claims) {
    && step.Request?
    && Returns(step.cfg, step.r, WithStore(step.w, c), pending)
    && Proven(step.cfg, step.r, step.w, pending, t, claims)
    && DrawnId(step) == Some(s.id)
    && s.subject == claims.subject
    && s.idToken == t.id
  }

  /** The login under which the authenticated session `s` came to be, before step `k`. */
  ghost predicate LoggedInBy(steps: seq<Step>, states: seq<Contents>, k: nat, s: Session, l: Login)
    requires k <= |steps| < |states|
  {
    && l.begun < l.at < k
    && Began(steps, l.begun, l.pending)
    && Completes(states[l.at], steps[l.at], s, l.pending, l.tokens, l.claims)
  }

  /** What every session stored before step `k` is: a pending one as begun, or one with a login behind it. */
  ghost predicate Accounted(steps: seq<Step>, states: seq<Contents>, k: nat, id: string, s: Session)
    requires k <= |steps| < |states|
  {
    && s.id == id
    && if s.authenticated then
         s.state == "" && exists l :: LoggedInBy(steps, states, k, s, l)
       else
         exists b: nat :: b < k && Began(steps, b, s)
  }

  ghost predicate AllAccounted(steps: seq<Step>, states: seq<Contents>, k: nat)
    requires k <= |steps| < |states|
  {
    forall id :: id in states[k] ==> Accounted(steps, states, k, id, states[k][id])
  }

  /** A renewed session keeps the login behind it. */
  lemma RenewedIsAccounted(steps: seq<Step>, states: seq<Contents>, k: nat, s: Session, renewed: Session)
    requires k < |steps| < |states| && Accounted(steps, states, k, s.id, s) && s.authenticated
    requires renewed.authenticated && renewed.id == s.id && renewed.state == s.state
    requires renewed.subject == s.subject && renewed.idToken == s.idToken
    ensures Accounted(steps, states, k + 1, s.id, renewed)
  {
    var l :| LoggedInBy(steps, states, k, s, l);
    assert LoggedInBy(steps, states, k + 1, renewed, l);
  }

  lemma LoginCompletes(c: Contents, step: Step, op: StoreOp, pending: Session, t: Tokens, claims: Claims)
    requires step.Request?
    requires KeepsLogin(step.cfg, step.r, WithStore(step.w, c), op, pending, t, claims)
    ensures Completes(c, step, Stamped(op.session, op.ttl, step.w.now), pending, t, claims)
    ensures op.session.authenticated && op.session.state == ""
  {
  }

  /** The session a callback keeps has that callback as its login. */
  lemma LoginIsAccounted(
    steps: seq<Step>, states: seq<Contents>, k: nat, s: Session, pending: Session, t: Tokens, claims: Claims)
    requires k < |steps| < |states|
    requires Completes(states[k], steps[k], s, pending, t, claims)
    requires exists b: nat :: b < k && Began(steps, b, pending)
    requires s.authenticated && s.state == ""
    ensures Accounted(steps, states, k + 1, s.id, s)
  {
    var b: nat :| b < k && Began(steps, b, pending);
    assert LoggedInBy(steps, states, k + 1, s, Login(b, k, pending, t, claims));
  }

  lemma KeptIsAccounted(steps: seq<Step>, states: seq<Contents>, k: nat, op: StoreOp)
    requires k < |steps| < |states| && AllAccounted(steps, states, k) && KeptBy(states[k], steps[k], op)
    ensures Accounted(steps, states, k + 1, op.session.id, Stamped(op.session, op.ttl, steps[k].w.now))
  {
    var step, s := steps[k], Stamped(op.session, op.ttl, steps[k].w.now);
    var w, sid := WithStore(step.w, states[k]), SessionId(step.cfg, step.r);
    if KeepsPending(step.cfg, step.r, w, op) {
      assert Began(steps, k, s);
    } else if KeepsRenewed(step.cfg, step.r, w, op) {
      RenewedIsAccounted(steps, states, k, w.session(sid).value, s);
    } else {
      var pending, t, claims :| KeepsLogin(step.cfg, step.r, w, op, pending, t, claims);
      LoginCompletes(states[k], step, op, pending, t, claims);
      LoginIsAccounted(steps, states, k, s, pending, t, claims);
    }
  }

  lemma StillAccounted(steps: seq<Step>, states: seq<Contents>, k: nat, id: string, s: Session)
    requires k < |steps| < |states| && Accounted(steps, states, k, id, s)
    ensures Accounted(steps, states, k + 1, id, s)
  {
    if s.authenticated {
      var l :| LoggedInBy(steps, states, k, s, l);
      assert LoggedInBy(steps, states, k + 1, s, l);
    }
  }

  lemma StepAccounts(steps: seq<Step>, states: seq<Contents>, k: nat, id: string)
    requires k < |steps| < |states| && AllAccounted(steps, states, k)
    requires Explained(states[k], steps[k], states[k + 1]) && id in states[k + 1]
    ensures Accounted(steps, states, k + 1, id, states[k + 1][id])
  {
    if id in states[k] && states[k + 1][id] == states[k][id] {
      StillAccounted(steps, states, k, id, states[k][id]);
    } else {
      var op :| KeptBy(states[k], steps[k], op) && op.session.id == id
                && states[k + 1][id] == Stamped(op.session, op.ttl, steps[k].w.now);
      KeptIsAccounted(steps, states, k, op);
    }
  }

  lemma StepAccountsForAll(steps: seq<Step>, states: seq<Contents>, k: nat)
    requires IsRun(steps, states) && k < |steps| && AllAccounted(steps, states, k)
    ensures AllAccounted(steps, states, k + 1)
  {
    RunExplained(steps, states, k);
    var next := states[k + 1];
    forall id | id in next ensures Accounted(steps, states, k + 1, id, next[id]) {
      StepAccounts(steps, states, k, id);
    }
  }

  /**
   In every reachable state an authenticated session has no state left, was stored under
   an id drawn by a callback whose state was that of a live pending session begun
   earlier, and whose code, nonce and access token all checked out.
   */
  lemma {:induction false} SessionsAreAccountedFor(steps: seq<Step>, states: seq<Contents>, k: nat)
    requires IsRun(steps, states) && k <= |steps|
    ensures AllAccounted(steps, states, k)
  {
    if k > 0 {
      SessionsAreAccountedFor(steps, states, k - 1);
      StepAccountsForAll(steps, states, k - 1);
    }
  }

  // ---- what the invariant gives ----------------------------------------------------------------

  ghost predicate DrawnBefore(steps: seq<Step>, k: nat, id: string)
    requires k <= |steps|
  {
    exists b: nat :: b < k && DrawnId(steps[b]) == Some(id)
  }

  lemma AccountedWasDrawn(steps: seq<Step>, states: seq<Contents>, k: nat, id: string, s: Session)
    requires k <= |steps| < |states| && Accounted(steps, states, k, id, s)
    ensures DrawnBefore(steps, k, id) && s.id == id
  {
    if s.authenticated {
      var l :| LoggedInBy(steps, states, k, s, l);
      assert DrawnId(steps[l.at]) == Some(id);
    } else {
      var b: nat :| b < k && Began(steps, b, s);
      assert DrawnId(steps[b]) == Some(id);
    }
  }

  /** Every stored session is kept under its own id, one drawn at an earlier step. */
  ghost predicate Keyed(steps: seq<Step>, k: nat, c: Contents)
    requires k <= |steps|
  {
    forall id :: id in c ==> c[id].id == id && DrawnBefore(steps, k, id)
  }

  lemma StoredIdsWereDrawn(steps: seq<Step>, states: seq<Contents>, k: nat)
    requires IsRun(steps, states) && k <= |steps|
    ensures Keyed(steps, k, states[k])
  {
    SessionsAreAccountedFor(steps, states, k);
    forall id | id in states[k] ensures states[k][id].id == id && DrawnBefore(steps, k, id) {
      AccountedWasDrawn(steps, states, k, id, states[k][id]);
    }
  }

  /** What a step may keep is under the id it drew, or renews an authenticated session. */
  lemma KeptUnderDrawnId(c: Contents, step: Step, op: StoreOp)
    requires KeptBy(c, step, op) && DrawnId(step) != Some(op.session.id)
    requires forall id :: id in c ==> c[id].id == id
    ensures op.session.id in c && c[op.session.id].authenticated && op.session.authenticated
  {
    assert KeepsRenewed(step.cfg, step.r, WithStore(step.w, c), op);
  }

  /** One step: what is kept under an id drawn earlier is what was there, or its renewal. */
  lemma StepKeepsKind(c: Contents, step: Step, next: Contents, id: string)
    requires Explained(c, step, next) && id in next && DrawnId(step) != Some(id)
    requires forall other :: other in c ==> c[other].id == other
    ensures id in c && (next[id] == c[id] || (c[id].authenticated && next[id].authenticated))
  {
    if !(id in c && next[id] == c[id]) {
      var op :| KeptBy(c, step, op) && op.session.id == id && next[id] == Stamped(op.session, op.ttl, step.w.now);
      KeptUnderDrawnId(c, step, op);
    }
  }

  lemma DrawnOnce(steps: seq<Step>, k: nat, id: string)
    requires FreshDraws(steps) && k < |steps| && DrawnBefore(steps, k, id)
    ensures DrawnId(steps[k]) != Some(id)
  {
    var b: nat :| b < k && DrawnId(steps[b]) == Some(id);
  }

  /** One step of a run, for an id drawn before it. */
  lemma RunKeepsKind(steps: seq<Step>, states: seq<Contents>, k: nat, id: string)
    requires IsRun(steps, states) && FreshDraws(steps) && k < |steps|
    requires DrawnBefore(steps, k, id) && id in states[k + 1]
    ensures id in states[k]
    ensures states[k + 1][id] == states[k][id] || (states[k][id].authenticated && states[k + 1][id].authenticated)
  {
    StoredIdsWereDrawn(steps, states, k);
    RunExplained(steps, states, k);
    DrawnOnce(steps, k, id);
    StepKeepsKind(states[k], steps[k], states[k + 1], id);
  }

  lemma {:induction false} GoneForGood(steps: seq<Step>, states: seq<Contents>, i: nat, j: nat, id: string)
    requires IsRun(steps, states) && FreshDraws(steps) && i <= j <= |steps|
    requires id !in states[i] && DrawnBefore(steps, i, id)
    ensures id !in states[j]
  {
    if i < j {
      GoneForGood(steps, states, i, j - 1, id);
      if id in states[j] {
        RunKeepsKind(steps, states, j - 1, id);
      }
    }
  }

  /** No id goes from pending to authenticated, and a pending session never changes while it lasts. */
  lemma {:induction false} PendingStaysPending(steps: seq<Step>, states: seq<Contents>, i: nat, j: nat, id: string)
    requires IsRun(steps, states) && FreshDraws(steps) && i <= j <= |steps|
    requires id in states[i] && id in states[j]
    ensures states[i][id].authenticated == states[j][id].authenticated
    ensures !states[i][id].authenticated ==> states[j][id] == states[i][id]
  {
    if i < j {
      StoredIdsWereDrawn(steps, states, i);
      RunKeepsKind(steps, states, j - 1, id);
      PendingStaysPending(steps, states, i, j - 1, id);
    }
  }

  /** The callback at step `i` logged its caller in. */
  ghost predicate Succeeds(steps: seq<Step>, states: seq<Contents>, i: nat)
    requires i < |steps| < |states|
  {
    && steps[i].Request?
    && PathOnly(steps[i].r.path) == CALLBACK
    && HandleCallback(steps[i].cfg, steps[i].r, WithStore(steps[i].w, states[i])).0.Redirect?
  }

  function CookieAt(steps: seq<Step>, i: nat): string
    requires i < |steps| && steps[i].Request?
  {
    SessionId(steps[i].cfg, steps[i].r)
  }

  /** A successful callback: what it presents, what it keeps. */
  lemma SuccessReturns(steps: seq<Step>, states: seq<Contents>, i: nat)
    requires i < |steps| < |states| && Succeeds(steps, states, i)
    ensures CookieAt(steps, i) in states[i]
    ensures var s := states[i][CookieAt(steps, i)];
            && Returns(steps[i].cfg, steps[i].r, WithStore(steps[i].w, states[i]), s)
            && exists t, c :: Proven(steps[i].cfg, steps[i].r, steps[i].w, s, t, c)
  {
    var step, w, sid := steps[i], WithStore(steps[i].w, states[i]), CookieAt(steps, i);
    var s := states[i][sid];
    var app := AppByName(step.cfg.applications, s.application).value;
    var t := Exchanged(app, step.r, w, s).value;
    assert Proven(step.cfg, step.r, step.w, s, t, w.verify(t.access).value);
  }

  /**
   A login ends in the browser that began it: a successful callback presents the session
   id and the state drawn together at one earlier step, within that step's time limit.
   */
  lemma CallbackBelongsToItsLogin(steps: seq<Step>, states: seq<Contents>, i: nat)
    requires IsRun(steps, states) && i < |steps| && Succeeds(steps, states, i)
    ensures exists b: nat :: b < i && steps[b].Request? && steps[b].w.drawn.Some?
                             && steps[b].w.drawn.value.id == CookieAt(steps, i)
                             && steps[b].w.drawn.value.state == QueryParam(steps[i].r.query, "state")
                             && steps[i].w.now <= steps[b].w.now + steps[b].cfg.cookie.pendingTtl
  {
    SessionsAreAccountedFor(steps, states, i);
    SuccessReturns(steps, states, i);
    var s := states[i][CookieAt(steps, i)];
    var b: nat :| b < i && Began(steps, b, s);
  }

  lemma CallbackRemoves(c: Contents, step: Step)
    requires step.Request? && PathOnly(step.r.path) == CALLBACK
    requires HandleCallback(step.cfg, step.r, WithStore(step.w, c)).0.Redirect?
    requires DrawnId(step) != Some(SessionId(step.cfg, step.r))
    ensures SessionId(step.cfg, step.r) !in After(c, step)
  {
    var s, ttl := CallbackReplaces(step.cfg, step.r, WithStore(step.w, c));
    ReplacedIsGone(c, SessionId(step.cfg, step.r), s, ttl, step.w.now);
  }

  /** The two writes of a successful callback. */
  lemma CallbackReplaces(cfg: Config, r: HttpRequest, w: World) returns (s: Session, ttl: int)
    requires HandleCallback(cfg, r, w).0.Redirect?
    ensures HandleCallback(cfg, r, w).1 == [Drop(SessionId(cfg, r)), Keep(s, ttl)]
    ensures w.drawn.Some? && s.id == w.drawn.value.id
  {
    var ops := HandleCallback(cfg, r, w).1;
    s, ttl := ops[1].session, ops[1].ttl;
  }

  lemma ReplacedIsGone(c: Contents, sid: string, s: Session, ttl: int, now: int)
    requires s.id != sid
    ensures sid !in Made(c, [Drop(sid), Keep(s, ttl)], now)
  {
    MadeOne(c, Drop(sid), now);
    MadeOneMore(c, [Drop(sid)], Keep(s, ttl), now);
    assert [Drop(sid)] + [Keep(s, ttl)] == [Drop(sid), Keep(s, ttl)];
  }

  lemma SuccessRemoves(steps: seq<Step>, states: seq<Contents>, i: nat)
    requires IsRun(steps, states) && FreshDraws(steps) && i < |steps| && Succeeds(steps, states, i)
    ensures CookieAt(steps, i) !in states[i + 1]
    ensures DrawnBefore(steps, i, CookieAt(steps, i))
  {
    SuccessReturns(steps, states, i);
    CookieWasDrawn(steps, states, i);
    assert Follows(steps, states, i);
    CallbackRemoves(states[i], steps[i]);
  }

  lemma CookieWasDrawn(steps: seq<Step>, states: seq<Contents>, i: nat)
    requires IsRun(steps, states) && FreshDraws(steps) && i < |steps|
    requires steps[i].Request? && CookieAt(steps, i) in states[i]
    ensures DrawnBefore(steps, i, CookieAt(steps, i))
    ensures DrawnId(steps[i]) != Some(CookieAt(steps, i))
  {
    StoredIdsWereDrawn(steps, states, i);
    DrawnOnce(steps, i, CookieAt(steps, i));
  }

  lemma SuccessSpends(steps: seq<Step>, states: seq<Contents>, i: nat, j: nat)
    requires IsRun(steps, states) && FreshDraws(steps) && i < j <= |steps| && Succeeds(steps, states, i)
    ensures CookieAt(steps, i) !in states[j]
  {
    SuccessRemoves(steps, states, i);
    GoneForGood(steps, states, i + 1, j, CookieAt(steps, i));
  }

  /** Each pending session yields at most one login. */
  lemma OneLoginPerSession(steps: seq<Step>, states: seq<Contents>, i: nat, j: nat)
    requires IsRun(steps, states) && FreshDraws(steps) && i < j < |steps|
    requires Succeeds(steps, states, i) && Succeeds(steps, states, j)
    ensures CookieAt(steps, i) != CookieAt(steps, j)
  {
    SuccessSpends(steps, states, i, j);
    SuccessReturns(steps, states, j);
  }

  /** After a logout the session it named is gone for good: requests are atomic here. */
  lemma LogoutIsFinal(steps: seq<Step>, states: seq<Contents>, i: nat, j: nat)
    requires IsRun(steps, states) && FreshDraws(steps) && i < j <= |steps|
    requires steps[i].Request? && PathOnly(steps[i].r.path) == LOGOUT
    requires CookieAt(steps, i) != "" && CookieAt(steps, i) in states[i]
    ensures CookieAt(steps, i) !in states[j]
  {
    CookieWasDrawn(steps, states, i);
    assert Follows(steps, states, i);
    LogoutRemoves(states[i], steps[i]);
    GoneForGood(steps, states, i + 1, j, CookieAt(steps, i));
  }

  lemma LogoutRemoves(c: Contents, step: Step)
    requires step.Request? && PathOnly(step.r.path) == LOGOUT && SessionId(step.cfg, step.r) != ""
    ensures SessionId(step.cfg, step.r) !in After(c, step)
  {
    MadeOne(c, Drop(SessionId(step.cfg, step.r)), step.w.now);
  }

  lemma KnownBySession(cfg: Config, r: HttpRequest, w: World)
    requires IdentifyBySession(cfg, r, w).0.Known?
    ensures w.session(SessionId(cfg, r)).Some? && w.session(SessionId(cfg, r)).value.authenticated
  {
  }

  /** A permit that rests on the cookie rests on a completed login. */
  lemma PermitRestsOnLogin(steps: seq<Step>, states: seq<Contents>, k: nat)
    requires IsRun(steps, states) && k < |steps| && steps[k].Request?
    requires RulingOf(states[k], steps[k]).0 != Panicked && RulingOf(states[k], steps[k]).0.response.Permit?
    requires var step := steps[k]; var found := FirstMatch(step.table, step.r.host, step.r.verb, step.r.path);
             && !(found.Some? && found.value.0.rule.isPublic)
             && (Bearer(step.r) == "" || ModeOf(found) == SessionMode)
    ensures exists s, l :: LiveAt(states[k], CookieAt(steps, k), steps[k].w.now) == Some(s) && s.authenticated
                           && LoggedInBy(steps, states, k, s, l)
  {
    var step := steps[k];
    SessionsAreAccountedFor(steps, states, k);
    KnownBySession(step.cfg, step.r, WithStore(step.w, states[k]));
    var s := states[k][CookieAt(steps, k)];
    var l :| LoggedInBy(steps, states, k, s, l);
  }
}
