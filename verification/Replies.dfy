/**
 What the gRPC answer looks like, over every decision: which status goes with which outcome.
 */
module Replies {
  import opened Wrappers
  import opened Schema
  import opened Config
  import opened Routes
  import opened Sessions
  import opened Decision
  import opened Pipeline
  import opened Logins

  /** 200 for a permit, 302 for a redirect, 500 for a panic, and for a denial its own 400, 401 or 403. */
  ghost predicate WellAnswered(ruling: Ruling) {
    var answer := Translated(ruling);
    match ruling
    case Panicked => answer.code == Code.PermissionDenied && answer.httpStatus == 500
    case Answered(Permit(_)) => answer.code == OK && answer.httpStatus == 200
    case Answered(Redirect(_, _)) => answer.code == Code.PermissionDenied && answer.httpStatus == 302
    case Answered(Deny(status, _, _)) =>
      answer.code == Code.PermissionDenied && answer.httpStatus == status && status in {400, 401, 403}
  }

  lemma LoginAnswers(cfg: Config, r: HttpRequest, w: World)
    ensures WellAnswered(Answered(HandleCallback(cfg, r, w).0)) && WellAnswered(Answered(HandleLogout(cfg, r, w).0))
  {
  }

  ghost predicate StopsWell(who: Identified) {
    who.Stopped? ==> WellAnswered(Answered(who.response))
  }

  lemma RestartAnswers(cfg: Config, r: HttpRequest, w: World, done: seq<StoreOp>)
    ensures StopsWell(Restart(cfg, r, w, done).0)
  {
  }

  lemma ResumeAnswers(cfg: Config, r: HttpRequest, w: World, sid: string, s: Session, done: seq<StoreOp>)
    ensures StopsWell(FromSession(cfg, r, w, sid, s, done).0)
  {
    RestartAnswers(cfg, r, w, done + [Drop(sid)]);
  }

  lemma SessionAnswers(cfg: Config, r: HttpRequest, w: World)
    ensures StopsWell(IdentifyBySession(cfg, r, w).0)
  {
    var sid := SessionId(cfg, r);
    RestartAnswers(cfg, r, w, []);
    RestartAnswers(cfg, r, w, [Drop(sid)]);
    if w.session(sid).Some? {
      var s := w.session(sid).value;
      ResumeAnswers(cfg, r, w, sid, s, []);
      if Renewal(cfg, w, s).Some? {
        var renewed := Refreshed(s, Renewal(cfg, w, s).value, w.now);
        ResumeAnswers(cfg, r, w, sid, renewed, [Keep(renewed, cfg.cookie.ttl)]);
      }
    }
  }

  lemma IdentifyAnswers(cfg: Config, r: HttpRequest, mode: AuthMode, w: World)
    ensures StopsWell(Identify(cfg, r, mode, w).0)
  {
    SessionAnswers(cfg, r, w);
  }

  lemma {:induction false} ScanAnswersWell(plan: seq<Question>, answers: seq<Outcome>, id: Identity)
    ensures WellAnswered(Scan(plan, answers, id))
  {
    if plan != [] && answers != [] {
      ScanAnswersWell(plan[1..], answers[1..], id);
    }
  }

  lemma AskAnswers(cfg: Config, rule: Rule, resource: string, id: Identity, w: World)
    ensures WellAnswered(Ask(cfg, rule, resource, id, w))
  {
    var plan := Plan(cfg, rule, resource, id);
    var answers := w.checkBulk(rule.consistency == FullyConsistent, QueriesOf(plan));
    if answers.Some? {
      ScanAnswersWell(plan, answers.value, id);
    }
  }

  lemma GatesAnswer(cfg: Config, found: Option<(Compiled, Params)>, r: HttpRequest, id: Identity, w: World)
    ensures WellAnswered(DecideFor(cfg, found, r, id, w))
  {
    if found.Some? {
      var rule, params := found.value.0.rule, found.value.1;
      var resource := ResolveResource(rule, params, id.subject);
      if resource.Some? {
        AskAnswers(cfg, rule, resource.value, id, w);
      }
    }
  }

  /** Nothing is answered but those, and nothing but a permit is OK. */
  lemma EveryAnswerIsKnown(cfg: Config, table: seq<Compiled>, r: HttpRequest, w: World)
    ensures WellAnswered(Decide(cfg, table, r, w).0)
  {
    var found := FirstMatch(table, r.host, r.verb, r.path);
    LoginAnswers(cfg, r, w);
    var who := Identify(cfg, r, ModeOf(found), w).0;
    IdentifyAnswers(cfg, r, ModeOf(found), w);
    if who.Known? {
      GatesAnswer(cfg, found, r, who.identity, w);
    }
  }
}
