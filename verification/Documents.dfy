/**
 Valid documents on which a promise fails: each with the request, the world and the
 caller that show it.
 */
module Documents {
  import opened Wrappers
  import opened Text
  import opened Schema
  import opened Config
  import opened Routes
  import opened Specificity
  import opened TableOrder
  import opened Decision
  import opened Policy
  import opened Authority
  import opened Admission
  import opened Patterns
  import opened Samples
  import opened ConfigCheck

  // ---- documents that pass the check --------------------------------------------------------------

  /** A rule that operates the front door's lock. */
  function Unlock(id: string, path: string, stepUp: bool): Rule {
    Rule(id, [], [], path, false, false, Device, FromLiteral("front"), OperateLock, "lock", false, stepUp,
         if stepUp then 1 else 0,
         EitherMode, FullyConsistent, [])
  }

  /** The catalogue's one entry, marked sensitive. */
  const LOCK: C.Entry := C.Entry("lock", "Lock", true)

  function TwoDoors(p: string, q: string): Config {
    Sample([], [Unlock("guarded", "/" + p, true), Unlock("open", "/" + q, false)])
  }

  lemma UnlockLoads(id: string, path: string, stepUp: bool)
    requires id != "" && HasPrefix(path, "/")
    ensures RuleValid(Unlock(id, path, stepUp)) && RuleDefaults(Unlock(id, path, stepUp)) == Unlock(id, path, stepUp)
  {
  }

  lemma TwoDoorsPass(p: string, q: string)
    ensures Valid(TwoDoors(p, q)) && Normalised(TwoDoors(p, q)) == TwoDoors(p, q)
    ensures Agreed(TwoDoors(p, q).rules, [LOCK])
  {
    var rules := TwoDoors(p, q).rules;
    UnlockLoads("guarded", "/" + p, true);
    UnlockLoads("open", "/" + q, false);
    SampleValid([], rules);
    assert Guarded(rules, "lock") by {
      assert rules[0].stepUp && rules[0].capability == "lock";
    }
  }

  lemma TwoDoorsCompile(p: string, q: string) returns (table: seq<Compiled>, guarded: Compiled, open: Compiled)
    requires Name(p) && Name(q) && p != q
    ensures Compiles(TwoDoors(p, q).rules, table) && guarded in table && open in table
    ensures guarded.rule == Unlock("guarded", "/" + p, true) && open.rule == Unlock("open", "/" + q, false)
    ensures AnswersTo(table, guarded, Request("h", "GET", "/" + p))
    ensures AnswersTo(table, open, Request("h", "GET", "/" + q))
  {
    var x, y := Unlock("guarded", "/" + p, true), Unlock("open", "/" + q, false);
    SingleCompiles(x, Literal(p));
    SingleCompiles(y, Literal(q));
    guarded, open := CompiledForm(x).value, CompiledForm(y).value;
    table := TwoRulesCompile(x, y);
    DoorAnswers(p, q, [x, y], table, guarded, open);
    DoorAnswers(q, p, [x, y], table, open, guarded);
  }

  lemma DoorAnswers(p: string, q: string, rules: seq<Rule>, table: seq<Compiled>, a: Compiled, b: Compiled)
    requires Name(p) && p != q && Compiles(rules, table) && forall c :: c in table <==> c == a || c == b
    requires a.segments == [Literal(p)] && b.segments == [Literal(q)] && !a.wildcard && !b.wildcard
    requires a.hosts == {} && a.methods == {}
    ensures AnswersTo(table, a, Request("h", "GET", "/" + p))
  {
    var r := Request("h", "GET", "/" + p);
    PieceServed(p, a);
    PieceAsked(p);
    assert !SegmentAccepts(b.segments[0], [p][0]);
    MatchIsUniqueBest(rules, table, r);
    UpToWhole("/" + p, {'?', '#'});
    NoEndpoint(p);
  }

  lemma NoEndpoint(p: string)
    requires '/' !in p
    ensures "/" + p != CALLBACK && "/" + p != LOGOUT
  {
    assert CALLBACK[4] == '/' && LOGOUT[4] == '/';
    assert |p| > 3 ==> ("/" + p)[4] == p[3];
  }

  /** What both doors have in common. */
  predicate IsDoor(c: Compiled) {
    && c.rule == Unlock(c.rule.id, c.rule.path, c.rule.stepUp)
  }

  /** The store lets the portal's user operate the lock. */
  function DoorStore(c: Compiled): Relationships
    requires IsDoor(c)
  {
    GivenTo(c, "front", PersonOf(PORTAL.name, -1))
  }

  lemma DoorEntitles(cfg: Config, c: Compiled, r: HttpRequest)
    requires IsDoor(c) && Serves(c, Asked(r)) && AgentByWorkload(cfg.agents, r.source).None?
    ensures WellTyped(DoorStore(c))
    ensures Entitled(cfg, c, r, PersonOf(PORTAL.name, -1), Live(DoorStore(c), 0)) <==> !c.rule.stepUp
  {
    GivenSuffices(cfg, c, r, PersonOf(PORTAL.name, 1));
    LevelKeepsEntitlement(cfg, c, r, PersonOf(PORTAL.name, 1), -1, Live(DoorStore(c), 0));
    assert PersonOf(PORTAL.name, 1).(acr := -1) == PersonOf(PORTAL.name, -1);
  }

  /** The portal's user without an authentication level, at one of the doors. */
  function AtDoor(cfg: Config, c: Compiled, path: string): HttpRequest {
    Knock(cfg, c, Request("h", "GET", path), "")
  }

  function AbsentPerson(c: Compiled): World
    requires IsDoor(c)
  {
    OneTokenWorld(PORTAL.name, -1, DoorStore(c))
  }

  lemma ArrivesAtDoor(p: string, q: string, table: seq<Compiled>, c: Compiled, path: string)
    requires IsDoor(c) && AnswersTo(table, c, Request("h", "GET", path))
    ensures Arrives(TwoDoors(p, q), table, c, AtDoor(TwoDoors(p, q), c, path), AbsentPerson(c), DoorStore(c),
                    PersonOf(PORTAL.name, -1))
  {
    var cfg, r := TwoDoors(p, q), AtDoor(TwoDoors(p, q), c, path);
    assert AppByName([PORTAL], PORTAL.name) == Some(PORTAL);
    assert Asked(r) == Request("h", "GET", path);
    KnockAuthenticates(cfg, c, Request("h", "GET", path), "", PORTAL.name, -1, DoorStore(c),
                      PersonOf(PORTAL.name, -1));
    DoorEntitles(cfg, c, r);
  }

  lemma LetInAtDoor(p: string, q: string, table: seq<Compiled>, c: Compiled, path: string)
    requires IsDoor(c) && Compiles(TwoDoors(p, q).rules, table) && AnswersTo(table, c, Request("h", "GET", path))
    ensures LetIn(TwoDoors(p, q), table, AtDoor(TwoDoors(p, q), c, path), AbsentPerson(c)) <==> !c.rule.stepUp
  {
    var cfg, r := TwoDoors(p, q), AtDoor(TwoDoors(p, q), c, path);
    assert Asked(r) == Request("h", "GET", path);
    ArrivesAtDoor(p, q, table, c, path);
    WelcomeExactly(cfg, table, c, r, AbsentPerson(c), DoorStore(c), PersonOf(PORTAL.name, -1));
    DoorEntitles(cfg, c, r);
  }

  lemma OpenDoorIsNotClosed(p: string, q: string, table: seq<Compiled>, c: Compiled, path: string)
    requires IsDoor(c) && Compiles(TwoDoors(p, q).rules, table) && AnswersTo(table, c, Request("h", "GET", path))
    requires !c.rule.stepUp
    ensures !ClosedToTheAbsent(TwoDoors(p, q), table, c)
  {
    LetInAtDoor(p, q, table, c, path);
    ArrivesAtDoor(p, q, table, c, path);
    OtherIsNoPresence(TwoDoors(p, q), table, c, AtDoor(TwoDoors(p, q), c, path), AbsentPerson(c), DoorStore(c),
                      PersonOf(PORTAL.name, -1));
  }

  lemma DoorCaller(cfg: Config, c: Compiled, path: string)
    requires IsDoor(c)
    ensures Bearer(AtDoor(cfg, c, path)) == "t" && AbsentPerson(c).verify("t") == Some(Claims("u", PORTAL.name, "", -1))
  {
    BearerTokenRead(AtDoor(cfg, c, path), "t");
  }

  /**
   A valid document passes the check; in one and the same world a person without an
   authentication level is refused by the guarded rule, and let in to the same lock by the other.
   */
  lemma AgreementIsNotEnforcement(p: string, q: string)
    returns (cfg: Config, table: seq<Compiled>, refused: HttpRequest, letIn: HttpRequest, w: World)
    requires Name(p) && Name(q) && p != q
    ensures Valid(cfg) && Normalised(cfg) == cfg && Compiles(cfg.rules, table) && Agreed(cfg.rules, [LOCK])
    ensures refused.path == "/" + p && !LetIn(cfg, table, refused, w)
    ensures letIn.path == "/" + q && LetIn(cfg, table, letIn, w)
    ensures Bearer(refused) == Bearer(letIn) && w.verify(Bearer(letIn)) == Some(Claims("u", PORTAL.name, "", -1))
    ensures !Enforced(cfg, table, LOCK.id)
  {
    var guarded, open;
    cfg := TwoDoors(p, q);
    TwoDoorsPass(p, q);
    table, guarded, open := TwoDoorsCompile(p, q);
    refused, letIn, w := AtDoor(cfg, guarded, "/" + p), AtDoor(cfg, open, "/" + q), AbsentPerson(guarded);
    assert w == AbsentPerson(open);
    LetInAtDoor(p, q, table, guarded, "/" + p);
    LetInAtDoor(p, q, table, open, "/" + q);
    OpenDoorIsNotClosed(p, q, table, open, "/" + q);
    DoorCaller(cfg, guarded, "/" + p);
    DoorCaller(cfg, open, "/" + q);
  }

  // ---- agents the loader's documents let in ----------------------------------------------------------

  /** A document of one page answers that page. */
  lemma SolePageAnswers(rule: Rule, p: string) returns (table: seq<Compiled>, c: Compiled)
    requires Name(p) && rule.path == "/" + p && rule.hosts == [] && rule.methods == []
    ensures Compiles([rule], table) && c in table && c.rule == rule && AnswersTo(table, c, Request("h", "GET", "/" + p))
  {
    SingleCompiles(rule, Literal(p));
    OneRuleCompiles(rule);
    c := CompiledForm(rule).value;
    table := [c];
    PieceServed(p, c);
    SoleAnswers([rule], c, Request("h", "GET", "/" + p));
    UpToWhole("/" + p, {'?', '#'});
    NoEndpoint(p);
  }

  lemma SoleAnswers(rules: seq<Rule>, c: Compiled, q: Request)
    requires Compiles(rules, [c]) && Serves(c, q)
    ensures Answer([c], q).Some? && Answer([c], q).value.0 == c
  {
    MatchIsUniqueBest(rules, [c], q);
  }

  /** A bound agent gets through a page that asks for nothing but a verified caller. */
  lemma PageLetsAgentIn(cfg: Config, table: seq<Compiled>, c: Compiled, q: Request, source: string, a: AgentEntry)
    requires Compiles(cfg.rules, table) && AnswersTo(table, c, q)
    requires c.rule.authenticatedOnly && c.rule.callers == [] && c.rule.authMode == EitherMode
    requires AgentByClient(cfg.agents, a.name) == Some(a) && BoundTo(cfg, source, AgentOf(a, 0))
    ensures var r, w := Knock(cfg, c, q, source), OneTokenWorld(a.name, 0, map[]);
            Authenticated(cfg, r, c.rule.authMode, w, AgentOf(a, 0)) && LetIn(cfg, table, r, w)
  {
    var r, w := Knock(cfg, c, q, source), OneTokenWorld(a.name, 0, map[]);
    KnockAuthenticates(cfg, c, q, source, a.name, 0, map[], AgentOf(a, 0));
    assert Asked(r) == q;
    assert IdentityAllowed(cfg, c, r, AgentOf(a, 0), w);
    LetInByPolicy(cfg, table, c, r, w);
  }

  /** Step-up on a page that asks the backend nothing: the check counts it, the gate never sees it. */
  function UncheckedDoor(p: string): Rule {
    Page("page", [], "/" + p).(capability := LOCK.id, stepUp := true, stepUpMinAcr := 1)
  }

  lemma UncheckedDoorPasses(p: string, helper: AgentEntry)
    ensures var cfg := Sample([helper], [UncheckedDoor(p)]);
            Valid(cfg) && Normalised(cfg) == cfg && Agreed(cfg.rules, [LOCK])
  {
    var rules := [UncheckedDoor(p)];
    SampleValid([helper], rules);
    assert Guarded(rules, LOCK.id) by {
      assert rules[0].stepUp;
    }
  }

  /** A valid document passes the check with that as its only rule for the capability, and an agent gets in. */
  lemma AgreementLetsAgentsIn(p: string, helper: AgentEntry)
    returns (cfg: Config, table: seq<Compiled>, r: HttpRequest, w: World, id: Identity)
    requires Name(p) && helper.workload == ""
    ensures Valid(cfg) && Normalised(cfg) == cfg && Compiles(cfg.rules, table) && Agreed(cfg.rules, [LOCK])
    ensures cfg.rules == [UncheckedDoor(p)] && cfg.rules[0].stepUp && cfg.rules[0].capability == LOCK.id
    ensures Authenticated(cfg, r, EitherMode, w, id) && id.kind == AgentActor && id.agent == helper.objectId
    ensures r.path == "/" + p && LetIn(cfg, table, r, w)
  {
    var c;
    cfg := Sample([helper], [UncheckedDoor(p)]);
    UncheckedDoorPasses(p, helper);
    table, c := SolePageAnswers(UncheckedDoor(p), p);
    assert AgentByClient([helper], helper.name) == Some(helper);
    PageLetsAgentIn(cfg, table, c, Request("h", "GET", "/" + p), "", helper);
    r, w, id := Knock(cfg, c, Request("h", "GET", "/" + p), ""),
               OneTokenWorld(helper.name, 0, map[]), AgentOf(helper, 0);
  }

  /**
   Two agents that share an object: a valid document, and a permit to the second agent from
   the workload that is registered to run the first.
   */
  lemma SharedObjectBreaksBinding(p: string, first: AgentEntry, second: AgentEntry)
    returns (cfg: Config, table: seq<Compiled>, r: HttpRequest, w: World, id: Identity)
    requires Name(p) && first.name != second.name && first.objectId == second.objectId
    requires first.workload != "" && second.workload != "" && first.workload != second.workload
    ensures Valid(cfg) && Normalised(cfg) == cfg && Compiles(cfg.rules, table) && cfg.agents == [first, second]
    ensures r.source == first.workload && AgentByWorkload(cfg.agents, r.source) == Some(first)
    ensures Authenticated(cfg, r, EitherMode, w, id) && AgentByClient(cfg.agents, id.application) == Some(second)
    ensures LetIn(cfg, table, r, w)
    ensures !WorkloadHeld(cfg) && !AgentHeld(cfg)
  {
    var c;
    cfg := Sample([first, second], [Page("page", [], "/" + p)]);
    SampleValid([first, second], cfg.rules);
    table, c := SolePageAnswers(Page("page", [], "/" + p), p);
    TwoAgents(first, second);
    PageLetsAgentIn(cfg, table, c, Request("h", "GET", "/" + p), first.workload, second);
    r := Knock(cfg, c, Request("h", "GET", "/" + p), first.workload);
    w, id := OneTokenWorld(second.name, 0, map[]), AgentOf(second, 0);
    ActorBindingExactly(cfg);
    assert Named(cfg, second) && Bound(cfg, first);
  }

  lemma TwoAgents(first: AgentEntry, second: AgentEntry)
    requires first.name != second.name && first.workload != "" && first.workload != second.workload
    ensures AgentByWorkload([first, second], first.workload) == Some(first)
    ensures AgentByClient([first, second], second.name) == Some(second)
  {
    assert [first, second][1..] == [second];
    assert AgentByClient([second], second.name) == Some(second);
  }

  // ---- callers with nobody present -------------------------------------------------------------------

  /** A caller the rule suits, at this request. */
  lemma GetsThrough(
    cfg: Config, table: seq<Compiled>, c: Compiled, q: Request, source: string,
    client: string, level: int, id: Identity)
    returns (r: HttpRequest, w: World, db: Relationships)
    requires Compiles(cfg.rules, table) && AnswersTo(table, c, q) && c.rule.authMode == EitherMode
    requires Carried(cfg, client, level, id) && Suits(cfg, c, id) && TakesFrom(cfg, c.rule, source, id)
    ensures r.path == q.path && Arrives(cfg, table, c, r, w, db, id) && LetIn(cfg, table, r, w)
  {
    r := Knock(cfg, c, q, source);
    assert Asked(r) == q;
    db := WelcomeGiven(cfg, c, r, id);
    w := OneTokenWorld(client, level, db);
    KnockIsLetIn(cfg, table, c, q, source, client, level, db, id);
  }

  lemma PortalPerson(cfg: Config, rule: Rule)
    requires cfg.applications == [PORTAL] && cfg.agents == [] && cfg.systemPrincipals == map[] && rule.callers == []
    ensures Carried(cfg, PORTAL.name, -1, PersonOf(PORTAL.name, -1))
    ensures TakesFrom(cfg, rule, "", PersonOf(PORTAL.name, -1))
  {
    assert AppByName([PORTAL], PORTAL.name) == Some(PORTAL);
  }

  /** Step-up with a minimum below the level an absent claim stands for. */
  function NegativeDoor(p: string): Rule {
    Unlock("door", "/" + p, true).(stepUpMinAcr := -1)
  }

  lemma NegativeDoorLoads(p: string)
    ensures var cfg := Sample([], [NegativeDoor(p)]); Valid(cfg) && Normalised(cfg) == cfg
  {
    UnlockLoads("door", "/" + p, true);
    SampleValid([], [NegativeDoor(p)]);
  }

  lemma NegativeDoorSuits(cfg: Config, c: Compiled, p: string)
    requires c.rule == NegativeDoor(p) && TakesFrom(cfg, c.rule, "", PersonOf(PORTAL.name, -1))
    ensures Suits(cfg, c, PersonOf(PORTAL.name, -1))
  {
  }

  /** A valid document whose step-up rule lets in a person without an authentication level. */
  lemma NegativeMinimumLetsIn(p: string)
    returns (cfg: Config, table: seq<Compiled>, r: HttpRequest, w: World, id: Identity)
    requires Name(p)
    ensures Valid(cfg) && Normalised(cfg) == cfg && cfg.rules == [NegativeDoor(p)] && Compiles(cfg.rules, table)
    ensures Authenticated(cfg, r, EitherMode, w, id) && id.kind == Human && id.acr == -1
    ensures r.path == "/" + p && LetIn(cfg, table, r, w)
  {
    var c, db;
    cfg := Sample([], [NegativeDoor(p)]);
    NegativeDoorLoads(p);
    table, c := SolePageAnswers(NegativeDoor(p), p);
    id := PersonOf(PORTAL.name, -1);
    PortalPerson(cfg, c.rule);
    NegativeDoorSuits(cfg, c, p);
    r, w, db := GetsThrough(cfg, table, c, Request("h", "GET", "/" + p), "", PORTAL.name, -1, id);
  }

  /** A valid document whose step-up rule asks the backend nothing, and lets the same person in. */
  lemma UncheckedStepUpLetsIn(p: string)
    returns (cfg: Config, table: seq<Compiled>, r: HttpRequest, w: World, id: Identity)
    requires Name(p)
    ensures Valid(cfg) && Normalised(cfg) == cfg && cfg.rules == [UncheckedDoor(p)] && Compiles(cfg.rules, table)
    ensures Authenticated(cfg, r, EitherMode, w, id) && id.kind == Human && id.acr == -1
    ensures r.path == "/" + p && LetIn(cfg, table, r, w)
  {
    var c, db;
    cfg := Sample([], [UncheckedDoor(p)]);
    SampleValid([], cfg.rules);
    table, c := SolePageAnswers(UncheckedDoor(p), p);
    id := PersonOf(PORTAL.name, -1);
    PortalPerson(cfg, c.rule);
    r, w, db := GetsThrough(cfg, table, c, Request("h", "GET", "/" + p), "", PORTAL.name, -1, id);
  }

  /** A rule of the same capability that a device's principal may use. */
  function Report(q: string): Rule {
    Unlock("report", "/" + q, false).(permission := PushTelemetry)
  }

  function DoorAndReport(p: string, q: string, client: string, principal: string): Config {
    Sample([], [Unlock("guarded", "/" + p, true), Report(q)]).(systemPrincipals := map[client := principal])
  }

  lemma DoorAndReportPass(p: string, q: string, client: string, principal: string)
    ensures var cfg := DoorAndReport(p, q, client, principal);
            Valid(cfg) && Normalised(cfg) == cfg && Agreed(cfg.rules, [LOCK])
  {
    var rules := DoorAndReport(p, q, client, principal).rules;
    UnlockLoads("guarded", "/" + p, true);
    UnlockLoads("report", "/" + q, false);
    SampleValid([], rules);
    assert Guarded(rules, LOCK.id) by {
      assert rules[0].stepUp && rules[0].capability == LOCK.id;
    }
  }

  lemma DoorAndReportCompile(p: string, q: string) returns (table: seq<Compiled>, c: Compiled)
    requires Name(p) && Name(q) && p != q
    ensures Compiles([Unlock("guarded", "/" + p, true), Report(q)], table) && c in table
    ensures c.rule == Report(q) && AnswersTo(table, c, Request("h", "GET", "/" + q))
  {
    var x, y := Unlock("guarded", "/" + p, true), Report(q);
    SingleCompiles(x, Literal(p));
    SingleCompiles(y, Literal(q));
    c := CompiledForm(y).value;
    table := TwoRulesCompile(x, y);
    DoorAnswers(q, p, [x, y], table, c, CompiledForm(x).value);
  }

  lemma ReportSuits(p: string, q: string, client: string, principal: string, c: Compiled)
    requires c.rule == Report(q)
    ensures var cfg, id := DoorAndReport(p, q, client, principal), SystemOf(client, principal);
            Carried(cfg, client, 0, id) && TakesFrom(cfg, c.rule, "", id) && Suits(cfg, c, id)
  {
    assert TakesFrom(DoorAndReport(p, q, client, principal), c.rule, "", SystemOf(client, principal));
  }

  /** A valid document passes the check, and a system principal exercises the capability with nobody present. */
  lemma AgreementLetsSystemsIn(p: string, q: string, client: string, principal: string)
    returns (cfg: Config, table: seq<Compiled>, r: HttpRequest, w: World, id: Identity)
    requires Name(p) && Name(q) && p != q
    ensures Valid(cfg) && Normalised(cfg) == cfg && Compiles(cfg.rules, table) && Agreed(cfg.rules, [LOCK])
    ensures Authenticated(cfg, r, EitherMode, w, id) && id.kind == System && id.subject == principal
    ensures r.path == "/" + q && LetIn(cfg, table, r, w)
    ensures !Enforced(cfg, table, LOCK.id)
  {
    var c, db;
    cfg := DoorAndReport(p, q, client, principal);
    DoorAndReportPass(p, q, client, principal);
    table, c := DoorAndReportCompile(p, q);
    id := SystemOf(client, principal);
    ReportSuits(p, q, client, principal, c);
    r, w, db := GetsThrough(cfg, table, c, Request("h", "GET", "/" + q), "", client, 0, id);
    OtherIsNoPresence(cfg, table, c, r, w, db, id);
    assert c.rule.capability == LOCK.id;
  }
}
