/**
 The agreement the configuration checker demands between the catalogue's sensitive
 capabilities and the routes with step-up; and what the file must say for a capability to
 be exercised only by people who show their presence.
 */
module ConfigCheck {
  import opened Wrappers
  import opened Schema
  import opened Config
  import opened Routes
  import opened Decision
  import opened Policy
  import opened Authority
  import opened Admission
  import opened Probes
  import C = Catalogue
  import K = Console
  import D = Delegated

  /** Some rule with step-up names the capability. */
  ghost predicate Guarded(rules: seq<Rule>, capability: string) {
    exists i :: 0 <= i < |rules| && rules[i].stepUp && rules[i].capability == capability
  }

  /** The sensitive capabilities are exactly the guarded ones. */
  ghost predicate Agreed(rules: seq<Rule>, capabilities: seq<C.Entry>) {
    forall i :: 0 <= i < |capabilities| ==> (capabilities[i].sensitive <==> Guarded(rules, capabilities[i].id))
  }

  method CrossCheck(rules: seq<Rule>, capabilities: seq<C.Entry>) returns (ok: bool)
    ensures ok <==> Agreed(rules, capabilities)
  {
    var guarded: set<string> := {};
    for i := 0 to |rules|
      invariant forall k :: 0 <= k < i && rules[k].stepUp ==> rules[k].capability in guarded
      invariant forall c :: c in guarded ==> exists k :: 0 <= k < i && rules[k].stepUp && rules[k].capability == c
    {
      if rules[i].stepUp {
        guarded := guarded + {rules[i].capability};
      }
    }
    ok := true;
    for i := 0 to |capabilities|
      invariant ok <==> forall k :: 0 <= k < i ==> (capabilities[k].sensitive <==> Guarded(rules, capabilities[k].id))
    {
      var c := capabilities[i];
      if c.sensitive && c.id !in guarded {
        ok := false;
      } else if !c.sensitive && c.id in guarded {
        ok := false;
      }
    }
  }

  // ---- rules that only people with an authentication level get through ------------------------

  /** The rule answers this request, and the backend answers from this store. */
  ghost predicate OnStore(table: seq<Compiled>, c: Compiled, r: HttpRequest, w: World, db: Relationships) {
    && AnsweredBy(table, r, c)
    && WellTyped(db)
    && AnswersBy(w, c.rule.consistency == FullyConsistent, StoreAnswers(Live(db, w.now)))
  }

  /** The request carries the token of a person with an authentication level. */
  ghost predicate ShowsPresence(cfg: Config, c: Compiled, r: HttpRequest, w: World) {
    exists id :: Authenticated(cfg, r, c.rule.authMode, w, id) && id.kind == Human && id.acr >= 0
  }

  /** Nobody else is let in: no system principal, no agent, no person without a level, nobody unidentified. */
  ghost predicate ClosedToTheAbsent(cfg: Config, table: seq<Compiled>, c: Compiled) {
    forall r, w, db :: OnStore(table, c, r, w, db) && LetIn(cfg, table, r, w) ==> ShowsPresence(cfg, c, r, w)
  }

  /** The gate looks at the level, and refuses an absent one. */
  predicate Guards(rule: Rule) {
    ResourceChecked(rule) && rule.stepUp && rule.stepUpMinAcr >= 0
  }

  /** What the file must say. */
  ghost predicate FileCloses(cfg: Config, table: seq<Compiled>, c: Compiled) {
    && (c.rule.isPublic ==> !Alive(table, c))
    && (FileAdmitsPeople(cfg, table, c) ==> Guards(c.rule))
    && !FileAdmitsSystems(cfg, table, c)
    && !FileAdmitsAgents(cfg, table, c)
  }

  lemma OtherIsNoPresence(
    cfg: Config, table: seq<Compiled>, c: Compiled, r: HttpRequest, w: World, db: Relationships, id: Identity)
    requires Arrives(cfg, table, c, r, w, db, id) && LetIn(cfg, table, r, w) && !(id.kind == Human && id.acr >= 0)
    ensures !ClosedToTheAbsent(cfg, table, c)
  {
    assert OnStore(table, c, r, w, db);
    if other :| Authenticated(cfg, r, c.rule.authMode, w, other) && other.kind == Human && other.acr >= 0 {
      OneCaller(cfg, r, c.rule.authMode, w, id, other);
    }
  }

  /** A world in which nobody has a token. */
  function Nobody(): World {
    World(0, _ => None, (_, _, _, _, _) => None, (_, _, _) => None, _ => None, _ => None, true, None,
          (full, queries) => Bulk(StoreAnswers({}), queries))
  }

  lemma AnonymousGetsIn(cfg: Config, table: seq<Compiled>, c: Compiled)
    requires Compiles(cfg.rules, table) && c.rule.isPublic && Alive(table, c)
    ensures !ClosedToTheAbsent(cfg, table, c)
  {
    var q := AliveAnswers(cfg.rules, table, c);
    var r, w := HttpRequest(q.verb, q.path, map[], q.host, "", map[], ""), Nobody();
    assert Asked(r) == q;
    LetInByPolicy(cfg, table, c, r, w);
    assert Live(map[], 0) == {};
    assert OnStore(table, c, r, w, map[]);
  }

  lemma AbsentGetIn(cfg: Config, table: seq<Compiled>, c: Compiled)
    requires Compiles(cfg.rules, table) && !Guards(c.rule) && Admits(cfg, table, c, Human)
    ensures !ClosedToTheAbsent(cfg, table, c)
  {
    var r, w, db, id :| Arrives(cfg, table, c, r, w, db, id) && id.kind == Human && LetIn(cfg, table, r, w);
    LevelDecidesExactly(cfg, table, c, r, w, db, id, -1);
    OtherIsNoPresence(cfg, table, c, r, AtLevel(w, -1), db, id.(acr := -1));
  }

  lemma OtherKindGetsIn(cfg: Config, table: seq<Compiled>, c: Compiled, kind: Kind)
    requires kind != Human && Admits(cfg, table, c, kind)
    ensures !ClosedToTheAbsent(cfg, table, c)
  {
    var r, w, db, id :| Arrives(cfg, table, c, r, w, db, id) && id.kind == kind && LetIn(cfg, table, r, w);
    OtherIsNoPresence(cfg, table, c, r, w, db, id);
  }

  lemma ClosedByFile(cfg: Config, table: seq<Compiled>, c: Compiled, r: HttpRequest, w: World, db: Relationships)
    requires Compiles(cfg.rules, table) && FileCloses(cfg, table, c)
    requires OnStore(table, c, r, w, db) && LetIn(cfg, table, r, w)
    ensures ShowsPresence(cfg, c, r, w)
  {
    AnsweringIsAlive(cfg.rules, table, c, r);
    LetInByPolicy(cfg, table, c, r, w);
    var id :| IdentityAllowed(cfg, c, r, id, w);
    AdmittedByFile(cfg, table, c, r, w, db, id);
    AdmittedNeeds(cfg, table, c, r, w, db, id);
  }

  /**
   Only people with an authentication level get through a rule exactly when the file says so:
   it is not public, lets no system principal and no agent through, and lets people through, if
   at all, only resource-checked with step-up and a minimum that is not negative.
   */
  lemma ClosedExactly(cfg: Config, table: seq<Compiled>, c: Compiled)
    requires Compiles(cfg.rules, table)
    ensures ClosedToTheAbsent(cfg, table, c) <==> FileCloses(cfg, table, c)
  {
    AdmitsPeopleExactly(cfg, table, c);
    AdmitsSystemsExactly(cfg, table, c);
    AdmitsAgentsExactly(cfg, table, c);
    if FileCloses(cfg, table, c) {
      forall r, w, db | OnStore(table, c, r, w, db) && LetIn(cfg, table, r, w) ensures ShowsPresence(cfg, c, r, w) {
        ClosedByFile(cfg, table, c, r, w, db);
      }
    } else if c.rule.isPublic && Alive(table, c) {
      AnonymousGetsIn(cfg, table, c);
    } else if FileAdmitsPeople(cfg, table, c) && !Guards(c.rule) {
      AbsentGetIn(cfg, table, c);
    } else {
      OtherKindGetsIn(cfg, table, c, if FileAdmitsSystems(cfg, table, c) then System else AgentActor);
    }
  }

  /** What the cross-check is for: nobody exercises the capability without showing presence. */
  ghost predicate Enforced(cfg: Config, table: seq<Compiled>, capability: string) {
    forall c :: c in table && c.rule.capability == capability ==> ClosedToTheAbsent(cfg, table, c)
  }

  /** A capability is enforced exactly when the file closes every rule that names it. */
  lemma EnforcedExactly(cfg: Config, table: seq<Compiled>, capability: string)
    requires Compiles(cfg.rules, table)
    ensures Enforced(cfg, table, capability)
       <==> forall c :: c in table && c.rule.capability == capability ==> FileCloses(cfg, table, c)
  {
    forall c | c in table ensures ClosedToTheAbsent(cfg, table, c) <==> FileCloses(cfg, table, c) {
      ClosedExactly(cfg, table, c);
    }
  }

  /**
   Agents and sensitive capabilities: over every run whose grants are written through the
   console, an agent that is bound and calls from a registered workload is let in through a
   rule naming one exactly when the rule asks the backend nothing.
   */
  lemma SensitiveAgentExactly(
    cat: C.Catalogue, start: K.State, events: seq<K.Event>,
    cfg: Config, table: seq<Compiled>, r: HttpRequest, w: World, c: Compiled, id: Identity)
    requires C.Valid(cat) && K.Bounded(cat, start)
    requires forall k :: 0 <= k < |events| ==> K.GrantsOnlyHere(events[k])
    requires Compiles(cfg.rules, table) && AnsweredBy(table, r, c) && !Endpoint(r)
    requires Authenticated(cfg, r, c.rule.authMode, w, id) && id.kind == AgentActor
    requires BoundTo(cfg, r.source, id) && (c.rule.callers == [] || r.source in c.rule.callers)
    requires var end := K.Run(cat, start, events); ReadsStore(table, r, w, end.db, end.now)
    requires c.rule.capability != "" && C.MarkedSensitive(cat, c.rule.capability)
    ensures LetIn(cfg, table, r, w) <==> !ResourceChecked(c.rule)
  {
    LetInByPolicy(cfg, table, c, r, w);
    if !ResourceChecked(c.rule) {
      assert c.rule.isPublic || IdentityAllowed(cfg, c, r, id, w);
    } else if LetIn(cfg, table, r, w) {
      var headers := Decide(cfg, table, r, w).0.response.headers;
      D.SensitiveStaysOutOfReach(cat, start, events, cfg, table, r, w, headers, c, id);
    }
  }
}
