/**
 The store read back: what a user's grants are after any sequence of writes is a
 last-writer-wins function of that sequence.
 */
module History {
  import opened Wrappers
  import opened Schema
  import opened Store

  datatype Entry = Entry(at: int, write: Write)

  function AppliedAll(db: Relationships, history: seq<Entry>): Relationships {
    if history == [] then db
    else
      var last := history[|history| - 1];
      Applied(AppliedAll(db, history[..|history| - 1]), last.at, last.write)
  }

  /** One capability of one grant: not there, or there until it expires. */
  datatype Standing = Absent | Present(expires: Option<int>)

  function Lookup(db: Relationships, t: Tuple): Standing {
    if t in db then Present(db[t]) else Absent
  }

  predicate Running(s: Standing, now: int) {
    s.Present? && (s.expires.None? || now < s.expires.value)
  }

  /** What one write says about a capability, if it says anything. */
  function Verdict(e: Entry, kind: ObjectType, user: string, party: string, capability: string): Option<Standing> {
    match e.write
    case Consent(u, a, cs) =>
      if kind == ConsentGrant && u == user && a == party && capability in cs then Some(Present(None)) else None
    case Withdraw(u, a, cs) =>
      if kind == ConsentGrant && u == user && a == party && (cs == [] || capability in cs) then Some(Absent) else None
    case Delegating(u, g, cs, ttl) =>
      if kind == Delegation && u == user && g == party && capability in cs
      then Some(Present(Some(e.at + ttl))) else None
    case Undelegating(u, g, cs) =>
      if kind == Delegation && u == user && g == party && (cs == [] || capability in cs) then Some(Absent) else None
    case _ => None
  }

  /** The latest write that says something decides. */
  function LastWriter(
    start: Standing, history: seq<Entry>, kind: ObjectType, user: string, party: string, capability: string): Standing
  {
    if history == [] then start
    else
      match Verdict(history[|history| - 1], kind, user, party, capability)
      case Some(s) => s
      case None => LastWriter(start, history[..|history| - 1], kind, user, party, capability)
  }

  predicate IsGrantKind(kind: ObjectType) {
    kind == ConsentGrant || kind == Delegation
  }

  /** The write comes from the console or leaves grants alone, and its user's ids stay apart from `user`'s. */
  predicate Orderly(w: Write, user: string) {
    match w
    case Consent(u, _, _) => Separate(u, user)
    case Withdraw(u, _, _) => Separate(u, user)
    case Delegating(u, _, _, _) => Separate(u, user)
    case Undelegating(u, _, _) => Separate(u, user)
    case Decommissioning(kind, _, _) => !IsGrantKind(kind)
    case Raw(u) => !IsGrantKind(u.tuple.resource.kind)
    case Idle => true
  }

  lemma EdgeIn(
    kind: ObjectType, u: string, p: string, cs: seq<string>, kind': ObjectType, v: string, q: string, c: string)
    requires Separate(u, v)
    ensures Edge(kind', v, q, c) in Edges(kind, u, p, cs) <==> kind == kind' && u == v && p == q && c in cs
  {
    PairIdInjective(u, p, v, q);
    if Edge(kind', v, q, c) in Edges(kind, u, p, cs) {
      var d :| d in cs && Edge(kind', v, q, c) == Edge(kind, u, p, d);
    }
  }

  /** One write changes a capability's standing exactly as its verdict says. */
  lemma WriteFollowsVerdict(
    db: Relationships, e: Entry, kind: ObjectType, user: string, party: string, capability: string)
    requires IsGrantKind(kind) && Orderly(e.write, user)
    ensures Lookup(Applied(db, e.at, e.write), Edge(kind, user, party, capability))
         == match Verdict(e, kind, user, party, capability)
            case Some(s) => s
            case None => Lookup(db, Edge(kind, user, party, capability))
  {
    match e.write {
      case Consent(u, a, cs) => EdgeIn(ConsentGrant, u, a, cs, kind, user, party, capability);
      case Withdraw(u, a, cs) =>
        EdgeIn(ConsentGrant, u, a, cs, kind, user, party, capability);
        PairIdInjective(u, a, user, party);
      case Delegating(u, g, cs, ttl) => EdgeIn(Delegation, u, g, cs, kind, user, party, capability);
      case Undelegating(u, g, cs) =>
        EdgeIn(Delegation, u, g, cs, kind, user, party, capability);
        PairIdInjective(u, g, user, party);
      case Decommissioning(_, _, _) =>
      case Raw(_) =>
      case Idle =>
    }
  }

  /** The store equals the history, for every user, party and capability. */
  lemma {:induction false} StoreEqualsHistory(
    db: Relationships, history: seq<Entry>, kind: ObjectType, user: string, party: string, capability: string)
    requires IsGrantKind(kind)
    requires forall i :: 0 <= i < |history| ==> Orderly(history[i].write, user)
    ensures Lookup(AppliedAll(db, history), Edge(kind, user, party, capability))
         == LastWriter(Lookup(db, Edge(kind, user, party, capability)), history, kind, user, party, capability)
  {
    if history != [] {
      var front, last := history[..|history| - 1], history[|history| - 1];
      StoreEqualsHistory(db, front, kind, user, party, capability);
      WriteFollowsVerdict(AppliedAll(db, front), last, kind, user, party, capability);
    }
  }

  function IncludesQuery(kind: ObjectType, user: string, party: string, capability: string): Query {
    Query(Object(kind, PairId(user, party)), Includes, Object(Capability, capability))
  }

  /** The backend's answer after any history: the last word still running. */
  lemma AnswerEqualsHistory(
    db: Relationships, history: seq<Entry>, now: int, kind: ObjectType, user: string, party: string, capability: string)
    requires IsGrantKind(kind)
    requires forall i :: 0 <= i < |history| ==> Orderly(history[i].write, user)
    ensures Holds(Live(AppliedAll(db, history), now), IncludesQuery(kind, user, party, capability))
       <==> Running(LastWriter(Lookup(db, Edge(kind, user, party, capability)),
                    history, kind, user, party, capability), now)
  {
    StoreEqualsHistory(db, history, kind, user, party, capability);
  }

  /** A write that speaks, with none after it that does, decides. */
  lemma {:induction false} LastWordDecides(
    start: Standing, history: seq<Entry>, kind: ObjectType, user: string, party: string, capability: string, i: nat)
    requires i < |history| && Verdict(history[i], kind, user, party, capability).Some?
    requires forall j :: i < j < |history| ==> Verdict(history[j], kind, user, party, capability).None?
    ensures Some(LastWriter(start, history, kind, user, party, capability))
       == Verdict(history[i], kind, user, party, capability)
  {
    if i < |history| - 1 {
      LastWordDecides(start, history[..|history| - 1], kind, user, party, capability, i);
    }
  }

  /** The position of the last word, when it differs from the start. */
  lemma {:induction false} LastWordExists(
    history: seq<Entry>, kind: ObjectType, user: string, party: string, capability: string) returns (i: nat)
    requires LastWriter(Absent, history, kind, user, party, capability).Present?
    ensures i < |history|
    ensures Verdict(history[i], kind, user, party, capability)
         == Some(LastWriter(Absent, history, kind, user, party, capability))
    ensures forall j :: i < j < |history| ==> Verdict(history[j], kind, user, party, capability).None?
  {
    var last := |history| - 1;
    if Verdict(history[last], kind, user, party, capability).Some? {
      i := last;
    } else {
      i := LastWordExists(history[..last], kind, user, party, capability);
    }
  }

  /** Granting again changes nothing: a user clicking twice is not an error. */
  lemma RegrantIsIdempotent(
    db: Relationships, now: int, later: int, user: string, app: string, capabilities: seq<string>)
    ensures var w := Consent(user, app, capabilities);
            Applied(Applied(db, now, w), later, w) == Applied(db, now, w)
  {
  }

  // ---- the account page -----------------------------------------------------------

  /** The relationship would be shown on `user`'s page as `party` holding `capability` until `e`. */
  ghost predicate Appears(
    db: Relationships, now: int, kind: ObjectType, user: string, party: string, capability: string, e: Option<int>)
  {
    exists t :: t in Live(db, now) && Selects(ListedFor(kind, user), t)
      && PartyOf(t.resource.id) == party && Held(capability, e) == Held(t.subject.id, db[t])
  }

  /** Every grant of this kind was made for some user separate from `user`, to a party without `|`. */
  ghost predicate WellNamed(db: Relationships, kind: ObjectType, user: string) {
    forall t :: t in db && t.resource.kind == kind && t.relation == Granted ==> Named(t, kind, user)
  }

  ghost predicate Named(t: Tuple, kind: ObjectType, user: string) {
    exists u, p, c :: Separate(user, u) && '|' !in p && t == Edge(kind, u, p, c)
  }

  lemma ListedIsEdge(t: Tuple, kind: ObjectType, user: string, party: string)
    requires Named(t, kind, user) && Selects(ListedFor(kind, user), t) && PartyOf(t.resource.id) == party
    ensures t == Edge(kind, user, party, t.subject.id)
  {
    var u, p, c :| Separate(user, u) && '|' !in p && t == Edge(kind, u, p, c);
    PrefixNamesUser(user, u, p);
    PartyOfPair(u, p);
  }

  lemma EdgeIsListed(kind: ObjectType, user: string, party: string, capability: string)
    requires '|' !in party
    ensures Selects(ListedFor(kind, user), Edge(kind, user, party, capability))
    ensures PartyOf(PairId(user, party)) == party
  {
    PartyOfPair(user, party);
    PrefixNamesUser(user, user, party);
  }

  lemma AppearsIsEdge(
    db: Relationships, now: int, kind: ObjectType, user: string, party: string, capability: string, e: Option<int>)
    requires WellNamed(db, kind, user) && Appears(db, now, kind, user, party, capability, e)
    ensures Edge(kind, user, party, capability) in Live(db, now)
  {
    var t :| t in Live(db, now) && Selects(ListedFor(kind, user), t)
      && PartyOf(t.resource.id) == party && Held(capability, e) == Held(t.subject.id, db[t]);
    ListedIsEdge(t, kind, user, party);
  }

  lemma EdgeAppears(db: Relationships, now: int, kind: ObjectType, user: string, party: string, capability: string)
    requires '|' !in party && Edge(kind, user, party, capability) in Live(db, now)
    ensures Appears(db, now, kind, user, party, capability, db[Edge(kind, user, party, capability)])
  {
    EdgeIsListed(kind, user, party, capability);
  }

  /** The page shows a grant exactly when the next request would honour it. */
  lemma PageAgreesWithAnswers(
    db: Relationships, now: int, kind: ObjectType, user: string, party: string, capability: string)
    requires IsGrantKind(kind) && WellNamed(db, kind, user) && '|' !in party
    ensures (exists e :: Appears(db, now, kind, user, party, capability, e))
       <==> Holds(Live(db, now), IncludesQuery(kind, user, party, capability))
  {
    var edge := Edge(kind, user, party, capability);
    assert Holds(Live(db, now), IncludesQuery(kind, user, party, capability)) <==> edge in Live(db, now);
    if e :| Appears(db, now, kind, user, party, capability, e) {
      AppearsIsEdge(db, now, kind, user, party, capability, e);
    }
    if edge in Live(db, now) {
      EdgeAppears(db, now, kind, user, party, capability);
    }
  }

  /** Writes whose parties carry no `|` keep the page exact. */
  predicate WellNamedWrite(w: Write, user: string) {
    Orderly(w, user)
    && match w
       case Consent(_, a, _) => '|' !in a
       case Delegating(_, g, _, _) => '|' !in g
       case _ => true
  }

  lemma WellNamedKept(db: Relationships, now: int, w: Write, kind: ObjectType, user: string)
    requires IsGrantKind(kind) && WellNamed(db, kind, user) && WellNamedWrite(w, user)
    ensures WellNamed(Applied(db, now, w), kind, user)
  {
    var after := Applied(db, now, w);
    forall t | t in after && t.resource.kind == kind && t.relation == Granted && t !in db ensures Named(t, kind, user) {
      match w {
        case Consent(u, a, cs) =>
          var c :| c in cs && t == Edge(ConsentGrant, u, a, c);
          assert Separate(user, u);
        case Delegating(u, g, cs, _) =>
          var c :| c in cs && t == Edge(Delegation, u, g, c);
          assert Separate(user, u);
        case _ => assert false;
      }
    }
  }

  // ---- decommissioning ---------------------------------------------------------------

  /** Nobody's enrolment of the agent survives, whether or not the second deletion succeeds. */
  lemma DecommissionEndsEnrolment(db: Relationships, now: int, at: int, agent: string, complete: bool, user: string)
    ensures !Holds(Live(Applied(db, at, Decommissioning(Agent, agent, complete)), now),
                   Query(Object(Agent, agent), ActFor, Object(User, user)))
  {
  }

  /**
   The console's comment promises that a decommissioned agent no longer appears on
   anybody's account page. The `granted` edges the page lists are not deleted, so it
   appears after exactly when it appeared before.
   */
  lemma DecommissionedStillAppears(
    db: Relationships, at: int, now: int, agent: string, complete: bool,
    user: string, party: string, capability: string, e: Option<int>)
    ensures Appears(Applied(db, at, Decommissioning(Agent, agent, complete)),
                    now, Delegation, user, party, capability, e)
       <==> Appears(db, now, Delegation, user, party, capability, e)
  {
    var after := Applied(db, at, Decommissioning(Agent, agent, complete));
    forall t | Selects(ListedFor(Delegation, user), t) ensures Lookup(after, t) == Lookup(db, t) {}
    forall t | Selects(ListedFor(Delegation, user), t) ensures t in Live(after, now) <==> t in Live(db, now) {
      assert Lookup(after, t) == Lookup(db, t);
    }
    if Appears(after, now, Delegation, user, party, capability, e) {
      var t :| t in Live(after, now) && Selects(ListedFor(Delegation, user), t)
        && PartyOf(t.resource.id) == party && Held(capability, e) == Held(t.subject.id, after[t]);
      assert Lookup(after, t) == Lookup(db, t) && t in Live(db, now);
    }
    if Appears(db, now, Delegation, user, party, capability, e) {
      var t :| t in Live(db, now) && Selects(ListedFor(Delegation, user), t)
        && PartyOf(t.resource.id) == party && Held(capability, e) == Held(t.subject.id, db[t]);
      assert Lookup(after, t) == Lookup(db, t) && t in Live(after, now);
    }
  }

  /** A run in which the promise fails: delegated, decommissioned, still shown. */
  lemma DecommissionedShownExample(user: string, agent: string, capability: string, ttl: int, now: int)
    requires 0 < now < ttl && '|' !in agent
    ensures var db := AppliedAll(map[], [Entry(0, Delegating(user, agent, [capability], ttl)),
                                         Entry(0, Decommissioning(Agent, agent, true))]);
            Appears(db, now, Delegation, user, agent, capability, Some(ttl))
  {
    var first := Entry(0, Delegating(user, agent, [capability], ttl));
    var second := Entry(0, Decommissioning(Agent, agent, true));
    var delegated := Applied(map[], 0, first.write);
    assert [first, second][..1] == [first] && [first][..0] == [];
    assert AppliedAll(map[], [first]) == delegated;
    EdgeIsListed(Delegation, user, agent, capability);
    var edge := Edge(Delegation, user, agent, capability);
    assert capability in [capability];
    assert delegated[edge] == Some(ttl) && edge in Live(delegated, now);
    assert Appears(delegated, now, Delegation, user, agent, capability, Some(ttl));
    DecommissionedStillAppears(delegated, 0, now, agent, true, user, agent, capability, Some(ttl));
  }

  /** A device decommissioned from the console keeps every answer about devices: `self` is not its own relationship. */
  lemma DecommissionedDeviceKeepsAnswers(
    db: Relationships, at: int, now: int, principal: string, complete: bool, q: Query)
    requires q.resource.kind == Device
    ensures Holds(Live(Applied(db, at, Decommissioning(SystemPrincipal, principal, complete)), now), q)
       <==> Holds(Live(db, now), q)
  {
    var before := Live(db, now);
    var after := Live(Applied(db, at, Decommissioning(SystemPrincipal, principal, complete)), now);
    assert after <= before;
    forall t | t in before && t.resource.kind in {Device, Home} ensures t in after {}
    if Holds(after, q) {
      HoldsMonotone(after, before, q);
    }
    var kept := set t | t in before && t.resource.kind in {Device, Home};
    if Holds(before, q) {
      DeviceAnswersUse(before, q);
      HoldsMonotone(kept, after, q);
    }
  }

  /** A store in which a decommissioned device's principal may still push telemetry. */
  lemma DecommissionedDeviceStillPushes(device: string, principal: string, at: int, now: int, complete: bool)
    ensures var db := map[Tuple(Object(Device, device), Self, Object(SystemPrincipal, principal)) := None];
            Holds(Live(Applied(db, at, Decommissioning(SystemPrincipal, principal, complete)), now),
                  Query(Object(Device, device), PushTelemetry, Object(SystemPrincipal, principal)))
  {
    var self := Tuple(Object(Device, device), Self, Object(SystemPrincipal, principal));
    var q := Query(Object(Device, device), PushTelemetry, Object(SystemPrincipal, principal));
    assert self in Live(map[self := None], now);
    DecommissionedDeviceKeepsAnswers(map[self := None], at, now, principal, complete, q);
  }

  /** Only relationships of devices and homes bear on a question about a device. */
  lemma DeviceAnswersUse(live: set<Tuple>, q: Query)
    requires q.resource.kind == Device && Holds(live, q)
    ensures Holds((set t | t in live && t.resource.kind in {Device, Home}), q)
  {
    var kept := set t | t in live && t.resource.kind in {Device, Home};
    var arrow := if q.permission == OperateLock then Administrate else q.permission;
    if ThroughHome(live, q.resource, arrow, q.subject) {
      var t :| t in live && t.resource == q.resource && t.relation == InHome && t.subject.kind == Home
        && HomeGrants(live, t.subject, arrow, q.subject);
      assert t in kept && HomeGrants(kept, t.subject, arrow, q.subject);
    }
  }
}
