/**
 The account console: guards in front of every write, and the runs of a system
 whose grants are written only here.
 */
module Console {
  import opened Wrappers
  import opened Schema
  import opened Store
  import opened History
  import opened Config
  import C = Catalogue

  /** How far a posted request got before its handler's own guards. */
  datatype Form = Form(posted: bool, parsed: bool)

  /** Which of a handler's backend calls are answered. */
  datatype Backend = Backend(check: bool, write: bool, again: bool)

  datatype Action =
    | GrantConsent(app: string, capabilities: seq<string>)
    | RevokeConsent(app: string, capabilities: seq<string>)
    | CreateDelegation(agent: string, capabilities: seq<string>, ttl: Option<int>)
    | WithdrawDelegation(agent: string, capabilities: seq<string>)
    | Decommission(kind: ObjectType, id: string)

  /** `user` is the authenticated principal, never a form field. */
  datatype Post = Post(user: string, form: Form, action: Action, backend: Backend)

  /** The chosen duration, or the catalogue's first when it is missing, not positive or over a day. */
  function EffectiveTtl(cat: C.Catalogue, chosen: Option<int>): int
    requires C.Valid(cat)
  {
    if chosen.None? || chosen.value <= 0 || chosen.value > 24 * HOUR then cat.delegationTtls[0] else chosen.value
  }

  predicate Within(cs: seq<string>, allowed: seq<string>) {
    forall c :: c in cs ==> c in allowed
  }

  method AllWithin(cs: seq<string>, allowed: seq<string>) returns (ok: bool)
    ensures ok == Within(cs, allowed)
  {
    for i := 0 to |cs|
      invariant forall k :: 0 <= k < i ==> cs[k] in allowed
    {
      if cs[i] !in allowed {
        return false;
      }
    }
    return true;
  }

  /** What a post writes, and the status it answers with. */
  function Effect(cat: C.Catalogue, db: Relationships, now: int, p: Post): (Write, int)
    requires C.Valid(cat)
  {
    if !p.form.posted then (Idle, 405)
    else if !p.form.parsed then (Idle, 400)
    else
      match p.action
      case GrantConsent(app, cs) =>
        if app == "" || cs == [] then (Idle, 400)
        else if !p.backend.write then (Idle, 502)
        else (Consent(p.user, app, cs), 302)
      case RevokeConsent(app, cs) =>
        if app == "" then (Idle, 400)
        else if !p.backend.write then (Idle, 502)
        else (Withdraw(p.user, app, cs), 302)
      case CreateDelegation(agent, cs, ttl) =>
        if agent == "" || cs == [] then (Idle, 400)
        else if !Within(cs, C.Allowed(cat, agent)) then (Idle, 400)
        else if !p.backend.check then (Idle, 502)
        else if !Holds(Live(db, now), EnrolmentQuery(agent, p.user)) then (Idle, 403)
        else if !p.backend.write then (Idle, 502)
        else (Delegating(p.user, agent, cs, EffectiveTtl(cat, ttl)), 302)
      case WithdrawDelegation(agent, cs) =>
        if agent == "" then (Idle, 400)
        else if !p.backend.write then (Idle, 502)
        else (Undelegating(p.user, agent, cs), 302)
      case Decommission(kind, id) =>
        if kind != Agent && kind != SystemPrincipal then (Idle, 400)
        else if id == "" then (Idle, 400)
        else if !p.backend.check then (Idle, 502)
        else if !Holds(Live(db, now), OperatorQuery(kind, id, p.user)) then (Idle, 403)
        else if !p.backend.write then (Idle, 502)
        else (Decommissioning(kind, id, p.backend.again), if kind == Agent && !p.backend.again then 502 else 302)
  }

  class AccountApp {
    const catalogue: C.Catalogue
    const writer: Writer

    constructor (catalogue: C.Catalogue, writer: Writer)
      ensures this.catalogue == catalogue && this.writer == writer
    {
      this.catalogue := catalogue;
      this.writer := writer;
    }

    method HandleGrant(p: Post, now: int) returns (status: int)
      requires C.Valid(catalogue) && p.action.GrantConsent?
      modifies writer.database
      ensures status == Effect(catalogue, old(writer.database.tuples), now, p).1
      ensures writer.database.tuples
           == Applied(old(writer.database.tuples), now, Effect(catalogue, old(writer.database.tuples), now, p).0)
    {
      if !p.form.posted {
        return 405;
      }
      if !p.form.parsed {
        return 400;
      }
      if p.action.app == "" || |p.action.capabilities| == 0 {
        return 400;
      }
      var ok := writer.Grant(p.user, p.action.app, p.action.capabilities, now, p.backend.write);
      return if ok then 302 else 502;
    }

    method HandleRevoke(p: Post, now: int) returns (status: int)
      requires C.Valid(catalogue) && p.action.RevokeConsent?
      modifies writer.database
      ensures status == Effect(catalogue, old(writer.database.tuples), now, p).1
      ensures writer.database.tuples
           == Applied(old(writer.database.tuples), now, Effect(catalogue, old(writer.database.tuples), now, p).0)
    {
      if !p.form.posted {
        return 405;
      }
      if !p.form.parsed {
        return 400;
      }
      if p.action.app == "" {
        return 400;
      }
      var ok := writer.Revoke(p.user, p.action.app, p.action.capabilities, now, p.backend.write);
      return if ok then 302 else 502;
    }

    method HandleCreateDelegation(p: Post, now: int) returns (status: int)
      requires C.Valid(catalogue) && p.action.CreateDelegation?
      modifies writer.database
      ensures status == Effect(catalogue, old(writer.database.tuples), now, p).1
      ensures writer.database.tuples
           == Applied(old(writer.database.tuples), now, Effect(catalogue, old(writer.database.tuples), now, p).0)
    {
      if !p.form.posted {
        return 405;
      }
      if !p.form.parsed {
        return 400;
      }
      var agent, cs := p.action.agent, p.action.capabilities;
      if agent == "" || |cs| == 0 {
        return 400;
      }
      var allowed, _ := C.Delegatable(catalogue, agent);
      var within := AllWithin(cs, allowed);
      if !within {
        return 400;
      }
      var ttl := if p.action.ttl.Some? then p.action.ttl.value else 0;
      if ttl <= 0 || ttl > 24 * HOUR {
        ttl := catalogue.delegationTtls[0];
      }
      var enrolled := writer.EnrolledFor(agent, p.user, now, p.backend.check);
      if enrolled.None? {
        return 502;
      }
      if !enrolled.value {
        return 403;
      }
      var expires := writer.Delegate(p.user, agent, cs, ttl, now, p.backend.write);
      return if expires.Some? then 302 else 502;
    }

    method HandleWithdrawDelegation(p: Post, now: int) returns (status: int)
      requires C.Valid(catalogue) && p.action.WithdrawDelegation?
      modifies writer.database
      ensures status == Effect(catalogue, old(writer.database.tuples), now, p).1
      ensures writer.database.tuples
           == Applied(old(writer.database.tuples), now, Effect(catalogue, old(writer.database.tuples), now, p).0)
    {
      if !p.form.posted {
        return 405;
      }
      if !p.form.parsed {
        return 400;
      }
      if p.action.agent == "" {
        return 400;
      }
      var ok := writer.Undelegate(p.user, p.action.agent, p.action.capabilities, now, p.backend.write);
      return if ok then 302 else 502;
    }

    method HandleDecommission(p: Post, now: int) returns (status: int)
      requires C.Valid(catalogue) && p.action.Decommission?
      modifies writer.database
      ensures status == Effect(catalogue, old(writer.database.tuples), now, p).1
      ensures writer.database.tuples
           == Applied(old(writer.database.tuples), now, Effect(catalogue, old(writer.database.tuples), now, p).0)
    {
      if !p.form.posted {
        return 405;
      }
      if !p.form.parsed {
        return 400;
      }
      var kind, id := p.action.kind, p.action.id;
      if kind != Agent && kind != SystemPrincipal {
        return 400;
      }
      if id == "" {
        return 400;
      }
      var operates := writer.Operates(kind, id, p.user, now, p.backend.check);
      if operates.None? {
        return 502;
      }
      if !operates.value {
        return 403;
      }
      var ok := writer.Decommission(kind, id, now, p.backend.write, p.backend.again);
      return if ok then 302 else 502;
    }
  }

  // ---- runs --------------------------------------------------------------------------

  /** `External` is any other writer of relationships; `Checked` is an authorization request, which writes none. */
  datatype Event = Posted(post: Post) | External(update: Update) | Tick(elapsed: nat) | Checked

  datatype State = State(db: Relationships, now: int)

  function WriteOf(cat: C.Catalogue, s: State, e: Event): Write
    requires C.Valid(cat)
  {
    match e
    case Posted(p) => Effect(cat, s.db, s.now, p).0
    case External(u) => Raw(u)
    case Tick(_) => Idle
    case Checked => Idle
  }

  function Step(cat: C.Catalogue, s: State, e: Event): State
    requires C.Valid(cat)
  {
    State(Applied(s.db, s.now, WriteOf(cat, s, e)), if e.Tick? then s.now + e.elapsed else s.now)
  }

  function Run(cat: C.Catalogue, s: State, events: seq<Event>): State
    requires C.Valid(cat)
  {
    if events == [] then s else Step(cat, Run(cat, s, events[..|events| - 1]), events[|events| - 1])
  }

  /** The writes of a run, with the times they were made. */
  function Log(cat: C.Catalogue, s: State, events: seq<Event>): (log: seq<Entry>)
    requires C.Valid(cat)
    ensures |log| == |events|
  {
    if events == [] then []
    else
      var before := Run(cat, s, events[..|events| - 1]);
      Log(cat, s, events[..|events| - 1]) + [Entry(before.now, WriteOf(cat, before, events[|events| - 1]))]
  }

  /** Other writers leave grants alone. */
  predicate GrantsOnlyHere(e: Event) {
    e.External? ==> !IsGrantKind(e.update.tuple.resource.kind)
  }

  /** A poster's id stays apart from `user`'s. */
  predicate Apart(e: Event, user: string) {
    e.Posted? ==> Separate(e.post.user, user)
  }

  lemma {:induction false} RunFollowsLog(cat: C.Catalogue, s: State, events: seq<Event>)
    requires C.Valid(cat)
    ensures Run(cat, s, events).db == AppliedAll(s.db, Log(cat, s, events))
  {
    if events != [] {
      RunFollowsLog(cat, s, events[..|events| - 1]);
    }
  }

  lemma {:induction false} LogAt(cat: C.Catalogue, s: State, events: seq<Event>, i: nat)
    requires C.Valid(cat) && i < |events|
    ensures var before := Run(cat, s, events[..i]);
            Log(cat, s, events)[i] == Entry(before.now, WriteOf(cat, before, events[i]))
  {
    var n := |events| - 1;
    if i < n {
      LogAt(cat, s, events[..n], i);
      assert events[..n][..i] == events[..i];
    }
  }

  // ---- what holds of every run ----------------------------------------------------------

  ghost predicate IsDelegated(t: Tuple) {
    t.resource.kind == Delegation && t.relation == Granted
  }

  function MaxTtl(cat: C.Catalogue): int
    requires C.Valid(cat)
  {
    if cat.delegationTtls[0] > 24 * HOUR then cat.delegationTtls[0] else 24 * HOUR
  }

  /** Delegated capabilities are never sensitive, and every one expires within the longest duration on offer. */
  ghost predicate Bounded(cat: C.Catalogue, s: State)
    requires C.Valid(cat)
  {
    forall t :: t in s.db && IsDelegated(t) ==>
      !C.MarkedSensitive(cat, t.subject.id) && s.db[t].Some? && s.db[t].value <= s.now + MaxTtl(cat)
  }

  lemma EffectiveTtlBounded(cat: C.Catalogue, chosen: Option<int>)
    requires C.Valid(cat)
    ensures 0 < EffectiveTtl(cat, chosen) <= MaxTtl(cat)
  {
  }

  /** The capability of one grant that an action speaks about. */
  predicate Names(a: Action, kind: ObjectType, party: string, capability: string) {
    match a
    case GrantConsent(app, cs) => kind == ConsentGrant && party == app && capability in cs
    case RevokeConsent(app, cs) => kind == ConsentGrant && party == app && (cs == [] || capability in cs)
    case CreateDelegation(agent, cs, _) => kind == Delegation && party == agent && capability in cs
    case WithdrawDelegation(agent, cs) => kind == Delegation && party == agent && (cs == [] || capability in cs)
    case Decommission(_, _) => false
  }

  /**
   A post that succeeds changes the poster's own grants, and of those the ones its action
   names: a grant runs without end, a delegation for a positive time of at most the
   longest the catalogue allows, a withdrawal ends it. Everything else stays.
   */
  lemma PostChangesItsOwn(
    cat: C.Catalogue, s: State, p: Post, kind: ObjectType, user: string, party: string, capability: string)
    requires C.Valid(cat) && IsGrantKind(kind) && Separate(p.user, user)
    ensures var before, after := Lookup(s.db, Edge(kind, user, party, capability)),
                                 Lookup(Step(cat, s, Posted(p)).db, Edge(kind, user, party, capability));
            if Effect(cat, s.db, s.now, p).1 == 302 && user == p.user && Names(p.action, kind, party, capability) then
              && (p.action.GrantConsent? ==> after == Present(None))
              && (p.action.RevokeConsent? || p.action.WithdrawDelegation? ==> after == Absent)
              && (p.action.CreateDelegation? ==>
                    after.Present? && after.expires.Some? && s.now < after.expires.value <= s.now + MaxTtl(cat))
            else
              after == before
  {
    WriteFollowsVerdict(s.db, Entry(s.now, WriteOf(cat, s, Posted(p))), kind, user, party, capability);
    if p.action.CreateDelegation? {
      EffectiveTtlBounded(cat, p.action.ttl);
    }
  }

  /** A post that does not succeed writes nothing, but for an agent's decommission cut short between its deletions. */
  lemma RefusedWritesExactly(cat: C.Catalogue, s: State, p: Post)
    requires C.Valid(cat) && Effect(cat, s.db, s.now, p).1 != 302
    ensures Effect(cat, s.db, s.now, p).0 != Idle
       <==> && p.form.posted && p.form.parsed
            && p.action.Decommission? && p.action.kind == Agent && p.action.id != ""
            && p.backend.check && Holds(Live(s.db, s.now), OperatorQuery(Agent, p.action.id, p.user))
            && p.backend.write && !p.backend.again
  {
  }

  lemma DelegatingWritesBounded(cat: C.Catalogue, s: State, p: Post, t: Tuple)
    requires C.Valid(cat) && Effect(cat, s.db, s.now, p).0.Delegating?
    requires IsDelegated(t)
    ensures var after := Applied(s.db, s.now, Effect(cat, s.db, s.now, p).0);
            (t in after && (t !in s.db || after[t] != s.db[t]))
            ==> !C.MarkedSensitive(cat, t.subject.id) && after[t].Some? && after[t].value <= s.now + MaxTtl(cat)
  {
    var w := Effect(cat, s.db, s.now, p).0;
    EffectiveTtlBounded(cat, p.action.ttl);
    C.AllowedExactly(cat, w.agent, t.subject.id);
    if t in Edges(Delegation, w.user, w.agent, w.capabilities) {
      var c :| c in w.capabilities && t == Edge(Delegation, w.user, w.agent, c);
      assert t.subject.id == c;
    }
  }

  lemma StepKeepsBounded(cat: C.Catalogue, s: State, e: Event)
    requires C.Valid(cat) && Bounded(cat, s) && GrantsOnlyHere(e)
    ensures Bounded(cat, Step(cat, s, e))
  {
    var after := Step(cat, s, e);
    forall t | t in after.db && IsDelegated(t)
      ensures !C.MarkedSensitive(cat, t.subject.id) && after.db[t].Some? && after.db[t].value <= after.now + MaxTtl(cat)
    {
      if e.Posted? && Effect(cat, s.db, s.now, e.post).0.Delegating? {
        DelegatingWritesBounded(cat, s, e.post, t);
      } else {
        assert t in s.db && after.db[t] == s.db[t];
      }
    }
  }

  /** No run ever delegates a sensitive capability or makes a standing delegation. */
  lemma {:induction false} RunsStayBounded(cat: C.Catalogue, s: State, events: seq<Event>)
    requires C.Valid(cat) && Bounded(cat, s)
    requires forall i :: 0 <= i < |events| ==> GrantsOnlyHere(events[i])
    ensures Bounded(cat, Run(cat, s, events))
  {
    if events != [] {
      RunsStayBounded(cat, s, events[..|events| - 1]);
      StepKeepsBounded(cat, Run(cat, s, events[..|events| - 1]), events[|events| - 1]);
    }
  }

  /** Nothing is delegated before the run. */
  ghost predicate NoDelegations(s: State) {
    forall t :: t in s.db ==> !IsDelegated(t)
  }

  /** The post at `i` delegated `capability` to `agent`, and it has not been withdrawn, replaced or outlived since. */
  ghost predicate DelegatedAt(
    cat: C.Catalogue, s: State, events: seq<Event>, i: nat, user: string, agent: string, capability: string, ttl: int)
    requires C.Valid(cat) && i < |events|
  {
    var before := Run(cat, s, events[..i]);
    && events[i].Posted? && events[i].post.user == user
    && events[i].post.action.CreateDelegation? && events[i].post.action.agent == agent
    && capability in events[i].post.action.capabilities
    && ttl == EffectiveTtl(cat, events[i].post.action.ttl)
    && Effect(cat, before.db, before.now, events[i].post).1 == 302
    && Holds(Live(before.db, before.now), EnrolmentQuery(agent, user))
    && Run(cat, s, events).now < before.now + ttl
    && forall j :: i < j < |events| ==> Verdict(Log(cat, s, events)[j], Delegation, user, agent, capability).None?
  }

  /** The post at `i` gave consent, and it has not been withdrawn or repeated since. */
  ghost predicate ConsentedAt(
    cat: C.Catalogue, s: State, events: seq<Event>, i: nat, user: string, app: string, capability: string)
    requires C.Valid(cat) && i < |events|
  {
    var before := Run(cat, s, events[..i]);
    && events[i].Posted? && events[i].post.user == user
    && events[i].post.action.GrantConsent? && events[i].post.action.app == app
    && capability in events[i].post.action.capabilities
    && Effect(cat, before.db, before.now, events[i].post).1 == 302
    && forall j :: i < j < |events| ==> Verdict(Log(cat, s, events)[j], ConsentGrant, user, app, capability).None?
  }

  lemma WriteIsOrderly(cat: C.Catalogue, s: State, e: Event, user: string)
    requires C.Valid(cat) && GrantsOnlyHere(e) && Apart(e, user)
    ensures Orderly(WriteOf(cat, s, e), user)
  {
  }

  /** A live grant was put there by the run's latest word on it. */
  lemma LiveEdgeHasWord(
    cat: C.Catalogue, s: State, events: seq<Event>, kind: ObjectType, user: string, party: string, capability: string)
    returns (i: nat)
    requires C.Valid(cat) && IsGrantKind(kind) && Edge(kind, user, party, capability) !in s.db
    requires forall k :: 0 <= k < |events| ==> GrantsOnlyHere(events[k]) && Apart(events[k], user)
    requires var end := Run(cat, s, events); Edge(kind, user, party, capability) in Live(end.db, end.now)
    ensures i < |events|
    ensures var said := Verdict(Log(cat, s, events)[i], kind, user, party, capability);
            said.Some? && Running(said.value, Run(cat, s, events).now)
    ensures forall j :: i < j < |events| ==> Verdict(Log(cat, s, events)[j], kind, user, party, capability).None?
  {
    var log := Log(cat, s, events);
    forall k | 0 <= k < |events| ensures Orderly(log[k].write, user) {
      LogAt(cat, s, events, k);
      WriteIsOrderly(cat, Run(cat, s, events[..k]), events[k], user);
    }
    RunFollowsLog(cat, s, events);
    StoreEqualsHistory(s.db, log, kind, user, party, capability);
    i := LastWordExists(log, kind, user, party, capability);
  }

  /** Only an accepted delegation post by the user says that a delegation is there. */
  lemma DelegatingWord(cat: C.Catalogue, s: State, e: Event, user: string, agent: string, capability: string)
    requires C.Valid(cat) && GrantsOnlyHere(e)
    requires var said := Verdict(Entry(s.now, WriteOf(cat, s, e)), Delegation, user, agent, capability);
             said.Some? && said.value.Present?
    ensures e.Posted? && e.post.user == user && e.post.action.CreateDelegation? && e.post.action.agent == agent
    ensures capability in e.post.action.capabilities && Effect(cat, s.db, s.now, e.post).1 == 302
    ensures Holds(Live(s.db, s.now), EnrolmentQuery(agent, user))
    ensures Verdict(Entry(s.now, WriteOf(cat, s, e)), Delegation, user, agent, capability)
         == Some(Present(Some(s.now + EffectiveTtl(cat, e.post.action.ttl))))
  {
  }

  lemma ConsentingWord(cat: C.Catalogue, s: State, e: Event, user: string, app: string, capability: string)
    requires C.Valid(cat) && GrantsOnlyHere(e)
    requires var said := Verdict(Entry(s.now, WriteOf(cat, s, e)), ConsentGrant, user, app, capability);
             said.Some? && said.value.Present?
    ensures e.Posted? && e.post.user == user && e.post.action.GrantConsent? && e.post.action.app == app
    ensures capability in e.post.action.capabilities && Effect(cat, s.db, s.now, e.post).1 == 302
  {
  }

  /** Every live delegation was made by that very user, is the latest word, and has not lapsed. */
  lemma LiveDelegationHasWitness(
    cat: C.Catalogue, s: State, events: seq<Event>, user: string, agent: string, capability: string)
    returns (i: nat, ttl: int)
    requires C.Valid(cat) && NoDelegations(s)
    requires forall k :: 0 <= k < |events| ==> GrantsOnlyHere(events[k]) && Apart(events[k], user)
    requires var end := Run(cat, s, events); Edge(Delegation, user, agent, capability) in Live(end.db, end.now)
    ensures i < |events| && DelegatedAt(cat, s, events, i, user, agent, capability, ttl)
  {
    i := LiveEdgeHasWord(cat, s, events, Delegation, user, agent, capability);
    LogAt(cat, s, events, i);
    DelegatingWord(cat, Run(cat, s, events[..i]), events[i], user, agent, capability);
    ttl := EffectiveTtl(cat, events[i].post.action.ttl);
  }

  /** The store after a run, where the event at `i` has the last word. */
  lemma WordAtDecides(
    cat: C.Catalogue, s: State, events: seq<Event>, i: nat, kind: ObjectType,
    user: string, party: string, capability: string)
    requires C.Valid(cat) && IsGrantKind(kind) && i < |events|
    requires forall k :: 0 <= k < |events| ==> GrantsOnlyHere(events[k]) && Apart(events[k], user)
    requires forall j :: i < j < |events| ==> Verdict(Log(cat, s, events)[j], kind, user, party, capability).None?
    requires var before := Run(cat, s, events[..i]);
             Verdict(Entry(before.now, WriteOf(cat, before, events[i])), kind, user, party, capability).Some?
    ensures var before := Run(cat, s, events[..i]);
            Some(Lookup(Run(cat, s, events).db, Edge(kind, user, party, capability)))
            == Verdict(Entry(before.now, WriteOf(cat, before, events[i])), kind, user, party, capability)
  {
    var log := Log(cat, s, events);
    forall k | 0 <= k < |events| ensures Orderly(log[k].write, user) {
      LogAt(cat, s, events, k);
      WriteIsOrderly(cat, Run(cat, s, events[..k]), events[k], user);
    }
    RunFollowsLog(cat, s, events);
    StoreEqualsHistory(s.db, log, kind, user, party, capability);
    LogAt(cat, s, events, i);
    LastWordDecides(Lookup(s.db, Edge(kind, user, party, capability)), log, kind, user, party, capability, i);
  }

  /** A delegation is live exactly when the run holds its witness. */
  lemma DelegationLiveExactly(
    cat: C.Catalogue, s: State, events: seq<Event>, user: string, agent: string, capability: string)
    requires C.Valid(cat) && NoDelegations(s)
    requires forall k :: 0 <= k < |events| ==> GrantsOnlyHere(events[k]) && Apart(events[k], user)
    ensures var end := Run(cat, s, events);
            Edge(Delegation, user, agent, capability) in Live(end.db, end.now)
            <==> exists i: nat, ttl :: i < |events| && DelegatedAt(cat, s, events, i, user, agent, capability, ttl)
  {
    var end := Run(cat, s, events);
    if Edge(Delegation, user, agent, capability) in Live(end.db, end.now) {
      var i, ttl := LiveDelegationHasWitness(cat, s, events, user, agent, capability);
    }
    if i: nat, ttl :| i < |events| && DelegatedAt(cat, s, events, i, user, agent, capability, ttl) {
      WordAtDecides(cat, s, events, i, Delegation, user, agent, capability);
    }
  }

  /** Consent, likewise: live exactly when that very user gave it in the run and has not withdrawn it since. */
  lemma ConsentLiveExactly(
    cat: C.Catalogue, s: State, events: seq<Event>, user: string, app: string, capability: string)
    requires C.Valid(cat) && Edge(ConsentGrant, user, app, capability) !in s.db
    requires forall k :: 0 <= k < |events| ==> GrantsOnlyHere(events[k]) && Apart(events[k], user)
    ensures var end := Run(cat, s, events);
            Edge(ConsentGrant, user, app, capability) in Live(end.db, end.now)
            <==> exists i: nat :: i < |events| && ConsentedAt(cat, s, events, i, user, app, capability)
  {
    var end := Run(cat, s, events);
    if Edge(ConsentGrant, user, app, capability) in Live(end.db, end.now) {
      var i := LiveEdgeHasWord(cat, s, events, ConsentGrant, user, app, capability);
      LogAt(cat, s, events, i);
      ConsentingWord(cat, Run(cat, s, events[..i]), events[i], user, app, capability);
      assert ConsentedAt(cat, s, events, i, user, app, capability);
    }
    if i: nat :| i < |events| && ConsentedAt(cat, s, events, i, user, app, capability) {
      WordAtDecides(cat, s, events, i, ConsentGrant, user, app, capability);
    }
  }

  /** The event writes no enrolment of this agent. */
  predicate NoEnrolment(e: Event, agent: string) {
    e.External? && e.update.Touch? ==>
      !(e.update.tuple.resource == Object(Agent, agent) && e.update.tuple.relation == EnrolledFor)
  }

  ghost predicate Unenrolled(db: Relationships, agent: string) {
    forall t :: t in db ==> !(t.resource == Object(Agent, agent) && t.relation == EnrolledFor)
  }

  /** Once decommissioned, an agent stays unenrolled until somebody enrols it again. */
  lemma {:induction false} DecommissionIsFinal(cat: C.Catalogue, s: State, events: seq<Event>, agent: string)
    requires C.Valid(cat) && Unenrolled(s.db, agent)
    requires forall i :: 0 <= i < |events| ==> NoEnrolment(events[i], agent)
    ensures Unenrolled(Run(cat, s, events).db, agent)
  {
    if events != [] {
      var front := events[..|events| - 1];
      DecommissionIsFinal(cat, s, front, agent);
      var before := Run(cat, s, front);
      StepKeepsUnenrolled(cat, before, events[|events| - 1], agent);
    }
  }

  lemma StepKeepsUnenrolled(cat: C.Catalogue, s: State, e: Event, agent: string)
    requires C.Valid(cat) && Unenrolled(s.db, agent) && NoEnrolment(e, agent)
    ensures Unenrolled(Step(cat, s, e).db, agent)
  {
  }

  /** An accepted decommission post leaves the agent unenrolled, even when its second deletion fails. */
  lemma DecommissionUnenrols(cat: C.Catalogue, s: State, p: Post)
    requires C.Valid(cat) && Effect(cat, s.db, s.now, p).0.Decommissioning?
    requires Effect(cat, s.db, s.now, p).0.kind == Agent
    ensures Unenrolled(Step(cat, s, Posted(p)).db, Effect(cat, s.db, s.now, p).0.id)
  {
  }
}
