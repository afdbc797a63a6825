/**
 What a console post does, said in relationships: which posts are accepted, what each leaves
 in the store, and that an identity ends only by its operator's post.
 */
module Posts {
  import opened Wrappers
  import opened Schema
  import opened Store
  import opened History
  import opened Console
  import C = Catalogue

  /** The poster holds `operator` on this identity, now. */
  predicate OperatedBy(s: State, identity: Object, user: string) {
    Tuple(identity, Operator, Object(User, user)) in Live(s.db, s.now)
  }

  /** The poster has enrolled this agent, now. */
  predicate EnrolledBy(s: State, agent: string, user: string) {
    Tuple(Object(Agent, agent), EnrolledFor, Object(User, user)) in Live(s.db, s.now)
  }

  /** Accepted exactly when complete and answered, enrolled and offered to delegate, operator to decommission. */
  lemma AcceptedExactly(cat: C.Catalogue, s: State, p: Post)
    requires C.Valid(cat)
    ensures Effect(cat, s.db, s.now, p).1 == 302
       <==> && p.form.posted && p.form.parsed && p.backend.write
            && match p.action
               case GrantConsent(app, cs) => app != "" && cs != []
               case RevokeConsent(app, _) => app != ""
               case CreateDelegation(agent, cs, _) =>
                 && agent != "" && cs != []
                 && p.backend.check && EnrolledBy(s, agent, p.user)
                 && forall c :: c in cs ==> C.Requests(cat.agents, agent, c) && !C.MarkedSensitive(cat, c)
               case WithdrawDelegation(agent, _) => agent != ""
               case Decommission(kind, id) =>
                 && kind in {Agent, SystemPrincipal} && id != ""
                 && p.backend.check && OperatedBy(s, Object(kind, id), p.user)
                 && (kind == Agent ==> p.backend.again)
  {
    if p.action.CreateDelegation? {
      forall c
        ensures c in C.Allowed(cat, p.action.agent)
          <==> C.Requests(cat.agents, p.action.agent, c) && !C.MarkedSensitive(cat, c)
      {
        C.AllowedExactly(cat, p.action.agent, c);
      }
    }
  }

  predicate Accepted(cat: C.Catalogue, s: State, p: Post)
    requires C.Valid(cat)
  {
    Effect(cat, s.db, s.now, p).1 == 302
  }

  /** One of these capabilities of the grant. */
  predicate GrantedEdge(t: Tuple, grant: Object, capabilities: seq<string>) {
    && t.resource == grant && t.relation == Granted
    && t.subject.kind == Capability && t.subject.id in capabilities
  }

  lemma EdgesAre(kind: ObjectType, user: string, party: string, capabilities: seq<string>, t: Tuple)
    ensures t in Edges(kind, user, party, capabilities)
       <==> GrantedEdge(t, Object(kind, user + "|" + party), capabilities)
  {
    if GrantedEdge(t, Object(kind, user + "|" + party), capabilities) {
      assert t == Edge(kind, user, party, t.subject.id);
    }
  }

  lemma TouchedLookup(db: Relationships, ts: set<Tuple>, expires: Option<int>, t: Tuple)
    ensures Lookup(Touched(db, ts, expires), t) == if t in ts then Present(expires) else Lookup(db, t)
  {
  }

  /** Consent: the person, the application and each capability, all without end; nothing else moves. */
  lemma GrantWritesExactly(cat: C.Catalogue, s: State, p: Post, t: Tuple)
    requires C.Valid(cat) && p.action.GrantConsent? && Accepted(cat, s, p)
    ensures var grant := Object(ConsentGrant, p.user + "|" + p.action.app);
            Lookup(Step(cat, s, Posted(p)).db, t)
            == if t == Tuple(grant, Subject, Object(User, p.user))
                  || t == Tuple(grant, Grantee, Object(Application, p.action.app))
                  || GrantedEdge(t, grant, p.action.capabilities)
               then Present(None) else Lookup(s.db, t)
  {
    var ends := ConsentEnds(p.user, p.action.app);
    EdgesAre(ConsentGrant, p.user, p.action.app, p.action.capabilities, t);
    TouchedLookup(s.db, ends, None, t);
    TouchedLookup(Touched(s.db, ends, None),
                  Edges(ConsentGrant, p.user, p.action.app, p.action.capabilities), None, t);
  }

  /** A chosen duration of at most a day, and the catalogue's first otherwise; in nanoseconds. */
  function Runs(cat: C.Catalogue, chosen: Option<int>): int
    requires C.Valid(cat)
  {
    if chosen.Some? && 0 < chosen.value <= 24 * 3600 * 1_000_000_000 then chosen.value else cat.delegationTtls[0]
  }

  lemma AcceptedDelegates(cat: C.Catalogue, s: State, p: Post)
    requires C.Valid(cat) && p.action.CreateDelegation? && Accepted(cat, s, p)
    ensures Step(cat, s, Posted(p)).db
         == Applied(s.db, s.now, Delegating(p.user, p.action.agent, p.action.capabilities, Runs(cat, p.action.ttl)))
  {
  }

  lemma DelegatingWrites(
    db: Relationships, now: int, user: string, agent: string, capabilities: seq<string>, ttl: int, t: Tuple)
    ensures var delegation := Object(Delegation, user + "|" + agent);
            Lookup(Applied(db, now, Delegating(user, agent, capabilities, ttl)), t)
            == if GrantedEdge(t, delegation, capabilities) then Present(Some(now + ttl))
               else if t == Tuple(delegation, Delegator, Object(User, user))
                       || t == Tuple(delegation, Delegate, Object(Agent, agent)) then
                 Present(None)
               else Lookup(db, t)
  {
    var ends, edges := DelegationEnds(user, agent), Edges(Delegation, user, agent, capabilities);
    EdgesAre(Delegation, user, agent, capabilities, t);
    TouchedLookup(db, ends, None, t);
    TouchedLookup(Touched(db, ends, None), edges, Some(now + ttl), t);
  }

  /** Delegation: both ends without end, each capability for the duration chosen; nothing else moves. */
  lemma DelegationWritesExactly(cat: C.Catalogue, s: State, p: Post, t: Tuple)
    requires C.Valid(cat) && p.action.CreateDelegation? && Accepted(cat, s, p)
    ensures var delegation := Object(Delegation, p.user + "|" + p.action.agent);
            Lookup(Step(cat, s, Posted(p)).db, t)
            == if GrantedEdge(t, delegation, p.action.capabilities) then
                 Present(Some(s.now + Runs(cat, p.action.ttl)))
               else if t == Tuple(delegation, Delegator, Object(User, p.user))
                       || t == Tuple(delegation, Delegate, Object(Agent, p.action.agent)) then
                 Present(None)
               else Lookup(s.db, t)
  {
    DelegatingWrites(s.db, s.now, p.user, p.action.agent, p.action.capabilities, Runs(cat, p.action.ttl), t);
    AcceptedDelegates(cat, s, p);
  }

  /** The grant a withdrawing post names. */
  function Withdrawn(p: Post): Object
    requires p.action.RevokeConsent? || p.action.WithdrawDelegation?
  {
    if p.action.RevokeConsent? then Object(ConsentGrant, p.user + "|" + p.action.app)
    else Object(Delegation, p.user + "|" + p.action.agent)
  }

  /** Withdrawal: the named capabilities, or with none named the whole grant; nothing else moves. */
  lemma WithdrawalWritesExactly(cat: C.Catalogue, s: State, p: Post, t: Tuple)
    requires C.Valid(cat) && (p.action.RevokeConsent? || p.action.WithdrawDelegation?) && Accepted(cat, s, p)
    ensures Lookup(Step(cat, s, Posted(p)).db, t)
         == if (if p.action.capabilities == [] then t.resource == Withdrawn(p)
                else GrantedEdge(t, Withdrawn(p), p.action.capabilities))
            then Absent else Lookup(s.db, t)
  {
    if p.action.RevokeConsent? {
      EdgesAre(ConsentGrant, p.user, p.action.app, p.action.capabilities, t);
    } else {
      EdgesAre(Delegation, p.user, p.action.agent, p.action.capabilities, t);
    }
  }

  /** A delegation's relationship to the agent it delegates to. */
  predicate DelegatesTo(t: Tuple, identity: Object) {
    t.resource.kind == Delegation && t.relation == Delegate && t.subject == identity && identity.kind == Agent
  }

  // ---- an identity ends by its operator's post ------------------------------------------------

  /** The post decommissions this identity, and its poster operates it. */
  predicate EndedByOperator(s: State, p: Post, identity: Object) {
    && p.action == Decommission(identity.kind, identity.id)
    && identity.kind in {Agent, SystemPrincipal}
    && p.backend.check && p.backend.write
    && OperatedBy(s, identity, p.user)
  }

  /**
   An operator's complete post leaves no relationship of the identity, and none that delegates to it unless
   the backend is lost between the two deletions; nothing else moves.
   */
  lemma OperatorEndsIdentity(cat: C.Catalogue, s: State, p: Post, t: Tuple)
    requires C.Valid(cat) && p.form.posted && p.form.parsed && p.action.Decommission? && p.action.id != ""
    requires EndedByOperator(s, p, Object(p.action.kind, p.action.id))
    ensures var identity := Object(p.action.kind, p.action.id);
            Lookup(Step(cat, s, Posted(p)).db, t)
            == if t.resource == identity || (p.backend.again && DelegatesTo(t, identity)) then Absent
               else Lookup(s.db, t)
  {
  }

  /** Whatever a decommission post changes, accepted or cut short, is the identity's, and its poster operated it. */
  lemma DecommissionNeedsOperator(cat: C.Catalogue, s: State, p: Post, t: Tuple)
    requires C.Valid(cat) && p.action.Decommission?
    requires Lookup(Step(cat, s, Posted(p)).db, t) != Lookup(s.db, t)
    ensures var identity := Object(p.action.kind, p.action.id);
            && EndedByOperator(s, p, identity)
            && (t.resource == identity || DelegatesTo(t, identity))
            && t !in Step(cat, s, Posted(p)).db
  {
  }

  /** A post changes a relationship on an agent or a system principal only as the decommission by its operator. */
  lemma IdentityNeedsOperator(cat: C.Catalogue, s: State, p: Post, t: Tuple)
    requires C.Valid(cat) && t.resource.kind in {Agent, SystemPrincipal}
    requires Lookup(Step(cat, s, Posted(p)).db, t) != Lookup(s.db, t)
    ensures EndedByOperator(s, p, t.resource)
  {
    if p.action.Decommission? {
      DecommissionNeedsOperator(cat, s, p, t);
    }
  }

  /** A delegation's end at its agent: only that decommission, or a post of the delegation's own user. */
  lemma DelegateNeedsOperator(cat: C.Catalogue, s: State, p: Post, t: Tuple)
    requires C.Valid(cat) && t.resource.kind == Delegation && t.relation == Delegate
    requires Lookup(Step(cat, s, Posted(p)).db, t) != Lookup(s.db, t)
    ensures || EndedByOperator(s, p, t.subject)
            || (p.action.CreateDelegation? && t.resource.id == p.user + "|" + p.action.agent)
            || (p.action.WithdrawDelegation? && t.resource.id == p.user + "|" + p.action.agent)
  {
    if p.action.Decommission? {
      DecommissionNeedsOperator(cat, s, p, t);
    }
  }

  /**
   Over every run: a relationship on an agent or a system principal that no other writer touched
   changes only by a decommission of that very identity, posted by somebody who operated it just before.
   */
  lemma {:induction false} IdentityEndsByOperator(cat: C.Catalogue, s: State, events: seq<Event>, t: Tuple)
    returns (i: nat)
    requires C.Valid(cat) && t.resource.kind in {Agent, SystemPrincipal}
    requires forall k :: 0 <= k < |events| && events[k].External? ==> events[k].update.tuple != t
    requires Lookup(Run(cat, s, events).db, t) != Lookup(s.db, t)
    ensures i < |events| && events[i].Posted?
    ensures EndedByOperator(Run(cat, s, events[..i]), events[i].post, t.resource)
  {
    var n := |events| - 1;
    var before := Run(cat, s, events[..n]);
    if Lookup(before.db, t) != Lookup(s.db, t) {
      i := IdentityEndsByOperator(cat, s, events[..n], t);
      assert events[..n][..i] == events[..i];
    } else {
      i := n;
      IdentityNeedsOperator(cat, before, events[n].post, t);
    }
  }
}
