/**
 Decisions over the freshness floor: what one call has seen revoked binds every later call
 that does not overlap it.
 */
module Revocation {
  import opened Wrappers
  import opened Schema
  import opened Config
  import opened Routes
  import opened TableOrder
  import opened Decision
  import opened Policy
  import opened Authority
  import opened Admission
  import F = Freshness

  /** What the store held at each revision. */
  type Revisions = nat -> Relationships

  /** The backend answers this decision from one revision of the store. */
  ghost predicate ReadsRevision(w: World, rule: Rule, history: Revisions, revision: nat) {
    AnswersBy(w, rule.consistency == FullyConsistent, StoreAnswers(Live(history(revision), w.now)))
  }

  /** The revision at which call `id` was answered. */
  ghost predicate AnsweredAt(s: F.State, id: nat, revision: nat) {
    id in s.calls && F.RevisionOf(s.calls[id]) == Some(revision)
  }

  /** No decision reads a revision older than its call's floor or, without one, than the newest at its start. */
  lemma DecisionRespectsFloor(events: seq<F.Event>, states: seq<F.State>, t: nat, id: nat, revision: nat)
    requires F.IsRun(events, states) && t <= |events| && AnsweredAt(states[t], id, revision)
    ensures var call := states[t].calls[id]; (if call.floor.Some? then call.floor.value else call.born) <= revision
  {
    F.RunsAreSound(events, states, t);
    assert F.Bounded(states[t], states[t].calls[id]);
  }

  /** From the revision on, the question is answered no at this time. */
  ghost predicate RevokedFrom(history: Revisions, revision: nat, q: Query, now: int) {
    forall later :: later >= revision ==> !Holds(Live(history(later), now), q)
  }

  /** A caller is refused on a revision at which some required question is answered no. */
  lemma UnansweredIsRefused(
    cfg: Config, table: seq<Compiled>, c: Compiled, r: HttpRequest, w: World, id: Identity, live: set<Tuple>, q: Query)
    requires Compiles(cfg.rules, table) && AnsweredBy(table, r, c) && ResourceChecked(c.rule)
    requires Authenticated(cfg, r, c.rule.authMode, w, id)
    requires AnswersBy(w, c.rule.consistency == FullyConsistent, StoreAnswers(live))
    requires forall resource :: ResolveResource(c.rule, ParamsOf(c, Asked(r)), id.subject) == Some(resource) ==>
                                  MustAsk(cfg, c.rule, resource, id, q)
    requires !Holds(live, q)
    ensures !LetIn(cfg, table, r, w)
  {
    LetInByPolicy(cfg, table, c, r, w);
    EntitledIsAllowed(cfg, c, r, w, id, live);
    if other :| IdentityAllowed(cfg, c, r, other, w) {
      OneCaller(cfg, r, c.rule.authMode, w, id, other);
    }
  }

  /**
   Call `seen` observed a revision from which on a required relationship is gone. No call
   begun afterwards, with no overlap, lets a caller in who needs it: be it a permission, a
   consent, an enrolment or a delegation.
   */
  lemma RevocationBinds(
    events: seq<F.Event>, states: seq<F.State>, o: nat, b: nat, t: nat, seen: nat, later: nat, full: bool,
    history: Revisions, first: nat, second: nat,
    cfg: Config, table: seq<Compiled>, c: Compiled, r: HttpRequest, w: World, id: Identity, q: Query)
    requires F.IsRun(events, states) && F.NonOverlapping(events) && o < b < t <= |events|
    requires events[o] == F.Observe(seen) && events[b] == F.Begin(later, full)
    requires AnsweredAt(states[t], seen, first) && AnsweredAt(states[t], later, second)
    requires RevokedFrom(history, first, q, w.now) && ReadsRevision(w, c.rule, history, second)
    requires Compiles(cfg.rules, table) && AnsweredBy(table, r, c) && ResourceChecked(c.rule)
    requires Authenticated(cfg, r, c.rule.authMode, w, id)
    requires forall resource :: ResolveResource(c.rule, ParamsOf(c, Asked(r)), id.subject) == Some(resource) ==>
                                  MustAsk(cfg, c.rule, resource, id, q)
    ensures first <= second && !LetIn(cfg, table, r, w)
  {
    F.NonOverlappingNeverDecreases(events, states, o, b, t, seen, later, full);
    UnansweredIsRefused(cfg, table, c, r, w, id, Live(history(second), w.now), q);
  }

  /** With overlap it does not bind: a call begun after the observation is answered at a revision before it. */
  lemma OverlapUnbinds() returns (events: seq<F.Event>, states: seq<F.State>, first: nat, second: nat)
    ensures F.IsRun(events, states) && |events| == 9
    ensures events[5] == F.Observe(1) && events[7] == F.Begin(2, false)
    ensures AnsweredAt(states[9], 1, first) && AnsweredAt(states[9], 2, second) && second < first
  {
    events, states := F.OverlapRegresses();
    first, second := 2, 1;
  }
}
